/** The controller's top level: its phases in order, with the checkpoints scheduled by the clock. */
module Schedule {
  import opened Wire
  import Protocol

  datatype Phase = Listening | Commanding(command: Command)

  /** The cast of a double to int: truncation toward zero. */
  function Whole(x: real): int { if x >= 0.0 then x.Floor else -((-x).Floor) }

  /** Checkpoints taken after these readings of the elapsed time, one reading per iteration. */
  function Taken(clock: seq<real>, interval: int): nat {
    if clock == [] then 0 else
    var k := Taken(clock[..|clock| - 1], interval);
    if Whole(clock[|clock| - 1]) >= (k + 1) * interval then k + 1 else k
  }

  lemma TakenNext(clock: seq<real>, interval: int, t: nat)
    requires t < |clock|
    ensures var k := Taken(clock[..t], interval);
      Taken(clock[..t + 1], interval) == if Whole(clock[t]) >= (k + 1) * interval then k + 1 else k
  {
    assert clock[..t + 1][..t] == clock[..t];
  }

  function Phases(k: nat, stopped: bool): seq<Phase> {
    [Listening, Commanding(Connect), Commanding(Start)] + seq(k, _ => Commanding(Checkpoint))
    + if stopped then [Commanding(Stop)] else []
  }

  lemma PhasesAre(k: nat, stopped: bool)
    ensures Phases(k, stopped)
        == [Listening, Commanding(Connect), Commanding(Start)] + seq(k, _ => Commanding(Checkpoint))
           + if stopped then [Commanding(Stop)] else []
    ensures k == 0 && !stopped ==> Phases(k, stopped) == [Listening, Commanding(Connect), Commanding(Start)]
  {
  }

  lemma PhasesGrow(k: nat)
    ensures Phases(k, false) + [Commanding(Checkpoint)] == Phases(k + 1, false)
    ensures Phases(k, false) + [Commanding(Stop)] == Phases(k, true)
  {
  }

  /** The cast of a reading against a whole number of seconds. */
  lemma WholeReached(x: real, limit: int)
    requires limit > 0
    ensures Whole(x) >= limit <==> x >= limit as real
  {
  }

  /** Toward zero: never farther from it than x, and less than one away. */
  lemma WholeTowardZero(x: real)
    ensures x >= 0.0 ==> 0.0 <= Whole(x) as real <= x < Whole(x) as real + 1.0
    ensures x < 0.0 ==> Whole(x) as real - 1.0 < x <= Whole(x) as real <= 0.0
  {
  }

  /** The elapsed time has reached k intervals. */
  predicate Reaches(x: real, k: nat, interval: int) { x >= (k * interval) as real }

  lemma Limit(x: real, k: nat, interval: int)
    requires interval > 0 && k > 0
    ensures Whole(x) >= k * interval <==> Reaches(x, k, interval)
  {
    assert k * interval > 0;
    WholeReached(x, k * interval);
  }

  /** counts[t] checkpoints have been taken after t readings: reading t takes the next one exactly if it
      has reached its time. */
  predicate Counted(clock: seq<real>, interval: int, counts: seq<nat>) {
    && 0 < |counts| <= |clock| + 1 && counts[0] == 0
    && forall t {:trigger clock[t]} | 0 <= t < |counts| - 1 ::
         counts[t + 1] == counts[t] + if Reaches(clock[t], counts[t] + 1, interval) then 1 else 0
  }

  /** In real time: checkpoint number k, from 1, is taken at a reading of k intervals at least, and at the
      first such reading after the checkpoint before it. */
  lemma OnTime(clock: seq<real>, interval: int, counts: seq<nat>, t: nat)
    requires Counted(clock, interval, counts) && t < |counts| - 1
    ensures clock[t] >= ((counts[t] + 1) * interval) as real ==> counts[t + 1] == counts[t] + 1
    ensures clock[t] < ((counts[t] + 1) * interval) as real ==> counts[t + 1] == counts[t]
  {
  }

  lemma CountedMore(clock: seq<real>, interval: int, counts: seq<nat>)
    requires Counted(clock, interval, counts) && |counts| <= |clock|
    ensures var t := |counts| - 1;
      Counted(clock, interval,
              counts + [counts[t] + if Reaches(clock[t], counts[t] + 1, interval) then 1 else 0])
  {
  }

  /** What one reading does to the number of checkpoints and the time of the next. */
  lemma Advances(clock: seq<real>, interval: int, used: nat, counts: seq<nat>)
    requires used < |clock| && |counts| == used + 1 && counts[used] == Taken(clock[..used], interval)
    requires interval > 0 ==> Counted(clock, interval, counts)
    ensures var k := counts[used];
      var next := if Whole(clock[used]) >= (k + 1) * interval then k + 1 else k;
      && next == Taken(clock[..used + 1], interval) && (k + 1) * interval + interval == (k + 2) * interval
      && (interval > 0 ==> Counted(clock, interval, counts + [next]))
  {
    TakenNext(clock, interval, used);
    if interval > 0 {
      Limit(clock[used], counts[used] + 1, interval);
      CountedMore(clock, interval, counts);
    }
  }

  /** The phases are logged in order; counts[t] is the number of checkpoints after t readings. */
  method Controller(interval: int, maxDuration: int, clock: seq<real>)
    returns (phases: seq<Phase>, check: int, used: nat, stopped: bool, ghost counts: seq<nat>)
    ensures used <= |clock| && |counts| == used + 1 && counts[used] == Taken(clock[..used], interval)
    ensures interval > 0 ==> Counted(clock, interval, counts)
    ensures check == (counts[used] + 1) * interval && phases == Phases(counts[used], stopped)
    ensures forall t | 0 <= t < used - 1 :: clock[t] < maxDuration as real
    ensures used > 0 ==> 0 < maxDuration && (stopped <==> clock[used - 1] >= maxDuration as real)
    ensures used == 0 ==> (stopped <==> maxDuration <= 0)
    ensures !stopped ==> used == |clock|
  {
    PhasesAre(0, false);
    phases := [Listening, Commanding(Connect), Commanding(Start)];
    check := interval;
    counts := [0];
    ghost var k := 0;
    var elapsed := 0.0;
    used := 0;
    while elapsed < maxDuration as real && used < |clock|
      invariant used <= |clock| && elapsed == if used == 0 then 0.0 else clock[used - 1]
      invariant used > 0 ==> 0 < maxDuration
      invariant forall t | 0 <= t < used - 1 :: clock[t] < maxDuration as real
      invariant |counts| == used + 1 && counts[used] == k == Taken(clock[..used], interval)
      invariant phases == Phases(k, false) && check == (k + 1) * interval
      invariant interval > 0 ==> Counted(clock, interval, counts)
      decreases |clock| - used
    {
      elapsed := clock[used];
      Advances(clock, interval, used, counts);
      PhasesGrow(k);
      if Whole(elapsed) >= check {
        phases := phases + [Commanding(Checkpoint)];
        check := check + interval;
        k := k + 1;
      }
      counts := counts + [k];
      used := used + 1;
    }
    stopped := elapsed >= maxDuration as real;
    PhasesGrow(k);
    if stopped { phases := phases + [Commanding(Stop)]; }
  }

  // ---------- what the schedule guarantees

  /** A clock that never runs backwards. */
  predicate Steady(clock: seq<real>) {
    && (forall t | 0 <= t < |clock| :: clock[t] >= 0.0)
    && (forall t, u | 0 <= t <= u < |clock| :: clock[t] <= clock[u])
  }

  /** Checkpoints due by reading t. */
  function Due(clock: seq<real>, interval: int, t: nat): int
    requires interval > 0 && t <= |clock|
  {
    if t == 0 then 0 else Whole(clock[t - 1]) / interval
  }

  /** It is the greatest number of intervals that fit into the elapsed time. */
  lemma DueExactly(clock: seq<real>, interval: int, t: nat, d: nat)
    requires interval > 0 && Steady(clock) && 0 < t <= |clock|
    ensures d <= Due(clock, interval, t) <==> (d * interval) as real <= clock[t - 1]
  {
    Quotient(Whole(clock[t - 1]), d, interval);
    WholeTowardZero(clock[t - 1]);
    if (d * interval) as real <= clock[t - 1] { Between(d * interval, clock[t - 1]); }
  }

  lemma Between(a: int, x: real)
    requires x >= 0.0 && a as real <= x
    ensures a <= Whole(x)
  {
  }

  lemma Quotient(a: int, k: int, d: int)
    requires d > 0
    ensures a >= k * d <==> a / d >= k
  {
    if a / d < k {
      assert a < (a / d + 1) * d <= k * d;
    } else {
      assert a >= a / d * d >= k * d;
    }
  }

  lemma DueGrows(clock: seq<real>, interval: int, t: nat, u: nat)
    requires interval > 0 && Steady(clock) && t <= u <= |clock|
    ensures 0 <= Due(clock, interval, t) <= Due(clock, interval, u)
  {
    Quotient(if t == 0 then 0 else Whole(clock[t - 1]), 0, interval);
    Quotient(if u == 0 then 0 else Whole(clock[u - 1]), Due(clock, interval, t), interval);
    Quotient(if t == 0 then 0 else Whole(clock[t - 1]), Due(clock, interval, t), interval);
  }

  /** One reading takes the next checkpoint if it is due, and only that one. */
  lemma OneMore(clock: seq<real>, interval: int)
    requires interval > 0 && Steady(clock) && clock != []
    requires Taken(clock[..|clock| - 1], interval) <= Due(clock, interval, |clock| - 1)
    ensures var k, d := Taken(clock[..|clock| - 1], interval), Due(clock, interval, |clock|);
      Taken(clock, interval) == if k + 1 <= d then k + 1 else d
  {
    var k := Taken(clock[..|clock| - 1], interval);
    Quotient(Whole(clock[|clock| - 1]), k + 1, interval);
    DueGrows(clock, interval, |clock| - 1, |clock|);
  }

  /** Never ahead of the clock, and at most one checkpoint for every reading. */
  lemma {:induction false} NeverEarly(clock: seq<real>, interval: int)
    requires interval > 0 && Steady(clock)
    ensures Taken(clock, interval) <= Due(clock, interval, |clock|)
    ensures Taken(clock, interval) <= |clock|
    ensures clock != [] ==> (Taken(clock, interval) * interval) as real <= clock[|clock| - 1]
  {
    if clock != [] {
      var n := |clock| - 1;
      NeverEarly(clock[..n], interval);
      assert Due(clock[..n], interval, n) == Due(clock, interval, n);
      OneMore(clock, interval);
      DueExactly(clock, interval, n + 1, Taken(clock, interval));
    }
  }

  /** The exact number of checkpoints: the least, over all readings t, of what was due at t plus
      one for every reading since. */
  lemma {:induction false} TakenExactly(clock: seq<real>, interval: int) returns (least: nat)
    requires interval > 0 && Steady(clock)
    ensures least <= |clock| && Taken(clock, interval) == Due(clock, interval, least) + |clock| - least
    ensures forall t | 0 <= t <= |clock| :: Taken(clock, interval) <= Due(clock, interval, t) + |clock| - t
  {
    least := 0;
    if clock != [] {
      var n := |clock| - 1;
      var before := clock[..n];
      var u := TakenExactly(before, interval);
      NeverEarly(before, interval);
      assert forall t | 0 <= t <= n :: Due(before, interval, t) == Due(clock, interval, t);
      OneMore(clock, interval);
      least := if Taken(before, interval) + 1 <= Due(clock, interval, n + 1) then u else n + 1;
      forall t | 0 <= t <= n + 1 ensures Taken(clock, interval) <= Due(clock, interval, t) + n + 1 - t {
        if t <= n { assert Taken(before, interval) <= Due(before, interval, t) + n - t; }
      }
    }
  }

  /** No checkpoint is ever late exactly when no two readings in a row skip a due time. */
  lemma PromptExactly(clock: seq<real>, interval: int)
    requires interval > 0 && Steady(clock)
    ensures (forall t | 0 <= t <= |clock| :: Taken(clock[..t], interval) == Due(clock, interval, t))
       <==> (forall t | 0 <= t < |clock| :: Due(clock, interval, t + 1) <= Due(clock, interval, t) + 1)
  {
    forall t | 0 <= t < |clock|
      ensures Taken(clock[..t], interval) == Due(clock, interval, t) ==>
        (Taken(clock[..t + 1], interval) == Due(clock, interval, t + 1)
         <==> Due(clock, interval, t + 1) <= Due(clock, interval, t) + 1)
    {
      Follow(clock, interval, t);
    }
    if forall t | 0 <= t < |clock| :: Due(clock, interval, t + 1) <= Due(clock, interval, t) + 1 {
      Prompt(clock, interval, |clock|);
    } else {
      var t :| 0 <= t < |clock| && !(Due(clock, interval, t + 1) <= Due(clock, interval, t) + 1);
      Follow(clock, interval, t);
      assert !(Taken(clock[..t], interval) == Due(clock, interval, t)
          && Taken(clock[..t + 1], interval) == Due(clock, interval, t + 1));
    }
  }

  lemma Follow(clock: seq<real>, interval: int, t: nat)
    requires interval > 0 && Steady(clock) && t < |clock|
    ensures Taken(clock[..t], interval) == Due(clock, interval, t) ==>
      (Taken(clock[..t + 1], interval) == Due(clock, interval, t + 1)
       <==> Due(clock, interval, t + 1) <= Due(clock, interval, t) + 1)
  {
    assert clock[..t + 1][..t] == clock[..t];
    NeverEarly(clock[..t], interval);
    assert Due(clock[..t + 1], interval, t + 1) == Due(clock, interval, t + 1);
    assert Due(clock[..t + 1], interval, t) == Due(clock, interval, t) == Due(clock[..t], interval, t);
    OneMore(clock[..t + 1], interval);
    DueGrows(clock, interval, t, t + 1);
  }

  lemma {:induction false} Prompt(clock: seq<real>, interval: int, n: nat)
    requires interval > 0 && Steady(clock) && n <= |clock|
    requires forall t | 0 <= t < |clock| :: Due(clock, interval, t + 1) <= Due(clock, interval, t) + 1
    ensures forall t | 0 <= t <= n :: Taken(clock[..t], interval) == Due(clock, interval, t)
  {
    if n > 0 {
      Prompt(clock, interval, n - 1);
      Follow(clock, interval, n - 1);
    }
  }

  /** The commands of the phases are those of the protocol's rounds, round by round: every
      checkpoint is after START and before STOP. */
  lemma Rounds(n: nat, m: nat, k: nat, p: nat)
    requires p <= Protocol.LastRound(Protocol.Config(n, m, k))
    ensures |Phases(k, true)| == Protocol.LastRound(Protocol.Config(n, m, k)) + 1
    ensures Phases(k, true)[p] ==
            if p == 0 then Listening else Commanding(Protocol.CmdOf(Protocol.Config(n, m, k), p))
  {
  }
}
