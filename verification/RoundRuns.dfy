/** The gather loops over whole runs: the completions the controller takes in a round are one of every
    client, and what it has afterwards is what the loops of its code make of them. */
module RoundRuns {
  import opened Wire
  import opened Protocol
  import opened Invariant
  import opened Ledger
  import opened Refinement
  import KeepController
  import Gathering

  /** The receive completions taken in round p, in order. */
  function Arrivals(c: Config, init: State, run: seq<Action>, p: nat): seq<Gathering.Arrival>
    requires Exec(c, init, run).Some?
  {
    if run == [] then [] else
    var before, a := run[..|run| - 1], run[|run| - 1];
    var s := Exec(c, init, before).value;
    if a.ByCtrl? && a.ctrl.AGather? && s.ctl.p == p then Arrivals(c, init, before, p) + [ArrivalOf(s, a.ctrl.i)]
    else Arrivals(c, init, before, p)
  }

  /** The controller is in the gather loop of round p; it is past it. */
  predicate Now(pc: CtlPc, p: nat) { pc.Round? && pc.stage == Gathering && pc.p == p }

  predicate Past(pc: CtlPc, p: nat) { (pc.Round? && pc.p > p) || pc.Closing? || pc.Finished? }

  function Count(c: Config, pc: CtlPc, p: nat): nat {
    if Past(pc, p) then c.n else if Now(pc, p) then pc.x else 0
  }

  /** What arrives in round p: confirmations in the first, reports in the others. */
  predicate Expected(c: Config, p: nat, a: Gathering.Arrival) {
    a.id < c.n && a.wait == 0 && if p == 1 then a.content == Cmd(Connected) else Gathering.Whole(c, a)
  }

  predicate AllExpected(c: Config, p: nat, arrivals: seq<Gathering.Arrival>) {
    forall q | 0 <= q < |arrivals| :: Expected(c, p, arrivals[q])
  }

  /** The matrix is what the gather loop makes of the arrivals and of some earlier content. */
  ghost predicate Fills(c: Config, a: seq<Transfer>, arrivals: seq<Gathering.Arrival>) {
    && Gathering.Proper(c, arrivals)
    && exists base: seq<Transfer> :: |base| == c.n * c.m && a == Gathering.Collected(c, base, arrivals)
  }

  /** The matrix round p has filled. */
  function FilledBy(c: Config, s: State, p: nat): seq<Transfer> {
    if p == LastRound(c) then s.summary else if 3 <= p && p - 3 < |s.readouts| then s.readouts[p - 3] else []
  }

  ghost predicate Stored(c: Config, s: State, p: nat, arrivals: seq<Gathering.Arrival>) {
    && (Now(s.ctl, p) ==> Fills(c, Filled(c, s, p), arrivals))
    && (Past(s.ctl, p) ==> Fills(c, FilledBy(c, s, p), arrivals))
  }

  /** The clients heard in the round are those whose reply has been taken. */
  predicate Counted(s: State, p: nat, arrivals: seq<Gathering.Arrival>) {
    forall q | 0 <= q < |arrivals| :: arrivals[q].id < |s.ports| && s.ports[arrivals[q].id].taken == Before(p) + 1
  }

  ghost predicate Heard(c: Config, s: State, p: nat, arrivals: seq<Gathering.Arrival>) {
    && |arrivals| == Count(c, s.ctl, p) && Gathering.DistinctIds(arrivals) && AllExpected(c, p, arrivals)
    && (Now(s.ctl, p) ==> Counted(s, p, arrivals)) && (p >= 3 ==> Stored(c, s, p, arrivals))
  }

  // ---------- steps

  /** A step that takes no completion. */
  predicate Idle(c: Config, s: State, r: State, p: nat) {
    && r.checkpoint == s.checkpoint && r.summary == s.summary && r.readouts == s.readouts
    && |r.ports| == |s.ports| && (forall i | 0 <= i < |s.ports| :: r.ports[i].taken == s.ports[i].taken)
    && Count(c, r.ctl, p) == Count(c, s.ctl, p) && (Past(r.ctl, p) <==> Past(s.ctl, p))
    && (Now(r.ctl, p) ==> Now(s.ctl, p) || r.ctl.x == 0)
  }

  lemma StoredStays(c: Config, s: State, r: State, p: nat, arrivals: seq<Gathering.Arrival>)
    requires p >= 3 && Stored(c, s, p, arrivals) && Idle(c, s, r, p) && |s.checkpoint| == |s.summary| == c.n * c.m
    requires Now(r.ctl, p) && !Now(s.ctl, p) ==> arrivals == []
    ensures Stored(c, r, p, arrivals)
  {
    if Now(r.ctl, p) && !Now(s.ctl, p) {
      assert Filled(c, r, p) == Gathering.Collected(c, Filled(c, r, p), arrivals);
    }
  }

  lemma HeardStays(c: Config, s: State, r: State, p: nat, arrivals: seq<Gathering.Arrival>)
    requires Heard(c, s, p, arrivals) && Idle(c, s, r, p) && |s.checkpoint| == |s.summary| == c.n * c.m
    ensures Heard(c, r, p, arrivals)
  {
    if Now(r.ctl, p) && !Now(s.ctl, p) { assert arrivals == []; }
    if p >= 3 { StoredStays(c, s, r, p, arrivals); }
  }

  lemma CtrlIdle(c: Config, s: State, a: CtrlAct, p: nat)
    requires Sane(c) && CtlPcOk(c, s.ctl) && CanCtrl(c, s, a) && !a.AGather? && 1 <= p <= LastRound(c) && p != 2
    requires a.AAccept? ==> a.h == Ctl
    ensures Idle(c, s, NextCtrl(c, s, a), p)
  {
  }

  lemma OtherIdle(c: Config, s: State, a: Action, p: nat)
    requires Can(c, s, a) && !a.ByCtrl?
    ensures Idle(c, s, Next(c, s, a), p)
  {
    match a
    case ByFabric(x) => FabricLogs(c, s, x);
    case ByCli(x) => CliLogs(c, s, x);
    case ByServer(x) => ServerLogs(c, s, x);
  }

  lemma StepIdle(c: Config, s: State, a: Action, p: nat)
    requires Sane(c) && CtlPcOk(c, s.ctl) && Can(c, s, a) && !(a.ByCtrl? && a.ctrl.AGather?)
    requires 1 <= p <= LastRound(c) && p != 2
    ensures Idle(c, s, Next(c, s, a), p)
  {
    if !a.ByCtrl? {
      OtherIdle(c, s, a, p);
    } else if a.ctrl.AAccept? && a.ctrl.h.Srv? {
      ServerAccepts(c, s, a.ctrl.h.j);
    } else {
      CtrlIdle(c, s, a.ctrl, p);
    }
  }

  // ---------- taking a completion

  lemma CollectedMore(c: Config, base: seq<Transfer>, arrivals: seq<Gathering.Arrival>, a: Gathering.Arrival)
    requires |base| == c.n * c.m && Gathering.Proper(c, arrivals) && a.id < c.n
    ensures Gathering.Proper(c, arrivals + [a])
    ensures Gathering.Collected(c, base, arrivals + [a])
            == Gathering.Collected(c, Gathering.Collected(c, base, arrivals), [a])
  {
    assert (arrivals + [a])[..|arrivals|] == arrivals;
    assert [a][..0] == [];
  }

  lemma FillsMore(c: Config, m: seq<Transfer>, arrivals: seq<Gathering.Arrival>, a: Gathering.Arrival)
    requires Fills(c, m, arrivals) && a.id < c.n
    ensures |m| == c.n * c.m && Fills(c, Gathering.Collected(c, m, [a]), arrivals + [a])
  {
    var base: seq<Transfer> :| |base| == c.n * c.m && m == Gathering.Collected(c, base, arrivals);
    CollectedMore(c, base, arrivals, a);
  }

  /** The controller takes a completion in another round. */
  lemma HeardElsewhere(c: Config, s: State, i: nat, p: nat, arrivals: seq<Gathering.Arrival>)
    requires Sane(c) && CtlPcOk(c, s.ctl) && CanGather(s, i) && KeepController.Gathers(c, s, CtlGather(c, s, i), i)
    requires s.ctl.p != p && 1 <= p <= LastRound(c) && p != 2 && |s.readouts| == Reads(c, s.ctl)
    requires Heard(c, s, p, arrivals)
    ensures Heard(c, CtlGather(c, s, i), p, arrivals)
  {
    KeepController.GatheringPc(c, s.ctl.p, s.ctl.x);
    Unchanged(c, s, i, p);
  }

  lemma Unchanged(c: Config, s: State, i: nat, p: nat)
    requires Sane(c) && CtlPcOk(c, s.ctl) && CanGather(s, i) && KeepController.Gathers(c, s, CtlGather(c, s, i), i)
    requires s.ctl.p != p && 1 <= p <= LastRound(c) && p != 2 && |s.readouts| == Reads(c, s.ctl)
    ensures var r := CtlGather(c, s, i);
      && Count(c, r.ctl, p) == Count(c, s.ctl, p) && !Now(r.ctl, p) && (Past(r.ctl, p) <==> Past(s.ctl, p))
      && (p >= 3 && Past(s.ctl, p) ==> FilledBy(c, r, p) == FilledBy(c, s, p))
  {
    KeepController.GatheringPc(c, s.ctl.p, s.ctl.x);
  }

  /** Or in this one. */
  lemma HeardHere(c: Config, s: State, i: nat, p: nat, arrivals: seq<Gathering.Arrival>)
    requires Full(c, s) && CanGather(s, i) && s.ctl.p == p && Heard(c, s, p, arrivals)
    ensures Heard(c, CtlGather(c, s, i), p, arrivals + [ArrivalOf(s, i)])
  {
    KeepController.FirstReply(c, s, i);
    KeepController.Expected(c, s, i);
    Arrived(c, s, i, p);
    OneHeard(c, s, i, p, arrivals);
    if p >= 3 {
      ReportTaken(c, s, i);
      Sizes(c, s);
      OneStored(c, s, i, p, arrivals);
    }
  }

  lemma Arrived(c: Config, s: State, i: nat, p: nat)
    requires Full(c, s) && CanGather(s, i) && s.ctl.p == p
    ensures Expected(c, p, ArrivalOf(s, i)) && p != 2 && 1 <= p
    ensures |s.readouts| == Reads(c, s.ctl) && |s.ports| == c.n && CtlPcOk(c, s.ctl) && Sane(c)
  {
    KeepController.FirstReply(c, s, i);
    if p >= 3 { ReportTaken(c, s, i); }
  }

  lemma OneHeard(c: Config, s: State, i: nat, p: nat, arrivals: seq<Gathering.Arrival>)
    requires Sane(c) && CtlPcOk(c, s.ctl) && CanGather(s, i) && s.ctl.p == p && |s.ports| == c.n
    requires KeepController.Gathers(c, s, CtlGather(c, s, i), i) && Expected(c, p, ArrivalOf(s, i))
    requires |arrivals| == Count(c, s.ctl, p) && Gathering.DistinctIds(arrivals) && AllExpected(c, p, arrivals)
    requires Counted(s, p, arrivals)
    ensures var r, more := CtlGather(c, s, i), arrivals + [ArrivalOf(s, i)];
      && |more| == Count(c, r.ctl, p) && Gathering.DistinctIds(more) && AllExpected(c, p, more) && Counted(r, p, more)
  {
    KeepController.GatheringPc(c, p, s.ctl.x);
  }

  lemma OneStored(c: Config, s: State, i: nat, p: nat, arrivals: seq<Gathering.Arrival>)
    requires Sane(c) && CtlPcOk(c, s.ctl) && CanGather(s, i) && s.ctl.p == p >= 3
    requires KeepController.Gathers(c, s, CtlGather(c, s, i), i) && ArrivalOf(s, i).id < c.n
    requires |s.readouts| == Reads(c, s.ctl) && |s.checkpoint| == |s.summary| == c.n * c.m
    requires Gathering.Proper(c, [ArrivalOf(s, i)]) && |Filled(c, s, p)| == c.n * c.m
    requires Filled(c, CtlGather(c, s, i), p) == Gathering.Collected(c, Filled(c, s, p), [ArrivalOf(s, i)])
    requires Stored(c, s, p, arrivals)
    ensures Stored(c, CtlGather(c, s, i), p, arrivals + [ArrivalOf(s, i)])
  {
    FillsMore(c, Filled(c, s, p), arrivals, ArrivalOf(s, i));
    KeepController.GatheringPc(c, p, s.ctl.x);
    ReadOutNow(c, s, i);
  }

  /** What the round has filled is read out, or is the summary, when the last completion is taken. */
  lemma ReadOutNow(c: Config, s: State, i: nat)
    requires CanGather(s, i) && KeepController.Gathers(c, s, CtlGather(c, s, i), i) && 3 <= s.ctl.p <= LastRound(c)
    requires s.ctl.x < c.n && |s.readouts| == Reads(c, s.ctl)
    ensures Past(CtlGather(c, s, i).ctl, s.ctl.p)
        ==> FilledBy(c, CtlGather(c, s, i), s.ctl.p) == Filled(c, CtlGather(c, s, i), s.ctl.p)
  {
  }

  // ---------- runs

  lemma {:induction false} HeardRun(c: Config, init: State, run: seq<Action>, p: nat)
    requires Sane(c) && Begin(c, init) && Exec(c, init, run).Some? && 1 <= p <= LastRound(c) && p != 2
    ensures Heard(c, Exec(c, init, run).value, p, Arrivals(c, init, run, p))
  {
    if run != [] {
      var n := |run| - 1;
      HeardRun(c, init, run[..n], p);
      FullRun(c, init, run[..n]);
      HeardStep(c, Exec(c, init, run[..n]).value, run[n], p, Arrivals(c, init, run[..n], p));
    }
  }

  lemma HeardStep(c: Config, s: State, a: Action, p: nat, arrivals: seq<Gathering.Arrival>)
    requires Full(c, s) && Can(c, s, a) && Heard(c, s, p, arrivals) && 1 <= p <= LastRound(c) && p != 2
    ensures Heard(c, Next(c, s, a), p,
                  if a.ByCtrl? && a.ctrl.AGather?
                      && s.ctl.p == p then arrivals + [ArrivalOf(s, a.ctrl.i)] else arrivals)
  {
    if a.ByCtrl? && a.ctrl.AGather? {
      var i := a.ctrl.i;
      if s.ctl.p == p {
        HeardHere(c, s, i, p, arrivals);
      } else {
        KeepController.FirstReply(c, s, i);
        KeepController.Expected(c, s, i);
        HeardElsewhere(c, s, i, p, arrivals);
      }
    } else {
      Sizes(c, s);
      StepIdle(c, s, a, p);
      HeardStays(c, s, Next(c, s, a), p, arrivals);
    }
  }

  // ---------- results

  /** Whatever the matrix held, complete arrivals of distinct clients make one and the same of it. */
  lemma FillsAny(c: Config, m: seq<Transfer>, arrivals: seq<Gathering.Arrival>, any: seq<Transfer>, p: nat)
    requires p != 1 && Fills(c, m, arrivals) && |arrivals| == c.n && Gathering.DistinctIds(arrivals)
    requires AllExpected(c, p, arrivals) && |any| == c.n * c.m
    ensures m == Gathering.Collected(c, any, arrivals)
  {
    var base: seq<Transfer> :| |base| == c.n * c.m && m == Gathering.Collected(c, base, arrivals);
    Gathering.OrderIndependent(c, base, any, arrivals, arrivals);
  }

  lemma NoneFailed(c: Config, p: nat, arrivals: seq<Gathering.Arrival>)
    requires AllExpected(c, p, arrivals)
    ensures FirstError(Gathering.Waits(arrivals)) == 0
  {
    assert forall q | 0 <= q < |arrivals| :: Gathering.Waits(arrivals)[q] == 0;
  }

  /** In every run, the completions taken in a checkpoint or stop round are full reports of n different
      clients, and the matrix read out, or the summary, is what the gather loop makes of them, whatever
      its array held before. */
  lemma GatherLoopRefines(c: Config, init: State, run: seq<Action>, p: nat, any: seq<Transfer>)
    requires Sane(c) && Begin(c, init) && Exec(c, init, run).Some? && 3 <= p <= LastRound(c)
    requires Past(Exec(c, init, run).value.ctl, p) && |any| == c.n * c.m
    ensures var arrivals := Arrivals(c, init, run, p);
      && |arrivals| == c.n && Gathering.Proper(c, arrivals) && Gathering.DistinctIds(arrivals)
      && FirstError(Gathering.Waits(arrivals)) == 0
      && FilledBy(c, Exec(c, init, run).value, p) == Gathering.Collected(c, any, arrivals)
  {
    HeardRun(c, init, run, p);
    var arrivals := Arrivals(c, init, run, p);
    NoneFailed(c, p, arrivals);
    FillsAny(c, FilledBy(c, Exec(c, init, run).value, p), arrivals, any, p);
  }

  lemma {:induction false} AllConfirm(arrivals: seq<Gathering.Arrival>, n: nat)
    requires forall q | 0 <= q < |arrivals| :: arrivals[q].content == Cmd(Connected) && arrivals[q].wait == 0
    ensures Gathering.Confirming(arrivals, n) == if |arrivals| >= n then Gathering.Complete else Gathering.Missing
  {
    if n > 0 && arrivals != [] { AllConfirm(arrivals[1..], n - 1); }
  }

  /** In every run, the loop that waits for the confirmations is complete on the completions taken in
      its round exactly when the controller is past it, and never fails. */
  lemma ConfirmLoopRefines(c: Config, init: State, run: seq<Action>)
    requires Sane(c) && Begin(c, init) && Exec(c, init, run).Some?
    ensures Gathering.Confirming(Arrivals(c, init, run, 1), c.n)
            == if Past(Exec(c, init, run).value.ctl, 1) then Gathering.Complete else Gathering.Missing
  {
    HeardRun(c, init, run, 1);
    FullRun(c, init, run);
    AllConfirm(Arrivals(c, init, run, 1), c.n);
    Counts(c, Exec(c, init, run).value.ctl);
  }

  lemma Counts(c: Config, pc: CtlPc)
    requires Sane(c) && CtlPcOk(c, pc)
    ensures Count(c, pc, 1) == c.n <==> Past(pc, 1)
    ensures Count(c, pc, 1) <= c.n
  {
  }
}
