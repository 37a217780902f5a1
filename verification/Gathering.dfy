/** The controller's receive loops: replies arrive in any order and are copied into the row of the
    client they carry the id of. */
module Gathering {
  import opened Wire
  import opened Protocol
  import opened Ledger
  import opened Frames

  /** A receive completion: the id in its context, the message in the buffer of endpoint id, and the
      result of waiting for it. After a wait that failed the code looks at the entry it has, an earlier
      one, before it leaves. */
  datatype Arrival = Arrival(id: nat, content: Payload, wait: int)

  function Waits(arrivals: seq<Arrival>): seq<int> {
    seq(|arrivals|, q requires 0 <= q < |arrivals| => arrivals[q].wait)
  }

  /** How many of them are looked at. */
  function Heeded(arrivals: seq<Arrival>): (n: nat)
    ensures n <= |arrivals| && (FirstError(Waits(arrivals)) == 0 ==> n == |arrivals|)
    ensures forall q | 0 <= q < n - 1 :: arrivals[q].wait == 0
    ensures n < |arrivals| ==> n > 0 && arrivals[n - 1].wait != 0
  {
    assert forall q | 0 <= q < |arrivals| :: Waits(arrivals)[q] == arrivals[q].wait;
    if Successes(Waits(arrivals)) < |arrivals| then Successes(Waits(arrivals)) + 1 else |arrivals|
  }

  function Rows(a: Arrival): seq<Transfer> { if a.content.Report? then a.content.rows else [] }

  /** The message has the length of a report. */
  predicate Whole(c: Config, a: Arrival) { Len(a.content) == TRANSFER_SIZE * c.m }

  lemma WholeRows(c: Config, a: Arrival)
    requires Whole(c, a)
    ensures |Rows(a)| == c.m
  {
    assert TRANSFER_SIZE * |Rows(a)| == TRANSFER_SIZE * c.m;
  }

  /** Receives are posted for clients only. */
  predicate Proper(c: Config, arrivals: seq<Arrival>) {
    forall q | 0 <= q < |arrivals| :: arrivals[q].id < c.n
  }

  /** Arrivals stored one after another; one of the wrong length is only warned about. */
  function Collected(c: Config, a: seq<Transfer>, arrivals: seq<Arrival>): (r: seq<Transfer>)
    requires |a| == c.n * c.m && Proper(c, arrivals)
    ensures |r| == |a|
  {
    if arrivals == [] then a else
    var b := Collected(c, a, arrivals[..|arrivals| - 1]);
    var last := arrivals[|arrivals| - 1];
    Fits(c, last.id);
    if Whole(c, last) then WholeRows(c, last); StoreRow(b, c.m, last.id, Rows(last)) else b
  }

  /** CONNECTED messages among those that arrived. */
  function Confirmations(arrivals: seq<Arrival>): nat {
    if arrivals == [] then 0 else
    Confirmations(arrivals[..|arrivals| - 1]) + if arrivals[|arrivals| - 1].content == Cmd(Connected) then 1 else 0
  }

  function Confirmed(arrivals: seq<Arrival>): set<nat> {
    set q | 0 <= q < |arrivals| && arrivals[q].content == Cmd(Connected)
  }

  lemma {:induction false} ConfirmationsAre(arrivals: seq<Arrival>)
    ensures Confirmations(arrivals) == |Confirmed(arrivals)|
  {
    if arrivals != [] {
      var n := |arrivals| - 1;
      ConfirmationsAre(arrivals[..n]);
      assert Confirmed(arrivals) ==
        Confirmed(arrivals[..n]) + if arrivals[n].content == Cmd(Connected) then {n} else {};
    }
  }

  /** How a loop that waits for a number of messages goes. */
  datatype Reading = Complete | Missing | Failed(error: int)

  function Result(r: Reading): int { if r.Failed? then r.error else 0 }

  /** Messages are read until n of them were CONNECTED; one of a wrong length ends it, and so does a
      wait that failed, after the message was looked at. */
  function Confirming(arrivals: seq<Arrival>, n: nat): Reading {
    if n == 0 then Complete
    else if arrivals == [] then Missing
    else if Len(arrivals[0].content) != INT_SIZE then Failed(-1)
    else if arrivals[0].wait != 0 then Failed(arrivals[0].wait)
    else Confirming(arrivals[1..], if arrivals[0].content == Cmd(Connected) then n - 1 else n)
  }

  /** Arrivals with nothing wrong and not enough confirmations among them. */
  predicate Waiting(arrivals: seq<Arrival>, n: nat) {
    && |Confirmed(arrivals)| < n
    && forall q | 0 <= q < |arrivals| :: Len(arrivals[q].content) == 4 && arrivals[q].wait == 0
  }

  lemma ConfirmedFirst(arrivals: seq<Arrival>)
    requires arrivals != []
    ensures |Confirmed(arrivals)| == |Confirmed(arrivals[1..])| + if arrivals[0].content == Cmd(Connected) then 1 else 0
  {
    ConfirmationsAre(arrivals);
    ConfirmationsAre(arrivals[1..]);
    FrontConfirmation(arrivals);
  }

  lemma {:induction false} FrontConfirmation(arrivals: seq<Arrival>)
    requires arrivals != []
    ensures Confirmations(arrivals) == Confirmations(arrivals[1..]) + if arrivals[0].content == Cmd(Connected) then 1
        else 0
  {
    var n := |arrivals| - 1;
    if n > 0 {
      FrontConfirmation(arrivals[..n]);
      assert arrivals[..n][1..] == arrivals[1..][..n - 1];
    }
  }

  /** The loop fails at the first arrival that has the wrong length, or whose wait failed, if all before
      it were in order and too few confirmations; it is still waiting if that is so of all. */
  lemma {:induction false} ConfirmingIs(arrivals: seq<Arrival>, n: nat, k: nat)
    requires k <= |arrivals| && Waiting(arrivals[..k], n)
    ensures k == |arrivals| ==> Confirming(arrivals, n) == Missing
    ensures k < |arrivals| && Len(arrivals[k].content) != 4 ==> Confirming(arrivals, n) == Failed(-1)
    ensures k < |arrivals| && Len(arrivals[k].content) == 4 && arrivals[k].wait != 0 ==>
              Confirming(arrivals, n) == Failed(arrivals[k].wait)
    ensures k < |arrivals| && Len(arrivals[k].content) == 4 && arrivals[k].wait == 0 ==>
              (|Confirmed(arrivals[..k + 1])| == n ==> Confirming(arrivals, n) == Complete)
  {
    if k > 0 {
      var rest, less := arrivals[1..], if arrivals[0].content == Cmd(Connected) then n - 1 else n;
      assert arrivals[..k][1..] == rest[..k - 1] && arrivals[..k][0] == arrivals[0];
      ConfirmedFirst(arrivals[..k]);
      if k < |arrivals| {
        assert arrivals[..k + 1][1..] == rest[..k] && arrivals[..k + 1][0] == arrivals[0];
        ConfirmedFirst(arrivals[..k + 1]);
      }
      WaitingRest(arrivals[..k], n);
      ConfirmingIs(rest, less, k - 1);
    } else if arrivals != [] {
      assert arrivals[..1] == [arrivals[0]];
      ConfirmedFirst(arrivals[..1]);
      assert arrivals[..1][1..] == [];
      assert Confirmed([]) == {};
    }
  }

  lemma WaitingRest(arrivals: seq<Arrival>, n: nat)
    requires arrivals != [] && Waiting(arrivals, n)
    ensures Waiting(arrivals[1..], if arrivals[0].content == Cmd(Connected) then n - 1 else n)
    ensures Len(arrivals[0].content) == INT_SIZE && arrivals[0].wait == 0 && n > 0
  {
    ConfirmedFirst(arrivals);
  }

  lemma {:induction false} ConfirmationsGrow(arrivals: seq<Arrival>, t: nat)
    requires t <= |arrivals|
    ensures Confirmations(arrivals[..t]) <= Confirmations(arrivals)
  {
    if t < |arrivals| {
      assert arrivals[..|arrivals| - 1][..t] == arrivals[..t];
      ConfirmationsGrow(arrivals[..|arrivals| - 1], t);
    } else {
      assert arrivals[..t] == arrivals;
    }
  }

  class Controller {
    const c: Config
    var checkpoint: array<Transfer>
    var summary: array<Transfer>

    ghost predicate Valid()
      reads this
    {
      checkpoint != summary && checkpoint.Length == summary.Length == c.n * c.m
    }

    constructor (c: Config)
      ensures Valid() && this.c == c && fresh(checkpoint) && fresh(summary)
    {
      this.c := c;
      checkpoint := new Transfer[c.n * c.m];
      summary := new Transfer[c.n * c.m];
    }

    /** memcpy of a report into row i. */
    method CopyRow(a: array<Transfer>, i: nat, row: seq<Transfer>)
      requires a.Length == c.n * c.m && i < c.n && |row| == c.m
      modifies a
      ensures i * c.m + c.m <= a.Length && a[..] == StoreRow(old(a[..]), c.m, i, row)
    {
      Fits(c, i);
      var start := i * c.m;
      for x := 0 to |row|
        invariant forall y | start <= y < start + x :: a[y] == row[y - start]
        invariant forall y | 0 <= y < start || start + x <= y < a.Length :: a[y] == old(a[y])
      {
        a[start + x] := row[x];
      }
      assert a[..] == old(a[..])[..start] + row + old(a[..])[start + |row|..];
    }

    /** One completion per client, counted whatever its length; one of the wrong length is not copied.
        A wait that fails ends it. */
    method Gather(a: array<Transfer>, arrivals: seq<Arrival>) returns (ret: int)
      requires a.Length == c.n * c.m && |arrivals| == c.n && Proper(c, arrivals)
      modifies a
      ensures ret == FirstError(Waits(arrivals)) && a[..] == Collected(c, old(a[..]), arrivals[..Heeded(arrivals)])
    {
      var counter := 0;
      while counter < c.n
        invariant 0 <= counter <= Successes(Waits(arrivals))
        invariant a[..] == Collected(c, old(a[..]), arrivals[..counter])
      {
        var entry := arrivals[counter];
        assert arrivals[..counter + 1][..counter] == arrivals[..counter];
        if Len(entry.content) == TRANSFER_SIZE * c.m {
          WholeRows(c, entry);
          CopyRow(a, entry.id, Rows(entry));
        }
        assert Waits(arrivals)[counter] == entry.wait;
        if entry.wait != 0 {
          return entry.wait;
        }
        counter := counter + 1;
      }
      ret := 0;
    }

    /** The replies of a checkpoint go to `checkpoint`, those of the stop to `summary`. */
    method GatherCheckpoint(arrivals: seq<Arrival>) returns (ret: int)
      requires Valid() && |arrivals| == c.n && Proper(c, arrivals)
      modifies checkpoint
      ensures Valid() && ret == FirstError(Waits(arrivals))
      ensures checkpoint[..] == Collected(c, old(checkpoint[..]), arrivals[..Heeded(arrivals)])
    {
      ret := Gather(checkpoint, arrivals);
    }

    method GatherSummary(arrivals: seq<Arrival>) returns (ret: int)
      requires Valid() && |arrivals| == c.n && Proper(c, arrivals)
      modifies summary
      ensures Valid() && ret == FirstError(Waits(arrivals))
      ensures summary[..] == Collected(c, old(summary[..]), arrivals[..Heeded(arrivals)])
    {
      ret := Gather(summary, arrivals);
    }

    /** Waits for c.n CONNECTED messages: other commands are skipped, a wrong length or a wait that
        fails is an error. `done` is false while messages are still missing. */
    method GatherConfirmations(arrivals: seq<Arrival>) returns (ret: int, used: nat, done: bool)
      ensures ret == Result(Confirming(arrivals, c.n)) && (done <==> Confirming(arrivals, c.n) == Complete)
      ensures used <= |arrivals| && (done ==> Confirmations(arrivals[..used]) == c.n)
      ensures forall q | 0 <= q < used :: Len(arrivals[q].content) == INT_SIZE && Confirmations(arrivals[..q]) < c.n
    {
      var counter := 0;
      used := 0;
      while counter < c.n && used < |arrivals|
        invariant used <= |arrivals| && counter == Confirmations(arrivals[..used]) <= c.n
        invariant Confirming(arrivals, c.n) == Confirming(arrivals[used..], c.n - counter)
        invariant forall q | 0 <= q < used :: Len(arrivals[q].content) == INT_SIZE && Confirmations(arrivals[..q]) < c.n
        decreases |arrivals| - used
      {
        var entry := arrivals[used];
        Tail(arrivals, used);
        if Len(entry.content) != INT_SIZE {
          return -1, used, false;
        }
        if entry.wait != 0 {
          return entry.wait, used, false;
        }
        assert arrivals[..used + 1][..used] == arrivals[..used];
        if entry.content == Cmd(Connected) { counter := counter + 1; }
        used := used + 1;
      }
      ret, done := 0, counter == c.n;
    }

    /** The read-out of a matrix, pair by pair. */
    method ReadOut(a: array<Transfer>, msgSize: nat) returns (lines: seq<Line>)
      requires a.Length == c.n * c.m
      ensures |lines| == c.n * c.m
      ensures forall x | 0 <= x < c.n * c.m :: Prints(lines[x], a[x], c.n, c.m, msgSize)
      ensures forall x | 0 <= x < c.n * c.m ::
                && lines[x].from == a[x].from && lines[x].to == a[x].to && lines[x].n == c.n && lines[x].m == c.m
                && lines[x].deltaSec == a[x].deltaSec && lines[x].timeSec == a[x].timeSec
                && lines[x].completions == a[x].completions && lines[x].msgSize == msgSize
      ensures forall x | 0 <= x < c.n * c.m ::
                && lines[x].bytes == a[x].completions * msgSize
                && lines[x].gigabit * 1000000000.0 == 8.0 * lines[x].bytes as real
                && (a[x].deltaSec != 0.0 ==>
                      lines[x].throughput.Some? && lines[x].throughput.value * a[x].deltaSec == lines[x].gigabit)
    {
      lines := [];
      for i := 0 to c.n
        invariant |lines| == i * c.m <= c.n * c.m
        invariant forall x | 0 <= x < i * c.m :: Prints(lines[x], a[x], c.n, c.m, msgSize)
      {
        Fits(c, i);
        for j := 0 to c.m
          invariant |lines| == i * c.m + j
          invariant forall x | 0 <= x < i * c.m + j :: Prints(lines[x], a[x], c.n, c.m, msgSize)
        {
          LinePrints(a[i * c.m + j], c.n, c.m, msgSize);
          lines := lines + [LineOf(a[i * c.m + j], c.n, c.m, msgSize)];
        }
        assert i * c.m + c.m == (i + 1) * c.m;
      }
    }
  }

  /** A line of the output. Rates are real numbers here; there is none for a time of zero. */
  datatype Line = Line(from: int, to: int, n: nat, m: nat, deltaSec: real, timeSec: real, completions: int,
                       msgSize: nat, bytes: int, gigabit: real, throughput: Option<real>)

  function LineOf(t: Transfer, n: nat, m: nat, msgSize: nat): Line {
    var bytes := t.completions * msgSize;
    var gigabit := bytes as real * 8.0 / 1000000000.0;
    Line(t.from, t.to, n, m, t.deltaSec, t.timeSec, t.completions, msgSize, bytes, gigabit,
         if t.deltaSec == 0.0 then None else Some(gigabit / t.deltaSec))
  }

  /** The line of a record: its bytes, gigabits and, for a time other than zero, gigabits per second. */
  predicate Prints(l: Line, t: Transfer, n: nat, m: nat, msgSize: nat) {
    && l.from == t.from && l.to == t.to && l.n == n && l.m == m && l.msgSize == msgSize
    && l.deltaSec == t.deltaSec && l.timeSec == t.timeSec && l.completions == t.completions
    && l.bytes == t.completions * msgSize && l.gigabit * 1000000000.0 == 8.0 * l.bytes as real
    && (if t.deltaSec == 0.0 then l.throughput == None
        else l.throughput.Some? && l.throughput.value * t.deltaSec == l.gigabit)
  }

  lemma LinePrints(t: Transfer, n: nat, m: nat, msgSize: nat)
    ensures Prints(LineOf(t, n, m, msgSize), t, n, m, msgSize)
  {
    var gigabit := LineOf(t, n, m, msgSize).gigabit;
    if t.deltaSec != 0.0 { Divided(gigabit, t.deltaSec); }
  }

  lemma Divided(a: real, b: real)
    requires b != 0.0
    ensures a / b * b == a
  {
  }

  /** A message of the length of a report replaces its client's row, any other leaves the array alone. */
  lemma CollectedNext(c: Config, a: seq<Transfer>, arrivals: seq<Arrival>, x: Arrival)
    requires |a| == c.n * c.m && Proper(c, arrivals + [x]) && x.id < c.n
    ensures Proper(c, arrivals)
    ensures Len(x.content) != 40 * c.m ==> Collected(c, a, arrivals + [x]) == Collected(c, a, arrivals)
    ensures Len(x.content) == 40 * c.m ==>
              && |Rows(x)| == c.m && x.id * c.m + c.m <= |a|
              && Collected(c, a, arrivals + [x]) == StoreRow(Collected(c, a, arrivals), c.m, x.id, Rows(x))
  {
    assert (arrivals + [x])[..|arrivals|] == arrivals;
    assert forall q | 0 <= q < |arrivals| :: (arrivals + [x])[q] == arrivals[q];
    Fits(c, x.id);
    if Whole(c, x) { WholeRows(c, x); }
  }

  // ---------- complete and independent of the order

  predicate DistinctIds(arrivals: seq<Arrival>) {
    forall x, y | 0 <= x < y < |arrivals| :: arrivals[x].id != arrivals[y].id
  }

  predicate Heard(arrivals: seq<Arrival>, i: nat) {
    exists q :: 0 <= q < |arrivals| && arrivals[q].id == i
  }

  /** The row of a client holds its report when no other arrival carries the same id. */
  lemma {:induction false} RowGathered(c: Config, a: seq<Transfer>, arrivals: seq<Arrival>, q: nat)
    requires |a| == c.n * c.m && Proper(c, arrivals) && DistinctIds(arrivals)
    requires q < |arrivals| && Whole(c, arrivals[q])
    ensures Holds(c, Collected(c, a, arrivals), arrivals[q].id, Rows(arrivals[q]))
  {
    var n := |arrivals| - 1;
    var before, last, row := Collected(c, a, arrivals[..n]), arrivals[n], Rows(arrivals[q]);
    WholeRows(c, arrivals[q]);
    if q < n { RowGathered(c, a, arrivals[..n], q); }
    Fits(c, last.id);
    if Whole(c, last) {
      WholeRows(c, last);
      Stored(c, before, last.id, Rows(last), arrivals[q].id, row);
    }
  }

  /** The row of a client that was not heard is what it was. */
  lemma {:induction false} RowKept(c: Config, a: seq<Transfer>, arrivals: seq<Arrival>, i: nat)
    requires |a| == c.n * c.m && Proper(c, arrivals) && i < c.n && !Heard(arrivals, i)
    ensures i * c.m + c.m <= |a| && Holds(c, Collected(c, a, arrivals), i, a[i * c.m..i * c.m + c.m])
  {
    Fits(c, i);
    if arrivals != [] {
      var n := |arrivals| - 1;
      assert forall q | 0 <= q < n :: arrivals[..n][q] == arrivals[q];
      RowKept(c, a, arrivals[..n], i);
      Fits(c, arrivals[n].id);
      if Whole(c, arrivals[n]) {
        WholeRows(c, arrivals[n]);
        Stored(c, Collected(c, a, arrivals[..n]), arrivals[n].id, Rows(arrivals[n]), i, a[i * c.m..i * c.m + c.m]);
      }
    }
  }

  function Ids(arrivals: seq<Arrival>): set<nat> { set q | 0 <= q < |arrivals| :: arrivals[q].id }

  lemma NewId(arrivals: seq<Arrival>)
    requires arrivals != []
    ensures var n := |arrivals| - 1;
      && Ids(arrivals) == Ids(arrivals[..n]) + {arrivals[n].id}
      && (DistinctIds(arrivals) <==> DistinctIds(arrivals[..n]) && arrivals[n].id !in Ids(arrivals[..n]))
  {
  }

  lemma {:induction false} IdCount(arrivals: seq<Arrival>)
    ensures |Ids(arrivals)| <= |arrivals|
    ensures |Ids(arrivals)| == |arrivals| <==> DistinctIds(arrivals)
  {
    if arrivals != [] {
      NewId(arrivals);
      IdCount(arrivals[..|arrivals| - 1]);
    }
  }

  /** Of n arrivals, every client has one exactly when no client has two. */
  lemma OneEach(n: nat, arrivals: seq<Arrival>)
    requires |arrivals| == n && forall q | 0 <= q < n :: arrivals[q].id < n
    ensures DistinctIds(arrivals) <==> forall i | 0 <= i < n :: Heard(arrivals, i)
  {
    IdCount(arrivals);
    assert Ids(arrivals) <= Indices(n);
    SubsetSize(Ids(arrivals), Indices(n));
    if forall i | 0 <= i < n :: Heard(arrivals, i) {
      assert forall i | i in Indices(n) :: Heard(arrivals, i);
      SubsetSize(Indices(n), Ids(arrivals));
    }
    if DistinctIds(arrivals) {
      Pigeonhole(Ids(arrivals), Indices(n));
      forall i | 0 <= i < n ensures Heard(arrivals, i) { assert i in Ids(arrivals); }
    }
  }

  /** Row i is what client i sent. */
  predicate RowSent(c: Config, a: seq<Transfer>, arrivals: seq<Arrival>, i: nat) {
    exists q :: 0 <= q < |arrivals| && arrivals[q].id == i && Holds(c, a, i, Rows(arrivals[q]))
  }

  /** One full report of every client fills every row, whatever the matrix held. */
  lemma GatherComplete(c: Config, a: seq<Transfer>, arrivals: seq<Arrival>)
    requires |a| == c.n * c.m && |arrivals| == c.n && Proper(c, arrivals) && DistinctIds(arrivals)
    requires forall q | 0 <= q < c.n :: Whole(c, arrivals[q])
    ensures forall i | 0 <= i < c.n :: RowSent(c, Collected(c, a, arrivals), arrivals, i)
  {
    OneEach(c.n, arrivals);
    forall i | 0 <= i < c.n ensures RowSent(c, Collected(c, a, arrivals), arrivals, i) {
      assert Heard(arrivals, i);
      var q :| 0 <= q < |arrivals| && arrivals[q].id == i;
      RowGathered(c, a, arrivals, q);
    }
  }

  /** Matrices with the same rows are the same. */
  lemma SameRows(c: Config, a: seq<Transfer>, b: seq<Transfer>)
    requires |a| == |b| == c.n * c.m
    requires forall i | 0 <= i < c.n :: SameRow(c, a, b, i)
    ensures a == b
  {
    forall p | 0 <= p < |a| ensures a[p] == b[p] {
      Position(c.n, c.m, p);
      var i, j := p / c.m, p % c.m;
      assert SameRow(c, a, b, i);
      assert a[i * c.m..i * c.m + c.m][j] == b[i * c.m..i * c.m + c.m][j];
    }
  }

  ghost predicate SameRow(c: Config, a: seq<Transfer>, b: seq<Transfer>, i: nat) {
    exists row :: Holds(c, a, i, row) && Holds(c, b, i, row)
  }

  lemma Position(n: nat, m: nat, p: nat)
    requires p < n * m
    ensures m > 0 && p / m < n && p == p / m * m + p % m
  {
    assert m > 0;
    if p / m >= n { RowsApart(m, n - 1, p / m); }
  }

  /** Two orders of the same replies give the same matrix, whatever it held before. */
  lemma OrderIndependent(c: Config, a: seq<Transfer>, b: seq<Transfer>, first: seq<Arrival>, second: seq<Arrival>)
    requires |a| == |b| == c.n * c.m && |first| == c.n && Proper(c, first) && DistinctIds(first)
    requires forall q | 0 <= q < c.n :: Whole(c, first[q])
    requires multiset(first) == multiset(second)
    ensures Proper(c, second) && Collected(c, a, first) == Collected(c, b, second)
  {
    Permuted(first, second);
    forall q | 0 <= q < |second| ensures second[q] in multiset(first) { assert second[q] in multiset(second); }
    OneEach(c.n, first);
    forall i | 0 <= i < c.n ensures SameRow(c, Collected(c, a, first), Collected(c, b, second), i) {
      assert Heard(first, i);
      var q :| 0 <= q < |first| && first[q].id == i;
      assert first[q] in multiset(second);
      var z :| 0 <= z < |second| && second[z] == first[q];
      RowGathered(c, a, first, q);
      RowGathered(c, b, second, z);
    }
    SameRows(c, Collected(c, a, first), Collected(c, b, second));
  }

  lemma Permuted(first: seq<Arrival>, second: seq<Arrival>)
    requires multiset(first) == multiset(second)
    ensures |first| == |second| && (DistinctIds(first) ==> DistinctIds(second))
  {
    assert |first| == |multiset(first)| == |multiset(second)| == |second|;
    forall q | 0 <= q < |first| ensures first[q].id in Ids(second) {
      assert first[q] in multiset(second);
    }
    forall q | 0 <= q < |second| ensures second[q].id in Ids(first) {
      assert second[q] in multiset(first);
    }
    assert Ids(first) == Ids(second);
    IdCount(first);
    IdCount(second);
  }

  /** If two of n replies carry the same id, some row keeps what it held before. */
  lemma MissedRow(c: Config, a: seq<Transfer>, arrivals: seq<Arrival>) returns (i: nat)
    requires |a| == c.n * c.m && |arrivals| == c.n && Proper(c, arrivals) && !DistinctIds(arrivals)
    ensures i < c.n && i * c.m + c.m <= |a| && Holds(c, Collected(c, a, arrivals), i, a[i * c.m..i * c.m + c.m])
  {
    OneEach(c.n, arrivals);
    i :| 0 <= i < c.n && !Heard(arrivals, i);
    RowKept(c, a, arrivals, i);
  }
}
