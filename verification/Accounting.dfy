/** The client's bookkeeping while it keeps a window of RDMA writes outstanding:
    pure functions for what one poll of a completion queue changes, and what
    every sequence of them keeps. */
module Accounting {
  import opened Wire

  /** Writes posted to each server before the first poll. */
  const WINDOW: nat := 10

  /** transfer, temp, delta and queued are the variables of the source. The rest is history:
      writes posted and polled per server, polled completions of report sends, and
      completions counted since the last checkpoint. */
  datatype Acc = Acc(transfer: seq<Transfer>, temp: seq<Transfer>, delta: seq<Transfer>, queued: int,
                     posted: seq<nat>, polled: seq<nat>, echoes: nat, recent: seq<nat>)

  /** A report as it was handed to the send queue, with the completions counted for each
      server since the checkpoint before it. */
  datatype Entry = Entry(rows: seq<Transfer>, recent: seq<nat>)

  predicate Sized(a: Acc, m: nat) {
    && |a.transfer| == |a.temp| == |a.delta| == m
    && |a.posted| == |a.polled| == |a.recent| == m
  }

  /** Allocation and initialisation; deltaSec of transfer and delta keeps whatever malloc left. */
  predicate Initial(a: Acc, id: nat, m: nat) {
    && Sized(a, m) && a.queued == WINDOW && a.echoes == 0
    && (forall x | 0 <= x < m ::
          && a.temp[x] == Transfer(id, x, 0.0, 0.0, 0)
          && a.transfer[x] == Transfer(id, x, a.transfer[x].deltaSec, 0.0, 0)
          && a.delta[x] == Transfer(id, x, a.delta[x].deltaSec, 0.0, 0)
          && a.posted[x] == a.polled[x] == a.recent[x] == 0)
  }

  function Post(a: Acc, j: nat): Acc
    requires j < |a.posted|
  {
    a.(posted := a.posted[j := a.posted[j] + 1])
  }

  /** A completion polled from cq_tx with context id `id`: counted, and answered by another write. */
  function Complete(a: Acc, id: nat, write: bool): Acc
    requires id < |a.transfer| == |a.polled| == |a.recent| == |a.posted|
  {
    var c := a.(transfer := a.transfer[id := a.transfer[id].(completions := a.transfer[id].completions + 1)],
                queued := a.queued + 1,
                recent := a.recent[id := a.recent[id] + 1]);
    Post(if write then c.(polled := c.polled[id := c.polled[id] + 1]) else c.(echoes := c.echoes + 1), id)
  }

  function Stamp(s: seq<Transfer>, t: real): (r: seq<Transfer>) {
    seq(|s|, x requires 0 <= x < |s| => s[x].(timeSec := t))
  }

  function CheckpointDelta(s: seq<Transfer>, temp: seq<Transfer>, d: seq<Transfer>): seq<Transfer>
    requires |s| == |temp| == |d|
  {
    seq(|d|, x requires 0 <= x < |d| =>
      d[x].(deltaSec := s[x].timeSec - temp[x].timeSec,
            timeSec := s[x].timeSec,
            completions := s[x].completions - temp[x].completions))
  }

  function CheckpointTemp(s: seq<Transfer>, temp: seq<Transfer>): seq<Transfer>
    requires |s| == |temp|
  {
    seq(|temp|, x requires 0 <= x < |temp| =>
      temp[x].(timeSec := s[x].timeSec, completions := s[x].completions))
  }

  function StopDelta(s: seq<Transfer>, d: seq<Transfer>): seq<Transfer>
    requires |s| == |d|
  {
    seq(|d|, x requires 0 <= x < |d| =>
      d[x].(timeSec := s[x].timeSec, deltaSec := s[x].timeSec, completions := s[x].completions))
  }

  function OnCheckpoint(a: Acc, t: real): Acc
    requires |a.transfer| == |a.temp| == |a.delta|
  {
    var s := Stamp(a.transfer, t);
    a.(transfer := s, delta := CheckpointDelta(s, a.temp, a.delta), temp := CheckpointTemp(s, a.temp),
       recent := seq(|a.recent|, _ => 0))
  }

  function OnStop(a: Acc, t: real): Acc
    requires |a.transfer| == |a.delta|
  {
    var s := Stamp(a.transfer, t);
    a.(transfer := s, delta := StopDelta(s, a.delta))
  }

  function OnOther(a: Acc, t: real): Acc {
    a.(transfer := Stamp(a.transfer, t))
  }

  // ---------- what a command makes of the records, field by field

  /** After a checkpoint with clock reading t: the report has the time and completions since the last
      checkpoint, and temp, from which the next one is computed, has the totals. */
  lemma CheckpointRecords(a: Acc, t: real, x: nat)
    requires |a.transfer| == |a.temp| == |a.delta| == |a.recent| && x < |a.transfer|
    ensures var b := OnCheckpoint(a, t);
      && |b.transfer| == |b.temp| == |b.delta| == |b.recent| == |a.transfer|
      && b.delta[x] == a.delta[x].(timeSec := t, deltaSec := t - a.temp[x].timeSec,
                                   completions := a.transfer[x].completions - a.temp[x].completions)
      && b.temp[x] == a.temp[x].(timeSec := t, completions := a.transfer[x].completions)
      && b.transfer[x] == a.transfer[x].(timeSec := t) && b.recent[x] == 0
      && b.queued == a.queued && b.posted == a.posted && b.polled == a.polled && b.echoes == a.echoes
  {
  }

  /** After a stop: the report has the totals, as time since the start. */
  lemma StopRecords(a: Acc, t: real, x: nat)
    requires |a.transfer| == |a.delta| && x < |a.transfer|
    ensures var b := OnStop(a, t);
      && |b.transfer| == |b.delta| == |a.transfer|
      && b.delta[x] == a.delta[x].(timeSec := t, deltaSec := t, completions := a.transfer[x].completions)
      && b.transfer[x] == a.transfer[x].(timeSec := t) && b.temp == a.temp && b.recent == a.recent
      && b.queued == a.queued && b.posted == a.posted && b.polled == a.polled && b.echoes == a.echoes
  {
  }

  /** After any other command nothing but the time of the totals. */
  lemma OtherRecords(a: Acc, t: real, x: nat)
    requires x < |a.transfer|
    ensures var b := OnOther(a, t);
      |b.transfer| == |a.transfer| && b.transfer[x] == a.transfer[x].(timeSec := t) && b == a.(transfer := b.transfer)
  {
  }

  /** A completion is counted once, and answered by one write to the same server. */
  lemma CompleteRecords(a: Acc, id: nat, write: bool, x: nat)
    requires id < |a.transfer| == |a.polled| == |a.recent| == |a.posted| && x < |a.transfer|
    ensures var b, one := Complete(a, id, write), if x == id then 1 else 0;
      && |b.transfer| == |b.polled| == |b.recent| == |b.posted| == |a.transfer|
      && b.transfer[x] == a.transfer[x].(completions := a.transfer[x].completions + one)
      && b.recent[x] == a.recent[x] + one && b.posted[x] == a.posted[x] + one
      && b.polled[x] == a.polled[x] + (if write then one else 0)
      && b.echoes == a.echoes + (if write then 0 else 1) && b.queued == a.queued + 1
      && b.temp == a.temp && b.delta == a.delta
  {
  }

  function Total(s: seq<Transfer>): int {
    if s == [] then 0 else Total(s[..|s| - 1]) + s[|s| - 1].completions
  }

  lemma {:induction false} TotalUpdate(s: seq<Transfer>, x: nat, r: Transfer)
    requires x < |s|
    ensures Total(s[x := r]) == Total(s) - s[x].completions + r.completions
  {
    var n := |s| - 1;
    if x == n {
      assert s[x := r][..n] == s[..n];
    } else {
      assert s[x := r][..n] == s[..n][x := r];
      TotalUpdate(s[..n], x, r);
    }
  }

  lemma {:induction false} TotalSame(s: seq<Transfer>, r: seq<Transfer>)
    requires |s| == |r| && forall x | 0 <= x < |s| :: s[x].completions == r[x].completions
    ensures Total(s) == Total(r)
  {
    if s != [] {
      TotalSame(s[..|s| - 1], r[..|s| - 1]);
    }
  }

  lemma {:induction false} TotalZero(s: seq<Transfer>)
    requires forall x | 0 <= x < |s| :: s[x].completions == 0
    ensures Total(s) == 0
  {
    if s != [] {
      TotalZero(s[..|s| - 1]);
    }
  }

  /** Completions of the client's own report sends carry the client's id as context id. */
  function Echo(a: Acc, id: nat, x: nat): nat {
    if x == id then a.echoes else 0
  }

  /** What the counters mean, at every point of the benchmark. */
  predicate Books(a: Acc, id: nat, m: nat) {
    && Sized(a, m)
    && a.queued - Total(a.transfer) == WINDOW
    && (forall x | 0 <= x < m :: Row(a, id, x))
  }

  predicate Row(a: Acc, id: nat, x: nat)
    requires x < |a.transfer| == |a.temp| == |a.delta| && x < |a.posted| == |a.polled| == |a.recent|
  {
    && a.transfer[x].from == a.temp[x].from == a.delta[x].from == id
    && a.transfer[x].to == a.temp[x].to == a.delta[x].to == x
    && a.transfer[x].completions == a.polled[x] + Echo(a, id, x)
    && a.temp[x].completions + a.recent[x] == a.transfer[x].completions
    && 0 <= a.temp[x].completions
    && a.polled[x] <= a.posted[x]
  }

  /** The window: ten writes more than completions counted, for every server. */
  predicate Window(a: Acc) {
    |a.posted| == |a.transfer| && forall x | 0 <= x < |a.posted| :: a.posted[x] == WINDOW + a.transfer[x].completions
  }

  /** Inside the initial nested loop: round r, next server j. */
  predicate Filling(a: Acc, r: nat, j: nat) {
    && |a.posted| == |a.transfer| == |a.polled| && a.echoes == 0
    && (forall x | 0 <= x < |a.posted| ::
          a.posted[x] == r + (if x < j then 1 else 0) && a.polled[x] == 0 && a.transfer[x].completions == 0)
  }

  lemma InitialBooks(a: Acc, id: nat, m: nat)
    requires Initial(a, id, m)
    ensures Books(a, id, m) && Filling(a, 0, 0)
  {
    TotalZero(a.transfer);
  }

  /** One more write of the initial window. */
  lemma FilledOne(a: Acc, id: nat, m: nat, r: nat, j: nat)
    requires Books(a, id, m) && Filling(a, r, j) && j < m
    ensures Books(Post(a, j), id, m) && Filling(Post(a, j), r, j + 1)
    ensures j + 1 == m ==> Filling(Post(a, j), r + 1, 0) && (r + 1 == WINDOW ==> Window(Post(a, j)))
  {
    forall x | 0 <= x < m ensures Row(Post(a, j), id, x) {
      assert Row(a, id, x);
    }
  }

  /** All of them. */
  lemma FilledAll(a: Acc, b: Acc, id: nat, m: nat)
    requires Initial(a, id, m) && b == a.(posted := b.posted) && |b.posted| == m
    requires forall x | 0 <= x < m :: b.posted[x] == WINDOW
    ensures Books(b, id, m) && Window(b)
  {
    InitialBooks(a, id, m);
    forall x | 0 <= x < m ensures Row(b, id, x) {
      assert Row(a, id, x);
    }
  }

  lemma CompleteRow(a: Acc, id: nat, m: nat, c: nat, write: bool, x: nat)
    requires Sized(a, m) && c < m && x < m && Row(a, id, x)
    requires if write then a.polled[c] < a.posted[c] else c == id
    ensures Row(Complete(a, c, write), id, x)
  {
  }

  lemma CompleteBooks(a: Acc, id: nat, m: nat, c: nat, write: bool)
    requires Books(a, id, m) && Window(a) && c < m
    requires if write then a.polled[c] < a.posted[c] else c == id
    ensures Books(Complete(a, c, write), id, m) && Window(Complete(a, c, write))
  {
    TotalUpdate(a.transfer, c, a.transfer[c].(completions := a.transfer[c].completions + 1));
    forall x | 0 <= x < m ensures Row(Complete(a, c, write), id, x) {
      CompleteRow(a, id, m, c, write, x);
    }
  }

  lemma CheckpointBooks(a: Acc, id: nat, m: nat, t: real)
    requires Books(a, id, m) && Window(a)
    ensures Books(OnCheckpoint(a, t), id, m) && Window(OnCheckpoint(a, t))
  {
    TotalSame(a.transfer, Stamp(a.transfer, t));
    forall x | 0 <= x < m ensures Row(OnCheckpoint(a, t), id, x) {
      assert Row(a, id, x);
    }
  }

  lemma StopBooks(a: Acc, id: nat, m: nat, t: real)
    requires Books(a, id, m) && Window(a)
    ensures Books(OnStop(a, t), id, m) && Window(OnStop(a, t))
  {
    TotalSame(a.transfer, Stamp(a.transfer, t));
    forall x | 0 <= x < m ensures Row(OnStop(a, t), id, x) {
      assert Row(a, id, x);
    }
  }

  lemma OtherBooks(a: Acc, id: nat, m: nat, t: real)
    requires Books(a, id, m) && Window(a)
    ensures Books(OnOther(a, t), id, m) && Window(OnOther(a, t))
  {
    TotalSame(a.transfer, Stamp(a.transfer, t));
    forall x | 0 <= x < m ensures Row(OnOther(a, t), id, x) {
      assert Row(a, id, x);
    }
  }

  /** Writes to server x in flight or completed but not yet polled. */
  function Outstanding(a: Acc, x: nat): int
    requires x < |a.posted| && x < |a.polled|
  {
    a.posted[x] as int - a.polled[x] as int
  }

  /** The window is exact except for the client's own id, where every polled completion of a
      report send is mistaken for a write and answered by one write too many. */
  lemma WindowExact(a: Acc, id: nat, m: nat, x: nat)
    requires Books(a, id, m) && Window(a) && x < m
    ensures a.posted[x] == 10 + a.transfer[x].completions
    ensures a.posted[x] == a.polled[x] + 10 + (if x == id then a.echoes else 0)
    ensures Outstanding(a, x) == 10 + (if x == id then a.echoes else 0)
    ensures a.transfer[x].completions - a.polled[x] == (if x == id then a.echoes else 0)
    ensures a.queued == 10 + Total(a.transfer)
  {
    assert Row(a, id, x);
  }

  // ---------- telescoping of the reports

  function SumCompletions(log: seq<Entry>, x: nat): int
    requires forall q | 0 <= q < |log| :: x < |log[q].rows|
  {
    if log == [] then 0 else SumCompletions(log[..|log| - 1], x) + log[|log| - 1].rows[x].completions
  }

  function SumSeconds(log: seq<Entry>, x: nat): real
    requires forall q | 0 <= q < |log| :: x < |log[q].rows|
  {
    if log == [] then 0.0 else SumSeconds(log[..|log| - 1], x) + log[|log| - 1].rows[x].deltaSec
  }

  predicate RowsOf(rows: seq<Transfer>, id: nat, m: nat) {
    |rows| == m && forall x | 0 <= x < m :: rows[x].from == id && rows[x].to == x && rows[x].completions >= 0
  }

  /** The checkpoint reports add up to temp: completions and seconds alike. */
  predicate Telescopes(a: Acc, log: seq<Entry>, id: nat, m: nat) {
    && |a.temp| == m && |a.recent| == m
    && (forall q | 0 <= q < |log| :: RowsOf(log[q].rows, id, m) && |log[q].recent| == m)
    && (forall q, x | 0 <= q < |log| && 0 <= x < m :: log[q].rows[x].completions == log[q].recent[x])
    && (forall x | 0 <= x < m ::
          SumCompletions(log, x) == a.temp[x].completions && SumSeconds(log, x) == a.temp[x].timeSec)
  }

  lemma CheckpointTelescopes(a: Acc, log: seq<Entry>, id: nat, m: nat, t: real)
    requires Books(a, id, m) && Telescopes(a, log, id, m)
    ensures var b := OnCheckpoint(a, t); Telescopes(b, log + [Entry(b.delta, a.recent)], id, m)
  {
    var b := OnCheckpoint(a, t);
    var ext := log + [Entry(b.delta, a.recent)];
    assert ext[..|ext| - 1] == log;
    forall x | 0 <= x < m
      ensures b.delta[x].from == id && b.delta[x].to == x && b.delta[x].completions == a.recent[x]
    {
      assert Row(a, id, x);
    }
    forall x | 0 <= x < m
      ensures SumCompletions(ext, x) == b.temp[x].completions && SumSeconds(ext, x) == b.temp[x].timeSec
    {
      assert Row(a, id, x);
    }
  }

  /** The final report: totals, which exceed the checkpoint sums by what was counted since. */
  predicate Final(a: Acc, e: Entry, id: nat, m: nat) {
    && |a.temp| == m && RowsOf(e.rows, id, m) && |e.recent| == m
    && forall x | 0 <= x < m :: e.rows[x].completions == a.temp[x].completions + e.recent[x]
  }

  lemma StopFinal(a: Acc, id: nat, m: nat, t: real)
    requires Books(a, id, m)
    ensures var b := OnStop(a, t); Final(b, Entry(b.delta, a.recent), id, m)
  {
    var b := OnStop(a, t);
    forall x | 0 <= x < m
      ensures b.delta[x].completions == b.temp[x].completions + a.recent[x]
      ensures b.delta[x].from == id && b.delta[x].to == x && b.delta[x].completions >= 0
    {
      assert Row(a, id, x);
    }
  }
}
