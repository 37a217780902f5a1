/** What the controller ends up with: every matrix is complete, and the checkpoints add up. */
module Results {
  import opened Wire
  import opened Accounting
  import opened Protocol
  import opened Ledger
  import opened Safety
  import Gathering

  /** Position of pair (i, j) in the row-major matrices. */
  function Cell(c: Config, i: nat, j: nat): nat { i * c.m + j }

  lemma CellOf(c: Config, a: seq<Transfer>, i: nat, row: seq<Transfer>, j: nat)
    requires Holds(c, a, i, row) && j < c.m
    ensures Cell(c, i, j) < |a| && a[Cell(c, i, j)] == row[j]
  {
    assert a[i * c.m..i * c.m + c.m][j] == a[i * c.m + j];
  }

  /** Every matrix read out after a checkpoint holds, at row i and column j, what client i reported
      for server j in that checkpoint: the completions it counted since the one before. */
  lemma ReadOut(c: Config, s: State, q: nat, i: nat, j: nat)
    requires Sane(c) && Reachable(c, s) && q < |s.readouts| && i < c.n && j < c.m
    ensures i < |s.clients| && q < |s.clients[i].log| && j < |s.clients[i].log[q].rows|
        && j < |s.clients[i].log[q].recent|
    ensures |s.readouts[q]| == c.n * c.m && Cell(c, i, j) < |s.readouts[q]|
    ensures var t := s.readouts[q][Cell(c, i, j)];
      && t == s.clients[i].log[q].rows[j] && t.from == i && t.to == j
      && t.completions == s.clients[i].log[q].recent[j] >= 0
  {
    FullReachable(c, s);
    ReadsWithin(c, s);
    assert Account(c, i, s.clients[i]);
    ReadCell(c, s, q, i, j);
    CheckpointRow(c, i, s.clients[i], q, j);
  }

  lemma ReadCell(c: Config, s: State, q: nat, i: nat, j: nat)
    requires Matrices(c, s) && q < |s.readouts| && i < |s.clients| && j < c.m
    ensures q < |s.clients[i].log| && j < |s.clients[i].log[q].rows|
    ensures |s.readouts[q]| == c.n * c.m && Cell(c, i, j) < |s.readouts[q]|
    ensures s.readouts[q][Cell(c, i, j)] == s.clients[i].log[q].rows[j]
  {
    assert Records(c, s, s.readouts[q], i, q);
    CellOf(c, s.readouts[q], i, s.clients[i].log[q].rows, j);
  }

  lemma ReadsWithin(c: Config, s: State)
    requires Full(c, s)
    ensures |s.readouts| <= c.k && |s.clients| == c.n
  {
  }

  lemma CheckpointRow(c: Config, i: nat, cl: Client, q: nat, j: nat)
    requires Account(c, i, cl) && q < |cl.log| && q < c.k && j < c.m
    ensures |cl.log[q].rows| == c.m == |cl.log[q].recent|
    ensures cl.log[q].rows[j].from == i && cl.log[q].rows[j].to == j
    ensures cl.log[q].rows[j].completions == cl.log[q].recent[j]
  {
    FullRows(c, i, cl, q);
    var checks := if |cl.log| <= c.k then cl.log else cl.log[..c.k];
    assert checks[q] == cl.log[q];
    assert Telescopes(cl.acc, checks, i, c.m);
  }

  /** So a line printed for a checkpoint names its client and server and has the bytes of what the client
      counted for that server since the checkpoint before. */
  lemma Printed(c: Config, s: State, q: nat, i: nat, j: nat, msgSize: nat, l: Gathering.Line)
    requires Sane(c) && Reachable(c, s) && q < |s.readouts| && i < c.n && j < c.m
    requires Cell(c, i, j) < |s.readouts[q]| && Gathering.Prints(l, s.readouts[q][Cell(c, i, j)], c.n, c.m, msgSize)
    ensures i < |s.clients| && q < |s.clients[i].log| && j < |s.clients[i].log[q].recent|
    ensures l.from == i && l.to == j && l.completions == s.clients[i].log[q].recent[j]
    ensures l.bytes == s.clients[i].log[q].recent[j] * msgSize
    ensures l.gigabit * 1000000000.0 == (8 * l.bytes) as real
    ensures l.deltaSec != 0.0 ==> l.throughput.Some? && l.throughput.value * l.deltaSec == l.gigabit
  {
    ReadOut(c, s, q, i, j);
    LineSays(s.readouts[q][Cell(c, i, j)], c.n, c.m, msgSize, l);
  }

  lemma LineSays(t: Transfer, n: nat, m: nat, msgSize: nat, l: Gathering.Line)
    requires Gathering.Prints(l, t, n, m, msgSize)
    ensures l.from == t.from && l.to == t.to && l.completions == t.completions && l.bytes == t.completions * msgSize
    ensures l.gigabit * 1000000000.0 == (8 * l.bytes) as real
    ensures l.deltaSec != 0.0 ==> l.throughput.Some? && l.throughput.value * l.deltaSec == l.gigabit
  {
  }

  // ---------- telescoping

  function SumCells(mats: seq<seq<Transfer>>, x: nat): int
    requires forall q | 0 <= q < |mats| :: x < |mats[q]|
  {
    if mats == [] then 0 else SumCells(mats[..|mats| - 1], x) + mats[|mats| - 1][x].completions
  }

  function SumTimes(mats: seq<seq<Transfer>>, x: nat): real
    requires forall q | 0 <= q < |mats| :: x < |mats[q]|
  {
    if mats == [] then 0.0 else SumTimes(mats[..|mats| - 1], x) + mats[|mats| - 1][x].deltaSec
  }

  lemma {:induction false} SumsAgree(mats: seq<seq<Transfer>>, log: seq<Entry>, x: nat, j: nat)
    requires |mats| == |log|
    requires forall q | 0 <= q < |log| :: x < |mats[q]| && j < |log[q].rows| && mats[q][x] == log[q].rows[j]
    ensures SumCells(mats, x) == SumCompletions(log, j) && SumTimes(mats, x) == SumSeconds(log, j)
  {
    if mats != [] {
      SumsAgree(mats[..|mats| - 1], log[..|log| - 1], x, j);
    }
  }

  /** For every pair (i, j): the checkpoint deltas the controller read out sum to what the client
      had counted at the last checkpoint, the final total is never below that sum, and exceeds it
      by exactly the completions counted between the last checkpoint and STOP. The time deltas sum
      to the time of the last checkpoint. */
  lemma EndToEnd(c: Config, s: State, i: nat, j: nat)
    requires Sane(c) && Reachable(c, s) && (s.ctl.Closing? || s.ctl.Finished?) && i < c.n && j < c.m
    ensures i < |s.clients| && j < |s.clients[i].acc.temp| && |s.clients[i].log| == c.k + 1
        && j < |s.clients[i].log[c.k].recent|
    ensures var x := Cell(c, i, j);
      && |s.readouts| == c.k && (forall q | 0 <= q < |s.readouts| :: x < |s.readouts[q]|) && x < |s.summary|
      && SumCells(s.readouts, x) == s.clients[i].acc.temp[j].completions
      && SumTimes(s.readouts, x) == s.clients[i].acc.temp[j].timeSec
      && s.summary[x].from == i && s.summary[x].to == j
      && s.summary[x].completions == SumCells(s.readouts, x) + s.clients[i].log[c.k].recent[j]
      && 0 <= SumCells(s.readouts, x) <= s.summary[x].completions
  {
    FullReachable(c, s);
    ReadsWithin(c, s);
    AllReported(c, s, i);
    assert Account(c, i, s.clients[i]);
    AddsUp(c, s, i, j);
  }

  lemma AddsUp(c: Config, s: State, i: nat, j: nat)
    requires Matrices(c, s) && (s.ctl.Closing? || s.ctl.Finished?) && i < |s.clients| && j < c.m
    requires Account(c, i, s.clients[i]) && |s.clients[i].log| == c.k + 1
    ensures |s.clients[i].acc.temp| == c.m == |s.clients[i].log[c.k].recent|
    ensures var x := Cell(c, i, j);
      && |s.readouts| == c.k && (forall q | 0 <= q < |s.readouts| :: x < |s.readouts[q]|) && x < |s.summary|
      && SumCells(s.readouts, x) == s.clients[i].acc.temp[j].completions >= 0
      && SumTimes(s.readouts, x) == s.clients[i].acc.temp[j].timeSec
      && s.summary[x].from == i && s.summary[x].to == j
      && s.summary[x].completions == SumCells(s.readouts, x) + s.clients[i].log[c.k].recent[j]
  {
    var x, log := Cell(c, i, j), s.clients[i].log;
    forall q | 0 <= q < c.k ensures x < |s.readouts[q]| && j < |log[..c.k][q].rows|
        && s.readouts[q][x] == log[..c.k][q].rows[j] {
      ReadCell(c, s, q, i, j);
    }
    Totals(c, i, s.clients[i], j);
    SumsAgree(s.readouts, log[..c.k], x, j);
    SummaryCell(c, s, i, j);
  }

  lemma SummaryCell(c: Config, s: State, i: nat, j: nat)
    requires Matrices(c, s) && (s.ctl.Closing? || s.ctl.Finished?) && i < |s.clients| && j < c.m
    ensures c.k < |s.clients[i].log| && j < |s.clients[i].log[c.k].rows| && Cell(c, i, j) < |s.summary|
    ensures s.summary[Cell(c, i, j)] == s.clients[i].log[c.k].rows[j]
  {
    assert Records(c, s, s.summary, i, c.k);
    CellOf(c, s.summary, i, s.clients[i].log[c.k].rows, j);
  }

  lemma Totals(c: Config, i: nat, cl: Client, j: nat)
    requires Account(c, i, cl) && |cl.log| == c.k + 1 && j < c.m
    ensures |cl.acc.temp| == c.m && cl.acc.temp[j].completions >= 0
    ensures |cl.log[c.k].rows| == c.m == |cl.log[c.k].recent|
    ensures cl.log[c.k].rows[j].from == i && cl.log[c.k].rows[j].to == j
    ensures cl.log[c.k].rows[j].completions == cl.acc.temp[j].completions + cl.log[c.k].recent[j]
    ensures forall q | 0 <= q < c.k :: j < |cl.log[..c.k][q].rows|
    ensures SumCompletions(cl.log[..c.k], j) == cl.acc.temp[j].completions
    ensures SumSeconds(cl.log[..c.k], j) == cl.acc.temp[j].timeSec
  {
    assert Final(cl.acc, cl.log[c.k], i, c.m);
    assert Telescopes(cl.acc, cl.log[..c.k], i, c.m);
    assert Row(cl.acc, i, j);
  }
}
