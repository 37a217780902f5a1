/** The clock in the reports: every record of every report carries the reading the client took when it
    handled the command. */
module ClockRuns {
  import opened Wire
  import opened Accounting
  import opened Protocol
  import opened Invariant
  import opened Ledger
  import KeepClient
  import Results

  /** The clock readings of the commands client i has handled, in order. */
  function Readings(c: Config, init: State, run: seq<Action>, i: nat): seq<real>
    requires Exec(c, init, run).Some?
  {
    if run == [] then [] else
    var before, a := Readings(c, init, run[..|run| - 1], i), run[|run| - 1];
    if a.ByCli? && a.cli.AServe? && a.cli.i == i then before + [a.cli.t] else before
  }

  /** The time a checkpoint's delta is counted from: the reading before, or the start. */
  function Since(times: seq<real>, q: nat): real
    requires q <= |times|
  {
    if q == 0 then 0.0 else times[q - 1]
  }

  /** Report q of a client: k checkpoints, then the totals. */
  predicate Timed(c: Config, row: Transfer, times: seq<real>, q: nat)
    requires q < |times|
  {
    row.timeSec == times[q] && row.deltaSec == times[q] - (if q < c.k then Since(times, q) else 0.0)
  }

  predicate Stamped(c: Config, acc: Acc, log: seq<Entry>, times: seq<real>) {
    && |log| == |times| <= c.k + 1 && |acc.temp| == c.m
    && (forall q | 0 <= q < |log| :: |log[q].rows| == c.m)
    && (forall q, x | 0 <= q < |log| && 0 <= x < c.m :: Timed(c, log[q].rows[x], times, q))
    && (forall x | 0 <= x < c.m :: acc.temp[x].timeSec == Since(times, if |times| <= c.k then |times| else c.k))
  }

  // ---------- steps

  lemma StampedServe(c: Config, cl: Client, h: nat, t: real, times: seq<real>)
    requires cl.pc == Loop(h) && h <= c.k && |cl.log| == h && Sized(cl.acc, c.m) && Stamped(c, cl.acc, cl.log, times)
    ensures var r := Served(cl, Cmd(KeepClient.NextCmd(c, h)), t); Stamped(c, r.acc, r.log, times + [t])
  {
  }

  lemma StampedElse(c: Config, a: Acc, b: Acc, log: seq<Entry>, times: seq<real>)
    requires Stamped(c, a, log, times) && b.temp == a.temp
    ensures Stamped(c, b, log, times)
  {
  }

  /** Only handling a command touches temp and the log. */
  lemma OwnElse(c: Config, s: State, a: CliAct)
    requires CanCli(c, s, a) && !a.AServe? && a.i < |s.clients| && a.i < |NextCli(c, s, a).clients|
    ensures var cl, r := s.clients[a.i], NextCli(c, s, a).clients[a.i]; r.acc.temp == cl.acc.temp && r.log == cl.log
  {
  }

  lemma OtherElse(c: Config, s: State, a: Action, i: nat)
    requires Can(c, s, a) && i < |s.clients| && !(a.ByCli? && a.cli.AServe? && a.cli.i == i)
    ensures i < |Next(c, s, a).clients|
    ensures var cl, r := s.clients[i], Next(c, s, a).clients[i]; r.acc.temp == cl.acc.temp && r.log == cl.log
  {
    match a
    case ByFabric(x) => FabricAccounts(c, s, x);
    case ByCtrl(x) => CtrlAccounts(c, s, x);
    case ByCli(x) => CliOthers(c, s, x); if x.i == i { OwnElse(c, s, x); }
    case ByServer(x) => ServerAccounts(c, s, x);
  }

  ghost predicate StampedAt(c: Config, s: State, i: nat, times: seq<real>) {
    i < |s.clients| && Stamped(c, s.clients[i].acc, s.clients[i].log, times)
  }

  lemma ServeStep(c: Config, s: State, i: nat, u: Link, t: real, times: seq<real>)
    requires Full(c, s) && CanServe(s, i, u) && StampedAt(c, s, i, times)
    ensures StampedAt(c, Serve(s, i, u, t), i, times + [t])
  {
    CommandRead(c, s, i, u);
    assert Account(c, i, s.clients[i]) && CliPcOk(c, i, s.clients[i].pc);
    StampedServe(c, s.clients[i], s.clients[i].pc.h, t, times);
    ServedIs(c, s, i, t);
  }

  lemma ServedIs(c: Config, s: State, i: nat, t: real)
    requires CanServe(s, i, Cc(i)) && s.eps[Cc(i)].buff == Cmd(KeepClient.NextCmd(c, s.clients[i].pc.h))
    ensures var r := Serve(s, i, Cc(i), t);
      i < |r.clients| && r.clients[i] == Served(s.clients[i], Cmd(KeepClient.NextCmd(c, s.clients[i].pc.h)), t)
  {
  }

  lemma {:induction false} StampedRun(c: Config, init: State, run: seq<Action>, i: nat)
    requires Sane(c) && Begin(c, init) && Exec(c, init, run).Some? && i < c.n
    ensures StampedAt(c, Exec(c, init, run).value, i, Readings(c, init, run, i))
  {
    if run == [] {
      assert Initial(init.clients[i].acc, i, c.m);
    } else {
      var n := |run| - 1;
      StampedRun(c, init, run[..n], i);
      FullRun(c, init, run[..n]);
      StampedStep(c, Exec(c, init, run[..n]).value, run[n], i, Readings(c, init, run[..n], i));
    }
  }

  lemma StampedStep(c: Config, s: State, a: Action, i: nat, times: seq<real>)
    requires Full(c, s) && Can(c, s, a) && StampedAt(c, s, i, times)
    ensures StampedAt(c, Next(c, s, a), i,
                      if a.ByCli? && a.cli.AServe? && a.cli.i == i then times + [a.cli.t] else times)
  {
    if a.ByCli? && a.cli.AServe? && a.cli.i == i {
      ServeStep(c, s, i, a.cli.u, a.cli.t, times);
    } else {
      OtherElse(c, s, a, i);
      StampedElse(c, s.clients[i].acc, Next(c, s, a).clients[i].acc, s.clients[i].log, times);
    }
  }

  // ---------- results

  /** In every run, record x of report q of client i carries the clock reading of its q-th command; a
      checkpoint's delta is the time since the reading before it, or since the start, and the totals'
      is the time since the start. */
  lemma ReportsTimed(c: Config, init: State, run: seq<Action>, s: State, i: nat, q: nat, x: nat)
    requires Sane(c) && Begin(c, init) && Exec(c, init, run) == Some(s) && i < c.n && x < c.m
    requires i < |s.clients| && q < |s.clients[i].log|
    ensures var times, rows := Readings(c, init, run, i), s.clients[i].log[q].rows;
      && |times| == |s.clients[i].log| && x < |rows| && rows[x].timeSec == times[q]
      && rows[x].deltaSec == if q < c.k && q > 0 then times[q] - times[q - 1] else times[q]
  {
    StampedRun(c, init, run, i);
    assert Timed(c, s.clients[i].log[q].rows[x], Readings(c, init, run, i), q);
  }

  /** So the time deltas of the checkpoints read out for a pair sum to the reading of the last one, and
      the summary carries the reading of the STOP. */
  lemma TimesAddUp(c: Config, init: State, run: seq<Action>, s: State, i: nat, j: nat)
    requires Sane(c) && Begin(c, init) && Exec(c, init, run) == Some(s) && i < c.n && j < c.m
    requires s.ctl.Closing? || s.ctl.Finished?
    ensures var times, x := Readings(c, init, run, i), Results.Cell(c, i, j);
      && |times| == c.k + 1 && |s.readouts| == c.k && (forall q | 0 <= q < c.k :: x < |s.readouts[q]|)
          && x < |s.summary|
      && Results.SumTimes(s.readouts, x) == (if c.k == 0 then 0.0 else times[c.k - 1])
      && s.summary[x].timeSec == s.summary[x].deltaSec == times[c.k]
  {
    StampedRun(c, init, run, i);
    FullRun(c, init, run);
    Results.EndToEnd(c, s, i, j);
    Results.SummaryCell(c, s, i, j);
    ReportsTimed(c, init, run, s, i, c.k, j);
  }

  /** And so does every checkpoint read out: its own reading, and the time since the one before. */
  lemma ReadOutTimed(c: Config, init: State, run: seq<Action>, s: State, q: nat, i: nat, j: nat)
    requires Sane(c) && Begin(c, init) && Exec(c, init, run) == Some(s) && i < c.n && j < c.m && q < |s.readouts|
    ensures var times, x := Readings(c, init, run, i), Results.Cell(c, i, j);
      && q < |times| && x < |s.readouts[q]| && s.readouts[q][x].timeSec == times[q]
      && s.readouts[q][x].deltaSec == times[q] - (if q > 0 then times[q - 1] else 0.0)
  {
    Results.ReadOut(c, s, q, i, j);
    FullRun(c, init, run);
    Results.ReadsWithin(c, s);
    ReportsTimed(c, init, run, s, i, q, j);
  }
}
