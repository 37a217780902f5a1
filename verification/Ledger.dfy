/** The second layer of the invariant: what the counters, reports and matrices contain. */
module Ledger {
  import opened Wire
  import opened Accounting
  import opened Protocol
  import opened Invariant
  import opened Facts
  import KeepClient
  import KeepController
  import opened Runs

  // ---------- one client's account

  predicate Waiting(pc: CliPc) {
    !pc.Fill? && !pc.Loop? && !pc.LastPoll? && !pc.CliDone? && !pc.Crashed?
  }

  /** Reports sent so far: h checkpoints, or k checkpoints and the totals. */
  predicate Reported(c: Config, i: nat, acc: Acc, log: seq<Entry>, h: nat) {
    && |log| == h <= c.k + 1
    && Telescopes(acc, if h <= c.k then log else log[..c.k], i, c.m)
    && (h == c.k + 1 ==> Final(acc, log[c.k], i, c.m))
  }

  predicate Account(c: Config, i: nat, cl: Client) {
    && Books(cl.acc, i, c.m) && (i >= c.m ==> cl.acc.echoes == 0)
    && (Waiting(cl.pc) ==> Filling(cl.acc, 0, 0) && cl.sends == (if cl.pc == AwaitTx then 1 else 0)
                           && Reported(c, i, cl.acc, cl.log, 0))
    && (cl.pc.Fill? ==> Filling(cl.acc, cl.pc.r, cl.pc.j) && cl.sends == 0 && Reported(c, i, cl.acc, cl.log, 0))
    && (cl.pc.Loop? || cl.pc == LastPoll || cl.pc == CliDone ==>
          && Window(cl.acc) && cl.acc.echoes + cl.sends == |cl.log|
          && Reported(c, i, cl.acc, cl.log, Handled(c, cl.pc)))
    && (cl.pc.Crashed? ==>
          && Window(cl.acc) && cl.acc.echoes + cl.sends + 1 == |cl.log| && i >= c.m
          && Reported(c, i, cl.acc, cl.log, cl.pc.h))
  }

  ghost predicate Accounts(c: Config, s: State) {
    forall i | 0 <= i < |s.clients| :: Account(c, i, s.clients[i])
  }

  /** Only a client that was told to start has posted writes. */
  lemma WritesMeanStarted(c: Config, i: nat, cl: Client, x: nat)
    requires Account(c, i, cl) && x < |cl.acc.posted| && cl.acc.posted[x] > 0
    ensures CliConsumed(c, cl.pc) >= 3
  {
  }

  lemma AccountsBegin(c: Config, s: State)
    requires Begin(c, s)
    ensures Accounts(c, s)
  {
    forall i | 0 <= i < |s.clients| ensures Account(c, i, s.clients[i]) {
      InitialBooks(s.clients[i].acc, i, c.m);
    }
  }

  lemma AccountFill(c: Config, i: nat, cl: Client)
    requires Sane(c) && Account(c, i, cl) && cl.pc.Fill? && CliPcOk(c, i, cl.pc)
    ensures Account(c, i, cl.(pc := NextFill(c, cl.pc.r, cl.pc.j), acc := Post(cl.acc, cl.pc.j)))
  {
    FilledOne(cl.acc, i, c.m, cl.pc.r, cl.pc.j);
  }

  lemma ReportedLater(c: Config, i: nat, a: Acc, b: Acc, log: seq<Entry>, h: nat)
    requires Reported(c, i, a, log, h) && b.temp == a.temp && |b.recent| == |a.recent|
    ensures Reported(c, i, b, log, h)
  {
  }

  lemma AccountPoll(c: Config, i: nat, cl: Client, w: Tx)
    requires Account(c, i, cl) && (cl.pc.Loop? || cl.pc == LastPoll) && CliPcOk(c, i, cl.pc)
    requires if w.Write? then w.j < c.m && cl.acc.polled[w.j] < cl.acc.posted[w.j] else cl.sends > 0
    ensures Account(c, i, Polled(c, i, cl, w))
  {
    var id := TxId(i, w);
    if id < c.m {
      CompleteBooks(cl.acc, i, c.m, id, w.Write?);
      ReportedLater(c, i, cl.acc, Complete(cl.acc, id, w.Write?), cl.log, Handled(c, cl.pc));
    }
  }

  lemma AccountCheckpoint(c: Config, i: nat, cl: Client, t: real)
    requires Account(c, i, cl) && cl.pc.Loop? && cl.pc.h < c.k
    ensures Account(c, i, Served(cl, Cmd(Checkpoint), t))
  {
    CheckpointBooks(cl.acc, i, c.m, t);
    CheckpointTelescopes(cl.acc, cl.log, i, c.m, t);
  }

  lemma AccountStop(c: Config, i: nat, cl: Client, t: real)
    requires Account(c, i, cl) && cl.pc.Loop? && cl.pc.h == c.k
    ensures Account(c, i, Served(cl, Cmd(Stop), t))
  {
    StopBooks(cl.acc, i, c.m, t);
    StopFinal(cl.acc, i, c.m, t);
    var b := OnStop(cl.acc, t);
    assert (cl.log + [Entry(b.delta, cl.acc.recent)])[..c.k] == cl.log;
    ReportedLater(c, i, cl.acc, b, cl.log, c.k);
  }

  // ---------- steps

  /** Nothing in the account of a client moves. */
  predicate SameAccount(a: Client, b: Client) {
    && b.acc == a.acc && b.log == a.log && b.sends == a.sends
    && (b.pc == a.pc || (Waiting(a.pc) && Waiting(b.pc) && a.pc != AwaitTx && b.pc != AwaitTx))
  }

  lemma AccountsBut(c: Config, s: State, r: State, i: nat)
    requires Accounts(c, s) && |r.clients| == |s.clients|
    requires forall x | 0 <= x < |s.clients| && x != i :: SameAccount(s.clients[x], r.clients[x])
    requires i < |s.clients| ==> SameAccount(s.clients[i], r.clients[i]) || Account(c, i, r.clients[i])
    ensures Accounts(c, r)
  {
    forall x | 0 <= x < |r.clients| ensures Account(c, x, r.clients[x]) {
      assert Account(c, x, s.clients[x]);
    }
  }

  predicate SameAccounts(s: State, r: State) {
    |r.clients| == |s.clients| && forall x | 0 <= x < |s.clients| :: SameAccount(s.clients[x], r.clients[x])
  }

  lemma FabricAccounts(c: Config, s: State, a: FabricAct)
    requires CanFabric(c, s, a)
    ensures SameAccounts(s, NextFabric(c, s, a))
  {
  }

  lemma CtrlAccounts(c: Config, s: State, a: CtrlAct)
    requires CanCtrl(c, s, a)
    ensures NextCtrl(c, s, a).clients == s.clients
  {
  }

  lemma ServerAccounts(c: Config, s: State, a: ServerAct)
    requires CanServer(c, s, a)
    ensures NextServer(c, s, a).clients == s.clients
  {
  }

  lemma CommandRead(c: Config, s: State, i: nat, u: Link)
    requires Core(c, s) && CanServe(s, i, u)
    ensures u == Cc(i) && s.eps[u].buff == Cmd(KeepClient.NextCmd(c, s.clients[i].pc.h))
  {
    KeepClient.OnlyDue(c, s, i, u);
    KeepClient.At(c, s, i, 0);
    KeepClient.Commanded(c, s, i);
  }

  lemma ServeAccount(c: Config, s: State, i: nat, t: real)
    requires CanServe(s, i, Cc(i)) && Account(c, i, s.clients[i]) && s.clients[i].pc.h <= c.k
    requires s.eps[Cc(i)].buff == Cmd(KeepClient.NextCmd(c, s.clients[i].pc.h))
    ensures var r := Serve(s, i, Cc(i), t); |r.clients| == |s.clients| && Account(c, i, r.clients[i])
    ensures forall x | 0 <= x < |s.clients| && x != i :: Serve(s, i, Cc(i), t).clients[x] == s.clients[x]
  {
    var cl := s.clients[i];
    if cl.pc.h < c.k { AccountCheckpoint(c, i, cl, t); } else { AccountStop(c, i, cl, t); }
  }

  lemma CliOthers(c: Config, s: State, a: CliAct)
    requires CanCli(c, s, a)
    ensures var r := NextCli(c, s, a);
      && |r.clients| == |s.clients| && a.i < |s.clients|
      && forall x | 0 <= x < |s.clients| && x != a.i :: r.clients[x] == s.clients[x]
  {
  }

  /** Before the benchmark. */
  lemma CliIdle(c: Config, s: State, a: CliAct)
    requires CanCli(c, s, a) && a.i < |s.clients| && a.i < |NextCli(c, s, a).clients|
    requires !a.AFill? && !a.APoll? && !a.AServe? && !a.AQuit? && !a.AConfirm? && !a.ACliTx? && !a.ACliPost?
    ensures SameAccount(s.clients[a.i], NextCli(c, s, a).clients[a.i])
  {
  }

  lemma CliTalking(c: Config, s: State, a: CliAct)
    requires CanCli(c, s, a) && a.i < |s.clients| && Account(c, a.i, s.clients[a.i]) && a.i < |NextCli(c, s, a).clients|
    requires a.AConfirm? || a.ACliTx? || a.ACliPost?
    ensures Account(c, a.i, NextCli(c, s, a).clients[a.i])
  {
  }

  lemma CliCounting(c: Config, s: State, a: CliAct)
    requires Sane(c) && CanCli(c, s, a) && a.i < |s.clients| && Account(c, a.i, s.clients[a.i])
    requires CliPcOk(c, a.i, s.clients[a.i].pc) && a.i < |NextCli(c, s, a).clients|
    requires a.AFill? || a.APoll? || a.AQuit?
    ensures Account(c, a.i, NextCli(c, s, a).clients[a.i])
  {
    match a
    case AFill(i) => AccountFill(c, i, s.clients[i]);
    case APoll(i, w) => AccountPoll(c, i, s.clients[i], w);
    case _ =>
  }

  lemma CliAccounts(c: Config, s: State, a: CliAct)
    requires Core(c, s) && Accounts(c, s) && CanCli(c, s, a)
    ensures Accounts(c, NextCli(c, s, a))
  {
    CliOthers(c, s, a);
    assert Account(c, a.i, s.clients[a.i]) && CliPcOk(c, a.i, s.clients[a.i].pc);
    if a.AServe? {
      CommandRead(c, s, a.i, a.u);
      ServeAccount(c, s, a.i, a.t);
    } else if a.AFill? || a.APoll? || a.AQuit? {
      CliCounting(c, s, a);
    } else if a.AConfirm? || a.ACliTx? || a.ACliPost? {
      CliTalking(c, s, a);
    } else {
      CliIdle(c, s, a);
    }
    AccountsBut(c, s, NextCli(c, s, a), a.i);
  }

  lemma KeepAccounts(c: Config, s: State, a: Action)
    requires Core(c, s) && Accounts(c, s) && Can(c, s, a)
    ensures Accounts(c, Next(c, s, a))
  {
    match a
    case ByFabric(x) => FabricAccounts(c, s, x); AccountsBut(c, s, Next(c, s, a), |s.clients|);
    case ByCtrl(x) => CtrlAccounts(c, s, x);
    case ByCli(x) => CliAccounts(c, s, x);
    case ByServer(x) => ServerAccounts(c, s, x);
  }

  // ---------- matrices

  /** Row i of matrix a is `row`. */
  predicate Holds(c: Config, a: seq<Transfer>, i: nat, row: seq<Transfer>) {
    |row| == c.m && i * c.m + c.m <= |a| && a[i * c.m..i * c.m + c.m] == row
  }

  lemma RowsApart(m: nat, i: nat, x: nat)
    requires i < x
    ensures i * m + m <= x * m
  {
    assert (i + 1) * m <= x * m;
  }

  lemma Fits(c: Config, i: nat)
    requires i < c.n
    ensures i * c.m + c.m <= c.n * c.m
  {
    RowsApart(c.m, i, c.n);
  }

  lemma PutHere(a: seq<Transfer>, at: nat, row: seq<Transfer>, m: nat)
    requires |row| == m && at + m <= |a|
    ensures |PutAt(a, at, row)| == |a| && PutAt(a, at, row)[at..at + m] == row
  {
  }

  lemma PutElsewhere(a: seq<Transfer>, at: nat, row: seq<Transfer>, m: nat, to: nat)
    requires |row| == m && at + m <= |a| && to + m <= |a| && (to + m <= at || at + m <= to)
    ensures |PutAt(a, at, row)| == |a| && PutAt(a, at, row)[to..to + m] == a[to..to + m]
  {
  }

  lemma EitherSide(m: nat, i: nat, x: nat)
    requires x != i
    ensures x * m + m <= i * m || i * m + m <= x * m
  {
    if x < i { RowsApart(m, x, i); } else { RowsApart(m, i, x); }
  }

  /** Storing one row keeps every other row. */
  lemma Stored(c: Config, a: seq<Transfer>, i: nat, row: seq<Transfer>, x: nat, other: seq<Transfer>)
    requires |row| == c.m && i * c.m + c.m <= |a|
    ensures Holds(c, StoreRow(a, c.m, i, row), i, row) && |StoreRow(a, c.m, i, row)| == |a|
    ensures x != i && Holds(c, a, x, other) ==> Holds(c, StoreRow(a, c.m, i, row), x, other)
  {
    StoredHere(c, a, i, row);
    if x != i && Holds(c, a, x, other) { StoredElsewhere(c, a, i, row, x); }
  }

  lemma StoredHere(c: Config, a: seq<Transfer>, i: nat, row: seq<Transfer>)
    requires |row| == c.m && i * c.m + c.m <= |a|
    ensures Holds(c, StoreRow(a, c.m, i, row), i, row) && |StoreRow(a, c.m, i, row)| == |a|
  {
    PutHere(a, i * c.m, row, c.m);
  }

  lemma StoredElsewhere(c: Config, a: seq<Transfer>, i: nat, row: seq<Transfer>, x: nat)
    requires |row| == c.m && i * c.m + c.m <= |a| && x * c.m + c.m <= |a| && x != i
    ensures |StoreRow(a, c.m, i, row)| == |a|
    ensures StoreRow(a, c.m, i, row)[x * c.m..x * c.m + c.m] == a[x * c.m..x * c.m + c.m]
  {
    EitherSide(c.m, i, x);
    PutElsewhere(a, i * c.m, row, c.m, x * c.m);
  }

  /** Completed checkpoints. */
  function Reads(c: Config, pc: CtlPc): nat {
    match pc
    case Round(p, _, _) => if p >= 3 then p - 3 else 0
    case Closing(_) => c.k
    case Finished => c.k
    case _ => 0
  }

  /** The matrix that round p fills. */
  function Filled(c: Config, s: State, p: nat): seq<Transfer> {
    if p < LastRound(c) then s.checkpoint else s.summary
  }

  /** Row i of matrix a is report q of client i. */
  predicate Records(c: Config, s: State, a: seq<Transfer>, i: nat, q: nat)
    requires i < |s.clients|
  {
    q < |s.clients[i].log| && Holds(c, a, i, s.clients[i].log[q].rows)
  }

  ghost predicate Matrices(c: Config, s: State) {
    && |s.checkpoint| == |s.summary| == c.n * c.m && |s.readouts| == Reads(c, s.ctl)
    && (forall q | 0 <= q < |s.readouts| :: |s.readouts[q]| == c.n * c.m)
    && (forall q, i | 0 <= q < |s.readouts| && 0 <= i < |s.clients| :: Records(c, s, s.readouts[q], i, q))
    && (s.ctl.Round? && s.ctl.stage == Gathering && s.ctl.p >= 3 ==>
          forall i | 0 <= i < |s.clients| && i < |s.ports| && s.ports[i].taken == s.ctl.p - 1 ::
            Records(c, s, Filled(c, s, s.ctl.p), i, s.ctl.p - 3))
    && (s.ctl.Closing? || s.ctl.Finished? ==> forall i | 0 <= i < |s.clients| :: Records(c, s, s.summary, i, c.k))
  }

  /** Reports may be added, nothing recorded is lost. */
  lemma MatricesGrow(c: Config, s: State, r: State)
    requires Matrices(c, s) && |r.clients| == |s.clients|
    requires forall i | 0 <= i < |s.clients| :: s.clients[i].log <= r.clients[i].log
    requires r.checkpoint == s.checkpoint && r.summary == s.summary && r.readouts == s.readouts
    requires r.ctl == s.ctl && |r.ports| == |s.ports|
        && forall i | 0 <= i < |s.ports| :: r.ports[i].taken == s.ports[i].taken
    ensures Matrices(c, r)
  {
    forall a, i: nat, q: nat | i < |s.clients| && Records(c, s, a, i, q) ensures Records(c, r, a, i, q) {
      assert r.clients[i].log[q] == s.clients[i].log[q];
    }
  }

  lemma FabricLogs(c: Config, s: State, a: FabricAct)
    requires CanFabric(c, s, a)
    ensures var r := NextFabric(c, s, a);
      && |r.clients| == |s.clients| && (forall i | 0 <= i < |s.clients| :: s.clients[i].log == r.clients[i].log)
      && r.checkpoint == s.checkpoint && r.summary == s.summary && r.readouts == s.readouts && r.ctl == s.ctl
      && |r.ports| == |s.ports| && forall i | 0 <= i < |s.ports| :: r.ports[i].taken == s.ports[i].taken
  {
  }

  lemma ServerLogs(c: Config, s: State, a: ServerAct)
    requires CanServer(c, s, a)
    ensures var r := NextServer(c, s, a);
      && r.clients == s.clients
      && r.checkpoint == s.checkpoint && r.summary == s.summary && r.readouts == s.readouts && r.ctl == s.ctl
      && |r.ports| == |s.ports| && forall i | 0 <= i < |s.ports| :: r.ports[i].taken == s.ports[i].taken
  {
  }

  lemma CliLogs(c: Config, s: State, a: CliAct)
    requires CanCli(c, s, a)
    ensures var r := NextCli(c, s, a);
      && |r.clients| == |s.clients| && (forall i | 0 <= i < |s.clients| :: s.clients[i].log <= r.clients[i].log)
      && r.checkpoint == s.checkpoint && r.summary == s.summary && r.readouts == s.readouts && r.ctl == s.ctl
      && r.ports == s.ports
  {
    CliOthers(c, s, a);
    CliLog(c, s, a);
    CliKeeps(c, s, a);
  }

  lemma CliLog(c: Config, s: State, a: CliAct)
    requires CanCli(c, s, a) && a.i < |s.clients| && a.i < |NextCli(c, s, a).clients|
    ensures s.clients[a.i].log <= NextCli(c, s, a).clients[a.i].log
  {
  }

  lemma CliKeeps(c: Config, s: State, a: CliAct)
    requires CanCli(c, s, a)
    ensures var r := NextCli(c, s, a);
      && r.checkpoint == s.checkpoint && r.summary == s.summary && r.readouts == s.readouts && r.ctl == s.ctl
      && r.ports == s.ports
  {
  }

  /** The report that a gather loop of round p takes is report p - 3 of its client, of full length. */
  lemma Gathered(c: Config, s: State, i: nat)
    requires Core(c, s) && Accounts(c, s) && CanGather(s, i) && s.ctl.p >= 3
    ensures i < |s.clients| && s.ctl.p - 3 < |s.clients[i].log| && |s.clients[i].log[s.ctl.p - 3].rows| == c.m
    ensures s.ports[i].buff == Report(s.clients[i].log[s.ctl.p - 3].rows)
  {
    KeepController.FirstReply(c, s, i);
    GatheredLog(c, s, i);
    assert Account(c, i, s.clients[i]);
    FullRows(c, i, s.clients[i], s.ctl.p - 3);
  }

  lemma GatheredLog(c: Config, s: State, i: nat)
    requires Core(c, s) && CanGather(s, i) && s.ctl.p >= 3 && s.ports[i].taken == Before(s.ctl.p) && i < |s.clients|
    ensures s.ctl.p - 3 < |s.clients[i].log|
  {
    assert Valid(c, Cc(i)) && ReplyAt(c, s, i);
  }

  lemma FullRows(c: Config, i: nat, cl: Client, q: nat)
    requires Account(c, i, cl) && q < |cl.log|
    ensures RowsOf(cl.log[q].rows, i, c.m)
  {
    var h := |cl.log|;
    assert Reported(c, i, cl.acc, cl.log, h);
    if h == c.k + 1 && q < c.k { assert cl.log[..c.k][q] == cl.log[q]; }
  }

  /** The controller after taking report `row` of client i in round p. */
  lemma GatherStores(c: Config, s: State, i: nat, row: seq<Transfer>)
    requires CanGather(s, i) && i < c.n && s.ctl.p >= 3 && s.ports[i].buff == Report(row) && |row| == c.m
    requires |s.checkpoint| == |s.summary| == c.n * c.m
    ensures var p, r := s.ctl.p, CtlGather(c, s, i);
      && i * c.m + c.m <= c.n * c.m
      && Filled(c, r, p) == StoreRow(Filled(c, s, p), c.m, i, row)
      && (p < LastRound(c) ==> r.summary == s.summary)
      && (p >= LastRound(c) ==> r.checkpoint == s.checkpoint)
      && r.readouts == (if p < LastRound(c) && s.ctl.x + 1 == c.n then s.readouts + [r.checkpoint]
                        else if p < LastRound(c) && s.ctl.x + 1 > c.n then r.readouts else s.readouts)
      && r.clients == s.clients
  {
    Fits(c, i);
  }

  lemma MatricesGather(c: Config, s: State, i: nat)
    requires Core(c, s) && Counters(c, s) && Accounts(c, s) && Matrices(c, s) && CanGather(s, i) && s.ctl.p >= 3
    ensures Matrices(c, CtlGather(c, s, i))
  {
    var r := CtlGather(c, s, i);
    Gathered(c, s, i);
    KeepController.FirstReply(c, s, i);
    KeepController.Expected(c, s, i);
    if s.ctl.x + 1 == c.n {
      KeepController.EveryOne(c, s, r, i);
    }
    RowGathered(c, s, i, s.clients[i].log[s.ctl.p - 3].rows);
  }

  lemma RowGathered(c: Config, s: State, i: nat, row: seq<Transfer>)
    requires Shape(c, s) && CtlPcOk(c, s.ctl) && Matrices(c, s) && CanGather(s, i) && s.ctl.p >= 3
    requires KeepController.Gathers(c, s, CtlGather(c, s, i), i)
    requires s.ports[i].buff == Report(row) && |row| == c.m
    requires s.ctl.p - 3 < |s.clients[i].log| && s.clients[i].log[s.ctl.p - 3].rows == row
    requires s.ctl.x + 1 == c.n ==> forall x | 0 <= x < c.n :: CtlGather(c, s, i).ports[x].taken == s.ctl.p - 1
    ensures Matrices(c, CtlGather(c, s, i))
  {
    GatherStores(c, s, i, row);
    KeepController.GatheringPc(c, s.ctl.p, s.ctl.x);
    GatheredRows(c, s, CtlGather(c, s, i), i, row);
    GatheredAll(c, s, CtlGather(c, s, i), i);
  }

  lemma GatheredRows(c: Config, s: State, r: State, i: nat, row: seq<Transfer>)
    requires KeepController.Gathers(c, s, r, i) && s.ctl.p >= 3 && Shape(c, s)
    requires |row| == c.m && i * c.m + c.m <= c.n * c.m && |s.checkpoint| == |s.summary| == c.n * c.m
    requires Filled(c, r, s.ctl.p) == StoreRow(Filled(c, s, s.ctl.p), c.m, i, row)
    requires s.ctl.p - 3 < |s.clients[i].log| && s.clients[i].log[s.ctl.p - 3].rows == row
    requires forall x | 0 <= x < |s.clients| && x < |s.ports| && s.ports[x].taken == s.ctl.p - 1 ::
               Records(c, s, Filled(c, s, s.ctl.p), x, s.ctl.p - 3)
    ensures forall x | 0 <= x < |r.clients| && x < |r.ports| && r.ports[x].taken == s.ctl.p - 1 ::
              Records(c, r, Filled(c, r, s.ctl.p), x, s.ctl.p - 3)
    ensures |Filled(c, r, s.ctl.p)| == c.n * c.m
  {
    var p := s.ctl.p;
    Stored(c, Filled(c, s, p), i, row, i, row);
    forall x | 0 <= x < |r.clients| && x < |r.ports| && r.ports[x].taken == p - 1
      ensures Records(c, r, Filled(c, r, p), x, p - 3)
    {
      if x != i {
        assert Records(c, s, Filled(c, s, p), x, p - 3);
        Stored(c, Filled(c, s, p), i, row, x, s.clients[x].log[p - 3].rows);
      }
    }
  }

  lemma GatheredAll(c: Config, s: State, r: State, i: nat)
    requires Shape(c, s) && CtlPcOk(c, s.ctl) && KeepController.Gathers(c, s, r, i) && s.ctl.p >= 3 && Matrices(c, s)
    requires forall x | 0 <= x < |r.clients| && x < |r.ports| && r.ports[x].taken == s.ctl.p - 1 ::
               Records(c, r, Filled(c, r, s.ctl.p), x, s.ctl.p - 3)
    requires |Filled(c, r, s.ctl.p)| == c.n * c.m
    requires s.ctl.p < LastRound(c) ==> r.summary == s.summary
    requires s.ctl.p >= LastRound(c) ==> r.checkpoint == s.checkpoint
    requires r.readouts == if s.ctl.p < LastRound(c)
        && s.ctl.x + 1 == c.n then s.readouts + [r.checkpoint] else s.readouts
    requires s.ctl.x + 1 == c.n ==> forall x | 0 <= x < c.n :: r.ports[x].taken == s.ctl.p - 1
    ensures Matrices(c, r)
  {
    KeepController.GatheringPc(c, s.ctl.p, s.ctl.x);
    forall q, x | 0 <= q < |r.readouts| && 0 <= x < |r.clients| ensures Records(c, r, r.readouts[q], x, q) {
      if q < |s.readouts| {
        assert Records(c, s, s.readouts[q], x, q);
      } else {
        assert r.ports[x].taken == s.ctl.p - 1;
      }
    }
    if s.ctl.x + 1 == c.n && s.ctl.p == LastRound(c) {
      forall x | 0 <= x < |r.clients| ensures Records(c, r, r.summary, x, c.k) {
        assert r.ports[x].taken == s.ctl.p - 1;
      }
    }
  }

  /** Every other step of the controller. */
  predicate Turns(c: Config, s: State, r: State) {
    && r.checkpoint == s.checkpoint && r.summary == s.summary && r.readouts == s.readouts && r.clients == s.clients
    && Reads(c, r.ctl) == Reads(c, s.ctl)
    && (r.ctl.Closing? || r.ctl.Finished? ==> s.ctl.Closing?)
    && (r.ctl.Round? && r.ctl.stage == Gathering && r.ctl.p >= 3 ==>
          r.ctl == Round(r.ctl.p, Gathering, 0) && s.ctl.Round? && s.ctl.stage == Draining && s.ctl.p == r.ctl.p
          && r.ports == s.ports)
  }

  lemma MatricesTurn(c: Config, s: State, r: State)
    requires Matrices(c, s) && Turns(c, s, r)
    requires s.ctl.Round? && s.ctl.stage == Draining ==> |TakenSet(s, Before(s.ctl.p) + 1)| == 0
    ensures Matrices(c, r)
  {
    if r.ctl.Round? && r.ctl.stage == Gathering && r.ctl.p >= 3 {
      forall i | 0 <= i < |r.ports| ensures r.ports[i].taken != r.ctl.p - 1 {
        assert i !in TakenSet(s, Before(s.ctl.p) + 1);
      }
    }
    forall q, x | 0 <= q < |r.readouts| && 0 <= x < |r.clients| ensures Records(c, r, r.readouts[q], x, q) {
      assert Records(c, s, s.readouts[q], x, q);
    }
    if r.ctl.Closing? || r.ctl.Finished? {
      forall i | 0 <= i < |r.clients| ensures Records(c, r, r.summary, i, c.k) {
        assert Records(c, s, s.summary, i, c.k);
      }
    }
  }

  lemma CtrlTurns(c: Config, s: State, a: CtrlAct)
    requires Sane(c) && CtlPcOk(c, s.ctl) && CanCtrl(c, s, a) && (a.AGather? ==> s.ctl.p == 1)
    requires a.AAccept? ==> a.h == Ctl
    ensures Turns(c, s, NextCtrl(c, s, a))
  {
  }

  lemma ServerAccepts(c: Config, s: State, j: nat)
    requires CanAccept(s, Srv(j))
    ensures var r := Accept(c, s, Srv(j));
      && r.clients == s.clients && r.ctl == s.ctl && r.ports == s.ports
      && r.checkpoint == s.checkpoint && r.summary == s.summary && r.readouts == s.readouts
  {
  }

  lemma CtrlMatrices(c: Config, s: State, a: CtrlAct)
    requires Core(c, s) && Counters(c, s) && Accounts(c, s) && Matrices(c, s) && CanCtrl(c, s, a)
    ensures Matrices(c, NextCtrl(c, s, a))
  {
    if a.AGather? && s.ctl.p >= 3 {
      MatricesGather(c, s, a.i);
    } else if a.AAccept? && a.h.Srv? {
      ServerAccepts(c, s, a.h.j);
      MatricesGrow(c, s, NextCtrl(c, s, a));
    } else {
      if s.ctl.Round? && s.ctl.stage == Draining { KeepController.NoneTaken(c, s); }
      CtrlTurns(c, s, a);
      MatricesTurn(c, s, NextCtrl(c, s, a));
    }
  }

  lemma KeepMatrices(c: Config, s: State, a: Action)
    requires Core(c, s) && Counters(c, s) && Accounts(c, s) && Matrices(c, s) && Can(c, s, a)
    ensures Matrices(c, Next(c, s, a))
  {
    match a
    case ByFabric(x) => FabricLogs(c, s, x); MatricesGrow(c, s, Next(c, s, a));
    case ByCtrl(x) => CtrlMatrices(c, s, x);
    case ByCli(x) => CliLogs(c, s, x); MatricesGrow(c, s, Next(c, s, a));
    case ByServer(x) => ServerLogs(c, s, x); MatricesGrow(c, s, Next(c, s, a));
  }

  // ---------- every reachable state

  ghost predicate Full(c: Config, s: State) {
    Inv(c, s) && Accounts(c, s) && Matrices(c, s)
  }

  lemma KeepFull(c: Config, s: State, a: Action)
    requires Full(c, s) && Can(c, s, a)
    ensures Full(c, Next(c, s, a))
  {
    KeepStep(c, s, a);
    KeepAccounts(c, s, a);
    KeepMatrices(c, s, a);
  }

  lemma FullBegin(c: Config, s: State)
    requires Sane(c) && Begin(c, s)
    ensures Full(c, s)
  {
    InvBegin(c, s);
    AccountsBegin(c, s);
  }

  lemma {:induction false} FullRun(c: Config, init: State, run: seq<Action>)
    requires Sane(c) && Begin(c, init) && Exec(c, init, run).Some?
    ensures Full(c, Exec(c, init, run).value)
  {
    if run == [] {
      FullBegin(c, init);
    } else {
      var n := |run| - 1;
      FullRun(c, init, run[..n]);
      KeepFull(c, Exec(c, init, run[..n]).value, run[n]);
    }
  }

  lemma FullReachable(c: Config, s: State)
    requires Sane(c) && Reachable(c, s)
    ensures Full(c, s)
  {
    var init, run :| Begin(c, init) && Exec(c, init, run) == Some(s);
    FullRun(c, init, run);
  }
}
