/** What a client does in a run of the protocol is a run of its loop: its polls, in order, are a legal
    sequence for the loop, and the loop ends in the client's state. */
module LoopRuns {
  import opened Wire
  import opened Accounting
  import opened Protocol
  import opened Invariant
  import opened Ledger
  import opened Refinement
  import Benchmark
  import Facts
  import KeepClient
  import Safety

  /** The loop's state when it is entered: the window has been posted, and one receive. */
  function Entry(a: Acc): Benchmark.Bench {
    Benchmark.Bench(a.(posted := seq(|a.posted|, _ => WINDOW)), Blank, [], 1)
  }

  /** One more poll of client i. The poll of the transmit queue after STOP belongs to the iteration that
      read it. */
  function Extended(s: State, i: nat, polls: seq<Benchmark.Polls>, a: CliAct): seq<Benchmark.Polls>
    requires i < |s.clients|
  {
    match a
    case AServe(_, u, t) => if u in s.eps then polls + [RxOnly(s.eps[u].buff, t)] else polls
    case APoll(_, w) =>
      var n := |polls| - 1;
      if s.clients[i].pc == LastPoll && polls != [] then polls[..n] + [Benchmark.Polls(polls[n].rx, TxOnly(i, w).tx)]
      else polls + [TxOnly(i, w)]
    case _ => polls
  }

  /** The polls of client i in its loop, iteration by iteration. */
  function Polling(c: Config, init: State, run: seq<Action>, i: nat): seq<Benchmark.Polls>
    requires Exec(c, init, run).Some?
  {
    if run == [] then [] else
    var before, a := run[..|run| - 1], run[|run| - 1];
    var s, polls := Exec(c, init, before).value, Polling(c, init, before, i);
    if a.ByCli? && a.cli.i == i && i < |s.clients| then Extended(s, i, polls, a.cli) else polls
  }

  predicate Ahead(pc: CliPc) { Waiting(pc) || pc.Fill? }

  function OutcomeOf(pc: CliPc): Benchmark.Outcome {
    if pc.Crashed? then Benchmark.OutOfRange else if pc == LastPoll
        || pc == CliDone then Benchmark.Stopped else Benchmark.Running
  }

  /** The loop's state is the client's; the buffer while no command has arrived in it unread. */
  predicate Same(c: Config, b: Benchmark.Bench, cl: Client, e: Ep) {
    && b.acc == cl.acc && b.log == cl.log && b.receives == Receives(c, cl.pc)
    && (cl.log != [] && e.landed == 0 ==> b.buff == e.buff)
  }

  /** Between STOP and the poll that follows it the last iteration is not complete. */
  predicate HalfDone(start: Benchmark.Bench, polls: seq<Benchmark.Polls>)
    requires Benchmark.Fit(start)
  {
    polls != [] && polls[|polls| - 1].tx == None && Benchmark.Run(start, polls[..|polls| - 1]).1 == Benchmark.Running
  }

  ghost predicate Follows(c: Config, i: nat, cl: Client, e: Ep, start: Benchmark.Bench, polls: seq<Benchmark.Polls>)
    requires Benchmark.Fit(start)
  {
    if Ahead(cl.pc) then polls == [] && cl.log == [] && cl.acc.(posted := start.acc.posted) == start.acc
    else
      && Same(c, Benchmark.Run(start, polls).0, cl, e) && Benchmark.Run(start, polls).1 == OutcomeOf(cl.pc)
      && Benchmark.LegalRun(start, i, polls) && (cl.pc == LastPoll ==> HalfDone(start, polls))
  }

  // ---------- the loop alone

  lemma RunOne(b: Benchmark.Bench, id: nat, polls: seq<Benchmark.Polls>, p: Benchmark.Polls)
    requires Benchmark.Fit(b) && Benchmark.Run(b, polls).1 == Benchmark.Running && Benchmark.LegalRun(b, id, polls)
    requires Benchmark.Legal(Benchmark.Run(b, polls).0, id, p)
    ensures Benchmark.Run(b, polls + [p]) == Benchmark.Step(Benchmark.Run(b, polls).0, p)
    ensures Benchmark.LegalRun(b, id, polls + [p])
  {
    var more := polls + [p];
    assert more[..|more| - 1] == polls;
    forall k | 0 <= k < |more| && Benchmark.Run(b, more[..k]).1 == Benchmark.Running
      ensures Benchmark.Legal(Benchmark.Run(b, more[..k]).0, id, more[k])
    {
      if k < |polls| { assert more[..k] == polls[..k]; }
    }
  }

  lemma LegalBefore(b: Benchmark.Bench, id: nat, polls: seq<Benchmark.Polls>)
    requires Benchmark.Fit(b) && polls != [] && Benchmark.LegalRun(b, id, polls)
    ensures Benchmark.LegalRun(b, id, polls[..|polls| - 1])
  {
    var less := polls[..|polls| - 1];
    forall k | 0 <= k < |less| && Benchmark.Run(b, less[..k]).1 == Benchmark.Running
      ensures Benchmark.Legal(Benchmark.Run(b, less[..k]).0, id, less[k])
    {
      assert less[..k] == polls[..k];
    }
  }

  // ---------- one poll

  lemma Serves(c: Config, i: nat, cl: Client, b: Benchmark.Bench, cmd: Payload, t: real)
    requires cl.pc.Loop? && cl.pc.h <= c.k && Account(c, i, cl)
    requires b.acc == cl.acc && b.log == cl.log && b.receives == Receives(c, cl.pc)
    requires cmd == Cmd(KeepClient.NextCmd(c, cl.pc.h))
    ensures Benchmark.Fit(b) && Benchmark.Legal(b, i, RxOnly(cmd, t))
    ensures var r := Served(cl, cmd, t);
      Benchmark.Step(b, RxOnly(cmd, t))
      == (Benchmark.Bench(r.acc, Report(r.acc.delta), r.log, Receives(c, r.pc)), OutcomeOf(r.pc))
  {
    assert Benchmark.Fit(b);
    Handles(b, cl, cmd, t);
  }

  /** Both forms of the answer to a command. */
  lemma Handles(b: Benchmark.Bench, cl: Client, cmd: Payload, t: real)
    requires Benchmark.Fit(b) && cl.pc.Loop? && b.acc == cl.acc && b.log == cl.log && cmd.Cmd?
    ensures var r := Served(cl, cmd, t);
      Benchmark.Step(b, RxOnly(cmd, t))
      == (Benchmark.Bench(r.acc, Report(r.acc.delta), r.log, if cmd == Cmd(Checkpoint) then b.receives + 1
          else b.receives),
          if cmd == Cmd(Stop) then Benchmark.Stopped else Benchmark.Running)
  {
    assert Benchmark.StepRx(b, RxOnly(cmd, t)).0 == Benchmark.HandleRx(b, Benchmark.Rx(INT_SIZE, cmd, t, 0));
  }

  /** The transmit part of an iteration. */
  lemma Transmits(c: Config, i: nat, cl: Client, b: Benchmark.Bench, w: Tx)
    requires (cl.pc.Loop? || cl.pc == LastPoll) && Account(c, i, cl) && CliPcOk(c, i, cl.pc)
    requires if w.Write? then w.j < c.m && cl.acc.polled[w.j] < cl.acc.posted[w.j] else cl.sends > 0
    requires b.acc == cl.acc && b.log == cl.log && b.receives == Receives(c, cl.pc)
    ensures Benchmark.Fit(b) && Benchmark.Legal(b, i, TxOnly(i, w))
    ensures var r := Polled(c, i, cl, w);
      Benchmark.StepTx(b, TxOnly(i, w))
      == (Benchmark.Bench(r.acc, b.buff, r.log, Receives(c, r.pc)), if r.pc.Crashed? then Benchmark.OutOfRange
          else Benchmark.Running)
  {
  }

  lemma FollowsServe(c: Config, i: nat, cl: Client, e: Ep, f: Ep, start: Benchmark.Bench, polls: seq<Benchmark.Polls>,
      t: real)
    requires Benchmark.Fit(start) && Follows(c, i, cl, e, start, polls)
    requires cl.pc.Loop? && cl.pc.h <= c.k && Account(c, i, cl) && e.buff == Cmd(KeepClient.NextCmd(c, cl.pc.h))
    requires f.buff == Report(Served(cl, e.buff, t).acc.delta)
    ensures Follows(c, i, Served(cl, e.buff, t), f, start, polls + [RxOnly(e.buff, t)])
  {
    var b, more := Benchmark.Run(start, polls).0, polls + [RxOnly(e.buff, t)];
    Serves(c, i, cl, b, e.buff, t);
    RunOne(start, i, polls, RxOnly(e.buff, t));
    assert more[..|more| - 1] == polls;
  }

  lemma FollowsPoll(c: Config, i: nat, cl: Client, e: Ep, start: Benchmark.Bench, polls: seq<Benchmark.Polls>, w: Tx)
    requires Benchmark.Fit(start) && Follows(c, i, cl, e, start, polls)
    requires cl.pc.Loop? && Account(c, i, cl) && CliPcOk(c, i, cl.pc)
    requires if w.Write? then w.j < c.m && cl.acc.polled[w.j] < cl.acc.posted[w.j] else cl.sends > 0
    ensures Follows(c, i, Polled(c, i, cl, w), e, start, polls + [TxOnly(i, w)])
  {
    var b := Benchmark.Run(start, polls).0;
    Transmits(c, i, cl, b, w);
    Transmitted(b, TxOnly(i, w));
    RunOne(start, i, polls, TxOnly(i, w));
  }

  lemma Transmitted(b: Benchmark.Bench, p: Benchmark.Polls)
    requires Benchmark.Fit(b) && p.rx == None
    ensures Benchmark.Step(b, p) == Benchmark.StepTx(b, p)
  {
  }

  /** The poll after STOP completes the iteration that read it. */
  lemma LastRun(start: Benchmark.Bench, id: nat, polls: seq<Benchmark.Polls>, tx: Option<Benchmark.Tx>)
    requires Benchmark.Fit(start) && HalfDone(start, polls) && Benchmark.LegalRun(start, id, polls)
    requires Benchmark.Run(start, polls).1 == Benchmark.Stopped
    requires Benchmark.Legal(Benchmark.Run(start, polls).0, id, Benchmark.Polls(None, tx))
    ensures var n := |polls| - 1;
      var r, more := Benchmark.StepTx(Benchmark.Run(start, polls).0, Benchmark.Polls(None, tx)),
                     polls[..n] + [Benchmark.Polls(polls[n].rx, tx)];
      && Benchmark.Run(start, more) == (r.0, if r.1 == Benchmark.OutOfRange then Benchmark.OutOfRange
          else Benchmark.Stopped)
      && Benchmark.LegalRun(start, id, more)
  {
    var n := |polls| - 1;
    var before, whole := Benchmark.Run(start, polls[..n]).0, Benchmark.Polls(polls[n].rx, tx);
    LegalBefore(start, id, polls);
    Completes(before, polls[n], whole);
    RunOne(start, id, polls[..n], whole);
  }

  lemma FollowsLast(c: Config, i: nat, cl: Client, e: Ep, start: Benchmark.Bench, polls: seq<Benchmark.Polls>, w: Tx)
    requires Benchmark.Fit(start) && Follows(c, i, cl, e, start, polls)
    requires cl.pc == LastPoll && Account(c, i, cl) && CliPcOk(c, i, cl.pc)
    requires if w.Write? then w.j < c.m && cl.acc.polled[w.j] < cl.acc.posted[w.j] else cl.sends > 0
    ensures polls != []
    ensures var n := |polls| - 1;
      Follows(c, i, Polled(c, i, cl, w), e, start, polls[..n] + [Benchmark.Polls(polls[n].rx, TxOnly(i, w).tx)])
  {
    Transmits(c, i, cl, Benchmark.Run(start, polls).0, w);
    LastRun(start, i, polls, TxOnly(i, w).tx);
    var n := |polls| - 1;
    FollowsFrom(c, i, Polled(c, i, cl, w), e, start, polls[..n] + [Benchmark.Polls(polls[n].rx, TxOnly(i, w).tx)]);
  }

  lemma FollowsFrom(c: Config, i: nat, r: Client, e: Ep, start: Benchmark.Bench, polls: seq<Benchmark.Polls>)
    requires Benchmark.Fit(start) && !Ahead(r.pc) && r.pc != LastPoll && Benchmark.LegalRun(start, i, polls)
    requires Same(c, Benchmark.Run(start, polls).0, r, e) && Benchmark.Run(start, polls).1 == OutcomeOf(r.pc)
    ensures Follows(c, i, r, e, start, polls)
  {
  }

  /** An iteration whose transmit poll finds something, from the same iteration without. */
  lemma Completes(b: Benchmark.Bench, half: Benchmark.Polls, whole: Benchmark.Polls)
    requires Benchmark.Fit(b) && half.tx == None && whole.rx == half.rx
    requires Benchmark.Step(b, half).1 == Benchmark.Stopped
    ensures var r := Benchmark.StepTx(Benchmark.Step(b, half).0, whole);
      Benchmark.Step(b, whole) == (r.0, if r.1 == Benchmark.OutOfRange then Benchmark.OutOfRange else Benchmark.Stopped)
    ensures Benchmark.StepRx(b, whole).0 == Benchmark.Step(b, half).0
  {
  }

  // ---------- steps of the protocol

  /** Nothing the loop sees has changed, but that a command may have arrived. */
  predicate Kept(cl: Client, r: Client, e: Ep, f: Ep) {
    r.pc == cl.pc && r.acc == cl.acc && r.log == cl.log && (f.landed == 0 ==> e.landed == 0 && f.buff == e.buff)
  }

  predicate KeptAt(s: State, r: State, i: nat)
    requires i < |s.clients| && Cc(i) in s.eps
  {
    i < |r.clients| && Cc(i) in r.eps && Kept(s.clients[i], r.clients[i], s.eps[Cc(i)], r.eps[Cc(i)])
  }

  lemma FollowsKept(c: Config, i: nat, cl: Client, r: Client, e: Ep, f: Ep, start: Benchmark.Bench,
      polls: seq<Benchmark.Polls>)
    requires Benchmark.Fit(start) && Follows(c, i, cl, e, start, polls) && Kept(cl, r, e, f)
    ensures Follows(c, i, r, f, start, polls)
  {
  }

  lemma FabricKeeps(c: Config, s: State, a: FabricAct, i: nat)
    requires CanFabric(c, s, a) && i < |s.clients| && Cc(i) in s.eps
    ensures KeptAt(s, NextFabric(c, s, a), i)
  {
  }

  lemma CtrlKeeps(c: Config, s: State, a: CtrlAct, i: nat)
    requires CanCtrl(c, s, a) && i < |s.clients| && Cc(i) in s.eps
    ensures KeptAt(s, NextCtrl(c, s, a), i)
  {
    match a
    case AAccept(h) => AcceptKeeps(c, s, h, i);
    case AGather(x) => CtrlAccounts(c, s, a); Safety.GatherBuff(c, s, x);
    case _ =>
  }

  lemma AcceptKeeps(c: Config, s: State, h: Host, i: nat)
    requires CanAccept(s, h) && i < |s.clients| && Cc(i) in s.eps
    ensures KeptAt(s, Accept(c, s, h), i)
  {
  }

  lemma CliKeeps(c: Config, s: State, a: CliAct, i: nat)
    requires CanCli(c, s, a) && a.i != i && i < |s.clients| && Cc(i) in s.eps
    ensures KeptAt(s, NextCli(c, s, a), i)
  {
  }

  lemma ServerKeeps(c: Config, s: State, a: ServerAct, i: nat)
    requires CanServer(c, s, a) && i < |s.clients| && Cc(i) in s.eps
    ensures KeptAt(s, NextServer(c, s, a), i)
  {
  }

  /** The client's own steps outside its loop. */
  predicate Outside(a: CliAct) { !a.AFill? && !a.AServe? && !a.APoll? && !a.AQuit? }
  lemma StillAhead(c: Config, s: State, a: CliAct)
    requires CanCli(c, s, a) && Outside(a) && a.i < |s.clients| && a.i < |NextCli(c, s, a).clients|
    ensures var cl, r := s.clients[a.i], NextCli(c, s, a).clients[a.i];
      Ahead(cl.pc) && (Ahead(r.pc)) && r.acc == cl.acc && r.log == cl.log
  {
  }

  /** The last write of the window leads into the loop. */
  lemma FollowsFill(c: Config, i: nat, cl: Client, e: Ep, a0: Acc)
    requires Sane(c) && Initial(a0, i, c.m) && cl.pc.Fill? && cl.pc.j < |cl.acc.posted| && CliPcOk(c, i, cl.pc)
    requires Account(c, i, cl) && Follows(c, i, cl, e, Entry(a0), [])
    ensures Follows(c, i, cl.(pc := NextFill(c, cl.pc.r, cl.pc.j), acc := Accounting.Post(cl.acc, cl.pc.j)),
                    e, Entry(a0), [])
  {
    var r := cl.(pc := NextFill(c, cl.pc.r, cl.pc.j), acc := Accounting.Post(cl.acc, cl.pc.j));
    AccountFill(c, i, cl);
    if !r.pc.Fill? {
      assert r.acc.transfer == a0.transfer;
      assert r.acc.posted == Entry(a0).acc.posted;
    }
  }

  lemma FollowsQuit(c: Config, i: nat, cl: Client, e: Ep, start: Benchmark.Bench, polls: seq<Benchmark.Polls>)
    requires Benchmark.Fit(start) && Follows(c, i, cl, e, start, polls) && cl.pc == LastPoll
    ensures Follows(c, i, cl.(pc := CliDone), e, start, polls)
  {
  }

  ghost predicate FollowsAt(c: Config, s: State, i: nat, a0: Acc, polls: seq<Benchmark.Polls>)
    requires Initial(a0, i, c.m)
  {
    i < |s.clients| && Cc(i) in s.eps && Follows(c, i, s.clients[i], s.eps[Cc(i)], Entry(a0), polls)
  }

  lemma OwnServe(c: Config, s: State, i: nat, t: real, a0: Acc, polls: seq<Benchmark.Polls>)
    requires Initial(a0, i, c.m) && FollowsAt(c, s, i, a0, polls) && CanServe(s, i, Cc(i))
    requires Account(c, i, s.clients[i]) && s.clients[i].pc.h <= c.k
    requires s.eps[Cc(i)].buff == Cmd(KeepClient.NextCmd(c, s.clients[i].pc.h))
    ensures FollowsAt(c, Serve(s, i, Cc(i), t), i, a0, Extended(s, i, polls, AServe(i, Cc(i), t)))
  {
    FollowsServe(c, i, s.clients[i], s.eps[Cc(i)], Serve(s, i, Cc(i), t).eps[Cc(i)], Entry(a0), polls, t);
  }

  /** A step that changes the client alone. */
  predicate Becomes(s: State, r: State, i: nat, cl: Client) {
    i < |s.clients| && r == s.(clients := s.clients[i := cl])
  }

  lemma FollowsBecome(c: Config, s: State, r: State, i: nat, cl: Client, a0: Acc, polls: seq<Benchmark.Polls>)
    requires Initial(a0, i, c.m) && Becomes(s, r, i, cl) && Cc(i) in s.eps
    requires Follows(c, i, cl, s.eps[Cc(i)], Entry(a0), polls)
    ensures FollowsAt(c, r, i, a0, polls)
  {
  }

  lemma PollBecomes(c: Config, s: State, i: nat, w: Tx, polls: seq<Benchmark.Polls>)
    requires CanPoll(c, s, i, w)
    ensures Becomes(s, Poll(c, s, i, w), i, Polled(c, i, s.clients[i], w))
    ensures Extended(s, i, polls, APoll(i, w)) ==
            if s.clients[i].pc == LastPoll && polls != [] then
              polls[..|polls| - 1] + [Benchmark.Polls(polls[|polls| - 1].rx, TxOnly(i, w).tx)]
            else polls + [TxOnly(i, w)]
  {
  }

  lemma OwnPoll(c: Config, s: State, i: nat, w: Tx, a0: Acc, polls: seq<Benchmark.Polls>)
    requires Initial(a0, i, c.m) && FollowsAt(c, s, i, a0, polls) && CanPoll(c, s, i, w)
    requires Account(c, i, s.clients[i]) && CliPcOk(c, i, s.clients[i].pc)
    ensures FollowsAt(c, Poll(c, s, i, w), i, a0, Extended(s, i, polls, APoll(i, w)))
  {
    PollBecomes(c, s, i, w, polls);
    var cl, e := s.clients[i], s.eps[Cc(i)];
    if cl.pc == LastPoll {
      FollowsLast(c, i, cl, e, Entry(a0), polls, w);
    } else {
      FollowsPoll(c, i, cl, e, Entry(a0), polls, w);
    }
    FollowsBecome(c, s, Poll(c, s, i, w), i, Polled(c, i, cl, w), a0, Extended(s, i, polls, APoll(i, w)));
  }

  lemma OwnFill(c: Config, s: State, i: nat, a0: Acc, polls: seq<Benchmark.Polls>)
    requires Sane(c) && Initial(a0, i, c.m) && FollowsAt(c, s, i, a0, polls) && CanFill(s, i)
    requires Account(c, i, s.clients[i]) && CliPcOk(c, i, s.clients[i].pc)
    ensures FollowsAt(c, CliFill(c, s, i), i, a0, polls)
  {
    FollowsFill(c, i, s.clients[i], s.eps[Cc(i)], a0);
  }

  lemma OwnQuit(c: Config, s: State, i: nat, a0: Acc, polls: seq<Benchmark.Polls>)
    requires Initial(a0, i, c.m) && FollowsAt(c, s, i, a0, polls) && CanQuit(s, i)
    ensures FollowsAt(c, Quit(s, i), i, a0, polls)
  {
    FollowsQuit(c, i, s.clients[i], s.eps[Cc(i)], Entry(a0), polls);
  }

  lemma OwnOutside(c: Config, s: State, a: CliAct, a0: Acc, polls: seq<Benchmark.Polls>)
    requires Initial(a0, a.i, c.m) && FollowsAt(c, s, a.i, a0, polls) && CanCli(c, s, a) && Outside(a)
    ensures FollowsAt(c, NextCli(c, s, a), a.i, a0, polls)
  {
    CliOthers(c, s, a);
    StillAhead(c, s, a);
    OwnLink(c, s, a);
  }

  lemma OwnStep(c: Config, s: State, a: CliAct, a0: Acc, polls: seq<Benchmark.Polls>)
    requires Facts.Core(c, s) && Accounts(c, s) && CanCli(c, s, a)
    requires Initial(a0, a.i, c.m) && FollowsAt(c, s, a.i, a0, polls)
    ensures FollowsAt(c, NextCli(c, s, a), a.i, a0, Extended(s, a.i, polls, a))
  {
    OwnFacts(c, s, a);
    OwnActs(c, s, a, a0, polls);
  }

  lemma OwnActs(c: Config, s: State, a: CliAct, a0: Acc, polls: seq<Benchmark.Polls>)
    requires Sane(c) && CanCli(c, s, a) && Initial(a0, a.i, c.m) && FollowsAt(c, s, a.i, a0, polls)
    requires Account(c, a.i, s.clients[a.i]) && CliPcOk(c, a.i, s.clients[a.i].pc)
    requires a.AServe? ==> a.u == Cc(a.i) && s.eps[a.u].buff == Cmd(KeepClient.NextCmd(c, s.clients[a.i].pc.h))
    ensures FollowsAt(c, NextCli(c, s, a), a.i, a0, Extended(s, a.i, polls, a))
  {
    if Outside(a) {
      OwnOutside(c, s, a, a0, polls);
    } else {
      InLoop(c, s, a, a0, polls);
    }
  }

  lemma InLoop(c: Config, s: State, a: CliAct, a0: Acc, polls: seq<Benchmark.Polls>)
    requires Sane(c) && CanCli(c, s, a) && Initial(a0, a.i, c.m) && FollowsAt(c, s, a.i, a0, polls) && !Outside(a)
    requires Account(c, a.i, s.clients[a.i]) && CliPcOk(c, a.i, s.clients[a.i].pc)
    requires a.AServe? ==> a.u == Cc(a.i) && s.eps[a.u].buff == Cmd(KeepClient.NextCmd(c, s.clients[a.i].pc.h))
    ensures FollowsAt(c, NextCli(c, s, a), a.i, a0, Extended(s, a.i, polls, a))
  {
    match a
    case AServe(i, _, t) => OwnServe(c, s, i, t, a0, polls);
    case APoll(i, w) => OwnPoll(c, s, i, w, a0, polls);
    case AFill(i) => OwnFill(c, s, i, a0, polls);
    case AQuit(i) => OwnQuit(c, s, i, a0, polls);
  }

  lemma OwnFacts(c: Config, s: State, a: CliAct)
    requires Facts.Core(c, s) && Accounts(c, s) && CanCli(c, s, a) && a.i < |s.clients|
    ensures Account(c, a.i, s.clients[a.i]) && CliPcOk(c, a.i, s.clients[a.i].pc)
    ensures a.AServe? ==> a.u == Cc(a.i) && s.eps[a.u].buff == Cmd(KeepClient.NextCmd(c, s.clients[a.i].pc.h))
  {
    if a.AServe? { CommandRead(c, s, a.i, a.u); }
  }

  lemma OwnLink(c: Config, s: State, a: CliAct)
    requires CanCli(c, s, a) && Cc(a.i) in s.eps
    ensures Cc(a.i) in NextCli(c, s, a).eps
  {
  }

  lemma Step(c: Config, s: State, a: Action, i: nat, a0: Acc, polls: seq<Benchmark.Polls>)
    requires Full(c, s) && Can(c, s, a) && Initial(a0, i, c.m) && FollowsAt(c, s, i, a0, polls)
    ensures FollowsAt(c, Next(c, s, a), i, a0, if a.ByCli? && a.cli.i == i then Extended(s, i, polls, a.cli) else polls)
  {
    if a.ByCli? && a.cli.i == i {
      OwnStep(c, s, a.cli, a0, polls);
    } else {
      Apart(c, s, a, i);
      var r := Next(c, s, a);
      FollowsKept(c, i, s.clients[i], r.clients[i], s.eps[Cc(i)], r.eps[Cc(i)], Entry(a0), polls);
    }
  }

  lemma Apart(c: Config, s: State, a: Action, i: nat)
    requires Can(c, s, a) && !(a.ByCli? && a.cli.i == i) && i < |s.clients| && Cc(i) in s.eps
    ensures KeptAt(s, Next(c, s, a), i)
  {
    match a
    case ByFabric(x) => FabricKeeps(c, s, x, i);
    case ByCtrl(x) => CtrlKeeps(c, s, x, i);
    case ByCli(x) => CliKeeps(c, s, x, i);
    case ByServer(x) => ServerKeeps(c, s, x, i);
  }

  /** In every run, the receives and transmit completions a client polls in its loop, the poll after
      STOP included in the iteration that read it, are a legal sequence of polls whose run from the
      entry of the loop ends in the client's books, reports and receives, running, stopped or out of
      range as the client is. */
  lemma {:induction false} LoopRefines(c: Config, init: State, run: seq<Action>, i: nat)
    requires Sane(c) && Begin(c, init) && Exec(c, init, run).Some? && i < c.n
    ensures i < |init.clients| && Initial(init.clients[i].acc, i, c.m)
    ensures FollowsAt(c, Exec(c, init, run).value, i, init.clients[i].acc, Polling(c, init, run, i))
  {
    if run == [] {
      assert Valid(c, Cc(i));
    } else {
      var n := |run| - 1;
      LoopRefines(c, init, run[..n], i);
      FullRun(c, init, run[..n]);
      Step(c, Exec(c, init, run[..n]).value, run[n], i, init.clients[i].acc, Polling(c, init, run[..n], i));
    }
  }

  /** So what every legal run of the loop keeps holds for the client's polls. */
  lemma PollsSound(c: Config, init: State, run: seq<Action>, s: State, i: nat)
    requires Sane(c) && Begin(c, init) && Exec(c, init, run) == Some(s) && i < c.n && i < |s.clients|
        && !Ahead(s.clients[i].pc)
    ensures i < |init.clients| && Initial(init.clients[i].acc, i, c.m)
    ensures var b := Benchmark.Run(Entry(init.clients[i].acc), Polling(c, init, run, i));
      && b.0.acc == s.clients[i].acc && b.0.log == s.clients[i].log && b.1 == OutcomeOf(s.clients[i].pc)
      && Benchmark.Sound(b.0, i, c.m) && (i < c.m ==> b.1 != Benchmark.OutOfRange)
  {
    LoopRefines(c, init, run, i);
    EntrySound(c, i, init.clients[i].acc);
    Benchmark.RunSound(Entry(init.clients[i].acc), i, c.m, Polling(c, init, run, i));
  }

  lemma EntrySound(c: Config, i: nat, a: Acc)
    requires Initial(a, i, c.m)
    ensures Benchmark.Sound(Entry(a), i, c.m)
  {
    FilledAll(a, Entry(a).acc, i, c.m);
  }
}
