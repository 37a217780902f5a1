/** The imperative parts and the protocol, step by step: polls of the client's loop, calls of connect,
    turns of waitAllConn and of the gather loops. LoopRuns has whole runs of the client's loop. */
module Refinement {
  import opened Wire
  import opened Protocol
  import opened Invariant
  import opened Ledger
  import Facts
  import Runs
  import KeepAccept
  import KeepController
  import Safety
  import Benchmark
  import Dialling
  import Endpoints
  import Acceptance
  import Gathering

  // ---------- the client's loop

  /** Receives the loop has posted, the first of them before it starts. */
  function Receives(c: Config, pc: CliPc): nat {
    if CliRecvs(c, pc) >= 3 then CliRecvs(c, pc) - 3 else 0
  }

  /** Client i as the loop sees itself. */
  function BenchOf(c: Config, s: State, i: nat): Benchmark.Bench
    requires i < |s.clients| && Cc(i) in s.eps
  {
    Benchmark.Bench(s.clients[i].acc, s.eps[Cc(i)].buff, s.clients[i].log, Receives(c, s.clients[i].pc))
  }

  function RxOnly(p: Payload, t: real): Benchmark.Polls {
    Benchmark.Polls(Some(Benchmark.Rx(Len(p), p, t, 0)), None)
  }

  function TxOnly(i: nat, w: Tx): Benchmark.Polls {
    Benchmark.Polls(None, Some(Benchmark.Tx(TxId(i, w), w.Write?)))
  }

  /** A receive completion polled in the protocol is the receive part of an iteration. */
  lemma ServeRefines(c: Config, s: State, i: nat, u: Link, t: real)
    requires Sane(c) && Reachable(c, s) && CanServe(s, i, u)
    ensures var r := Serve(s, i, u, t);
      && i < |r.clients| && Cc(i) in r.eps && Benchmark.Fit(BenchOf(c, s, i))
      && Benchmark.StepRx(BenchOf(c, s, i), RxOnly(s.eps[u].buff, t))
         == (BenchOf(c, r, i), if r.clients[i].pc == LastPoll then Benchmark.Stopped else Benchmark.Running)
  {
    FullReachable(c, s);
    CommandRead(c, s, i, u);
    assert Account(c, i, s.clients[i]) && CliPcOk(c, i, s.clients[i].pc);
    ServeIs(c, s, i, t);
  }

  lemma ServeIs(c: Config, s: State, i: nat, t: real)
    requires CanServe(s, i, Cc(i)) && Account(c, i, s.clients[i]) && s.clients[i].pc.h <= c.k
    requires s.eps[Cc(i)].buff == Cmd(if s.clients[i].pc.h < c.k then Checkpoint else Stop)
    ensures var r := Serve(s, i, Cc(i), t);
      && i < |r.clients| && Cc(i) in r.eps && Benchmark.Fit(BenchOf(c, s, i))
      && Benchmark.StepRx(BenchOf(c, s, i), RxOnly(s.eps[Cc(i)].buff, t))
         == (BenchOf(c, r, i), if r.clients[i].pc == LastPoll then Benchmark.Stopped else Benchmark.Running)
  {
  }

  /** A transmit completion polled in the protocol is a legal transmit part of an iteration, and it
      runs out of range in the one exactly when it crashes in the other. */
  lemma PollRefines(c: Config, s: State, i: nat, w: Tx)
    requires Sane(c) && Reachable(c, s) && CanPoll(c, s, i, w)
    ensures var r := Poll(c, s, i, w);
      && i < |r.clients| && Cc(i) in r.eps && Cc(i) in s.eps && Benchmark.Fit(BenchOf(c, s, i))
      && Benchmark.Legal(BenchOf(c, s, i), i, TxOnly(i, w))
      && Benchmark.StepTx(BenchOf(c, s, i), TxOnly(i, w))
         == (BenchOf(c, r, i), if r.clients[i].pc.Crashed? then Benchmark.OutOfRange else Benchmark.Running)
  {
    FullReachable(c, s);
    assert Valid(c, Cc(i)) && Account(c, i, s.clients[i]) && CliPcOk(c, i, s.clients[i].pc);
    PollIs(c, s, i, w);
  }

  lemma PollIs(c: Config, s: State, i: nat, w: Tx)
    requires CanPoll(c, s, i, w) && Account(c, i, s.clients[i]) && CliPcOk(c, i, s.clients[i].pc) && Cc(i) in s.eps
    ensures var r := Poll(c, s, i, w);
      && i < |r.clients| && Cc(i) in r.eps && Benchmark.Fit(BenchOf(c, s, i))
      && Benchmark.Legal(BenchOf(c, s, i), i, TxOnly(i, w))
      && Benchmark.StepTx(BenchOf(c, s, i), TxOnly(i, w))
         == (BenchOf(c, r, i), if r.clients[i].pc.Crashed? then Benchmark.OutOfRange else Benchmark.Running)
  {
  }

  /** A client in its loop satisfies what every run of the loop keeps. */
  lemma BenchSound(c: Config, s: State, i: nat)
    requires Sane(c) && Reachable(c, s) && i < |s.clients| && s.clients[i].pc.Loop?
    ensures Cc(i) in s.eps && Benchmark.Sound(BenchOf(c, s, i), i, c.m)
  {
    FullReachable(c, s);
    assert Valid(c, Cc(i)) && Account(c, i, s.clients[i]);
  }

  // ---------- the way into the loop

  /** Whenever a client polls a completion while it dials, the call of connect that waits for it
      succeeds, with the keys of the very endpoint it dials. */
  lemma DialRefines(c: Config, s: State, i: nat, u: Link)
    requires Sane(c) && Reachable(c, s) && CanKeys(s, i, u)
    ensures Endpoints.Good(Dialling.Found(s, i, u))
    ensures KeyIn(Dialling.Found(s, i, u).receipt.content) == Some(LinkTo(i, s.clients[i].pc.t))
  {
    var r := TakeKeys(c, s, i, u);
    Runs.OneStep(c, s, ByCli(AKeys(i, u)));
    Dialling.TakesLike(c, s, i, u);
    Safety.NoErrors(c, r);
    FullReachable(c, r);
    HasKeys(c, s, i, u);
  }

  lemma HasKeys(c: Config, s: State, i: nat, u: Link)
    requires CanKeys(s, i, u) && Links(c, TakeKeys(c, s, i, u)) && TakeKeys(c, s, i, u).clients[i].pc != CliFailed
    ensures LinkTo(i, s.clients[i].pc.t) in s.eps
    ensures KeyIn(s.eps[LinkTo(i, s.clients[i].pc.t)].buff) == Some(LinkTo(i, s.clients[i].pc.t))
  {
    assert LinkOk(c, TakeKeys(c, s, i, u), LinkTo(i, s.clients[i].pc.t));
  }

  /** Whenever it polls one while it waits for CONNECT or START, the call succeeds. */
  lemma OrderRefines(c: Config, s: State, i: nat, u: Link)
    requires Sane(c) && Reachable(c, s) && CanObey(s, i, u)
    ensures Dialling.Verdict(Dialling.Ordered(s, i, u), if s.clients[i].pc == AwaitConnect then Connect else Start) == 0
  {
    Runs.OneStep(c, s, ByCli(AObey(i, u)));
    Dialling.ObeysLike(s, i, u);
    Safety.NoErrors(c, Obey(s, i, u));
    Same(s, i, u);
  }

  lemma Same(s: State, i: nat, u: Link)
    requires CanObey(s, i, u)
    ensures |Obey(s, i, u).clients| == |s.clients|
  {
  }

  // ---------- waitAllConn

  /** The item of the stream of node h that an event is. */
  function ItemOf(c: Config, e: Event): Acceptance.Item {
    Acceptance.Item(Slot(c, e.l),
      match e case Req(_) => Acceptance.Ask case Est(_) => Acceptance.Join case Down(_) => Acceptance.Part
              case Own(_) => Acceptance.Dialled)
  }

  function PhaseAt(st: Conn): Acceptance.Phase {
    match st
    case Accepted => Acceptance.Asked case Answered => Acceptance.Asked case EstQueued => Acceptance.Asked
    case Up => Acceptance.Live case DownQueued => Acceptance.Live
    case _ => Acceptance.Off
  }

  /** Where node h is: before waitAllConn, inside it with its counter, or past it. */
  datatype Stand = Early | Counting(x: int) | Past
  function StandOf(s: State, h: Host): Stand {
    match h
    case Ctl => if s.ctl.Listening? then Early else if s.ctl.Accepting? then Counting(s.ctl.c) else Past
    case Srv(j) =>
      if j >= |s.servers| then Past else
      if s.servers[j].Opening? || s.servers[j].SrvDial? then Early
      else if s.servers[j].SrvAccepting? then Counting(s.servers[j].c) else Past
  }

  /** The events node h has read inside waitAllConn. */
  function Script(c: Config, init: State, run: seq<Action>, h: Host): seq<Acceptance.Item>
    requires Exec(c, init, run).Some?
  {
    if run == [] then [] else
    var before, a := run[..|run| - 1], run[|run| - 1];
    var s := Exec(c, init, before).value;
    if a == ByCtrl(AAccept(h)) then Script(c, init, before, h) + [ItemOf(c, s.eq[h][0])] else Script(c, init, before, h)
  }

  predicate InPhase(c: Config, s: State, l: Link, script: seq<Acceptance.Item>)
    requires l in s.eps
  {
    Acceptance.PhaseOf(script, Slot(c, l)) == PhaseAt(s.eps[l].st)
  }

  ghost predicate Phases(c: Config, s: State, h: Host, script: seq<Acceptance.Item>) {
    forall l | l in s.eps && Passive(l) == h :: InPhase(c, s, l, script)
  }

  ghost predicate ScriptOk(c: Config, s: State, h: Host, script: seq<Acceptance.Item>) {
    var n := KeepAccept.Goal(c, h);
    && Acceptance.Legal(n, script) && Acceptance.Tally(script, Acceptance.Dialled) == 0
    && (StandOf(s, h) == Early ==> script == [])
    && (StandOf(s, h).Counting? ==> StandOf(s, h).x == |Acceptance.Lives(n, script)|)
    && (StandOf(s, h) != Past ==> Phases(c, s, h, script))
  }

  /** Every other step leaves the phases of h's connections alone, and its counter too. */
  predicate Aside(c: Config, s: State, r: State, h: Host) {
    && (forall l | l in r.eps && Passive(l) == h :: l in s.eps && PhaseAt(r.eps[l].st) == PhaseAt(s.eps[l].st))
    && (StandOf(r, h) == StandOf(s, h) || StandOf(r, h) == Past
        || (StandOf(s, h) == Early && StandOf(r, h) == Counting(0)))
  }

  lemma FabricAside(c: Config, s: State, a: FabricAct, h: Host)
    requires CanFabric(c, s, a)
    ensures Aside(c, s, NextFabric(c, s, a), h)
  {
  }

  lemma CtrlAside(c: Config, s: State, a: CtrlAct, h: Host)
    requires CanCtrl(c, s, a) && !a.AAccept? && StandOf(NextCtrl(c, s, a), h) != Past
    requires a.AClose? ==> Passive(s.eq[Ctl][0].l) == Ctl
    ensures Aside(c, s, NextCtrl(c, s, a), h)
  {
  }

  lemma CliAside(c: Config, s: State, a: CliAct, h: Host)
    requires CanCli(c, s, a)
    requires a.ARequest? ==> PhaseAt(s.eps[LinkTo(a.i, s.clients[a.i].pc.t)].st) == Acceptance.Off
    ensures Aside(c, s, NextCli(c, s, a), h)
  {
    CliStates(c, s, a);
  }

  lemma CliStates(c: Config, s: State, a: CliAct)
    requires CanCli(c, s, a)
    requires a.ARequest? ==> PhaseAt(s.eps[LinkTo(a.i, s.clients[a.i].pc.t)].st) == Acceptance.Off
    ensures var r := NextCli(c, s, a);
      && r.ctl == s.ctl && r.servers == s.servers
      && (forall l | l in r.eps :: l in s.eps && PhaseAt(r.eps[l].st) == PhaseAt(s.eps[l].st))
  {
  }

  lemma ServerAside(c: Config, s: State, a: ServerAct, h: Host)
    requires CanServer(c, s, a) && (a.ASrvEvent? ==> h != Srv(a.j) && PassiveAt(s, a.j))
    requires a.ASrvRequest? ==> PhaseAt(s.eps[Sc(a.j)].st) == Acceptance.Off
    ensures Aside(c, s, NextServer(c, s, a), h)
  {
  }

  /** The next event of server j concerns one of its own endpoints. */
  predicate PassiveAt(s: State, j: nat) {
    Srv(j) in s.eq && s.eq[Srv(j)] != [] && (Passive(s.eq[Srv(j)][0].l) == Srv(j) || s.eq[Srv(j)][0].Own?)
  }

  lemma AcceptAside(c: Config, s: State, g: Host, h: Host)
    requires CanAccept(s, g) && g != h && Passive(s.eq[g][0].l) == g
    ensures Aside(c, s, Accept(c, s, g), h)
  {
  }

  lemma ScriptAside(c: Config, s: State, r: State, h: Host, script: seq<Acceptance.Item>)
    requires ScriptOk(c, s, h, script) && Aside(c, s, r, h)
    ensures ScriptOk(c, r, h, script)
  {
    if StandOf(r, h) != Past && StandOf(s, h) != Past {
      forall l | l in r.eps && Passive(l) == h ensures InPhase(c, r, l, script) { assert InPhase(c, s, l, script); }
    }
    assert Acceptance.Lives(KeepAccept.Goal(c, h), []) == {};
  }

  /** One more item. */
  lemma Extends(n: nat, script: seq<Acceptance.Item>, item: Acceptance.Item)
    requires Acceptance.Legal(n, script) && Acceptance.LegalNext(n, script, item) && item.kind != Acceptance.Dialled
    ensures var longer := script + [item];
      && Acceptance.Legal(n, longer)
      && Acceptance.Tally(longer, Acceptance.Dialled) == Acceptance.Tally(script, Acceptance.Dialled)
      && |Acceptance.Lives(n, longer)| == |Acceptance.Lives(n, script)|
           + (match item.kind case Join => 1 case Part => -1 case _ => 0)
      && forall x :: Acceptance.PhaseOf(longer, x)
           == if x == item.n then Acceptance.NextPhase(item.kind) else Acceptance.PhaseOf(script, x)
  {
    var longer := script + [item];
    assert longer[..|longer| - 1] == script;
    forall t | 0 <= t < |longer| ensures Acceptance.LegalNext(n, longer[..t], longer[t]) {
      if t < |script| { assert longer[..t] == script[..t]; }
    }
    Acceptance.LivesNext(n, longer);
  }

  lemma SlotsApart(c: Config, l: Link, x: Link)
    requires Valid(c, l) && Valid(c, x) && Passive(l) == Passive(x) && l != x
    ensures Slot(c, l) != Slot(c, x)
  {
  }

  /** Reading one event in waitAllConn: the connection's phase moves as the item says. */
  predicate ReadsEvent(c: Config, s: State, r: State, h: Host, e: Event) {
    && Valid(c, e.l) && e.l in s.eps && Passive(e.l) == h && !e.Own?
    && PhaseAt(s.eps[e.l].st) == Acceptance.Expects(ItemOf(c, e).kind)
    && StandOf(s, h).Counting?
    && (StandOf(r, h) == Past || StandOf(r, h) == Counting(Count(StandOf(s, h).x, e)))
    && (forall l | l in r.eps :: Valid(c, l) && l in s.eps
         && PhaseAt(r.eps[l].st) == if l == e.l then Acceptance.NextPhase(ItemOf(c, e).kind) else PhaseAt(s.eps[l].st))
  }

  lemma AcceptReads(c: Config, s: State, h: Host)
    requires Facts.Core(c, s) && Events(s) && Counters(c, s) && CanAccept(s, h)
    ensures ReadsEvent(c, s, Accept(c, s, h), h, s.eq[h][0])
  {
    KeepAccept.Head(c, s, h);
    KeepAccept.Counting(c, s, h);
    AcceptIs(c, s, h);
  }

  lemma AcceptIs(c: Config, s: State, h: Host)
    requires (forall l | l in s.eps :: Valid(c, l)) && CanAccept(s, h) && s.eq[h][0].l in s.eps
        && Passive(s.eq[h][0].l) == h
    requires var e := s.eq[h][0];
      (e.Req? && s.eps[e.l].st == ReqQueued) || (e.Est? && s.eps[e.l].st == EstQueued)
    ensures ReadsEvent(c, s, Accept(c, s, h), h, s.eq[h][0])
  {
  }

  lemma ScriptReads(c: Config, s: State, r: State, h: Host, e: Event, script: seq<Acceptance.Item>)
    requires ScriptOk(c, s, h, script) && ReadsEvent(c, s, r, h, e)
    ensures ScriptOk(c, r, h, script + [ItemOf(c, e)])
  {
    var item := ItemOf(c, e);
    assert InPhase(c, s, e.l, script);
    Extends(KeepAccept.Goal(c, h), script, item);
    if StandOf(r, h) != Past {
      forall l | l in r.eps && Passive(l) == h ensures InPhase(c, r, l, script + [item]) {
        assert InPhase(c, s, l, script);
        if l != e.l { SlotsApart(c, l, e.l); }
      }
    }
  }

  lemma StepAside(c: Config, s: State, a: Action, h: Host)
    requires Facts.Core(c, s) && Events(s) && Counters(c, s) && Can(c, s, a) && a != ByCtrl(AAccept(h))
    ensures StandOf(Next(c, s, a), h) == Past || Aside(c, s, Next(c, s, a), h)
  {
    match a
    case ByFabric(x) => FabricAside(c, s, x, h);
    case ByCtrl(x) =>
      if x.AAccept? { KeepAccept.Head(c, s, x.h); }
      CtrlStep(c, s, x, h);
    case ByCli(x) =>
      if x.ARequest? { NotAsked(c, s, LinkTo(x.i, s.clients[x.i].pc.t)); }
      CliAside(c, s, x, h);
    case ByServer(x) =>
      if x.ASrvRequest? { NotAsked(c, s, Sc(x.j)); }
      ServerStep(c, s, x, h);
  }

  lemma CtrlStep(c: Config, s: State, a: CtrlAct, h: Host)
    requires Events(s) && CanCtrl(c, s, a) && a != AAccept(h)
    requires a.AAccept? ==> Passive(s.eq[a.h][0].l) == a.h
    ensures StandOf(NextCtrl(c, s, a), h) == Past || Aside(c, s, NextCtrl(c, s, a), h)
  {
    if a.AAccept? {
      AcceptAside(c, s, a.h, h);
    } else {
      if a.AClose? { AtHead(s, Ctl); }
      if StandOf(NextCtrl(c, s, a), h) != Past { CtrlAside(c, s, a, h); }
    }
  }

  lemma ServerStep(c: Config, s: State, a: ServerAct, h: Host)
    requires Events(s) && CanServer(c, s, a)
    requires a.ASrvRequest? ==> PhaseAt(s.eps[Sc(a.j)].st) == Acceptance.Off
    ensures StandOf(NextServer(c, s, a), h) == Past || Aside(c, s, NextServer(c, s, a), h)
  {
    if a.ASrvEvent? { AtHead(s, Srv(a.j)); }
    if !(a.ASrvEvent? && h == Srv(a.j)) { ServerAside(c, s, a, h); }
  }

  lemma AtHead(s: State, h: Host)
    requires Events(s) && h in s.eq && s.eq[h] != []
    ensures Pending(s, h, s.eq[h][0])
  {
    assert EqOk(s, h) && s.eq[h][0] in s.eq[h];
  }

  lemma NotAsked(c: Config, s: State, l: Link)
    requires Links(c, s) && l in s.eps && Dialled(s, l) == 0
    ensures PhaseAt(s.eps[l].st) == Acceptance.Off
  {
    assert LinkOk(c, s, l);
  }

  lemma {:induction false} ScriptRun(c: Config, init: State, run: seq<Action>, h: Host)
    requires Sane(c) && Begin(c, init) && Exec(c, init, run).Some?
    ensures ScriptOk(c, Exec(c, init, run).value, h, Script(c, init, run, h))
  {
    if run == [] {
      assert Phases(c, init, h, []);
    } else {
      var n := |run| - 1;
      ScriptRun(c, init, run[..n], h);
      Runs.InvRun(c, init, run[..n]);
      ScriptStep(c, Exec(c, init, run[..n]).value, run[n], h, Script(c, init, run[..n], h));
    }
  }

  lemma ScriptStep(c: Config, s: State, a: Action, h: Host, script: seq<Acceptance.Item>)
    requires Inv(c, s) && Can(c, s, a) && ScriptOk(c, s, h, script)
    ensures ScriptOk(c, Next(c, s, a), h,
                     if a == ByCtrl(AAccept(h)) then script + [ItemOf(c, s.eq[h][0])] else script)
  {
    if a == ByCtrl(AAccept(h)) {
      AcceptReads(c, s, h);
      ScriptReads(c, s, Next(c, s, a), h, s.eq[h][0], script);
    } else {
      StepAside(c, s, a, h);
      ScriptStays(c, s, Next(c, s, a), h, script);
    }
  }

  lemma ScriptStays(c: Config, s: State, r: State, h: Host, script: seq<Acceptance.Item>)
    requires ScriptOk(c, s, h, script) && (StandOf(r, h) == Past || Aside(c, s, r, h))
    ensures ScriptOk(c, r, h, script)
  {
    if StandOf(r, h) != Past { ScriptAside(c, s, r, h, script); }
  }

  /** In every run, the events a node reads inside waitAllConn are a legal stream without dials of
      its own, and as long as it is inside, its counter is the one waitAllConn computes from that
      stream, which is the number of connections alive. */
  lemma WaitRefines(c: Config, init: State, run: seq<Action>, h: Host, d: Acceptance.Desk, own: nat)
    requires Sane(c) && Begin(c, init) && Exec(c, init, run).Some?
    requires Acceptance.Ready(d, own) && |d.slots| == KeepAccept.Goal(c, h)
    ensures var script, s := Script(c, init, run, h), Exec(c, init, run).value;
      && Acceptance.Legal(|d.slots|, script) && Acceptance.Tally(script, Acceptance.Dialled) == 0
      && (KeepAccept.Accepting(s, h) ==>
            KeepAccept.Counted(s, h) == Acceptance.After(d, Acceptance.Raw(d, own, script)).counter
            == |Acceptance.Lives(|d.slots|, script)|)
  {
    ScriptRun(c, init, run, h);
    Acceptance.Counts(d, own, Script(c, init, run, h));
  }

  // ---------- the gather loops

  /** The completion a gather step polls. */
  function ArrivalOf(s: State, i: nat): Gathering.Arrival
    requires i < |s.ports|
  {
    Gathering.Arrival(i, s.ports[i].buff, 0)
  }

  /** A gather step of the protocol is a turn of the gather loop, on a full report of a client that
      was not heard in this round before. */
  lemma GatherRefines(c: Config, s: State, i: nat)
    requires Sane(c) && Reachable(c, s) && CanGather(s, i) && s.ctl.p >= 3
    ensures i < c.n && |Filled(c, s, s.ctl.p)| == c.n * c.m && s.ports[i].taken == Before(s.ctl.p)
    ensures Gathering.Whole(c, ArrivalOf(s, i)) && Gathering.Proper(c, [ArrivalOf(s, i)])
    ensures Filled(c, CtlGather(c, s, i), s.ctl.p) == Gathering.Collected(c, Filled(c, s, s.ctl.p), [ArrivalOf(s, i)])
  {
    FullReachable(c, s);
    ReportTaken(c, s, i);
  }

  lemma ReportTaken(c: Config, s: State, i: nat)
    requires Full(c, s) && CanGather(s, i) && s.ctl.p >= 3
    ensures i < c.n && |Filled(c, s, s.ctl.p)| == c.n * c.m && s.ports[i].taken == Before(s.ctl.p)
    ensures Gathering.Whole(c, ArrivalOf(s, i)) && Gathering.Proper(c, [ArrivalOf(s, i)])
    ensures Filled(c, CtlGather(c, s, i), s.ctl.p) == Gathering.Collected(c, Filled(c, s, s.ctl.p), [ArrivalOf(s, i)])
  {
    KeepController.FirstReply(c, s, i);
    Gathered(c, s, i);
    Sizes(c, s);
    GatherIs(c, s, i);
  }

  lemma GatherIs(c: Config, s: State, i: nat)
    requires CanGather(s, i) && s.ctl.p >= 3 && i < c.n && |s.checkpoint| == |s.summary| == c.n * c.m
    requires s.ports[i].buff.Report? && |s.ports[i].buff.rows| == c.m
    ensures Gathering.Whole(c, ArrivalOf(s, i)) && Gathering.Proper(c, [ArrivalOf(s, i)])
    ensures Filled(c, CtlGather(c, s, i), s.ctl.p) == Gathering.Collected(c, Filled(c, s, s.ctl.p), [ArrivalOf(s, i)])
  {
    GatherStores(c, s, i, s.ports[i].buff.rows);
    OneCollected(c, Filled(c, s, s.ctl.p), ArrivalOf(s, i));
  }

  lemma Sizes(c: Config, s: State)
    requires Matrices(c, s)
    ensures |s.checkpoint| == |s.summary| == c.n * c.m
  {
  }

  lemma OneCollected(c: Config, a: seq<Transfer>, x: Gathering.Arrival)
    requires |a| == c.n * c.m && x.id < c.n && Gathering.Whole(c, x)
    ensures x.id * c.m + c.m <= |a| && |Gathering.Rows(x)| == c.m
    ensures Gathering.Collected(c, a, [x]) == StoreRow(a, c.m, x.id, Gathering.Rows(x))
  {
    Fits(c, x.id);
    Gathering.WholeRows(c, x);
    assert [x][..0] == [];
  }
}
