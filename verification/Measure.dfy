/** Control steps cannot go on forever: each of them adds to a total that is bounded by the
    numbers of clients, servers and checkpoints. */
module Measure {
  import opened Wire
  import opened Accounting
  import opened Protocol
  import opened Invariant
  import opened Facts
  import opened Ledger
  import opened Progress
  import KeepAccept
  import KeepClient
  import KeepController
  import KeepServer
  import KeepFabric

  // ---------- work done so far, part by part

  function StageIndex(st: Stage): nat {
    match st case Posting => 0 case Sending => 1 case Draining => 2 case Gathering => 3
  }

  /** Loops completed before loop st of round p. */
  function Loops(p: nat, st: Stage): nat {
    if p == 0 then 0 else (p - 1) * 4 + StageIndex(st)
  }

  function CtlWork(c: Config, pc: CtlPc): nat {
    var w := c.n + c.m;
    match pc
    case Listening(x) => x
    case Accepting(_) => w
    case Round(p, st, x) => w + Loops(p, st) * w + x
    case Closing(x) => w + 4 * LastRound(c) * w + (if x >= 0 then x else 0)
    case Finished => w + 4 * LastRound(c) * w + w
    case CtlFailed => 0
  }

  function SubWork(sub: Sub): nat { SubDial(sub) }
  function CliWork(c: Config, pc: CliPc): nat {
    var d := 3 * c.m;
    match pc
    case Dial(t, sub) => if t == 0 then SubWork(sub) else 2 + 3 * t + SubWork(sub)
    case PostConnect => 3
    case AwaitConnect => 4
    case PostStart => 5 + d
    case Confirm => 6 + d
    case AwaitTx => 7 + d
    case AwaitStart => 8 + d
    case PostBench => 9 + d
    case Fill(r, j) => 10 + d + r * c.m + j
    case Loop(h) => 10 + d + WINDOW * c.m + h
    case Crashed(h) => 10 + d + WINDOW * c.m + h
    case LastPoll => 11 + d + WINDOW * c.m + c.k
    case CliDone => 12 + d + WINDOW * c.m + c.k
    case CliFailed => 0
  }

  function SrvWork(c: Config, pc: SrvPc): nat {
    match pc
    case Opening(x) => x
    case SrvDial(sub) => c.n + SubWork(sub)
    case SrvAccepting(_) => c.n + 3
    case PostStop => c.n + 4
    case Running => c.n + 5
    case SrvDone => c.n + 6
    case SrvFailed => 0
  }

  /** Connection states passed and messages delivered on l. */
  function LinkWork(c: Config, s: State, l: Link): nat {
    if l in s.eps then Rank(s.eps[l].st) + s.eps[l].landed + NumsOf(c, s, l).consumed else 0
  }

  function PortWork(s: State, i: nat): nat {
    if i < |s.ports| then s.ports[i].landed + s.ports[i].taken else 0
  }

  function ClientWork(c: Config, s: State, i: nat): nat {
    if i < |s.clients| then CliWork(c, s.clients[i].pc) else 0
  }

  function ServerWork(c: Config, s: State, j: nat): nat {
    if j < |s.servers| then SrvWork(c, s.servers[j]) else 0
  }

  // ---------- no step undoes work

  ghost predicate Grows(c: Config, s: State, r: State) {
    && CtlWork(c, s.ctl) <= CtlWork(c, r.ctl)
    && (forall l :: LinkWork(c, s, l) <= LinkWork(c, r, l))
    && (forall i: nat :: PortWork(s, i) <= PortWork(r, i))
    && (forall i: nat :: ClientWork(c, s, i) <= ClientWork(c, r, i))
    && (forall j: nat :: ServerWork(c, s, j) <= ServerWork(c, r, j))
  }

  ghost predicate GrowsStrictly(c: Config, s: State, r: State) {
    || CtlWork(c, s.ctl) < CtlWork(c, r.ctl)
    || (exists l :: Valid(c, l) && LinkWork(c, s, l) < LinkWork(c, r, l))
    || (exists i: nat :: i < c.n && PortWork(s, i) < PortWork(r, i))
    || (exists i: nat :: i < c.n && ClientWork(c, s, i) < ClientWork(c, r, i))
    || (exists j: nat :: j < c.m && ServerWork(c, s, j) < ServerWork(c, r, j))
  }

  // ---------- the fabric

  lemma FabricLink(c: Config, s: State, a: FabricAct, l: Link)
    requires CanFabric(c, s, a)
    ensures LinkWork(c, s, l) <= LinkWork(c, NextFabric(c, s, a), l)
    ensures !a.AReply? && l == a.l ==> LinkWork(c, s, l) < LinkWork(c, NextFabric(c, s, a), l)
  {
  }

  lemma FabricRest(c: Config, s: State, a: FabricAct)
    requires CanFabric(c, s, a)
    ensures var r := NextFabric(c, s, a);
      && r.ctl == s.ctl && r.servers == s.servers
      && (forall i: nat :: PortWork(s, i) <= PortWork(r, i))
      && (forall i: nat :: ClientWork(c, s, i) == ClientWork(c, r, i))
      && (a.AReply? ==> PortWork(s, a.i) < PortWork(r, a.i))
  {
  }

  lemma FabricGrows(c: Config, s: State, a: FabricAct)
    requires Core(c, s) && CanFabric(c, s, a)
    ensures var r := NextFabric(c, s, a); Grows(c, s, r) && GrowsStrictly(c, s, r)
  {
    var r := NextFabric(c, s, a);
    FabricRest(c, s, a);
    forall l ensures LinkWork(c, s, l) <= LinkWork(c, r, l) { FabricLink(c, s, a, l); }
    if a.AReply? {
      assert PortWork(s, a.i) < PortWork(r, a.i) && a.i < c.n;
    } else {
      FabricLink(c, s, a, a.l);
      assert Valid(c, a.l);
    }
  }

  // ---------- the controller

  lemma Longer(q: nat, t: nat, w: nat, x: nat)
    requires q < t && x <= w
    ensures q * w + x <= t * w
  {
    assert (q + 1) * w <= t * w;
  }

  /** A loop of a round moves on: at the next index or at the start of a later loop. */
  lemma SettleWork(c: Config, p: nat, st: Stage, x: nat)
    requires Sane(c) && CtlPcOk(c, Round(p, st, x))
    ensures CtlWork(c, Round(p, st, x)) < CtlWork(c, Settle(c, p, st, x + 1))
  {
    var w, q := c.n + c.m, Settle(c, p, st, x + 1);
    if x + 1 >= Bound(c, p, st) {
      if q.Round? { Longer(Loops(p, st), Loops(q.p, q.stage), w, x + 1); }
      if q.Closing? { Longer(Loops(p, st), 4 * LastRound(c), w, x + 1); }
    }
  }

  lemma CtrlWork(c: Config, s: State, a: CtrlAct)
    requires Sane(c) && CtlPcOk(c, s.ctl) && CanCtrl(c, s, a) && !a.AAccept?
    requires a.AGather? ==> KeepController.Gathers(c, s, NextCtrl(c, s, a), a.i)
    requires a.AClose? ==> s.eq[Ctl][0].Down?
    ensures CtlWork(c, s.ctl) < CtlWork(c, NextCtrl(c, s, a).ctl)
  {
    if s.ctl.Round? { SettleWork(c, s.ctl.p, s.ctl.stage, s.ctl.x); }
  }

  lemma CtrlLink(c: Config, s: State, a: CtrlAct, l: Link)
    requires CanCtrl(c, s, a) && !a.AAccept?
    requires a.AClose? ==> s.eq[Ctl][0].Down? && s.eq[Ctl][0].l in s.eps && s.eps[s.eq[Ctl][0].l].st == DownQueued
    ensures LinkWork(c, s, l) <= LinkWork(c, NextCtrl(c, s, a), l)
  {
  }

  lemma CtrlRest(c: Config, s: State, a: CtrlAct)
    requires CanCtrl(c, s, a) && !a.AAccept?
    ensures var r := NextCtrl(c, s, a); r.clients == s.clients && r.servers == s.servers
    ensures forall i: nat :: PortWork(s, i) <= PortWork(NextCtrl(c, s, a), i)
  {
  }

  lemma AcceptWork(c: Config, s: State, h: Host)
    requires Core(c, s) && Events(s) && Counters(c, s) && CanAccept(s, h)
    ensures var r := Accept(c, s, h); Grows(c, s, r) && GrowsStrictly(c, s, r)
  {
    var e, r := s.eq[h][0], Accept(c, s, h);
    KeepAccept.Head(c, s, h);
    KeepAccept.Counting(c, s, h);
    KeepAccept.Shapes(c, s, h);
    assert Valid(c, e.l);
    if e.Req? { MovesWork(c, s, r, e.l); } else { WelcomesWork(c, s, r, h, e.l); }
  }

  lemma MovesWork(c: Config, s: State, r: State, l: Link)
    requires KeepFabric.Moves(c, s, r, l, Accepted) && Valid(c, l)
    ensures Grows(c, s, r) && GrowsStrictly(c, s, r)
  {
    forall x ensures LinkWork(c, s, x) <= LinkWork(c, r, x) { }
    assert LinkWork(c, s, l) < LinkWork(c, r, l);
  }

  lemma WelcomesLink(c: Config, s: State, r: State, h: Host, l: Link, x: Link)
    requires KeepAccept.Welcomes(c, s, r, h, l)
    ensures LinkWork(c, s, x) <= LinkWork(c, r, x) && (x == l ==> LinkWork(c, s, x) < LinkWork(c, r, x))
  {
  }

  lemma WelcomesWork(c: Config, s: State, r: State, h: Host, l: Link)
    requires KeepAccept.Welcomes(c, s, r, h, l) && Valid(c, l)
    ensures Grows(c, s, r) && GrowsStrictly(c, s, r)
  {
    forall x ensures LinkWork(c, s, x) <= LinkWork(c, r, x) { WelcomesLink(c, s, r, h, l, x); }
    WelcomesLink(c, s, r, h, l, l);
    assert CtlWork(c, s.ctl) <= CtlWork(c, r.ctl);
    forall j: nat ensures ServerWork(c, s, j) <= ServerWork(c, r, j) { }
  }

  lemma CtrlMoves(c: Config, s: State, a: CtrlAct)
    requires Sane(c) && CtlPcOk(c, s.ctl) && CanCtrl(c, s, a) && !a.AAccept?
    requires a.AGather? ==> KeepController.Gathers(c, s, NextCtrl(c, s, a), a.i)
    requires a.AClose? ==> s.eq[Ctl][0].Down? && s.eq[Ctl][0].l in s.eps && s.eps[s.eq[Ctl][0].l].st == DownQueued
    ensures var r := NextCtrl(c, s, a); Grows(c, s, r) && GrowsStrictly(c, s, r)
  {
    CtrlWork(c, s, a);
    CtrlRest(c, s, a);
    forall l ensures LinkWork(c, s, l) <= LinkWork(c, NextCtrl(c, s, a), l) { CtrlLink(c, s, a, l); }
  }

  lemma CtrlGrows(c: Config, s: State, a: CtrlAct)
    requires Core(c, s) && Events(s) && Counters(c, s) && CanCtrl(c, s, a)
    ensures var r := NextCtrl(c, s, a); Grows(c, s, r) && GrowsStrictly(c, s, r)
  {
    if a.AAccept? {
      AcceptWork(c, s, a.h);
    } else {
      if a.AGather? {
        KeepController.FirstReply(c, s, a.i);
        KeepController.Expected(c, s, a.i);
      } else if a.AClose? {
        KeepController.NextIsDown(c, s);
      }
      CtrlMoves(c, s, a);
    }
  }

  // ---------- the servers

  lemma ServerLink(c: Config, s: State, a: ServerAct, l: Link)
    requires CanServer(c, s, a)
    requires a.ASrvRequest? ==> s.eps[Sc(a.j)].st == Idle
    requires a.ASrvKeys? ==> s.eps[Sc(a.j)].buff.Keys?
    requires a.ASrvStop? ==> s.eps[Sc(a.j)].buff == Cmd(Stop)
    requires a.ASrvEvent? ==> KeepServer.Loses(s, SrvEvent(s, a.j), a.j, s.eq[Srv(a.j)][0].l)
    requires a.AUplink? ==> s.eq[Srv(a.j)][0].Own?
    ensures LinkWork(c, s, l) <= LinkWork(c, NextServer(c, s, a), l)
    ensures a.ASrvEvent? && l == s.eq[Srv(a.j)][0].l ==> LinkWork(c, s, l) < LinkWork(c, NextServer(c, s, a), l)
  {
  }

  lemma ServerRest(c: Config, s: State, a: ServerAct)
    requires CanServer(c, s, a) && (a.AOpen? ==> SrvPcOk(c, s.servers[a.j])) && Sane(c)
    requires a.ASrvKeys? ==> s.eps[Sc(a.j)].buff.Keys?
    requires a.ASrvStop? ==> s.eps[Sc(a.j)].buff == Cmd(Stop)
    requires a.AUplink? ==> s.eq[Srv(a.j)][0].Own?
    requires a.ASrvEvent? ==> KeepServer.Loses(s, SrvEvent(s, a.j), a.j, s.eq[Srv(a.j)][0].l)
    ensures var r := NextServer(c, s, a); r.clients == s.clients && r.ctl == s.ctl && r.ports == s.ports
    ensures forall j: nat :: ServerWork(c, s, j) <= ServerWork(c, NextServer(c, s, a), j)
    ensures !a.ASrvEvent? ==> ServerWork(c, s, a.j) < ServerWork(c, NextServer(c, s, a), a.j)
  {
  }

  /** What the invariant says about the step at hand. */
  lemma ServerFacts(c: Config, s: State, a: ServerAct)
    requires Core(c, s) && Events(s) && CanServer(c, s, a)
    ensures a.j < c.m && SrvPcOk(c, s.servers[a.j]) && Sc(a.j) in s.eps
    ensures a.ASrvRequest? ==> s.eps[Sc(a.j)].st == Idle
    ensures a.ASrvKeys? ==> s.eps[Sc(a.j)].buff.Keys?
    ensures a.ASrvStop? ==> s.eps[Sc(a.j)].buff == Cmd(Stop)
    ensures a.ASrvEvent? ==> KeepServer.Loses(s, SrvEvent(s, a.j), a.j, s.eq[Srv(a.j)][0].l)
    ensures a.AUplink? ==> s.eq[Srv(a.j)][0].Own?
  {
    KeepServer.OwnLinkOk(c, s, a.j);
    PcAt(c, s, a.j);
    match a
    case ASrvRequest(j) => KeepServer.StillIdle(c, s, j);
    case ASrvEvent(j) => KeepServer.OnlyDown(c, s, j);
    case AUplink(j) => KeepServer.OwnFirst(c, s, j);
    case _ => ServerBuffer(c, s, a);
  }

  lemma ServerBuffer(c: Config, s: State, a: ServerAct)
    requires CanServer(c, s, a) && Sc(a.j) in s.eps && LinkOk(c, s, Sc(a.j))
    ensures a.ASrvKeys? ==> s.eps[Sc(a.j)].buff.Keys?
    ensures a.ASrvStop? ==> s.eps[Sc(a.j)].buff == Cmd(Stop)
  {
  }

  lemma ServerGrows(c: Config, s: State, a: ServerAct)
    requires Core(c, s) && Events(s) && CanServer(c, s, a)
    ensures var r := NextServer(c, s, a); Grows(c, s, r) && GrowsStrictly(c, s, r)
  {
    var r := NextServer(c, s, a);
    ServerFacts(c, s, a);
    ServerRest(c, s, a);
    forall l ensures LinkWork(c, s, l) <= LinkWork(c, r, l) { ServerLink(c, s, a, l); }
    if a.ASrvEvent? {
      var l := s.eq[Srv(a.j)][0].l;
      ServerLink(c, s, a, l);
      assert Valid(c, l);
    }
  }

  // ---------- the clients

  /** What the invariant says about the step at hand. */
  predicate Sensible(c: Config, s: State, a: CliAct)
    requires CanCli(c, s, a)
  {
    var pc := s.clients[a.i].pc;
    && Sane(c) && CliPcOk(c, a.i, pc)
    && (a.ARequest? ==> s.eps[LinkTo(a.i, pc.t)].st == Idle)
    && (a.AKeys? ==> a.u == LinkTo(a.i, pc.t) && s.eps[a.u].buff.Keys?)
    && (a.AObey? ==> a.u == Cc(a.i) && s.eps[a.u].buff == Cmd(if pc == AwaitConnect then Connect else Start))
    && (a.AServe? ==> a.u == Cc(a.i) && s.eps[a.u].buff == Cmd(KeepClient.NextCmd(c, pc.h)))
  }

  lemma CliFacts(c: Config, s: State, a: CliAct)
    requires Core(c, s) && CanCli(c, s, a)
    ensures Sensible(c, s, a)
  {
    assert CliPcOk(c, a.i, s.clients[a.i].pc);
    match a
    case ARequest(i) => KeepClient.At(c, s, i, s.clients[i].pc.t); KeepClient.RequestOk(c, s, i);
    case AKeys(i, u) => KeepClient.OnlyDue(c, s, i, u); assert LinkOk(c, s, u); BufferAt(c, s, a);
    case AObey(i, u) => KeepClient.OnlyDue(c, s, i, u); assert LinkOk(c, s, u); BufferAt(c, s, a);
    case AServe(i, u, _) => CommandRead(c, s, i, u);
    case _ =>
  }

  lemma BufferAt(c: Config, s: State, a: CliAct)
    requires Sane(c) && CanCli(c, s, a) && (a.AKeys? || a.AObey?) && LinkOk(c, s, a.u)
        && CliPcOk(c, a.i, s.clients[a.i].pc)
    requires a.u == LinkTo(a.i, KeepClient.Due(s.clients[a.i].pc))
    ensures a.AKeys? ==> s.eps[a.u].buff.Keys?
    ensures a.AObey? ==> s.eps[a.u].buff == Cmd(if s.clients[a.i].pc == AwaitConnect then Connect else Start)
  {
  }

  /** What a receive completion loses, the program counter gains. */
  lemma KeysLink(c: Config, s: State, a: CliAct, l: Link)
    requires CanCli(c, s, a) && Sensible(c, s, a) && a.AKeys?
    ensures LinkWork(c, s, l) <= LinkWork(c, NextCli(c, s, a), l)
  {
    KeepClient.KeysPc(c, s.clients[a.i].pc.t);
  }

  lemma CommandLink(c: Config, s: State, a: CliAct, l: Link)
    requires CanCli(c, s, a) && Sensible(c, s, a) && (a.AObey? || a.AServe?)
    ensures LinkWork(c, s, l) <= LinkWork(c, NextCli(c, s, a), l)
  {
  }

  lemma DialLink(c: Config, s: State, a: CliAct, l: Link)
    requires CanCli(c, s, a) && Sensible(c, s, a) && (a.ARequest? || a.AConnected? || a.ACliPost?)
    ensures LinkWork(c, s, l) <= LinkWork(c, NextCli(c, s, a), l)
  {
  }

  lemma PlainLink(c: Config, s: State, a: CliAct, l: Link)
    requires CanCli(c, s, a) && Sensible(c, s, a)
    requires !a.AKeys? && !a.AObey? && !a.AServe? && !a.ARequest? && !a.AConnected? && !a.ACliPost?
    ensures LinkWork(c, s, l) <= LinkWork(c, NextCli(c, s, a), l)
  {
  }

  lemma CliLink(c: Config, s: State, a: CliAct, l: Link)
    requires CanCli(c, s, a) && Sensible(c, s, a)
    ensures LinkWork(c, s, l) <= LinkWork(c, NextCli(c, s, a), l)
  {
    if a.AKeys? { KeysLink(c, s, a, l); }
    else if a.AObey? || a.AServe? { CommandLink(c, s, a, l); }
    else if a.ARequest? || a.AConnected? || a.ACliPost? { DialLink(c, s, a, l); }
    else { PlainLink(c, s, a, l); }
  }

  lemma FillWork(c: Config, r: nat, j: nat)
    requires j < c.m && r < WINDOW
    ensures CliWork(c, Fill(r, j)) < CliWork(c, NextFill(c, r, j))
  {
    assert (r + 1) * c.m == r * c.m + c.m;
    assert (r + 1) * c.m <= WINDOW * c.m;
  }

  lemma DialWork(c: Config, s: State, a: CliAct)
    requires CanCli(c, s, a) && Sensible(c, s, a) && a.i < |NextCli(c, s, a).clients|
    requires a.ARequest? || a.AConnected? || a.AKeys? || a.ACliPost? || a.AObey?
    ensures CliWork(c, s.clients[a.i].pc) < CliWork(c, NextCli(c, s, a).clients[a.i].pc)
  {
  }

  lemma LoopWork(c: Config, s: State, a: CliAct)
    requires CanCli(c, s, a) && Sensible(c, s, a) && a.i < |NextCli(c, s, a).clients|
    requires !a.ARequest? && !a.AConnected? && !a.AKeys? && !a.ACliPost? && !a.AObey?
    ensures CliWork(c, s.clients[a.i].pc) <= CliWork(c, NextCli(c, s, a).clients[a.i].pc)
    ensures !a.APoll? ==> CliWork(c, s.clients[a.i].pc) < CliWork(c, NextCli(c, s, a).clients[a.i].pc)
  {
    if a.AFill? { FillWork(c, s.clients[a.i].pc.r, s.clients[a.i].pc.j); }
  }

  lemma CliRest(c: Config, s: State, a: CliAct)
    requires CanCli(c, s, a)
    ensures var r := NextCli(c, s, a); r.ctl == s.ctl && r.servers == s.servers && r.ports == s.ports
  {
  }

  lemma CliGrows(c: Config, s: State, a: CliAct)
    requires Core(c, s) && CanCli(c, s, a)
    ensures var r := NextCli(c, s, a); Grows(c, s, r) && (!a.APoll? ==> GrowsStrictly(c, s, r))
  {
    CliFacts(c, s, a);
    CliMoves(c, s, a);
  }

  lemma CliMoves(c: Config, s: State, a: CliAct)
    requires CanCli(c, s, a) && Sensible(c, s, a) && |s.clients| == c.n
    ensures var r := NextCli(c, s, a); Grows(c, s, r) && (!a.APoll? ==> GrowsStrictly(c, s, r))
  {
    var r := NextCli(c, s, a);
    CliRest(c, s, a);
    CliOthers(c, s, a);
    if a.ARequest? || a.AConnected? || a.AKeys? || a.ACliPost? || a.AObey? {
      DialWork(c, s, a);
    } else {
      LoopWork(c, s, a);
    }
    forall l ensures LinkWork(c, s, l) <= LinkWork(c, r, l) { CliLink(c, s, a, l); }
    forall i: nat ensures ClientWork(c, s, i) <= ClientWork(c, r, i) { }
    if !a.APoll? {
      assert ClientWork(c, s, a.i) < ClientWork(c, r, a.i);
    }
  }

  lemma StepGrows(c: Config, s: State, a: Action)
    requires Inv(c, s) && Can(c, s, a)
    ensures Grows(c, s, Next(c, s, a)) && (Control(a) ==> GrowsStrictly(c, s, Next(c, s, a)))
  {
    match a
    case ByFabric(x) => FabricGrows(c, s, x);
    case ByCtrl(x) => CtrlGrows(c, s, x);
    case ByCli(x) => CliGrows(c, s, x);
    case ByServer(x) => ServerGrows(c, s, x);
  }
}
