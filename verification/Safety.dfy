/** What the benchmark guarantees in every reachable state. */
module Safety {
  import opened Wire
  import opened Accounting
  import opened Protocol
  import opened Invariant
  import opened Facts
  import opened Ledger
  import KeepAccept
  import KeepFabric
  import KeepServer
  import KeepController

  // ---------- barriers

  /** Once any client has posted a write, every client is connected to every server and holds
      the keys of its own endpoint there. */
  lemma StartBarrier(c: Config, s: State, i: nat, x: nat)
    requires Sane(c) && Reachable(c, s) && i < |s.clients| && x < |s.clients[i].acc.posted|
        && s.clients[i].acc.posted[x] > 0
    ensures forall y, z | 0 <= y < c.n && 0 <= z < c.m ::
              Cs(y, z) in s.eps && Rank(s.eps[Cs(y, z)].st) >= Rank(Up) && s.eps[Cs(y, z)].key == Some(Cs(y, z))
  {
    FullReachable(c, s);
    assert Account(c, i, s.clients[i]);
    WritesMeanStarted(c, i, s.clients[i], x);
    forall y, z | 0 <= y < c.n && 0 <= z < c.m
      ensures Cs(y, z) in s.eps && Rank(s.eps[Cs(y, z)].st) >= Rank(Up) && s.eps[Cs(y, z)].key == Some(Cs(y, z))
    {
      Begun(c, s, i, y);
      Facts.Connected(c, s, y, z);
    }
  }

  /** No client asks a server for a connection before every server listens on all its endpoints
      and is connected to the controller. */
  lemma ListeningBarrier(c: Config, s: State, i: nat, j: nat, z: nat)
    requires Sane(c) && Reachable(c, s) && i < c.n && j < c.m && z < c.m
    requires Cs(i, j) in s.eps && s.eps[Cs(i, j)].st != Idle
    ensures Sc(z) in s.eps && Rank(s.eps[Sc(z)].st) >= Rank(Up)
    ensures forall y | 0 <= y < c.n :: Listens(c, s, Cs(y, z))
  {
    FullReachable(c, s);
    Dialling(c, s, i, j);
    KeepServer.OwnLinkOk(c, s, z);
    ToldUp(c, s, i, Sc(z));
    AllEars(c, s, z);
  }

  lemma AllEars(c: Config, s: State, z: nat)
    requires Sc(z) in s.eps && LinkOk(c, s, Sc(z)) && z < |s.servers| && Rank(s.eps[Sc(z)].st) >= Rank(Up)
    ensures forall y | 0 <= y < c.n :: Listens(c, s, Cs(y, z))
  {
  }

  lemma Dialling(c: Config, s: State, i: nat, j: nat)
    requires Core(c, s) && i < c.n && j < c.m && Cs(i, j) in s.eps && s.eps[Cs(i, j)].st != Idle
    ensures CliConsumed(c, s.clients[i].pc) >= 2
  {
    assert LinkOk(c, s, Cs(i, j));
  }

  /** The first event a server reads after dialling the controller is its own CONNECTED. */
  lemma FirstEvent(c: Config, s: State, j: nat)
    requires Sane(c) && Reachable(c, s) && CanUplink(s, j)
    ensures s.eq[Srv(j)][0] == Own(Sc(j))
  {
    FullReachable(c, s);
    KeepServer.OwnFirst(c, s, j);
  }

  /** Every server has accepted all its clients before the controller can send START. */
  lemma AcceptedBeforeStart(c: Config, s: State, j: nat)
    requires Sane(c) && Reachable(c, s) && j < |s.servers| && s.ctl.Round? && s.ctl.p >= 2
    ensures Inside(s, Srv(j))
  {
    FullReachable(c, s);
    forall i | 0 <= i < c.n ensures Cs(i, j) in UpSet(s, Srv(j)) { ConfirmedUp(c, s, i, j); }
    EveryClientUp(c, s, j);
    KeepServer.CounterOk(c, s, j);
    assert SrvPcOk(c, s.servers[j]);
  }

  lemma ConfirmedUp(c: Config, s: State, i: nat, j: nat)
    requires Core(c, s) && i < c.n && j < |s.servers| && s.ctl.Round? && s.ctl.p >= 2
    ensures Cs(i, j) in UpSet(s, Srv(j))
  {
    assert Valid(c, Cc(i)) && ReplyAt(c, s, i);
    Facts.Connected(c, s, i, j);
  }

  lemma EveryClientUp(c: Config, s: State, j: nat)
    requires Shape(c, s) && forall i | 0 <= i < c.n :: Cs(i, j) in UpSet(s, Srv(j))
    ensures |UpSet(s, Srv(j))| == c.n
  {
    assert UpSet(s, Srv(j)) == Frames.Incoming(c, Srv(j));
    Frames.SizeIncoming(c, Srv(j));
  }

  /** waitAllConn never counts down, and leaves its loop exactly when all connections are up. */
  lemma CountingUp(c: Config, s: State, h: Host)
    requires Sane(c) && Reachable(c, s) && CanAccept(s, h)
    ensures var r, e := Accept(c, s, h), s.eq[h][0];
      && !e.Down? && !e.Own?
      && |UpSet(r, h)| == |UpSet(s, h)| + (if e.Est? then 1 else 0)
      && KeepAccept.Counted(s, h) == |UpSet(s, h)|
      && (Inside(r, h) <==> |UpSet(r, h)| == KeepAccept.Goal(c, h))
  {
    FullReachable(c, s);
    KeepAccept.Head(c, s, h);
    KeepAccept.Counting(c, s, h);
    KeepAccept.Shapes(c, s, h);
    CountedOne(c, s, h);
  }

  lemma CountedOne(c: Config, s: State, h: Host)
    requires CanAccept(s, h) && 0 <= KeepAccept.Counted(s, h) < KeepAccept.Goal(c, h)
    requires |UpSet(s, h)| == KeepAccept.Counted(s, h)
    requires var e, r := s.eq[h][0], Accept(c, s, h);
      && (e.Req? || e.Est?)
      && (e.Req? ==> KeepFabric.Moves(c, s, r, e.l, Accepted)) && (e.Est? ==> KeepAccept.Welcomes(c, s, r, h, e.l))
    ensures var e, r := s.eq[h][0], Accept(c, s, h);
      && |UpSet(r, h)| == |UpSet(s, h)| + (if e.Est? then 1 else 0)
      && (Inside(r, h) <==> |UpSet(r, h)| == KeepAccept.Goal(c, h))
  {
    var e, r := s.eq[h][0], Accept(c, s, h);
    if e.Est? {
      KeepAccept.OneUp(c, s, r, h, e.l);
    } else {
      Frames.UpKept(s, r);
    }
  }

  // ---------- control buffers

  /** While a client's confirmation or report is in flight, its buffer still holds it, nothing is
      on its way to the buffer, and no step of any node or of the fabric writes the buffer. */
  lemma ReplyStable(c: Config, s: State, i: nat, a: Action)
    requires Sane(c) && Reachable(c, s) && i < |s.clients| && s.clients[i].outbox != [] && Can(c, s, a)
    ensures Cc(i) in s.eps && s.eps[Cc(i)].buff == s.clients[i].outbox[0]
    ensures s.eps[Cc(i)].inbox == [] && s.eps[Cc(i)].landed == 0
    ensures Cc(i) in Next(c, s, a).eps && Next(c, s, a).eps[Cc(i)].buff == s.eps[Cc(i)].buff
  {
    FullReachable(c, s);
    assert Valid(c, Cc(i)) && ReplyAt(c, s, i);
    KeepFabric.QuietLink(c, s, i);
    assert CliPcOk(c, i, s.clients[i].pc);
    SpeaksOnce(c, s, i);
    match a
    case ByFabric(x) => FabricBuff(c, s, i, x);
    case ByCtrl(x) => CtrlBuff(c, s, i, x);
    case ByCli(x) =>
      if x.AServe? { CommandRead(c, s, x.i, x.u); }
      CliBuff(c, s, i, x);
    case ByServer(x) => ServerBuff(c, s, i, x);
  }

  /** A client with a reply in flight is not about to send another. */
  lemma SpeaksOnce(c: Config, s: State, i: nat)
    requires Core(c, s) && i < |s.clients| && s.clients[i].outbox != []
    ensures s.clients[i].pc != Confirm
  {
    assert Valid(c, Cc(i)) && ReplyAt(c, s, i);
  }

  lemma FabricBuff(c: Config, s: State, i: nat, a: FabricAct)
    requires CanFabric(c, s, a) && Cc(i) in s.eps && s.eps[Cc(i)].inbox == []
    ensures Cc(i) in NextFabric(c, s, a).eps && NextFabric(c, s, a).eps[Cc(i)].buff == s.eps[Cc(i)].buff
  {
  }

  lemma CtrlBuff(c: Config, s: State, i: nat, a: CtrlAct)
    requires CanCtrl(c, s, a) && Cc(i) in s.eps
    ensures Cc(i) in NextCtrl(c, s, a).eps && NextCtrl(c, s, a).eps[Cc(i)].buff == s.eps[Cc(i)].buff
  {
    match a
    case AAccept(h) => AcceptBuff(c, s, i, h);
    case AGather(x) => GatherBuff(c, s, x);
    case _ =>
  }

  lemma AcceptBuff(c: Config, s: State, i: nat, h: Host)
    requires CanAccept(s, h) && Cc(i) in s.eps
    ensures Cc(i) in Accept(c, s, h).eps && Accept(c, s, h).eps[Cc(i)].buff == s.eps[Cc(i)].buff
  {
    HandleBuff(Pop(s, h), i, h, s.eq[h][0]);
    assert Accept(c, s, h).eps == Handle(Pop(s, h), h, s.eq[h][0]).eps;
  }

  lemma HandleBuff(s: State, i: nat, h: Host, e: Event)
    requires Cc(i) in s.eps
    ensures Cc(i) in Handle(s, h, e).eps && Handle(s, h, e).eps[Cc(i)].buff == s.eps[Cc(i)].buff
  {
  }

  lemma GatherBuff(c: Config, s: State, x: nat)
    requires CanGather(s, x)
    ensures CtlGather(c, s, x).eps == s.eps
  {
  }

  lemma CliBuff(c: Config, s: State, i: nat, a: CliAct)
    requires CanCli(c, s, a) && i < |s.clients| && Cc(i) in s.eps && s.eps[Cc(i)].landed == 0
    requires s.clients[i].pc != Confirm && (a.AServe? ==> a.u == Cc(a.i))
    ensures Cc(i) in NextCli(c, s, a).eps && NextCli(c, s, a).eps[Cc(i)].buff == s.eps[Cc(i)].buff
  {
  }

  lemma ServerBuff(c: Config, s: State, i: nat, a: ServerAct)
    requires CanServer(c, s, a) && Cc(i) in s.eps
    ensures Cc(i) in NextServer(c, s, a).eps && NextServer(c, s, a).eps[Cc(i)].buff == s.eps[Cc(i)].buff
  {
  }

  /** From its arrival until the controller has copied it, a reply stays in the controller's
      buffer for that client, whatever step is taken. */
  lemma ReportStable(c: Config, s: State, i: nat, a: Action)
    requires Sane(c) && Reachable(c, s) && i < |s.ports| && s.ports[i].landed > 0 && Can(c, s, a)
    ensures i < |Next(c, s, a).ports| && Next(c, s, a).ports[i].buff == s.ports[i].buff
  {
    FullReachable(c, s);
    assert Valid(c, Cc(i)) && ReplyAt(c, s, i);
    assert CliPcOk(c, i, s.clients[i].pc);
    Bounds(c, s.ctl, i, s.clients[i].pc);
    if s.ctl.Round? && s.ctl.stage == Sending && s.ctl.x == i { QuietPort(c, s, i); }
    PortKept(c, s, i, a);
  }

  lemma PortKept(c: Config, s: State, i: nat, a: Action)
    requires i < |s.ports| && Can(c, s, a) && s.ports[i].posted == 0
    requires !(s.ctl.Round? && s.ctl.stage == Sending && s.ctl.x == i) && !s.ctl.Accepting?
    ensures i < |Next(c, s, a).ports| && Next(c, s, a).ports[i].buff == s.ports[i].buff
  {
    match a
    case ByFabric(x) => PortFabric(c, s, i, x);
    case ByCtrl(x) => PortCtrl(c, s, i, x);
    case ByCli(x) =>
    case ByServer(x) => PortServer(c, s, i, x);
  }

  lemma PortFabric(c: Config, s: State, i: nat, a: FabricAct)
    requires i < |s.ports| && CanFabric(c, s, a) && s.ports[i].posted == 0
    ensures i < |NextFabric(c, s, a).ports| && NextFabric(c, s, a).ports[i].buff == s.ports[i].buff
  {
  }

  lemma PortCtrl(c: Config, s: State, i: nat, a: CtrlAct)
    requires i < |s.ports| && CanCtrl(c, s, a) && !s.ctl.Accepting?
    requires !(s.ctl.Round? && s.ctl.stage == Sending && s.ctl.x == i)
    ensures i < |NextCtrl(c, s, a).ports| && NextCtrl(c, s, a).ports[i].buff == s.ports[i].buff
  {
  }

  lemma PortServer(c: Config, s: State, i: nat, a: ServerAct)
    requires i < |s.ports| && CanServer(c, s, a)
    ensures NextServer(c, s, a).ports == s.ports
  {
  }

  /** From the arrival of a command in the loop until the client has polled it, nothing another node
      or the fabric does reaches the client or its control buffer. So nothing can while the command is
      being handled either, although the next receive is posted before the report is copied in. */
  lemma CommandAlone(c: Config, s: State, i: nat, a: Action)
    requires Sane(c) && Reachable(c, s) && i < |s.clients| && s.clients[i].pc.Loop?
    requires Cc(i) in s.eps && s.eps[Cc(i)].landed > 0
    requires Can(c, s, a) && !(a.ByCli? && a.cli.i == i)
    ensures s.eps[Cc(i)].landed == 1 && s.eps[Cc(i)].posted == 0 && s.eps[Cc(i)].inbox == []
    ensures var r := Next(c, s, a); Cc(i) in r.eps && r.eps[Cc(i)] == s.eps[Cc(i)]
    ensures i < |Next(c, s, a).clients| && Next(c, s, a).clients[i] == s.clients[i]
  {
    FullReachable(c, s);
    Undisturbed(c, s, i);
    NoEvent(s, i);
    match a
    case ByFabric(x) => FabricApart(c, s, i, x);
    case ByCtrl(x) => CtrlApart(c, s, i, x);
    case ByCli(x) => CliApart(c, s, i, x);
    case ByServer(x) => ServerApart(c, s, i, x);
  }

  predicate Still(c: Config, s: State, i: nat) {
    && i < |s.clients| && s.clients[i].outbox == [] && Cc(i) in s.eps && s.eps[Cc(i)].st == Up
    && s.eps[Cc(i)].landed == 1 && s.eps[Cc(i)].posted == 0 && s.eps[Cc(i)].inbox == []
    && AllIn(s.ctl) && !(s.ctl.Round? && s.ctl.stage == Sending && s.ctl.x == i) && i < c.n && s.clients[i].pc.Loop?
  }

  lemma Undisturbed(c: Config, s: State, i: nat)
    requires Core(c, s) && i < |s.clients| && s.clients[i].pc.Loop? && Cc(i) in s.eps && s.eps[Cc(i)].landed > 0
    ensures Still(c, s, i)
  {
    Told(c, s, i);
    assert LinkOk(c, s, Cc(i)) && ReplyAt(c, s, i) && CliPcOk(c, i, s.clients[i].pc);
    Bounds(c, s.ctl, i, s.clients[i].pc);
    if s.clients[i].outbox != [] { Quiet(c, s, i); }
    if s.ctl.Round? && s.ctl.stage == Sending && s.ctl.x == i { QuietPort(c, s, i); }
  }

  /** No event about the client's own connection is next in a queue. */
  predicate Elsewhere(s: State, i: nat) {
    forall h | h in s.eq && s.eq[h] != [] :: s.eq[h][0].l != Cc(i)
  }

  lemma NoEvent(s: State, i: nat)
    requires Events(s) && Cc(i) in s.eps && s.eps[Cc(i)].st == Up
    ensures Elsewhere(s, i)
  {
    forall h | h in s.eq && s.eq[h] != [] ensures s.eq[h][0].l != Cc(i) {
      assert EqOk(s, h) && s.eq[h][0] in s.eq[h];
      assert Pending(s, h, s.eq[h][0]);
    }
  }

  predicate Apart(s: State, r: State, i: nat)
    requires i < |s.clients| && Cc(i) in s.eps
  {
    Cc(i) in r.eps && r.eps[Cc(i)] == s.eps[Cc(i)] && i < |r.clients| && r.clients[i] == s.clients[i]
  }

  lemma FabricApart(c: Config, s: State, i: nat, a: FabricAct)
    requires Still(c, s, i) && CanFabric(c, s, a)
    ensures Apart(s, NextFabric(c, s, a), i)
  {
  }

  lemma CtrlApart(c: Config, s: State, i: nat, a: CtrlAct)
    requires Still(c, s, i) && Elsewhere(s, i) && CanCtrl(c, s, a)
    ensures Apart(s, NextCtrl(c, s, a), i)
  {
    match a
    case AAccept(h) => AcceptApart(c, s, i, h);
    case AGather(x) => GatherBuff(c, s, x);
    case _ =>
  }

  lemma AcceptApart(c: Config, s: State, i: nat, h: Host)
    requires Still(c, s, i) && Elsewhere(s, i) && CanAccept(s, h)
    ensures Apart(s, Accept(c, s, h), i)
  {
  }

  lemma CliApart(c: Config, s: State, i: nat, a: CliAct)
    requires Still(c, s, i) && CanCli(c, s, a) && a.i != i
    ensures Apart(s, NextCli(c, s, a), i)
  {
  }

  lemma ServerApart(c: Config, s: State, i: nat, a: ServerAct)
    requires Still(c, s, i) && Elsewhere(s, i) && CanServer(c, s, a)
    ensures Apart(s, NextServer(c, s, a), i)
  {
  }

  // ---------- rounds

  /** In checkpoint or stop round p - 2 every client has handled that many commands or one fewer, and
      one fewer as long as the round's command has not been sent to it; it has sent one report for
      each. */
  lemma Lockstep(c: Config, s: State, i: nat)
    requires Sane(c) && Reachable(c, s) && i < |s.clients| && s.ctl.Round? && s.ctl.p >= 3
    ensures |s.clients[i].log| == Handled(c, s.clients[i].pc)
    ensures s.ctl.p - 3 <= |s.clients[i].log| <= CmdsTo(c, s.ctl, i) - 2 <= s.ctl.p - 2
  {
    FullReachable(c, s);
    AtLeast(c, s, i);
    AtMost(c, s, i);
  }

  lemma AtLeast(c: Config, s: State, i: nat)
    requires Core(c, s) && Accounts(c, s) && i < |s.clients| && s.ctl.Round? && s.ctl.p >= 3
    ensures |s.clients[i].log| == Handled(c, s.clients[i].pc) && |s.clients[i].log| + 1 == Replies(c, s.clients[i].pc)
    ensures s.ctl.p - 3 <= |s.clients[i].log|
  {
    assert Valid(c, Cc(i)) && ReplyAt(c, s, i);
    assert Account(c, i, s.clients[i]) && CliPcOk(c, i, s.clients[i].pc);
  }

  lemma AtMost(c: Config, s: State, i: nat)
    requires Core(c, s) && i < |s.clients| && i < |s.ports| && s.ctl.Round? && s.ctl.p >= 3
    ensures Replies(c, s.clients[i].pc) <= CmdsTo(c, s.ctl, i) - 1 <= s.ctl.p - 1
  {
    assert Valid(c, Cc(i)) && LinkOk(c, s, Cc(i));
    assert CliPcOk(c, i, s.clients[i].pc);
    Bounds(c, s.ctl, i, s.clients[i].pc);
  }

  /** When a gather loop ends, exactly one more reply was taken from every client. */
  lemma GatherEnds(c: Config, s: State, i: nat)
    requires Sane(c) && Reachable(c, s) && CanGather(s, i) && s.ctl.x + 1 == c.n
    ensures forall x | 0 <= x < c.n ::
              x < |CtlGather(c, s, i).ports| && CtlGather(c, s, i).ports[x].taken == Before(s.ctl.p) + 1
    ensures forall x | 0 <= x < c.n :: x < |s.ports| && s.ports[x].taken == Before(s.ctl.p) + (if x == i then 0 else 1)
  {
    FullReachable(c, s);
    KeepController.FirstReply(c, s, i);
    KeepController.Expected(c, s, i);
    KeepController.EveryOne(c, s, CtlGather(c, s, i), i);
    OthersTaken(c, s, i);
  }

  lemma OthersTaken(c: Config, s: State, i: nat)
    requires CanGather(s, i) && |s.ports| == c.n && s.ports[i].taken == Before(s.ctl.p)
    requires forall x | 0 <= x < c.n ::
              x < |CtlGather(c, s, i).ports| && CtlGather(c, s, i).ports[x].taken == Before(s.ctl.p) + 1
    ensures forall x | 0 <= x < c.n :: s.ports[x].taken == Before(s.ctl.p) + (if x == i then 0 else 1)
  {
    assert forall x | 0 <= x < c.n && x != i :: CtlGather(c, s, i).ports[x] == s.ports[x];
  }

  /** And then all clients are at exactly the controller's round: each has handled that many commands,
      sent one report for each, and has none in flight. */
  lemma AllAtRound(c: Config, s: State, i: nat, x: nat)
    requires Sane(c) && Reachable(c, s) && CanGather(s, i) && s.ctl.x + 1 == c.n && x < c.n
    ensures x < |s.clients| && s.clients[x].outbox == [] && Replies(c, s.clients[x].pc) == Before(s.ctl.p) + 1
    ensures s.ctl.p >= 3 ==> |s.clients[x].log| == Handled(c, s.clients[x].pc) == s.ctl.p - 2
  {
    GatherEnds(c, s, i);
    FullReachable(c, s);
    NoMore(c, s, i, x);
    if s.ctl.p >= 3 { Lockstep(c, s, x); }
  }

  lemma NoMore(c: Config, s: State, i: nat, x: nat)
    requires Core(c, s) && CanGather(s, i) && x < c.n && x < |s.ports|
    requires s.ports[x].taken == Before(s.ctl.p) + (if x == i then 0 else 1)
    ensures x < |s.clients| && s.clients[x].outbox == [] && Replies(c, s.clients[x].pc) == Before(s.ctl.p) + 1
    ensures s.ctl.p >= 3 ==> |s.clients[x].log| == s.ctl.p - 2
  {
    assert Valid(c, Cc(x)) && ReplyAt(c, s, x) && LinkOk(c, s, Cc(x));
    assert CliPcOk(c, x, s.clients[x].pc);
    Bounds(c, s.ctl, x, s.clients[x].pc);
  }

  /** After the STOP round every client has sent k checkpoint reports and its totals. */
  lemma AllReported(c: Config, s: State, i: nat)
    requires Sane(c) && Reachable(c, s) && i < |s.clients| && (s.ctl.Closing? || s.ctl.Finished?)
    ensures |s.clients[i].log| == c.k + 1 && s.clients[i].outbox == []
  {
    FullReachable(c, s);
    AllGathered(c, s, i);
  }

  lemma AllGathered(c: Config, s: State, i: nat)
    requires Core(c, s) && i < |s.clients| && (s.ctl.Closing? || s.ctl.Finished?)
    ensures |s.clients[i].log| == c.k + 1 && s.clients[i].outbox == []
  {
    assert Valid(c, Cc(i)) && ReplyAt(c, s, i) && CliPcOk(c, i, s.clients[i].pc);
  }

  /** Sends posted and not polled exceed the number of connections by what the current loop has
      in hand, so that waiting for send completions can always go on. */
  lemma TxLag(c: Config, s: State)
    requires Sane(c) && Reachable(c, s)
    ensures s.tx == Lag(c, s.ctl)
    ensures s.ctl.Round? && (s.ctl.stage == Posting || s.ctl.stage == Gathering) ==> s.tx == c.n + c.m
    ensures s.ctl.Round? && s.ctl.stage == Draining ==> s.tx > c.n + c.m && CanDrain(s)
    ensures s.ctl.Closing? || s.ctl.Finished? ==> s.tx == c.n + c.m
  {
    FullReachable(c, s);
  }

  // ---------- counting writes

  /** In the benchmark loop the window is exact: ten writes more than counted completions; and
      completions counted exceed those of writes only at the client's own id, by the polled
      completions of its own reports. */
  lemma WindowConserved(c: Config, s: State, i: nat, x: nat)
    requires Sane(c) && Reachable(c, s) && i < |s.clients| && s.clients[i].pc.Loop? && x < c.m
    ensures var a := s.clients[i].acc;
      && Sized(a, c.m) && a.posted[x] == 10 + a.transfer[x].completions
      && a.posted[x] == a.polled[x] + 10 + (if x == i then a.echoes else 0)
      && a.transfer[x].completions - a.polled[x] == (if x == i then a.echoes else 0)
      && a.echoes <= |s.clients[i].log| && a.queued == 10 + Total(a.transfer)
  {
    FullReachable(c, s);
    assert Account(c, i, s.clients[i]);
    WindowExact(s.clients[i].acc, i, c.m, x);
  }

  /** transfer[] and eps[] are never indexed out of range if the client's id is below the number
      of servers; otherwise the first polled completion of a report send is out of range. */
  lemma IndexSafe(c: Config, s: State, i: nat)
    requires Sane(c) && Reachable(c, s) && i < |s.clients|
    ensures i < c.m ==> !s.clients[i].pc.Crashed?
    ensures i >= c.m ==> s.clients[i].acc.echoes == 0
    ensures s.clients[i].pc.Crashed? ==> i >= c.m && |s.clients[i].log| > 0
  {
    FullReachable(c, s);
    assert Account(c, i, s.clients[i]);
  }

  /** In every run, a client has left the bounds exactly when its id is not below the number of
      servers and the run polls the completion of one of its report sends. */
  lemma {:induction false} CrashExactly(c: Config, init: State, run: seq<Action>, i: nat)
    requires Begin(c, init) && Exec(c, init, run).Some? && i < c.n
    ensures |Exec(c, init, run).value.clients| == c.n
    ensures Exec(c, init, run).value.clients[i].pc.Crashed? <==> c.m <= i && PollsReport(run, i)
  {
    if run != [] {
      var n := |run| - 1;
      CrashExactly(c, init, run[..n], i);
      CrashStep(c, Exec(c, init, run[..n]).value, run[n], i);
      PollsMore(run, i);
    }
  }

  /** The run polls the completion of a report send of client i. */
  predicate PollsReport(run: seq<Action>, i: nat) {
    exists t :: 0 <= t < |run| && run[t] == ByCli(APoll(i, ReportSend))
  }

  lemma PollsMore(run: seq<Action>, i: nat)
    requires run != []
    ensures var n := |run| - 1;
      PollsReport(run, i) <==> PollsReport(run[..n], i) || run[n] == ByCli(APoll(i, ReportSend))
  {
    var n := |run| - 1;
    assert forall t | 0 <= t < n :: run[..n][t] == run[t];
    if PollsReport(run[..n], i) {
      var t :| 0 <= t < n && run[..n][t] == ByCli(APoll(i, ReportSend));
      assert run[t] == ByCli(APoll(i, ReportSend));
    }
  }

  lemma CrashStep(c: Config, s: State, a: Action, i: nat)
    requires Can(c, s, a) && i < |s.clients|
    ensures |Next(c, s, a).clients| == |s.clients|
    ensures Next(c, s, a).clients[i].pc.Crashed?
            <==> s.clients[i].pc.Crashed? || (c.m <= i && a == ByCli(APoll(i, ReportSend)))
  {
    match a
    case ByFabric(x) => FabricAccounts(c, s, x);
    case ByCtrl(x) => CtrlAccounts(c, s, x);
    case ByCli(x) => CliOthers(c, s, x); if x.i == i { OwnCrash(c, s, x); }
    case ByServer(x) => ServerAccounts(c, s, x);
  }

  lemma OwnCrash(c: Config, s: State, a: CliAct)
    requires CanCli(c, s, a) && a.i < |s.clients| && a.i < |NextCli(c, s, a).clients|
    ensures !s.clients[a.i].pc.Crashed?
    ensures NextCli(c, s, a).clients[a.i].pc.Crashed? <==> c.m <= a.i && a == APoll(a.i, ReportSend)
  {
  }

  /** That poll is the last step the client takes in the run, so it is the first such completion. */
  lemma CrashIsLast(c: Config, init: State, run: seq<Action>, i: nat, t: nat, u: nat)
    requires Begin(c, init) && Exec(c, init, run).Some? && c.m <= i < c.n
    requires t < u < |run| && run[t] == ByCli(APoll(i, ReportSend))
    ensures !(run[u].ByCli? && run[u].cli.i == i)
  {
    StepBefore(c, init, run, u);
    assert run[..u][t] == run[t];
    HasCrashed(c, init, run[..u], i, t);
    if run[u].ByCli? && run[u].cli.i == i { CrashedHalts(c, Exec(c, init, run[..u]).value, run[u].cli); }
  }

  lemma HasCrashed(c: Config, init: State, run: seq<Action>, i: nat, t: nat)
    requires Begin(c, init) && Exec(c, init, run).Some? && c.m <= i < c.n
    requires t < |run| && run[t] == ByCli(APoll(i, ReportSend))
    ensures i < |Exec(c, init, run).value.clients| && Exec(c, init, run).value.clients[i].pc.Crashed?
  {
    CrashExactly(c, init, run, i);
  }

  /** Every action of a run was possible where it was taken. */
  lemma StepBefore(c: Config, init: State, run: seq<Action>, u: nat)
    requires Exec(c, init, run).Some? && u < |run|
    ensures Exec(c, init, run[..u]).Some? && Can(c, Exec(c, init, run[..u]).value, run[u])
  {
    RunBefore(c, init, run, u + 1);
    var longer := run[..u + 1];
    assert longer[..|longer| - 1] == run[..u];
    assert longer[|longer| - 1] == run[u];
  }

  lemma {:induction false} RunBefore(c: Config, init: State, run: seq<Action>, k: nat)
    requires Exec(c, init, run).Some? && k <= |run|
    ensures Exec(c, init, run[..k]).Some?
  {
    if k < |run| {
      assert run[..|run| - 1][..k] == run[..k];
      RunBefore(c, init, run[..|run| - 1], k);
    } else {
      assert run[..k] == run;
    }
  }

  lemma CrashedHalts(c: Config, s: State, a: CliAct)
    requires a.i < |s.clients| && s.clients[a.i].pc.Crashed?
    ensures !CanCli(c, s, a)
  {
  }

  /** No node ever takes an error return. */
  lemma NoErrors(c: Config, s: State)
    requires Sane(c) && Reachable(c, s)
    ensures s.ctl != CtlFailed
    ensures forall i | 0 <= i < |s.clients| :: s.clients[i].pc != CliFailed
    ensures forall j | 0 <= j < |s.servers| :: s.servers[j] != SrvFailed
  {
    FullReachable(c, s);
    forall i | 0 <= i < |s.clients| ensures s.clients[i].pc != CliFailed { assert CliPcOk(c, i, s.clients[i].pc); }
  }
}
