/** In every error-free reachable state that is not final, some control step is possible. */
module Progress {
  import opened Wire
  import opened Protocol
  import opened Invariant
  import opened Facts
  import opened Ledger
  import KeepAccept
  import KeepServer
  import Frames

  /** Polling a transmit completion in the benchmark loop is data traffic; every other step
      belongs to the control protocol. */
  predicate Control(a: Action) { !(a.ByCli? && a.cli.APoll?) }

  predicate Done(s: State) {
    && s.ctl == Finished
    && (forall i | 0 <= i < |s.clients| :: s.clients[i].pc == CliDone)
    && (forall j | 0 <= j < |s.servers| :: s.servers[j] == SrvDone)
  }

  predicate Sound(s: State) {
    forall i | 0 <= i < |s.clients| :: !s.clients[i].pc.Crashed?
  }

  // ---------- one connection

  /** An unread message on l can be delivered or has been. */
  lemma Unread(c: Config, s: State, l: Link)
    requires l in s.eps && LinkOk(c, s, l)
    requires NumsOf(c, s, l).consumed < NumsOf(c, s, l).sent && NumsOf(c, s, l).recvs > NumsOf(c, s, l).consumed
    ensures s.eps[l].landed > 0 || CanDeliver(s, l)
  {
  }

  lemma QueuedReq(s: State, l: Link)
    requires Events(s) && Passive(l) in s.eq && l in s.eps
    requires s.eps[l].st == ReqQueued || s.eps[l].st == EstQueued || s.eps[l].st == DownQueued
    ensures s.eq[Passive(l)] != []
  {
    assert EqOk(s, Passive(l));
    assert s.eps[l].st == ReqQueued ==> Pending(s, Passive(l), Req(l));
    assert s.eps[l].st == EstQueued ==> Pending(s, Passive(l), Est(l));
    assert s.eps[l].st == DownQueued ==> Pending(s, Passive(l), Down(l));
  }

  /** A server that is connected to the controller gets as far as accepting its clients. */
  lemma ServerMoves(c: Config, s: State, j: nat) returns (a: Action)
    requires Core(c, s) && Events(s) && j < c.m && Sc(j) in s.eps && Rank(s.eps[Sc(j)].st) >= Rank(Up)
    requires s.servers[j].Opening? || s.servers[j].SrvDial?
    ensures Can(c, s, a) && Control(a)
  {
    assert LinkOk(c, s, Sc(j));
    if s.servers[j] == SrvDial(ToEvent) {
      OwnWaits(s, j);
      a := ByServer(AUplink(j));
    } else {
      a := ServerKeys(c, s, j);
    }
  }

  lemma OwnWaits(s: State, j: nat)
    requires Events(s) && Srv(j) in s.eq && Sc(j) in s.eps && Rank(s.eps[Sc(j)].st) >= Rank(Up)
    requires j < |s.servers| && s.servers[j] == SrvDial(ToEvent)
    ensures CanUplink(s, j)
  {
    assert EqOk(s, Srv(j)) && Pending(s, Srv(j), Own(Sc(j)));
  }

  lemma ServerKeys(c: Config, s: State, j: nat) returns (a: Action)
    requires Sc(j) in s.eps && LinkOk(c, s, Sc(j)) && Rank(s.eps[Sc(j)].st) >= Rank(Up) && j < |s.servers|
    requires (s.servers[j].Opening? || s.servers[j].SrvDial?) && s.servers[j] != SrvDial(ToEvent)
    ensures Can(c, s, a) && Control(a)
  {
    Unread(c, s, Sc(j));
    a := if s.eps[Sc(j)].landed > 0 then ByServer(ASrvKeys(j)) else ByFabric(ADeliver(Sc(j)));
  }

  /** A node with an event to handle handles it, or gets to that point. */
  lemma HostMoves(c: Config, s: State, h: Host) returns (a: Action)
    requires Core(c, s) && Events(s) && h in s.eq && s.eq[h] != [] && !Inside(s, h)
    requires h.Srv? ==> Sc(h.j) in s.eps && Rank(s.eps[Sc(h.j)].st) >= Rank(Up)
    ensures Can(c, s, a) && Control(a)
  {
    match h
    case Ctl => a := if s.ctl.Listening? then ByCtrl(AListen) else ByCtrl(AAccept(Ctl));
    case Srv(j) =>
      if s.servers[j].SrvAccepting? {
        a := ByCtrl(AAccept(Srv(j)));
      } else {
        assert SrvPcOk(c, s.servers[j]);
        a := ServerMoves(c, s, j);
      }
  }

  /** A connection that was requested and is not up can be brought forward. */
  lemma LinkMoves(c: Config, s: State, l: Link) returns (a: Action)
    requires Core(c, s) && Events(s) && l in s.eps && s.eps[l].st != Idle && Rank(s.eps[l].st) < Rank(Up)
    requires l.Cs? ==> Sc(l.j) in s.eps && Rank(s.eps[Sc(l.j)].st) >= Rank(Up)
    ensures Can(c, s, a) && Control(a)
  {
    if s.eps[l].st == ReqQueued || s.eps[l].st == EstQueued {
      QueuedReq(s, l);
      PassiveThere(c, s, l);
      a := HostMoves(c, s, Passive(l));
    } else {
      if !Listens(c, s, l) { MustListen(c, s, l); }
      a := Handshake(c, s, l);
    }
  }

  /** What the fabric or the listening controller does next for a connection without an event queued. */
  lemma Handshake(c: Config, s: State, l: Link) returns (a: Action)
    requires l in s.eps && (s.eps[l].st == Requested || s.eps[l].st == Accepted || s.eps[l].st == Answered)
    requires Listens(c, s, l) || s.ctl.Listening?
    ensures Can(c, s, a) && Control(a)
  {
    if s.eps[l].st == Accepted {
      a := ByFabric(AAnswer(l));
    } else if s.eps[l].st == Answered {
      a := ByFabric(AEstablish(l));
    } else if Listens(c, s, l) {
      a := ByFabric(AArrive(l));
    } else {
      a := ByCtrl(AListen);
    }
  }

  lemma PassiveThere(c: Config, s: State, l: Link)
    requires Shape(c, s) && Links(c, s) && l in s.eps && Rank(s.eps[l].st) < Rank(Up)
    ensures Passive(l) in s.eq && !Inside(s, Passive(l))
  {
    assert LinkOk(c, s, l);
  }

  lemma MustListen(c: Config, s: State, l: Link)
    requires Core(c, s) && l in s.eps && !Listens(c, s, l)
    requires l.Cs? ==> Sc(l.j) in s.eps && Rank(s.eps[Sc(l.j)].st) >= Rank(Up)
    ensures s.ctl.Listening?
  {
    assert Valid(c, l);
    if l.Cs? { assert LinkOk(c, s, Sc(l.j)); }
  }

  // ---------- one client

  /** Client i is not waiting for a command the controller has not sent. */
  predicate Active(c: Config, s: State, i: nat)
    requires i < |s.clients| && Cc(i) in s.eps
  {
    var pc := s.clients[i].pc;
    && pc != CliDone && pc != CliFailed && !pc.Crashed?
    && (pc == AwaitConnect || pc == AwaitStart || pc.Loop? ==>
          NumsOf(c, s, Cc(i)).consumed < NumsOf(c, s, Cc(i)).sent)
  }

  lemma DialLink(c: Config, s: State, i: nat)
    requires Core(c, s) && i < c.n && s.clients[i].pc.Dial?
    ensures s.clients[i].pc.t <= c.m && Cc(i) in s.eps
    ensures var l := LinkTo(i, s.clients[i].pc.t); l in s.eps && LinkOk(c, s, l)
    ensures s.clients[i].pc.t > 0 ==> CliConsumed(c, s.clients[i].pc) >= 2
  {
    var l := LinkTo(i, s.clients[i].pc.t);
    assert CliPcOk(c, i, s.clients[i].pc);
    assert Valid(c, l) && Valid(c, Cc(i));
  }

  /** The server a client dials is itself connected. */
  lemma DialledReady(c: Config, s: State, i: nat)
    requires Core(c, s) && i < c.n && s.clients[i].pc.Dial? && 0 < s.clients[i].pc.t <= c.m
    requires CliConsumed(c, s.clients[i].pc) >= 2
    ensures var j := s.clients[i].pc.t - 1; Sc(j) in s.eps && Rank(s.eps[Sc(j)].st) >= Rank(Up)
  {
    KeepServer.OwnLinkOk(c, s, s.clients[i].pc.t - 1);
    ToldUp(c, s, i, Sc(s.clients[i].pc.t - 1));
  }

  lemma DialStep(c: Config, s: State, i: nat, l: Link) returns (a: Action)
    requires i < |s.clients| && s.clients[i].pc.Dial? && l == LinkTo(i, s.clients[i].pc.t) && l in s.eps
        && Cc(i) in s.eps
    requires LinkOk(c, s, l)
    requires s.clients[i].pc.sub == ToRequest || Rank(s.eps[l].st) >= Rank(Up)
    ensures Can(c, s, a) && Control(a)
  {
    match s.clients[i].pc.sub
    case ToRequest => a := ByCli(ARequest(i));
    case ToEvent => a := ByCli(AConnected(i));
    case ToKeys =>
      Unread(c, s, l);
      a := if s.eps[l].landed > 0 then ByCli(AKeys(i, l)) else ByFabric(ADeliver(l));
  }

  lemma Asked(c: Config, s: State, i: nat, l: Link)
    requires i < |s.clients| && s.clients[i].pc.Dial? && l == LinkTo(i, s.clients[i].pc.t) && l in s.eps
        && LinkOk(c, s, l)
    requires s.clients[i].pc.sub != ToRequest
    ensures s.eps[l].st != Idle
  {
  }

  lemma DialMoves(c: Config, s: State, i: nat) returns (a: Action)
    requires Core(c, s) && Events(s) && i < c.n && s.clients[i].pc.Dial?
    ensures Can(c, s, a) && Control(a)
  {
    DialLink(c, s, i);
    var l := LinkTo(i, s.clients[i].pc.t);
    if s.clients[i].pc.sub == ToRequest || Rank(s.eps[l].st) >= Rank(Up) {
      a := DialStep(c, s, i, l);
    } else {
      Asked(c, s, i, l);
      if s.clients[i].pc.t > 0 { DialledReady(c, s, i); }
      a := LinkMoves(c, s, l);
    }
  }

  lemma Awaiting(c: Config, s: State, i: nat) returns (a: Action)
    requires Core(c, s) && Accounts(c, s) && i < c.n && Cc(i) in s.eps && Active(c, s, i)
    requires s.clients[i].pc == AwaitConnect || s.clients[i].pc == AwaitStart || s.clients[i].pc.Loop?
    ensures Can(c, s, a) && Control(a)
  {
    assert LinkOk(c, s, Cc(i)) && CliPcOk(c, i, s.clients[i].pc);
    assert Account(c, i, s.clients[i]);
    Unread(c, s, Cc(i));
    a := if s.eps[Cc(i)].landed == 0 then ByFabric(ADeliver(Cc(i)))
         else if s.clients[i].pc.Loop? then ByCli(AServe(i, Cc(i), 0.0)) else ByCli(AObey(i, Cc(i)));
  }

  lemma ClientMoves(c: Config, s: State, i: nat) returns (a: Action)
    requires Core(c, s) && Events(s) && Accounts(c, s) && i < c.n && Cc(i) in s.eps && Active(c, s, i)
    ensures Can(c, s, a) && Control(a)
  {
    var pc := s.clients[i].pc;
    assert Account(c, i, s.clients[i]) && CliPcOk(c, i, pc);
    if pc.Dial? {
      a := DialMoves(c, s, i);
    } else if pc == AwaitConnect || pc == AwaitStart || pc.Loop? {
      a := Awaiting(c, s, i);
    } else {
      a := ByCli(match pc
                 case Confirm => AConfirm(i)
                 case AwaitTx => ACliTx(i)
                 case Fill(_, _) => AFill(i)
                 case LastPoll => AQuit(i)
                 case _ => ACliPost(i));
    }
  }

  // ---------- the controller's loops

  lemma AcceptingMoves(c: Config, s: State) returns (a: Action)
    requires Core(c, s) && Events(s) && Counters(c, s) && s.ctl.Accepting?
    ensures Can(c, s, a) && Control(a)
  {
    var l := SomeoneMissing(c, s);
    assert LinkOk(c, s, l);
    if s.eps[l].st != Idle {
      a := LinkMoves(c, s, l);
    } else {
      match l
      case Cc(i) => a := ByCli(ARequest(i));
      case Sc(j) => a := if s.servers[j].Opening? then ByServer(AOpen(j)) else ByServer(ASrvRequest(j));
    }
  }

  lemma SomeoneMissing(c: Config, s: State) returns (l: Link)
    requires Core(c, s) && Counters(c, s) && s.ctl.Accepting?
    ensures l in s.eps && Passive(l) == Ctl && Rank(s.eps[l].st) < Rank(Up)
  {
    Frames.SizeIncoming(c, Ctl);
    assert UpSet(s, Ctl) != Frames.Incoming(c, Ctl);
    KeepAccept.Arrived(c, s, Ctl);
    l :| l in Frames.Incoming(c, Ctl) && l !in UpSet(s, Ctl);
  }

  /** A client whose reply of this round is still missing. */
  lemma SomeoneSilent(c: Config, s: State) returns (i: nat)
    requires Core(c, s) && Counters(c, s) && s.ctl.Round? && s.ctl.stage == Gathering
    ensures i < c.n && s.ports[i].taken == Before(s.ctl.p)
  {
    var t := TakenSet(s, Before(s.ctl.p) + 1);
    assert t != Frames.Indices(c.n) && t <= Frames.Indices(c.n);
    i :| i in Frames.Indices(c.n) && i !in t;
    assert Valid(c, Cc(i)) && ReplyAt(c, s, i);
  }

  lemma OwesReply(c: Config, s: State, i: nat)
    requires Core(c, s) && s.ctl.Round? && s.ctl.stage == Gathering && i < c.n && Cc(i) in s.eps
    requires Replies(c, s.clients[i].pc) == Before(s.ctl.p) && !s.clients[i].pc.Crashed?
    ensures Active(c, s, i)
  {
    assert LinkOk(c, s, Cc(i)) && CliPcOk(c, i, s.clients[i].pc);
  }

  lemma CanHand(c: Config, s: State, i: nat)
    requires Core(c, s) && s.ctl.Round? && s.ctl.stage == Gathering && i < c.n && s.ports[i].taken == Before(s.ctl.p)
    ensures Cc(i) in s.eps && (s.ports[i].landed > 0 || s.ports[i].posted > 0)
    ensures s.ports[i].landed == 0 && s.clients[i].outbox == [] ==> Replies(c, s.clients[i].pc) == Before(s.ctl.p)
  {
    assert Valid(c, Cc(i)) && ReplyAt(c, s, i);
  }

  lemma GatheringMoves(c: Config, s: State) returns (a: Action)
    requires Core(c, s) && Events(s) && Counters(c, s) && Accounts(c, s) && Sound(s)
    requires s.ctl.Round? && s.ctl.stage == Gathering
    ensures Can(c, s, a) && Control(a)
  {
    var i := SomeoneSilent(c, s);
    CanHand(c, s, i);
    if s.ports[i].landed > 0 {
      a := ByCtrl(AGather(i));
    } else if s.clients[i].outbox != [] {
      a := ByFabric(AReply(i));
    } else {
      OwesReply(c, s, i);
      a := ClientMoves(c, s, i);
    }
  }

  lemma GoneWithin(c: Config, s: State)
    requires forall l | l in s.eps :: Valid(c, l)
    ensures GoneSet(s) <= Frames.Incoming(c, Ctl)
  {
  }

  lemma OneLeft(c: Config, s: State) returns (l: Link)
    requires (forall l :: l in s.eps <==> Valid(c, l)) && |GoneSet(s)| < c.n + c.m
    ensures l in s.eps && Passive(l) == Ctl && s.eps[l].st != Gone
  {
    Frames.SizeIncoming(c, Ctl);
    GoneWithin(c, s);
    assert GoneSet(s) != Frames.Incoming(c, Ctl);
    l :| l in Frames.Incoming(c, Ctl) && l !in GoneSet(s);
  }

  lemma StillThere(c: Config, s: State, l: Link)
    requires l in s.eps && LinkOk(c, s, l) && s.ctl.Closing? && Passive(l) == Ctl && s.eps[l].st != Gone
    ensures s.eps[l].st == Up || s.eps[l].st == DownQueued
  {
  }

  lemma SomeoneThere(c: Config, s: State) returns (l: Link)
    requires Core(c, s) && Counters(c, s) && s.ctl.Closing?
    ensures l in s.eps && Passive(l) == Ctl && (s.eps[l].st == Up || s.eps[l].st == DownQueued)
  {
    l := OneLeft(c, s);
    StillThere(c, s, l);
  }

  lemma LastWords(c: Config, s: State, i: nat)
    requires Core(c, s) && s.ctl.Closing? && i < c.n && !s.clients[i].pc.Crashed?
    ensures Cc(i) in s.eps && s.clients[i].outbox == [] && (s.clients[i].pc == LastPoll || s.clients[i].pc == CliDone)
  {
    assert Valid(c, Cc(i)) && ReplyAt(c, s, i) && CliPcOk(c, i, s.clients[i].pc);
  }

  lemma StoppingServer(c: Config, s: State, j: nat) returns (a: Action)
    requires Core(c, s) && Events(s) && Counters(c, s) && s.ctl.Closing? && Sound(s) && j < c.m
    requires Sc(j) in s.eps && s.eps[Sc(j)].st == Up
    ensures Can(c, s, a) && Control(a)
  {
    match s.servers[j]
    case SrvDone => a := ByFabric(AShutdown(Sc(j)));
    case PostStop => a := ByServer(ASrvPost(j));
    case Running =>
      StopUnread(c, s, j);
      a := if s.eps[Sc(j)].landed > 0 then ByServer(ASrvStop(j)) else ByFabric(ADeliver(Sc(j)));
    case _ =>
      NotAccepting(c, s, j);
      a := ServerMoves(c, s, j);
  }

  lemma StopUnread(c: Config, s: State, j: nat)
    requires Core(c, s) && s.ctl.Closing? && j < c.m && Sc(j) in s.eps && s.eps[Sc(j)].st == Up
        && s.servers[j] == Running
    ensures s.eps[Sc(j)].landed > 0 || CanDeliver(s, Sc(j))
  {
    assert LinkOk(c, s, Sc(j));
    Unread(c, s, Sc(j));
  }

  lemma EveryoneIn(c: Config, s: State, i: nat, j: nat)
    requires Core(c, s) && Counters(c, s) && i < c.n && j < c.m && CliConsumed(c, s.clients[i].pc) >= 3
    ensures SrvCounter(s.servers[j], c.n)
  {
    AllUp(c, s, i, j);
    KeepServer.CounterOk(c, s, j);
  }

  lemma NotAccepting(c: Config, s: State, j: nat)
    requires Core(c, s) && Counters(c, s) && s.ctl.Closing? && Sound(s) && j < c.m
    ensures !s.servers[j].SrvAccepting? && s.servers[j] != SrvFailed
  {
    ClosedIn(c, s, j);
    PcAt(c, s, j);
  }

  lemma ClosedIn(c: Config, s: State, j: nat)
    requires Core(c, s) && Counters(c, s) && s.ctl.Closing? && Sound(s) && j < c.m
    ensures SrvCounter(s.servers[j], c.n) && |s.servers| == c.m
  {
    Ended(c, s, 0);
    EveryoneIn(c, s, 0, j);
  }

  lemma Ended(c: Config, s: State, i: nat)
    requires Core(c, s) && s.ctl.Closing? && Sound(s) && i < c.n
    ensures CliConsumed(c, s.clients[i].pc) >= 3
  {
    LastWords(c, s, i);
  }

  lemma PcAt(c: Config, s: State, j: nat)
    requires Pcs(c, s) && j < |s.servers|
    ensures SrvPcOk(c, s.servers[j])
  {
  }

  lemma ClosingMoves(c: Config, s: State) returns (a: Action)
    requires Core(c, s) && Events(s) && Counters(c, s) && Sound(s) && s.ctl.Closing?
    ensures Can(c, s, a) && Control(a)
  {
    var l := SomeoneThere(c, s);
    if s.eps[l].st == DownQueued {
      QueuedReq(s, l);
      a := ByCtrl(AClose);
    } else if l.Cc? {
      LastWords(c, s, l.i);
      a := if s.clients[l.i].pc == CliDone then ByFabric(AShutdown(l)) else ByCli(AQuit(l.i));
    } else {
      a := StoppingServer(c, s, l.j);
    }
  }

  lemma EachGone(c: Config, s: State, l: Link)
    requires (forall x :: x in s.eps <==> Valid(c, x)) && |GoneSet(s)| == c.n + c.m && Valid(c, l) && Passive(l) == Ctl
    ensures s.eps[l].st == Gone
  {
    Frames.SizeIncoming(c, Ctl);
    GoneWithin(c, s);
    Frames.Pigeonhole(GoneSet(s), Frames.Incoming(c, Ctl));
    assert l in Frames.Incoming(c, Ctl);
  }

  lemma GoneLeft(c: Config, s: State, l: Link)
    requires Core(c, s) && Counters(c, s) && s.ctl.Finished? && Valid(c, l) && Passive(l) == Ctl
    ensures Left(s, l)
  {
    EachGone(c, s, l);
    GoneMeansLeft(c, s, l);
  }

  lemma GoneMeansLeft(c: Config, s: State, l: Link)
    requires Links(c, s) && l in s.eps && s.eps[l].st == Gone
    ensures Left(s, l)
  {
    assert LinkOk(c, s, l);
  }

  lemma FinishedDone(c: Config, s: State)
    requires Core(c, s) && Counters(c, s) && s.ctl.Finished?
    ensures Done(s)
  {
    forall i | 0 <= i < |s.clients| ensures s.clients[i].pc == CliDone { GoneLeft(c, s, Cc(i)); }
    forall j | 0 <= j < |s.servers| ensures s.servers[j] == SrvDone { GoneLeft(c, s, Sc(j)); }
  }

  /** No reachable error-free state is stuck before the end. */
  lemma NeverStuck(c: Config, s: State) returns (a: Action)
    requires Sane(c) && Reachable(c, s) && Sound(s) && !Done(s)
    ensures Can(c, s, a) && Control(a)
  {
    FullReachable(c, s);
    a := Moves(c, s);
  }

  lemma Moves(c: Config, s: State) returns (a: Action)
    requires Core(c, s) && Events(s) && Counters(c, s) && Accounts(c, s) && Sound(s) && !Done(s)
    ensures Can(c, s, a) && Control(a)
  {
    if s.ctl.Finished? { FinishedDone(c, s); }
    match s.ctl
    case Listening(_) => a := ByCtrl(AListen);
    case Accepting(_) => a := AcceptingMoves(c, s);
    case Round(p, st, x) =>
      if st == Gathering {
        a := GatheringMoves(c, s);
      } else {
        if st == Sending { TargetThere(c, s); }
        a := if st == Posting then ByCtrl(APost) else if st == Sending then ByCtrl(ASend) else ByCtrl(ADrain);
      }
    case Closing(_) => a := ClosingMoves(c, s);
  }

  lemma TargetThere(c: Config, s: State)
    requires Core(c, s) && s.ctl.Round? && s.ctl.stage == Sending
    ensures Target(c, s.ctl.x) in s.eps
  {
    assert Valid(c, Target(c, s.ctl.x));
  }
}
