/** The steps of the fabric keep the invariant. */
module KeepFabric {
  import opened Wire
  import opened Protocol
  import opened Invariant
  import opened Frames
  import opened Facts

  lemma LinkDeliver(c: Config, s: State, l: Link)
    requires CanDeliver(s, l) && LinkOk(c, s, l)
    ensures LinkOk(c, Deliver(s, l), l)
  {
    MsgDeliver(c, l, s.eps[l], NumsOf(c, s, l));
    assert NumsOf(c, Deliver(s, l), l) == NumsOf(c, s, l);
    assert EndsOf(c, Deliver(s, l), l) == EndsOf(c, s, l);
  }

  lemma QuietLink(c: Config, s: State, i: nat)
    requires Core(c, s) && i < |s.clients| && s.clients[i].outbox != []
    ensures Cc(i) in s.eps && s.eps[Cc(i)].inbox == [] && s.eps[Cc(i)].landed == 0
  {
    assert Valid(c, Cc(i)) && LinkOk(c, s, Cc(i)) && ReplyAt(c, s, i) && CliPcOk(c, i, s.clients[i].pc);
    Quiet(c, s, i);
  }

  lemma LinksDeliver(c: Config, s: State, l: Link)
    requires Links(c, s) && CanDeliver(s, l)
    ensures Links(c, Deliver(s, l))
  {
    LinkDeliver(c, s, l);
    LinksFabric(c, s, Deliver(s, l), l);
  }

  lemma AnswersDeliver(c: Config, s: State, l: Link)
    requires Answers(c, s) && CanDeliver(s, l)
    requires l.Cc? && l.i < |s.clients| ==> s.clients[l.i].outbox == []
    ensures Answers(c, Deliver(s, l))
  {
    AnswersKept(c, s, Deliver(s, l));
  }

  lemma EventsDeliver(s: State, l: Link)
    requires Events(s) && CanDeliver(s, l)
    ensures Events(Deliver(s, l))
  {
    PendingKept(s, Deliver(s, l));
    EventsKept(s, Deliver(s, l));
  }

  lemma CountersDeliver(c: Config, s: State, l: Link)
    requires Counters(c, s) && CanDeliver(s, l)
    ensures Counters(c, Deliver(s, l))
  {
    CountersKept(c, s, Deliver(s, l));
  }

  lemma KeepDeliver(c: Config, s: State, l: Link)
    requires Inv(c, s) && CanDeliver(s, l)
    ensures Inv(c, Deliver(s, l))
  {
    if l.Cc? && l.i < |s.clients| && s.clients[l.i].outbox != [] { QuietLink(c, s, l.i); }
    LinksDeliver(c, s, l);
    AnswersDeliver(c, s, l);
    EventsDeliver(s, l);
    CountersDeliver(c, s, l);
  }

  /** The connection moves on to state st. */
  predicate Moves(c: Config, s: State, r: State, l: Link, st: Conn) {
    && l in s.eps && r.eps == s.eps[l := s.eps[l].(st := st)]
    && r.ctl == s.ctl && r.servers == s.servers && r.clients == s.clients && r.ports == s.ports && r.tx == s.tx
    && Rank(st) == Rank(s.eps[l].st) + 1 && st != Requested && st != Up && st != Gone
    && (st == ReqQueued ==> Listens(c, s, l))
    && (st == DownQueued ==> Left(s, l))
  }

  lemma LinkMoves(c: Config, s: State, r: State, l: Link, st: Conn)
    requires Moves(c, s, r, l, st) && LinkOk(c, s, l)
    ensures LinkOk(c, r, l)
  {
    assert NumsOf(c, r, l) == NumsOf(c, s, l);
    assert EndsOf(c, r, l) == EndsOf(c, s, l);
  }

  lemma LinksMoves(c: Config, s: State, r: State, l: Link, st: Conn)
    requires Moves(c, s, r, l, st) && Links(c, s)
    ensures Links(c, r)
  {
    LinkMoves(c, s, r, l, st);
    LinksFabric(c, s, r, l);
  }

  lemma AnswersMoves(c: Config, s: State, r: State, l: Link, st: Conn)
    requires Moves(c, s, r, l, st) && Answers(c, s)
    ensures Answers(c, r)
  {
    AnswersKept(c, s, r);
  }

  lemma CountersMoves(c: Config, s: State, r: State, l: Link, st: Conn)
    requires Counters(c, s) && Moves(c, s, r, l, st)
    ensures Counters(c, r)
  {
    CountersKept(c, s, r);
  }

  lemma KeepMoves(c: Config, s: State, r: State, l: Link, st: Conn)
    requires Inv(c, s) && Moves(c, s, r, l, st) && r.eq.Keys == s.eq.Keys && Events(r)
    ensures Inv(c, r)
  {
    LinksMoves(c, s, r, l, st);
    AnswersMoves(c, s, r, l, st);
    CountersMoves(c, s, r, l, st);
  }

  lemma EventsArrive(c: Config, s: State, l: Link)
    requires Shape(c, s) && Events(s) && CanArrive(c, s, l)
    ensures Events(Arrive(s, l)) && Arrive(s, l).eq.Keys == s.eq.Keys
    ensures Moves(c, s, Arrive(s, l), l, ReqQueued)
  {
    EventsPush(s, Arrive(s, l), Passive(l), Req(l));
  }

  lemma EventsEstablish(c: Config, s: State, l: Link)
    requires Shape(c, s) && Events(s) && CanEstablish(s, l)
    ensures Events(Establish(s, l)) && Establish(s, l).eq.Keys == s.eq.Keys
    ensures Moves(c, s, Establish(s, l), l, EstQueued)
  {
    EventsPush(s, Establish(s, l), Passive(l), Est(l));
  }

  lemma EventsShutdown(c: Config, s: State, l: Link)
    requires Shape(c, s) && Events(s) && CanShutdown(s, l)
    ensures Events(Shutdown(s, l)) && Shutdown(s, l).eq.Keys == s.eq.Keys
    ensures Moves(c, s, Shutdown(s, l), l, DownQueued)
  {
    EventsPush(s, Shutdown(s, l), Passive(l), Down(l));
  }

  lemma KeepArrive(c: Config, s: State, l: Link)
    requires Inv(c, s) && CanArrive(c, s, l)
    ensures Inv(c, Arrive(s, l))
  {
    EventsArrive(c, s, l);
    KeepMoves(c, s, Arrive(s, l), l, ReqQueued);
  }

  lemma KeepEstablish(c: Config, s: State, l: Link)
    requires Inv(c, s) && CanEstablish(s, l)
    ensures Inv(c, Establish(s, l))
  {
    EventsEstablish(c, s, l);
    KeepMoves(c, s, Establish(s, l), l, EstQueued);
  }

  lemma KeepShutdown(c: Config, s: State, l: Link)
    requires Inv(c, s) && CanShutdown(s, l)
    ensures Inv(c, Shutdown(s, l))
  {
    EventsShutdown(c, s, l);
    KeepMoves(c, s, Shutdown(s, l), l, DownQueued);
  }

  /** The queue of a server is empty until its own CONNECTED arrives. */
  lemma QuietServer(c: Config, s: State, j: nat)
    requires Core(c, s) && Events(s) && j < c.m && Sc(j) in s.eps && Rank(s.eps[Sc(j)].st) < Rank(Answered)
    ensures Srv(j) in s.eq && s.eq[Srv(j)] == []
  {
    assert EqOk(s, Srv(j));
    if s.eq[Srv(j)] != [] {
      NothingPending(c, s, j, s.eq[Srv(j)][0]);
    }
  }

  lemma NothingPending(c: Config, s: State, j: nat, e: Event)
    requires Core(c, s) && j < c.m && Sc(j) in s.eps && Rank(s.eps[Sc(j)].st) < Rank(Answered)
    ensures !Pending(s, Srv(j), e)
  {
    forall i | 0 <= i < c.n ensures Cs(i, j) in s.eps && s.eps[Cs(i, j)].st == Idle { NoEarlyRequest(c, s, i, j); }
    AllIdle(c, s, j, e);
  }

  lemma AllIdle(c: Config, s: State, j: nat, e: Event)
    requires (forall l | l in s.eps :: Valid(c, l)) && Sc(j) in s.eps && Rank(s.eps[Sc(j)].st) < Rank(Answered)
    requires forall i | 0 <= i < c.n :: Cs(i, j) in s.eps && s.eps[Cs(i, j)].st == Idle
    ensures !Pending(s, Srv(j), e)
  {
  }

  lemma ServerAwaits(c: Config, s: State, j: nat)
    requires Shape(c, s) && Links(c, s) && j < c.m && Sc(j) in s.eps && s.eps[Sc(j)].st == Accepted
    ensures s.servers[j] == SrvDial(ToEvent)
  {
    assert LinkOk(c, s, Sc(j));
  }

  lemma OwnPushed(s: State, j: nat)
    requires Events(s) && Sc(j) in s.eps && s.eps[Sc(j)].st == Accepted && Srv(j) in s.eq && s.eq[Srv(j)] == []
    requires j < |s.servers| && s.servers[j] == SrvDial(ToEvent)
    ensures Events(Answer(s, Sc(j)))
  {
    EventsPush(s, Answer(s, Sc(j)), Srv(j), Own(Sc(j)));
  }

  lemma EventsAnswer(c: Config, s: State, l: Link)
    requires Core(c, s) && Events(s) && CanAnswer(s, l)
    ensures Events(Answer(s, l))
  {
    if l.Sc? {
      QuietServer(c, s, l.j);
      ServerAwaits(c, s, l.j);
      OwnPushed(s, l.j);
    } else {
      NothingPushed(s, l);
    }
  }

  lemma NothingPushed(s: State, l: Link)
    requires Events(s) && CanAnswer(s, l) && !l.Sc?
    ensures Events(Answer(s, l))
  {
    EventsKept(s, Answer(s, l));
  }

  lemma MovesAnswer(c: Config, s: State, l: Link)
    requires CanAnswer(s, l)
    ensures Moves(c, s, Answer(s, l), l, Answered) && Answer(s, l).eq.Keys == s.eq.Keys
  {
  }

  lemma KeepAnswer(c: Config, s: State, l: Link)
    requires Inv(c, s) && CanAnswer(s, l)
    ensures Inv(c, Answer(s, l))
  {
    EventsAnswer(c, s, l);
    MovesAnswer(c, s, l);
    KeepMoves(c, s, Answer(s, l), l, Answered);
  }

  lemma AnswersReply(c: Config, s: State, i: nat)
    requires Core(c, s) && CanReply(s, i)
    ensures Answers(c, Reply(s, i))
  {
    assert CliPcOk(c, i, s.clients[i].pc);
    Bounds(c, s.ctl, i, s.clients[i].pc);
    AnswersReplied(c, s, i);
  }

  lemma AnswersReplied(c: Config, s: State, i: nat)
    requires Answers(c, s) && CanReply(s, i) && Opened(c, s.ctl, i) <= Floor(c, s.ctl) + 1
    ensures Answers(c, Reply(s, i))
  {
    assert ReplyAt(c, s, i);
    AnswersClient(c, s, Reply(s, i), i);
  }

  lemma LinksReply(c: Config, s: State, i: nat)
    requires Links(c, s) && CanReply(s, i)
    ensures Links(c, Reply(s, i))
  {
    LinksKept(c, s, Reply(s, i));
  }

  lemma EventsReply(s: State, i: nat)
    requires Events(s) && CanReply(s, i)
    ensures Events(Reply(s, i))
  {
    PendingKept(s, Reply(s, i));
    EventsKept(s, Reply(s, i));
  }

  lemma CountersReply(c: Config, s: State, i: nat)
    requires Counters(c, s) && CanReply(s, i)
    ensures Counters(c, Reply(s, i))
  {
    CountersKept(c, s, Reply(s, i));
  }

  lemma KeepReply(c: Config, s: State, i: nat)
    requires Inv(c, s) && CanReply(s, i)
    ensures Inv(c, Reply(s, i))
  {
    LinksReply(c, s, i);
    AnswersReply(c, s, i);
    EventsReply(s, i);
    CountersReply(c, s, i);
  }
}
