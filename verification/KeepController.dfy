/** The steps of the controller keep the invariant. */
module KeepController {
  import opened Wire
  import opened Protocol
  import opened Invariant
  import opened Frames
  import opened Facts

  // ---------- what the loops of a round do to the numbers derived from the program counter

  lemma PostingPc(c: Config, p: nat, x: nat)
    requires Sane(c) && CtlPcOk(c, Round(p, Posting, x))
    ensures var o, q := Round(p, Posting, x), Settle(c, p, Posting, x + 1);
      && CtlPcOk(c, q) && Lag(c, q) == Lag(c, o) && Steers(c, o, q, c.n + c.m)
      && Floor(c, q) == Floor(c, o) && Ceil(c, q) == Ceil(c, o)
      && !(q.Round? && q.stage == Gathering) && q.Round?
      && forall i | 0 <= i < c.n :: Opened(c, q, i) == Opened(c, o, i) + (if i == x then 1 else 0)
  {
  }

  lemma SendingPc(c: Config, p: nat, x: nat)
    requires Sane(c) && CtlPcOk(c, Round(p, Sending, x))
    ensures var o, q := Round(p, Sending, x), Settle(c, p, Sending, x + 1);
      && CtlPcOk(c, q) && Lag(c, q) == Lag(c, o) + 1 && Steers(c, o, q, x)
      && Floor(c, q) == Floor(c, o) && Ceil(c, q) == Ceil(c, o)
      && !(q.Round? && q.stage == Gathering) && q.Round?
      && (forall i | 0 <= i < c.n :: Opened(c, q, i) == Opened(c, o, i))
      && (x < c.n ==> CmdsTo(c, o, x) == p - 1 && CmdsTo(c, q, x) == p)
      && (x >= c.n ==> p == LastRound(c) && StopsTo(c, o, x - c.n) == 0 && StopsTo(c, q, x - c.n) == 1)
  {
  }

  lemma DrainingPc(c: Config, p: nat, x: nat)
    requires Sane(c) && CtlPcOk(c, Round(p, Draining, x))
    ensures var o, q := Round(p, Draining, x), Settle(c, p, Draining, x + 1);
      && CtlPcOk(c, q) && Lag(c, q) == Lag(c, o) - 1 && Lag(c, o) > 0 && Steers(c, o, q, c.n + c.m)
      && Floor(c, q) == Floor(c, o) && Ceil(c, q) >= Ceil(c, o) && Ceil(c, o) == Floor(c, o)
      && q.Round? && (q.stage == Gathering ==> q == Round(p, Gathering, 0))
      && (forall i | 0 <= i < c.n :: Opened(c, q, i) == Opened(c, o, i))
  {
  }

  lemma GatheringPc(c: Config, p: nat, x: nat)
    requires Sane(c) && CtlPcOk(c, Round(p, Gathering, x))
    ensures var o, q := Round(p, Gathering, x), Settle(c, p, Gathering, x + 1);
      && CtlPcOk(c, q) && Lag(c, q) == Lag(c, o) && Steers(c, o, q, c.n + c.m)
      && (q.Round? && q.stage == Gathering ==> x + 1 < c.n && q == Round(p, Gathering, x + 1))
      && (x + 1 < c.n ==> q == Round(p, Gathering, x + 1))
      && (x + 1 == c.n ==> Floor(c, q) == Ceil(c, q) == Floor(c, o) + 1)
      && (forall i | 0 <= i < c.n :: Opened(c, q, i) == Opened(c, o, i))
      && (q.Closing? ==> q == Closing(0)) && !q.Finished?
      && Floor(c, o) == Before(p) && Ceil(c, o) == Before(p) + 1
  {
  }

  lemma ListeningPc(c: Config, x: nat)
    requires Sane(c) && CtlPcOk(c, Listening(x))
    ensures var o, q := Listening(x), if x + 1 < c.n + c.m then Listening(x + 1) else Accepting(0);
      && CtlPcOk(c, q) && Lag(c, q) == Lag(c, o) && Steers(c, o, q, c.n + c.m)
      && Floor(c, q) == Floor(c, o) && Ceil(c, q) == Ceil(c, o)
      && (forall i | 0 <= i < c.n :: Opened(c, q, i) == Opened(c, o, i))
  {
  }

  // ---------- frames for steps that only change the program counter

  lemma NoTarget(c: Config, s: State)
    requires Shape(c, s)
    ensures Target(c, c.n + c.m) !in s.eps
  {
    assert !Valid(c, Sc(c.m));
  }

  lemma LinksPc(c: Config, s: State, r: State)
    requires Shape(c, s) && Links(c, s) && Steers(c, s.ctl, r.ctl, c.n + c.m)
    requires r.clients == s.clients && r.servers == s.servers && r.eps == s.eps
    ensures Links(c, r)
  {
    NoTarget(c, s);
    LinksCtl(c, s, r, c.n + c.m);
  }

  lemma EventsPc(s: State, r: State)
    requires Events(s) && r.eq == s.eq && SameEvents(s, r)
    ensures Events(r)
  {
    PendingKept(s, r);
    EventsKept(s, r);
  }

  // ---------- listen

  lemma KeepListen(c: Config, s: State)
    requires Inv(c, s) && CanListen(s)
    ensures Inv(c, Listen(c, s))
  {
    ListeningPc(c, s.ctl.x);
    LinksPc(c, s, Listen(c, s));
    AnswersListen(c, s);
    EventsPc(s, Listen(c, s));
    CountersListen(c, s);
  }

  lemma AnswersListen(c: Config, s: State)
    requires Sane(c) && CtlPcOk(c, s.ctl) && Answers(c, s) && |s.clients| == c.n && CanListen(s)
    ensures Answers(c, Listen(c, s))
  {
    ListeningPc(c, s.ctl.x);
    AnswersKept(c, s, Listen(c, s));
  }

  lemma CountersListen(c: Config, s: State)
    requires Counters(c, s) && CanListen(s)
    ensures Counters(c, Listen(c, s))
  {
    SetsKept(s, Listen(c, s));
    SrvCountersKept(c, s, Listen(c, s));
  }

  lemma SrvCountersKept(c: Config, s: State, r: State)
    requires Counters(c, s) && SameCounts(s, r) && r.servers == s.servers
    ensures forall j | 0 <= j < |r.servers| :: SrvCounter(r.servers[j], |UpSet(r, Srv(j))|)
  {
    SetsKept(s, r);
  }

  // ---------- posting receives

  lemma AnswersPost(c: Config, s: State)
    requires Sane(c) && Shape(c, s) && CtlPcOk(c, s.ctl) && Answers(c, s) && CanPost(s)
    ensures Answers(c, CtlPost(c, s))
  {
    var r := CtlPost(c, s);
    PostingPc(c, s.ctl.p, s.ctl.x);
    forall i | 0 <= i < |r.clients| && i < |r.ports| && Cc(i) in r.eps ensures ReplyAt(c, r, i) {
      assert ReplyAt(c, s, i);
    }
  }

  lemma CountersRound(c: Config, s: State, r: State)
    requires Counters(c, s) && SameCounts(s, r) && r.servers == s.servers && s.ctl.Round?
    requires r.ctl.Round? && r.ctl.stage != Gathering
    ensures Counters(c, r)
  {
    SetsKept(s, r);
    SrvCountersKept(c, s, r);
  }

  lemma KeepPost(c: Config, s: State)
    requires Inv(c, s) && CanPost(s)
    ensures Inv(c, CtlPost(c, s))
  {
    PostingPc(c, s.ctl.p, s.ctl.x);
    LinksPc(c, s, CtlPost(c, s));
    AnswersPost(c, s);
    EventsPc(s, CtlPost(c, s));
    CountersRound(c, s, CtlPost(c, s));
  }

  // ---------- sending commands

  lemma SendAt(c: Config, s: State)
    requires Shape(c, s) && CtlPcOk(c, s.ctl) && Links(c, s) && CanSend(c, s)
    ensures LinkOk(c, CtlSend(c, s), Target(c, s.ctl.x))
  {
    var r, l := CtlSend(c, s), Target(c, s.ctl.x);
    assert LinkOk(c, s, l);
    SendingPc(c, s.ctl.p, s.ctl.x);
    var n := NumsOf(c, s, l);
    assert ConnOk(l, s.eps[l], EndsOf(c, s, l));
    MsgSend(c, l, s.eps[l], n);
    assert NumsOf(c, r, l) == n.(sent := n.sent + 1);
    assert EndsOf(c, r, l) == EndsOf(c, s, l);
    assert Cmd(CmdOf(c, s.ctl.p)) == Msg(c, l, n.sent);
  }

  lemma LinksSend(c: Config, s: State)
    requires Shape(c, s) && CtlPcOk(c, s.ctl) && Links(c, s) && CanSend(c, s)
    ensures Links(c, CtlSend(c, s))
  {
    SendAt(c, s);
    SendingPc(c, s.ctl.p, s.ctl.x);
    LinksCtl(c, s, CtlSend(c, s), s.ctl.x);
  }

  lemma AnswersSend(c: Config, s: State)
    requires Shape(c, s) && CtlPcOk(c, s.ctl) && Answers(c, s) && CanSend(c, s)
    requires s.ctl.x < c.n ==> s.ports[s.ctl.x].landed == 0
    ensures Answers(c, CtlSend(c, s))
  {
    var r := CtlSend(c, s);
    SendingPc(c, s.ctl.p, s.ctl.x);
    forall i | 0 <= i < |r.clients| && i < |r.ports| && Cc(i) in r.eps ensures ReplyAt(c, r, i) {
      AnswerSend(c, s, i);
    }
  }

  lemma AnswerSend(c: Config, s: State, i: nat)
    requires CanSend(c, s) && i < |s.clients| && i < |s.ports| && Cc(i) in s.eps && ReplyAt(c, s, i)
    requires Cc(i) in CtlSend(c, s).eps && |s.ports| == c.n && (s.ctl.x == i ==> s.ports[i].landed == 0)
    requires TallyOf(c, CtlSend(c, s).ctl, i, s.clients[i].pc) == TallyOf(c, s.ctl, i, s.clients[i].pc)
    ensures ReplyAt(c, CtlSend(c, s), i)
  {
  }

  lemma EventsSend(c: Config, s: State)
    requires Events(s) && CanSend(c, s)
    ensures Events(CtlSend(c, s))
  {
    EventsPc(s, CtlSend(c, s));
  }

  lemma CountersSend(c: Config, s: State)
    requires Sane(c) && CtlPcOk(c, s.ctl) && Counters(c, s) && CanSend(c, s)
    ensures Counters(c, CtlSend(c, s))
  {
    SendingPc(c, s.ctl.p, s.ctl.x);
    CountersRound(c, s, CtlSend(c, s));
  }

  lemma PcsSend(c: Config, s: State)
    requires Shape(c, s) && Pcs(c, s) && CanSend(c, s)
    ensures Shape(c, CtlSend(c, s)) && Pcs(c, CtlSend(c, s))
  {
    SendingPc(c, s.ctl.p, s.ctl.x);
  }

  lemma KeepSend(c: Config, s: State)
    requires Inv(c, s) && CanSend(c, s)
    ensures Inv(c, CtlSend(c, s))
  {
    if s.ctl.x < c.n { QuietPort(c, s, s.ctl.x); }
    PcsSend(c, s);
    LinksSend(c, s);
    AnswersSend(c, s);
    EventsSend(c, s);
    CountersSend(c, s);
  }

  // ---------- waiting for send completions

  lemma AnswersDrain(c: Config, s: State)
    requires Shape(c, s) && CtlPcOk(c, s.ctl) && Answers(c, s) && CanDrain(s)
    ensures Answers(c, CtlDrain(c, s))
  {
    DrainingPc(c, s.ctl.p, s.ctl.x);
    AnswersKept(c, s, CtlDrain(c, s));
  }

  lemma NoneTaken(c: Config, s: State)
    requires Shape(c, s) && CtlPcOk(c, s.ctl) && Answers(c, s) && s.ctl.Round? && s.ctl.stage == Draining
    ensures |TakenSet(s, Before(s.ctl.p) + 1)| == 0
  {
    DrainingPc(c, s.ctl.p, s.ctl.x);
    forall i | 0 <= i < c.n ensures s.ports[i].taken != Before(s.ctl.p) + 1 {
      assert Valid(c, Cc(i)) && ReplyAt(c, s, i);
    }
    assert TakenSet(s, Before(s.ctl.p) + 1) == {};
  }

  lemma CountersDrain(c: Config, s: State)
    requires Shape(c, s) && CtlPcOk(c, s.ctl) && Answers(c, s) && Counters(c, s) && CanDrain(s)
    ensures Counters(c, CtlDrain(c, s))
  {
    DrainingPc(c, s.ctl.p, s.ctl.x);
    NoneTaken(c, s);
    SetsKept(s, CtlDrain(c, s));
    SrvCountersKept(c, s, CtlDrain(c, s));
  }

  lemma KeepDrain(c: Config, s: State)
    requires Inv(c, s) && CanDrain(s)
    ensures Inv(c, CtlDrain(c, s))
  {
    DrainingPc(c, s.ctl.p, s.ctl.x);
    LinksPc(c, s, CtlDrain(c, s));
    AnswersDrain(c, s);
    EventsPc(s, CtlDrain(c, s));
    CountersDrain(c, s);
  }

  // ---------- gathering replies

  /** What a gather loop does when the reply in buffer i is the one it expects. */
  predicate Gathers(c: Config, s: State, r: State, i: nat) {
    && s.ctl.Round? && s.ctl.stage == Gathering && i < |s.ports| && s.ports[i].landed > 0
    && s.ports[i].taken == Before(s.ctl.p)
    && r.ports == s.ports[i := s.ports[i].(landed := s.ports[i].landed - 1, taken := s.ports[i].taken + 1)]
    && r.ctl == Settle(c, s.ctl.p, Gathering, s.ctl.x + 1)
    && r.eps == s.eps && r.eq == s.eq && r.clients == s.clients && r.servers == s.servers && r.tx == s.tx
  }

  /** A reply that has landed is the one of this round, and the first from its client. */
  lemma FirstReply(c: Config, s: State, i: nat)
    requires Core(c, s) && CanGather(s, i)
    ensures s.ports[i].taken == Before(s.ctl.p) && i < |s.clients|
    ensures s.ports[i].buff == ReplyOf(s.clients[i].log, Before(s.ctl.p))
  {
    assert Valid(c, Cc(i)) && ReplyAt(c, s, i);
    GatheringPc(c, s.ctl.p, s.ctl.x);
    assert CliPcOk(c, i, s.clients[i].pc);
    Bounds(c, s.ctl, i, s.clients[i].pc);
  }

  lemma Expected(c: Config, s: State, i: nat)
    requires CanGather(s, i) && i < |s.clients| && s.ports[i].taken == Before(s.ctl.p)
    requires s.ports[i].buff == ReplyOf(s.clients[i].log, Before(s.ctl.p))
    ensures Gathers(c, s, CtlGather(c, s, i), i)
  {
  }

  lemma OneMore(c: Config, s: State, r: State, i: nat)
    requires Shape(c, s) && Gathers(c, s, r, i)
    ensures |TakenSet(r, Before(s.ctl.p) + 1)| == |TakenSet(s, Before(s.ctl.p) + 1)| + 1
  {
    var q := Before(s.ctl.p) + 1;
    assert TakenSet(r, q) == TakenSet(s, q) + {i};
  }

  /** The last reply of a round: one from every client, since each had one receive posted. */
  lemma EveryOne(c: Config, s: State, r: State, i: nat)
    requires Shape(c, s) && Gathers(c, s, r, i) && |TakenSet(s, Before(s.ctl.p) + 1)| == s.ctl.x == c.n - 1
    ensures forall x | 0 <= x < c.n :: r.ports[x].taken == Before(s.ctl.p) + 1
  {
    OneMore(c, s, r, i);
    assert TakenSet(r, Before(s.ctl.p) + 1) <= Indices(c.n);
    Pigeonhole(TakenSet(r, Before(s.ctl.p) + 1), Indices(c.n));
    forall x | 0 <= x < c.n ensures r.ports[x].taken == Before(s.ctl.p) + 1 {
      assert x in Indices(c.n);
    }
  }

  lemma AnswersGather(c: Config, s: State, r: State, i: nat)
    requires Shape(c, s) && CtlPcOk(c, s.ctl) && Answers(c, s) && Gathers(c, s, r, i)
    requires |TakenSet(s, Before(s.ctl.p) + 1)| == s.ctl.x
    ensures Answers(c, r)
  {
    GatheringPc(c, s.ctl.p, s.ctl.x);
    if s.ctl.x + 1 == c.n { EveryOne(c, s, r, i); }
    forall x | 0 <= x < |r.clients| && x < |r.ports| && Cc(x) in r.eps ensures ReplyAt(c, r, x) {
      assert ReplyAt(c, s, x);
    }
  }

  lemma CountersGather(c: Config, s: State, r: State, i: nat)
    requires Shape(c, s) && CtlPcOk(c, s.ctl) && Counters(c, s) && Gathers(c, s, r, i)
    ensures Counters(c, r)
  {
    GatheringPc(c, s.ctl.p, s.ctl.x);
    OneMore(c, s, r, i);
    assert forall h :: UpSet(r, h) == UpSet(s, h);
    assert GoneSet(r) == GoneSet(s);
  }

  lemma KeepGather(c: Config, s: State, i: nat)
    requires Inv(c, s) && CanGather(s, i)
    ensures Inv(c, CtlGather(c, s, i))
  {
    var r := CtlGather(c, s, i);
    FirstReply(c, s, i);
    Expected(c, s, i);
    GatheringPc(c, s.ctl.p, s.ctl.x);
    LinksPc(c, s, r);
    AnswersGather(c, s, r, i);
    EventsPc(s, r);
    CountersGather(c, s, r, i);
  }

  // ---------- waiting for the shutdowns

  lemma NextIsDown(c: Config, s: State)
    requires Core(c, s) && Events(s) && CanClose(s)
    ensures s.eq[Ctl][0].Down? && s.eq[Ctl][0].l in s.eps
    ensures Passive(s.eq[Ctl][0].l) == Ctl && s.eps[s.eq[Ctl][0].l].st == DownQueued
  {
    var e := s.eq[Ctl][0];
    assert EqOk(s, Ctl) && e in s.eq[Ctl] && Pending(s, Ctl, e);
    assert LinkOk(c, s, e.l);
  }

  lemma ClosingPc(c: Config, x: int)
    requires Sane(c) && CtlPcOk(c, Closing(x))
    ensures var o, q := Closing(x), if x + 1 < c.n + c.m then Closing(x + 1) else Finished;
      && CtlPcOk(c, q) && Lag(c, q) == Lag(c, o) && Steers(c, o, q, c.n + c.m)
      && Floor(c, q) == Floor(c, o) && Ceil(c, q) == Ceil(c, o)
      && (forall i | 0 <= i < c.n :: Opened(c, q, i) == Opened(c, o, i))
  {
  }

  /** The SHUTDOWN of connection l is counted. */
  predicate Closes(c: Config, s: State, r: State, l: Link) {
    && CanClose(s) && s.eq[Ctl][0] == Down(l) && l in s.eps && Passive(l) == Ctl && s.eps[l].st == DownQueued
    && r == Pop(s, Ctl).(eps := s.eps[l := s.eps[l].(st := Gone)],
                         ctl := if s.ctl.c + 1 < c.n + c.m then Closing(s.ctl.c + 1) else Finished)
  }

  lemma LinkCloses(c: Config, s: State, r: State, l: Link)
    requires Sane(c) && CtlPcOk(c, s.ctl) && Closes(c, s, r, l) && LinkOk(c, s, l) && Valid(c, l)
    ensures LinkOk(c, r, l)
  {
    ClosingPc(c, s.ctl.c);
    assert NumsOf(c, r, l) == NumsOf(c, s, l);
  }

  lemma LinksCloses(c: Config, s: State, r: State, l: Link)
    requires Shape(c, s) && CtlPcOk(c, s.ctl) && Closes(c, s, r, l) && Links(c, s)
    ensures Links(c, r)
  {
    ClosingPc(c, s.ctl.c);
    assert Target(c, Slot(c, l)) == l;
    LinkCloses(c, s, r, l);
    LinksCtl(c, s, r, Slot(c, l));
  }

  lemma AnswersCloses(c: Config, s: State, r: State, l: Link)
    requires Shape(c, s) && CtlPcOk(c, s.ctl) && Closes(c, s, r, l) && Answers(c, s)
    ensures Answers(c, r)
  {
    ClosingPc(c, s.ctl.c);
    AnswersKept(c, s, r);
  }

  lemma EventsCloses(c: Config, s: State, r: State, l: Link)
    requires Closes(c, s, r, l) && Events(s)
    ensures Events(r)
  {
    EventsPop(s, r, Ctl);
  }

  lemma OneGone(c: Config, s: State, r: State, l: Link)
    requires Closes(c, s, r, l)
    ensures |GoneSet(r)| == |GoneSet(s)| + 1
  {
    assert GoneSet(r) == GoneSet(s) + {l} && l !in GoneSet(s);
  }

  lemma CountersCloses(c: Config, s: State, r: State, l: Link)
    requires Sane(c) && CtlPcOk(c, s.ctl) && Closes(c, s, r, l) && Counters(c, s)
    ensures Counters(c, r)
  {
    UpKept(s, r);
    OneGone(c, s, r, l);
  }

  lemma KeepClose(c: Config, s: State)
    requires Inv(c, s) && CanClose(s)
    ensures Inv(c, CtlClose(c, s))
  {
    NextIsDown(c, s);
    var r, l := CtlClose(c, s), s.eq[Ctl][0].l;
    ClosingPc(c, s.ctl.c);
    LinksCloses(c, s, r, l);
    AnswersCloses(c, s, r, l);
    EventsCloses(c, s, r, l);
    CountersCloses(c, s, r, l);
  }
}
