/** waitAllConn, at the controller and at every server, keeps the invariant: its counter is the
    number of connections that are up, and it reaches its goal exactly when all of them are. */
module KeepAccept {
  import opened Wire
  import opened Protocol
  import opened Invariant
  import opened Frames
  import opened Facts
  import opened KeepFabric

  predicate Accepting(s: State, h: Host) {
    match h case Ctl => s.ctl.Accepting? case Srv(j) => j < |s.servers| && s.servers[j].SrvAccepting?
  }

  function Goal(c: Config, h: Host): nat {
    match h case Ctl => c.n + c.m case Srv(_) => c.n
  }

  function Counted(s: State, h: Host): int
    requires Accepting(s, h)
  {
    match h case Ctl => s.ctl.c case Srv(j) => s.servers[j].c
  }

  /** The node after a CONNECTED event was counted. */
  function CtlAfter(c: Config, s: State, h: Host): CtlPc {
    if h == Ctl && s.ctl.Accepting? then
      (if s.ctl.c + 1 < c.n + c.m then CtlPc.Accepting(s.ctl.c + 1) else Round(1, Posting, 0))
    else s.ctl
  }

  function SrvAfter(c: Config, s: State, h: Host): seq<SrvPc> {
    if h.Srv? && h.j < |s.servers| && s.servers[h.j].SrvAccepting? then
      s.servers[h.j := if s.servers[h.j].c + 1 < c.n then SrvAccepting(s.servers[h.j].c + 1) else PostStop]
    else s.servers
  }

  /** The CONNECTED of l is read at h: keys are sent and the counter goes up. */
  predicate Welcomes(c: Config, s: State, r: State, h: Host, l: Link) {
    && Accepting(s, h) && h in s.eq && s.eq[h] != [] && s.eq[h][0] == Est(l)
    && l in s.eps && Passive(l) == h && s.eps[l].st == EstQueued
    && r.eps == s.eps[l := s.eps[l].(st := Up, inbox := s.eps[l].inbox + [Keys(l)])]
    && r.eq == s.eq[h := s.eq[h][1..]] && r.clients == s.clients
    && r.ctl == CtlAfter(c, s, h) && r.servers == SrvAfter(c, s, h)
    && r.tx == (if h == Ctl then s.tx + 1 else s.tx)
    && r.ports == (if l.Cc? && l.i < |s.ports| then s.ports[l.i := s.ports[l.i].(buff := Keys(l))] else s.ports)
  }

  lemma Busy(c: Config, s: State, h: Host)
    requires Shape(c, s) && h in s.eq && Accepting(s, h)
    ensures match h case Ctl => !AllIn(s.ctl) case Srv(j) => j < c.m && !Inside(s, h)
  {
  }

  lemma HeadPending(s: State, h: Host)
    requires Events(s) && CanAccept(s, h)
    ensures Pending(s, h, s.eq[h][0]) && !s.eq[h][0].Own?
  {
    assert EqOk(s, h) && s.eq[h][0] in s.eq[h];
  }

  lemma HeadUp(c: Config, s: State, h: Host, e: Event)
    requires Core(c, s) && Counters(c, s) && h in s.eq && Accepting(s, h) && Pending(s, h, e) && !e.Own?
    ensures Rank(s.eps[e.l].st) <= Rank(Up)
  {
    Busy(c, s, h);
    NoneLeft(c, s, h, e.l);
  }

  lemma HeadKind(s: State, h: Host, e: Event)
    requires Pending(s, h, e) && !e.Own? && Rank(s.eps[e.l].st) <= Rank(Up)
    ensures Passive(e.l) == h && ((e.Req? && s.eps[e.l].st == ReqQueued) || (e.Est? && s.eps[e.l].st == EstQueued))
  {
  }

  lemma Head(c: Config, s: State, h: Host)
    requires Core(c, s) && Events(s) && Counters(c, s) && CanAccept(s, h)
    ensures var e := s.eq[h][0];
      && e.l in s.eps && Passive(e.l) == h
      && ((e.Req? && s.eps[e.l].st == ReqQueued) || (e.Est? && s.eps[e.l].st == EstQueued))
  {
    HeadPending(s, h);
    HeadUp(c, s, h, s.eq[h][0]);
    HeadKind(s, h, s.eq[h][0]);
  }

  lemma Shapes(c: Config, s: State, h: Host)
    requires CanAccept(s, h) && s.eq[h][0].l in s.eps && Passive(s.eq[h][0].l) == h && 0 <= Counted(s, h) < Goal(c, h)
    requires var e := s.eq[h][0];
      ((e.Req? && s.eps[e.l].st == ReqQueued) || (e.Est? && s.eps[e.l].st == EstQueued))
    ensures var e, r := s.eq[h][0], Accept(c, s, h);
      && (e.Req? ==> Moves(c, s, r, e.l, Accepted) && r.eq == s.eq[h := s.eq[h][1..]])
      && (e.Est? ==> Welcomes(c, s, r, h, e.l))
  {
    var e, r := s.eq[h][0], Accept(c, s, h);
    if h.Srv? && e.Req? {
      assert r.servers == s.servers;
    }
  }

  lemma EventsAccepted(s: State, r: State, h: Host, l: Link)
    requires Events(s) && h in s.eq && s.eq[h] != [] && s.eq[h][0] == Req(l)
    requires l in s.eps && s.eps[l].st == ReqQueued && Passive(l) == h && r.servers == s.servers
    requires r.eps == s.eps[l := s.eps[l].(st := Accepted)] && r.eq == s.eq[h := s.eq[h][1..]]
    ensures Events(r)
  {
    EventsPop(s, r, h);
  }

  // ---------- CONNECTED

  lemma LinkWelcomes(c: Config, s: State, r: State, h: Host, l: Link)
    requires Welcomes(c, s, r, h, l) && LinkOk(c, s, l)
    ensures LinkOk(c, r, l)
  {
    var n := NumsOf(c, s, l);
    assert ConnOk(l, s.eps[l], EndsOf(c, s, l));
    MsgSend(c, l, s.eps[l], n);
    assert n.sent == 0;
    assert NumsOf(c, r, l) == n.(sent := 1);
    assert Dialled(r, l) == Dialled(s, l);
  }

  lemma LinkWaits(c: Config, s: State, r: State, h: Host, l: Link, x: Link)
    requires Welcomes(c, s, r, h, l) && x in s.eps && x != l && LinkOk(c, s, x)
    requires Inside(r, h) && Passive(x) == h ==> Rank(s.eps[x].st) >= Rank(Up)
    ensures LinkOk(c, r, x)
  {
    assert NumsOf(c, r, x) == NumsOf(c, s, x);
    assert Dialled(r, x) == Dialled(s, x) && Left(r, x) == Left(s, x);
    assert Listens(c, s, x) ==> Listens(c, r, x);
    assert Passive(x) != h ==> Inside(r, Passive(x)) == Inside(s, Passive(x));
  }

  lemma OneUp(c: Config, s: State, r: State, h: Host, l: Link)
    requires Welcomes(c, s, r, h, l)
    ensures |UpSet(r, h)| == |UpSet(s, h)| + 1
    ensures forall g | g != h :: UpSet(r, g) == UpSet(s, g)
    ensures GoneSet(r) == GoneSet(s)
  {
    assert UpSet(r, h) == UpSet(s, h) + {l} && l !in UpSet(s, h);
    forall g | g != h ensures UpSet(r, g) == UpSet(s, g) { }
  }

  lemma Arrived(c: Config, s: State, h: Host)
    requires forall l | l in s.eps :: Valid(c, l)
    ensures UpSet(s, h) <= Incoming(c, h)
  {
  }

  lemma Entering(c: Config, l: Link)
    requires Valid(c, l)
    ensures l in Incoming(c, Passive(l))
  {
  }

  lemma AllArrived(c: Config, s: State, h: Host)
    requires (forall l | l in s.eps :: Valid(c, l)) && |UpSet(s, h)| == Goal(c, h)
    ensures UpSet(s, h) == Incoming(c, h)
  {
    SizeIncoming(c, h);
    Arrived(c, s, h);
    Pigeonhole(UpSet(s, h), Incoming(c, h));
  }

  /** When the counter reaches its goal, every connection is up. */
  lemma FullHouse(c: Config, s: State, h: Host)
    requires (forall l | l in s.eps :: Valid(c, l)) && |UpSet(s, h)| == Goal(c, h)
    ensures forall l | l in s.eps && Passive(l) == h :: Rank(s.eps[l].st) >= Rank(Up)
  {
    AllArrived(c, s, h);
    forall l | l in s.eps && Passive(l) == h ensures l in UpSet(s, h) { Entering(c, l); }
  }

  /** If this was the last one, every connection of the node is up. */
  lemma InsideUp(c: Config, s: State, r: State, h: Host, l: Link)
    requires Shape(c, s) && Welcomes(c, s, r, h, l)
    requires 0 <= Counted(s, h) < Goal(c, h) && |UpSet(s, h)| == Counted(s, h)
    ensures Inside(r, h) ==> forall x | x in r.eps && Passive(x) == h :: Rank(r.eps[x].st) >= Rank(Up)
  {
    OneUp(c, s, r, h, l);
    if Inside(r, h) { FullHouse(c, r, h); }
  }

  lemma LinksWelcomes(c: Config, s: State, r: State, h: Host, l: Link)
    requires Shape(c, s) && Links(c, s) && Welcomes(c, s, r, h, l)
    requires 0 <= Counted(s, h) < Goal(c, h) && |UpSet(s, h)| == Counted(s, h)
    ensures Links(c, r)
  {
    InsideUp(c, s, r, h, l);
    forall x | x in r.eps ensures LinkOk(c, r, x) {
      if x == l {
        LinkWelcomes(c, s, r, h, l);
      } else {
        LinkWaits(c, s, r, h, l, x);
      }
    }
  }

  lemma AnswersWelcomes(c: Config, s: State, r: State, h: Host, l: Link)
    requires Shape(c, s) && Answers(c, s) && Welcomes(c, s, r, h, l)
    ensures Answers(c, r)
  {
    forall i | 0 <= i < |r.clients| && i < |r.ports| && Cc(i) in r.eps ensures ReplyAt(c, r, i) {
      assert ReplyAt(c, s, i);
    }
  }

  lemma EventsWelcomes(c: Config, s: State, r: State, h: Host, l: Link)
    requires Events(s) && Welcomes(c, s, r, h, l)
    ensures Events(r)
  {
    EventsPop(s, r, h);
  }

  lemma CountersWelcomes(c: Config, s: State, r: State, h: Host, l: Link)
    requires Sane(c) && Counters(c, s) && Welcomes(c, s, r, h, l)
    ensures Counters(c, r)
  {
    OneUp(c, s, r, h, l);
    forall j | 0 <= j < |r.servers| ensures SrvCounter(r.servers[j], |UpSet(r, Srv(j))|) {
      CounterWelcomes(c, s, r, h, l, j);
    }
  }

  lemma CounterWelcomes(c: Config, s: State, r: State, h: Host, l: Link, j: nat)
    requires Sane(c) && Welcomes(c, s, r, h, l) && j < |s.servers| && SrvCounter(s.servers[j], |UpSet(s, Srv(j))|)
    requires |UpSet(r, Srv(j))| == |UpSet(s, Srv(j))| + if h == Srv(j) then 1 else 0
    ensures j < |r.servers| && SrvCounter(r.servers[j], |UpSet(r, Srv(j))|)
  {
  }

  lemma PcsWelcomes(c: Config, s: State, r: State, h: Host, l: Link)
    requires Shape(c, s) && Pcs(c, s) && Welcomes(c, s, r, h, l)
    ensures Shape(c, r) && Pcs(c, r)
  {
  }

  lemma Counting(c: Config, s: State, h: Host)
    requires Core(c, s) && Counters(c, s) && h in s.eq && Accepting(s, h)
    ensures 0 <= Counted(s, h) < Goal(c, h) && |UpSet(s, h)| == Counted(s, h)
  {
    if h.Srv? { assert SrvCounter(s.servers[h.j], |UpSet(s, h)|) && SrvPcOk(c, s.servers[h.j]); }
  }

  lemma KeepWelcomes(c: Config, s: State, r: State, h: Host, l: Link)
    requires Inv(c, s) && Welcomes(c, s, r, h, l)
    requires 0 <= Counted(s, h) < Goal(c, h) && |UpSet(s, h)| == Counted(s, h)
    ensures Inv(c, r)
  {
    PcsWelcomes(c, s, r, h, l);
    LinksWelcomes(c, s, r, h, l);
    AnswersWelcomes(c, s, r, h, l);
    EventsWelcomes(c, s, r, h, l);
    CountersWelcomes(c, s, r, h, l);
  }

  lemma KeepAccept(c: Config, s: State, h: Host)
    requires Inv(c, s) && CanAccept(s, h)
    ensures Inv(c, Accept(c, s, h))
  {
    var e, r := s.eq[h][0], Accept(c, s, h);
    Head(c, s, h);
    Counting(c, s, h);
    Shapes(c, s, h);
    if e.Req? {
      EventsAccepted(s, r, h, e.l);
      KeepMoves(c, s, r, e.l, Accepted);
    } else {
      KeepWelcomes(c, s, r, h, e.l);
    }
  }
}
