/** How the conjuncts of the invariant survive steps that touch something else. */
module Frames {
  import opened Wire
  import opened Protocol
  import opened Invariant

  // ---------- connections

  predicate Kept(c: Config, s: State, r: State, l: Link)
    requires l in s.eps && l in r.eps
  {
    && r.eps[l] == s.eps[l] && NumsOf(c, r, l) == NumsOf(c, s, l)
    && Dialled(r, l) == Dialled(s, l)
    && (Listens(c, s, l) ==> Listens(c, r, l))
    && (Inside(r, Passive(l)) ==> Inside(s, Passive(l)))
    && (Left(s, l) ==> Left(r, l))
  }

  lemma LinkKept(c: Config, s: State, r: State, l: Link)
    requires l in s.eps && l in r.eps && LinkOk(c, s, l) && Kept(c, s, r, l)
    ensures LinkOk(c, r, l)
  {
  }

  predicate ClientOnly(s: State, r: State, i: nat) {
    && r.ctl == s.ctl && r.servers == s.servers && |r.clients| == |s.clients| && i < |s.clients|
    && (forall x | 0 <= x < |s.clients| && x != i :: r.clients[x] == s.clients[x])
  }

  lemma OtherClient(c: Config, s: State, r: State, i: nat, l: Link)
    requires ClientOnly(s, r, i) && l in s.eps && l in r.eps && r.eps[l] == s.eps[l] && !OwnedBy(l, i)
    ensures Kept(c, s, r, l)
  {
  }

  /** A step of client i that concerns its endpoint t only. */
  predicate Advances(c: Config, s: State, r: State, i: nat, t: nat) {
    && ClientOnly(s, r, i)
    && (var p, q := s.clients[i].pc, r.clients[i].pc;
        && (forall u | 0 <= u <= c.m && u != t :: CliDial(q, u) == CliDial(p, u))
        && (t != 0 ==> CliConsumed(c, q) == CliConsumed(c, p) && CliRecvs(c, q) == CliRecvs(c, p))
        && (p == CliDone ==> q == CliDone))
  }

  lemma SameClient(c: Config, s: State, r: State, i: nat, t: nat, l: Link)
    requires Advances(c, s, r, i, t) && OwnedBy(l, i) && l != LinkTo(i, t) && Valid(c, l)
    requires l in s.eps && l in r.eps && r.eps[l] == s.eps[l]
    ensures Kept(c, s, r, l)
  {
    if l.Cs? {
      assert CliDial(r.clients[i].pc, l.j + 1) == CliDial(s.clients[i].pc, l.j + 1);
    } else {
      assert CliDial(r.clients[i].pc, 0) == CliDial(s.clients[i].pc, 0);
    }
  }

  lemma LinksClient(c: Config, s: State, r: State, i: nat, t: nat)
    requires Links(c, s) && Advances(c, s, r, i, t)
    requires forall l :: l in s.eps <==> Valid(c, l)
    requires r.eps.Keys == s.eps.Keys && forall l | l in s.eps && l != LinkTo(i, t) :: r.eps[l] == s.eps[l]
    requires LinkTo(i, t) in r.eps ==> LinkOk(c, r, LinkTo(i, t))
    ensures Links(c, r)
  {
    forall l | l in r.eps ensures LinkOk(c, r, l) {
      if l != LinkTo(i, t) {
        if OwnedBy(l, i) { SameClient(c, s, r, i, t, l); } else { OtherClient(c, s, r, i, l); }
        LinkKept(c, s, r, l);
      }
    }
  }

  /** A step of the controller that concerns its endpoint in slot x only. */
  predicate Steers(c: Config, p: CtlPc, q: CtlPc, x: nat) {
    && (forall i | 0 <= i < c.n && i != x :: CmdsTo(c, q, i) == CmdsTo(c, p, i))
    && (forall j | 0 <= j < c.m && c.n + j != x :: StopsTo(c, q, j) == StopsTo(c, p, j))
    && AllIn(q) == AllIn(p)
    && (q.Listening? ==> p.Listening? && p.x <= q.x)
  }

  lemma LinksCtl(c: Config, s: State, r: State, x: nat)
    requires Links(c, s) && Steers(c, s.ctl, r.ctl, x) && r.clients == s.clients && r.servers == s.servers
    requires forall l :: l in s.eps <==> Valid(c, l)
    requires r.eps.Keys == s.eps.Keys && forall l | l in s.eps && l != Target(c, x) :: r.eps[l] == s.eps[l]
    requires Target(c, x) in r.eps ==> LinkOk(c, r, Target(c, x))
    ensures Links(c, r)
  {
    forall l | l in r.eps ensures LinkOk(c, r, l) {
      if l != Target(c, x) {
        CtlKept(c, s, r, x, l);
        LinkKept(c, s, r, l);
      }
    }
  }

  lemma CtlKept(c: Config, s: State, r: State, x: nat, l: Link)
    requires Steers(c, s.ctl, r.ctl, x) && r.clients == s.clients && r.servers == s.servers
    requires l in s.eps && l in r.eps && Valid(c, l) && l != Target(c, x) && r.eps[l] == s.eps[l]
    ensures Kept(c, s, r, l)
  {
  }

  /** A step of server j that does not open or close its ears. */
  predicate Serves(c: Config, s: State, r: State, j: nat) {
    && r.ctl == s.ctl && r.clients == s.clients && |r.servers| == |s.servers| && j < |s.servers|
    && (forall x | 0 <= x < |s.servers| && x != j :: r.servers[x] == s.servers[x])
    && (r.servers[j].Opening? ==> s.servers[j].Opening? && s.servers[j].x <= r.servers[j].x)
    && (Inside(r, Srv(j)) ==> Inside(s, Srv(j)))
  }

  lemma SrvKept(c: Config, s: State, r: State, j: nat, l: Link)
    requires Serves(c, s, r, j) && l in s.eps && l in r.eps && l != Sc(j) && r.eps[l] == s.eps[l]
    ensures Kept(c, s, r, l)
  {
  }

  lemma LinksServer(c: Config, s: State, r: State, j: nat)
    requires Links(c, s) && Serves(c, s, r, j)
    requires r.eps.Keys == s.eps.Keys && forall l | l in s.eps && l != Sc(j) :: r.eps[l] == s.eps[l]
    requires Sc(j) in r.eps ==> LinkOk(c, r, Sc(j))
    ensures Links(c, r)
  {
    forall l | l in r.eps ensures LinkOk(c, r, l) {
      if l != Sc(j) {
        SrvKept(c, s, r, j, l);
        LinkKept(c, s, r, l);
      }
    }
  }

  /** A step of the fabric on connection l. */
  predicate Carries(s: State, r: State, l: Link) {
    && r.ctl == s.ctl && r.servers == s.servers && |r.clients| == |s.clients|
    && (forall i | 0 <= i < |s.clients| :: r.clients[i].pc == s.clients[i].pc)
    && r.eps.Keys == s.eps.Keys && (forall x | x in s.eps && x != l :: r.eps[x] == s.eps[x])
  }

  lemma FabricKept(c: Config, s: State, r: State, l: Link, x: Link)
    requires Carries(s, r, l) && x in s.eps && x != l
    ensures Kept(c, s, r, x)
  {
  }

  lemma LinksFabric(c: Config, s: State, r: State, l: Link)
    requires Links(c, s) && Carries(s, r, l)
    requires l in r.eps ==> LinkOk(c, r, l)
    ensures Links(c, r)
  {
    forall x | x in r.eps ensures LinkOk(c, r, x) {
      if x != l {
        FabricKept(c, s, r, l, x);
        LinkKept(c, s, r, x);
      }
    }
  }

  predicate SamePcs(s: State, r: State) {
    && r.eps == s.eps && r.ctl == s.ctl && r.servers == s.servers && |r.clients| == |s.clients|
    && (forall i | 0 <= i < |s.clients| :: r.clients[i].pc == s.clients[i].pc)
  }

  lemma PcsKept(c: Config, s: State, r: State, l: Link)
    requires SamePcs(s, r) && l in s.eps
    ensures Kept(c, s, r, l)
  {
  }

  lemma LinksKept(c: Config, s: State, r: State)
    requires Links(c, s) && SamePcs(s, r)
    ensures Links(c, r)
  {
    forall l | l in r.eps ensures LinkOk(c, r, l) {
      PcsKept(c, s, r, l);
      LinkKept(c, s, r, l);
    }
  }

  // ---------- messages of one connection

  lemma MsgDeliver(c: Config, l: Link, e: Ep, n: Nums)
    requires MsgOk(c, l, e, n) && e.inbox != [] && e.posted > 0
    ensures MsgOk(c, l, e.(posted := e.posted - 1, landed := e.landed + 1,
                           buff := e.inbox[0], inbox := e.inbox[1..]), n)
  {
  }

  lemma MsgSend(c: Config, l: Link, e: Ep, n: Nums)
    requires MsgOk(c, l, e, n)
    ensures MsgOk(c, l, e.(inbox := e.inbox + [Msg(c, l, n.sent)]), n.(sent := n.sent + 1))
  {
  }

  lemma MsgConsume(c: Config, l: Link, e: Ep, n: Nums)
    requires MsgOk(c, l, e, n) && e.landed > 0
    ensures MsgOk(c, l, e.(landed := e.landed - 1), n.(consumed := n.consumed + 1))
    ensures e.buff == Msg(c, l, n.consumed) && n.consumed < n.sent && n.recvs == n.consumed + 1 && e.landed == 1
  {
  }

  lemma MsgPost(c: Config, l: Link, e: Ep, n: Nums)
    requires MsgOk(c, l, e, n) && n.recvs == n.consumed
    ensures MsgOk(c, l, e.(posted := e.posted + 1), n.(recvs := n.recvs + 1))
  {
  }

  // ---------- replies

  lemma AnswersClient(c: Config, s: State, r: State, i: nat)
    requires Answers(c, s) && ClientOnly(s, r, i) && |r.ports| == |s.ports| && r.eps.Keys == s.eps.Keys
    requires forall x | 0 <= x < |s.ports| && x != i :: r.ports[x] == s.ports[x]
    requires forall x: nat | x != i && Cc(x) in s.eps :: r.eps[Cc(x)].buff == s.eps[Cc(x)].buff
    requires i < |r.ports| && Cc(i) in r.eps ==> ReplyAt(c, r, i)
    ensures Answers(c, r)
  {
    forall x | 0 <= x < |r.clients| && x < |r.ports| && Cc(x) in r.eps ensures ReplyAt(c, r, x) {
      if x != i { assert ReplyAt(c, s, x); }
    }
  }

  /** Nothing about replies changes. */
  lemma AnswersKept(c: Config, s: State, r: State)
    requires Answers(c, s) && r.ports == s.ports && |r.clients| == |s.clients| && r.eps.Keys == s.eps.Keys
    requires forall i | 0 <= i < |s.clients| ::
               && r.clients[i].outbox == s.clients[i].outbox && r.clients[i].log == s.clients[i].log
               && Replies(c, r.clients[i].pc) == Replies(c, s.clients[i].pc)
               && Opened(c, r.ctl, i) == Opened(c, s.ctl, i)
    requires Floor(c, r.ctl) == Floor(c, s.ctl) && Ceil(c, r.ctl) >= Ceil(c, s.ctl)
    requires forall x: nat | Cc(x) in s.eps && x < |s.clients| && s.clients[x].outbox != [] ::
               r.eps[Cc(x)].buff == s.eps[Cc(x)].buff
    ensures Answers(c, r)
  {
    forall x | 0 <= x < |r.clients| && x < |r.ports| && Cc(x) in r.eps ensures ReplyAt(c, r, x) {
      assert ReplyAt(c, s, x);
    }
  }

  // ---------- events

  lemma EventsKept(s: State, r: State)
    requires Events(s) && r.eq == s.eq && forall g, f :: Pending(r, g, f) <==> Pending(s, g, f)
    ensures Events(r)
  {
    forall h | h in r.eq ensures EqOk(r, h) {
      assert EqOk(s, h);
    }
  }

  /** Connections keep their states and no server begins or ends to await its own CONNECTED. */
  predicate SameEvents(s: State, r: State) {
    && r.eps.Keys == s.eps.Keys && |r.servers| == |s.servers|
    && (forall l | l in s.eps :: r.eps[l].st == s.eps[l].st)
    && (forall j | 0 <= j < |s.servers| :: r.servers[j] == SrvDial(ToEvent) <==> s.servers[j] == SrvDial(ToEvent))
  }

  lemma PendingKept(s: State, r: State)
    requires SameEvents(s, r)
    ensures forall g, f :: Pending(r, g, f) <==> Pending(s, g, f)
  {
  }

  /** Event e is queued at h; nothing else about queues changes. */
  lemma EventsPush(s: State, r: State, h: Host, e: Event)
    requires Events(s) && h in s.eq && r.eq == s.eq[h := s.eq[h] + [e]]
    requires !Pending(s, h, e)
    requires forall g, f :: Pending(r, g, f) <==> Pending(s, g, f) || (g == h && f == e)
    requires e.Own? ==> s.eq[h] == []
    ensures Events(r)
  {
    forall g | g in r.eq ensures EqOk(r, g) {
      assert EqOk(s, g);
      if g == h {
        PushEvent(s.eq[h], e);
        assert forall f :: f in r.eq[h] <==> f in s.eq[h] || f == e;
      }
    }
  }

  lemma PushEvent(q: seq<Event>, e: Event)
    requires Distinct(q) && e !in q
    ensures Distinct(q + [e])
  {
  }

  /** The first event of h is read. */
  lemma EventsPop(s: State, r: State, h: Host)
    requires Events(s) && h in s.eq && s.eq[h] != [] && r.eq == s.eq[h := s.eq[h][1..]]
    requires forall g, f :: Pending(r, g, f) <==> Pending(s, g, f) && !(g == h && f == s.eq[h][0])
    ensures Events(r)
  {
    forall g | g in r.eq ensures EqOk(r, g) {
      assert EqOk(s, g);
      if g == h {
        PopEvent(s.eq[h]);
      }
    }
  }

  lemma PopEvent(q: seq<Event>)
    requires q != [] && Distinct(q)
    ensures Distinct(q[1..]) && forall e :: e in q[1..] <==> e in q && e != q[0]
  {
    assert q == [q[0]] + q[1..];
  }

  // ---------- counters

  predicate SameCounts(s: State, r: State) {
    && r.eps.Keys == s.eps.Keys
    && (forall l | l in s.eps :: (Rank(r.eps[l].st) >= Rank(Up) <==> Rank(s.eps[l].st) >= Rank(Up))
                                 && (Passive(l) == Ctl ==> (r.eps[l].st == Gone <==> s.eps[l].st == Gone)))
    && |r.ports| == |s.ports| && (forall i | 0 <= i < |s.ports| :: r.ports[i].taken == s.ports[i].taken)
  }

  lemma SetsKept(s: State, r: State)
    requires SameCounts(s, r)
    ensures forall h :: UpSet(r, h) == UpSet(s, h)
    ensures GoneSet(r) == GoneSet(s)
    ensures forall q: nat :: TakenSet(r, q) == TakenSet(s, q)
  {
    forall h ensures UpSet(r, h) == UpSet(s, h) { }
    forall q: nat ensures TakenSet(r, q) == TakenSet(s, q) { }
  }

  lemma UpKept(s: State, r: State)
    requires r.eps.Keys == s.eps.Keys
    requires forall l | l in s.eps :: Rank(r.eps[l].st) >= Rank(Up) <==> Rank(s.eps[l].st) >= Rank(Up)
    ensures forall h :: UpSet(r, h) == UpSet(s, h)
  {
    forall h ensures UpSet(r, h) == UpSet(s, h) { }
  }

  lemma CountersKept(c: Config, s: State, r: State)
    requires Counters(c, s) && SameCounts(s, r) && r.ctl == s.ctl && r.servers == s.servers
    ensures Counters(c, r)
  {
    SetsKept(s, r);
  }

  lemma CountersServer(c: Config, s: State, r: State, j: nat)
    requires Counters(c, s) && SameCounts(s, r) && r.ctl == s.ctl && |r.servers| == |s.servers|
    requires j < |s.servers| && forall x | 0 <= x < |s.servers| && x != j :: r.servers[x] == s.servers[x]
    requires SrvCounter(s.servers[j], |UpSet(s, Srv(j))|) ==> SrvCounter(r.servers[j], |UpSet(s, Srv(j))|)
    ensures Counters(c, r)
  {
    SetsKept(s, r);
    forall x | 0 <= x < |s.servers| ensures SrvCounter(r.servers[x], |UpSet(r, Srv(x))|) {
      assert SrvCounter(s.servers[x], |UpSet(s, Srv(x))|);
    }
  }

  /** Sets and their sizes: how many connections a node accepts. */
  function Incoming(c: Config, h: Host): set<Link> {
    match h
    case Ctl => (set i | 0 <= i < c.n :: Cc(i)) + (set j | 0 <= j < c.m :: Sc(j))
    case Srv(j) => set i | 0 <= i < c.n :: Cs(i, j)
  }

  lemma {:induction false} SizeCc(n: nat)
    ensures |set i | 0 <= i < n :: Cc(i)| == n
  {
    if n > 0 {
      SizeCc(n - 1);
      assert (set i | 0 <= i < n :: Cc(i)) == (set i | 0 <= i < n - 1 :: Cc(i)) + {Cc(n - 1)};
    }
  }

  lemma {:induction false} SizeSc(m: nat)
    ensures |set j | 0 <= j < m :: Sc(j)| == m
  {
    if m > 0 {
      SizeSc(m - 1);
      assert (set j | 0 <= j < m :: Sc(j)) == (set j | 0 <= j < m - 1 :: Sc(j)) + {Sc(m - 1)};
    }
  }

  lemma {:induction false} SizeCs(n: nat, j: nat)
    ensures |set i | 0 <= i < n :: Cs(i, j)| == n
  {
    if n > 0 {
      SizeCs(n - 1, j);
      assert (set i | 0 <= i < n :: Cs(i, j)) == (set i | 0 <= i < n - 1 :: Cs(i, j)) + {Cs(n - 1, j)};
    }
  }

  lemma SizeIncoming(c: Config, h: Host)
    ensures |Incoming(c, h)| == match h case Ctl => c.n + c.m case Srv(_) => c.n
  {
    match h
    case Ctl => SizeCc(c.n); SizeSc(c.m);
    case Srv(j) => SizeCs(c.n, j);
  }

  function Indices(n: nat): (r: set<nat>)
    ensures |r| == n && forall i :: i in r <==> 0 <= i < n
  {
    if n == 0 then {} else Indices(n - 1) + {n - 1}
  }

  lemma {:induction false} Pigeonhole<T>(a: set<T>, b: set<T>)
    requires a <= b && |a| == |b|
    ensures a == b
  {
    if a != b {
      var x :| x in b && x !in a;
      SubsetSize(a, b - {x});
    }
  }

  lemma {:induction false} SubsetSize<T>(a: set<T>, b: set<T>)
    requires a <= b
    ensures |a| <= |b|
  {
    if a != {} {
      var x :| x in a;
      SubsetSize(a - {x}, b - {x});
    }
  }
}
