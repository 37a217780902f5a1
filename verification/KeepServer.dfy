/** The steps of the servers keep the invariant. */
module KeepServer {
  import opened Wire
  import opened Protocol
  import opened Invariant
  import opened Frames
  import opened Facts

  /** A step of server j on its control endpoint, outside any event queue. */
  ghost predicate Local(c: Config, s: State, r: State, j: nat) {
    && Serves(c, s, r, j) && j < c.m && Sc(j) in s.eps
    && r.eps.Keys == s.eps.Keys && (forall l | l in s.eps && l != Sc(j) :: r.eps[l] == s.eps[l])
    && r.ports == s.ports && r.tx == s.tx && r.eq.Keys == s.eq.Keys
    && (Rank(r.eps[Sc(j)].st) >= Rank(Up) <==> Rank(s.eps[Sc(j)].st) >= Rank(Up))
    && (r.eps[Sc(j)].st == Gone <==> s.eps[Sc(j)].st == Gone)
    && SrvPcOk(c, r.servers[j])
    && (forall ups: nat :: SrvCounter(s.servers[j], ups) ==> SrvCounter(r.servers[j], ups))
  }

  lemma CountersLocal(c: Config, s: State, r: State, j: nat)
    requires Counters(c, s) && Local(c, s, r, j)
    ensures Counters(c, r)
  {
    assert SameCounts(s, r);
    CountersServer(c, s, r, j);
  }

  lemma AnswersLocal(c: Config, s: State, r: State, j: nat)
    requires Answers(c, s) && Local(c, s, r, j)
    ensures Answers(c, r)
  {
    AnswersKept(c, s, r);
  }

  lemma LinksLocal(c: Config, s: State, r: State, j: nat)
    requires Links(c, s) && Local(c, s, r, j) && LinkOk(c, r, Sc(j))
    ensures Links(c, r)
  {
    LinksServer(c, s, r, j);
  }

  lemma PcsLocal(c: Config, s: State, r: State, j: nat)
    requires Shape(c, s) && Pcs(c, s) && Local(c, s, r, j)
    ensures Shape(c, r) && Pcs(c, r)
  {
  }

  lemma KeepLocal(c: Config, s: State, r: State, j: nat)
    requires Inv(c, s) && Local(c, s, r, j) && LinkOk(c, r, Sc(j)) && Events(r)
    ensures Inv(c, r)
  {
    PcsLocal(c, s, r, j);
    LinksLocal(c, s, r, j);
    AnswersLocal(c, s, r, j);
    CountersLocal(c, s, r, j);
  }

  lemma EventsLocal(s: State, r: State)
    requires Events(s) && r.eq == s.eq && SameEvents(s, r)
    ensures Events(r)
  {
    PendingKept(s, r);
    EventsKept(s, r);
  }

  lemma OwnLinkOk(c: Config, s: State, j: nat)
    requires Shape(c, s) && Links(c, s) && j < c.m
    ensures Sc(j) in s.eps && LinkOk(c, s, Sc(j))
  {
    assert Valid(c, Sc(j));
  }

  lemma CounterOk(c: Config, s: State, j: nat)
    requires Counters(c, s) && j < |s.servers|
    ensures SrvCounter(s.servers[j], |UpSet(s, Srv(j))|)
  {
  }

  // ---------- listening and dialling

  lemma OpenOk(c: Config, s: State, j: nat)
    requires Shape(c, s) && CanOpen(s, j) && Sc(j) in s.eps && LinkOk(c, s, Sc(j)) && SrvPcOk(c, s.servers[j])
    ensures var r := Open(c, s, j); Local(c, s, r, j) && LinkOk(c, r, Sc(j)) && SameEvents(s, r) && r.eq == s.eq
  {
    var r := Open(c, s, j);
    assert NumsOf(c, r, Sc(j)) == NumsOf(c, s, Sc(j));
    assert EndsOf(c, r, Sc(j)) == EndsOf(c, s, Sc(j));
  }

  lemma KeepOpen(c: Config, s: State, j: nat)
    requires Inv(c, s) && CanOpen(s, j)
    ensures Inv(c, Open(c, s, j))
  {
    OwnLinkOk(c, s, j);
    OpenOk(c, s, j);
    EventsLocal(s, Open(c, s, j));
    KeepLocal(c, s, Open(c, s, j), j);
  }

  lemma RequestOk(c: Config, s: State, j: nat)
    requires Shape(c, s) && CanSrvRequest(s, j) && LinkOk(c, s, Sc(j))
    ensures var r := SrvRequest(s, j); Local(c, s, r, j) && LinkOk(c, r, Sc(j)) && r.eq == s.eq
  {
    var r, l := SrvRequest(s, j), Sc(j);
    var n := NumsOf(c, s, l);
    MsgPost(c, l, s.eps[l], n);
    assert NumsOf(c, r, l) == n.(recvs := n.recvs + 1);
  }

  lemma EventsRequest(s: State, j: nat)
    requires Events(s) && CanSrvRequest(s, j) && s.eps[Sc(j)].st == Idle
    ensures Events(SrvRequest(s, j))
  {
    EventsKept(s, SrvRequest(s, j));
  }

  lemma StillIdle(c: Config, s: State, j: nat)
    requires CanSrvRequest(s, j) && LinkOk(c, s, Sc(j))
    ensures s.eps[Sc(j)].st == Idle
  {
  }

  lemma KeepSrvRequest(c: Config, s: State, j: nat)
    requires Inv(c, s) && CanSrvRequest(s, j)
    ensures Inv(c, SrvRequest(s, j))
  {
    OwnLinkOk(c, s, j);
    StillIdle(c, s, j);
    RequestOk(c, s, j);
    EventsRequest(s, j);
    KeepLocal(c, s, SrvRequest(s, j), j);
  }

  /** The first event a server reads is its own CONNECTED. */
  lemma OwnFirst(c: Config, s: State, j: nat)
    requires Core(c, s) && Events(s) && CanUplink(s, j)
    ensures Sc(j) in s.eps && s.eq[Srv(j)][0] == Own(Sc(j)) && Rank(s.eps[Sc(j)].st) >= Rank(Answered)
  {
    OwnLinkOk(c, s, j);
    if Rank(s.eps[Sc(j)].st) < Rank(Up) {
      assert forall i | 0 <= i < c.n :: Cs(i, j) in s.eps && s.eps[Cs(i, j)].st == Idle by {
        forall i | 0 <= i < c.n ensures Cs(i, j) in s.eps && s.eps[Cs(i, j)].st == Idle {
          NoEarlyRequest(c, s, i, j);
        }
      }
      OnlyOwn(c, s, j);
    } else {
      OwnQueued(s, j);
    }
  }

  lemma OnlyOwn(c: Config, s: State, j: nat)
    requires Events(s) && CanUplink(s, j) && forall l | l in s.eps :: Valid(c, l)
    requires forall i | 0 <= i < c.n :: Cs(i, j) in s.eps && s.eps[Cs(i, j)].st == Idle
    ensures Sc(j) in s.eps && s.eq[Srv(j)][0] == Own(Sc(j)) && Rank(s.eps[Sc(j)].st) >= Rank(Answered)
  {
    assert EqOk(s, Srv(j)) && s.eq[Srv(j)][0] in s.eq[Srv(j)];
    assert Pending(s, Srv(j), s.eq[Srv(j)][0]);
  }

  lemma OwnQueued(s: State, j: nat)
    requires Events(s) && CanUplink(s, j) && Sc(j) in s.eps && Rank(s.eps[Sc(j)].st) >= Rank(Answered)
    ensures s.eq[Srv(j)][0] == Own(Sc(j))
  {
    assert EqOk(s, Srv(j)) && Pending(s, Srv(j), Own(Sc(j)));
  }

  lemma UplinkOk(c: Config, s: State, j: nat)
    requires Shape(c, s) && CanUplink(s, j) && Sc(j) in s.eps && LinkOk(c, s, Sc(j))
    requires s.eq[Srv(j)][0] == Own(Sc(j)) && Rank(s.eps[Sc(j)].st) >= Rank(Answered)
    ensures var r := Uplink(s, j); Local(c, s, r, j) && LinkOk(c, r, Sc(j))
  {
    assert NumsOf(c, Uplink(s, j), Sc(j)) == NumsOf(c, s, Sc(j));
  }

  lemma EventsUplink(s: State, j: nat)
    requires Events(s) && CanUplink(s, j) && Sc(j) in s.eps && s.eq[Srv(j)][0] == Own(Sc(j))
    requires Rank(s.eps[Sc(j)].st) >= Rank(Answered)
    ensures Events(Uplink(s, j))
  {
    EventsPop(s, Uplink(s, j), Srv(j));
  }

  lemma KeepUplink(c: Config, s: State, j: nat)
    requires Inv(c, s) && CanUplink(s, j)
    ensures Inv(c, Uplink(s, j))
  {
    OwnLinkOk(c, s, j);
    OwnFirst(c, s, j);
    UplinkOk(c, s, j);
    EventsUplink(s, j);
    KeepLocal(c, s, Uplink(s, j), j);
  }

  lemma KeysOk(c: Config, s: State, j: nat)
    requires Shape(c, s) && CanSrvKeys(s, j) && LinkOk(c, s, Sc(j))
    ensures var r := SrvKeys(s, j); Local(c, s, r, j) && LinkOk(c, r, Sc(j)) && SameEvents(s, r) && r.eq == s.eq
  {
    var r, l := SrvKeys(s, j), Sc(j);
    var n := NumsOf(c, s, l);
    MsgConsume(c, l, s.eps[l], n);
    assert NumsOf(c, r, l) == n.(consumed := n.consumed + 1);
  }

  lemma KeepSrvKeys(c: Config, s: State, j: nat)
    requires Inv(c, s) && CanSrvKeys(s, j)
    ensures Inv(c, SrvKeys(s, j))
  {
    OwnLinkOk(c, s, j);
    KeysOk(c, s, j);
    EventsLocal(s, SrvKeys(s, j));
    KeepLocal(c, s, SrvKeys(s, j), j);
  }

  // ---------- waiting for STOP

  lemma PostOk(c: Config, s: State, j: nat)
    requires Shape(c, s) && CanSrvPost(s, j) && LinkOk(c, s, Sc(j))
    ensures var r := SrvPost(s, j); Local(c, s, r, j) && LinkOk(c, r, Sc(j)) && SameEvents(s, r) && r.eq == s.eq
  {
    var r, l := SrvPost(s, j), Sc(j);
    var n := NumsOf(c, s, l);
    MsgPost(c, l, s.eps[l], n);
    assert NumsOf(c, r, l) == n.(recvs := n.recvs + 1);
    assert EndsOf(c, r, l) == EndsOf(c, s, l);
  }

  lemma KeepSrvPost(c: Config, s: State, j: nat)
    requires Inv(c, s) && CanSrvPost(s, j)
    ensures Inv(c, SrvPost(s, j))
  {
    OwnLinkOk(c, s, j);
    PostOk(c, s, j);
    EventsLocal(s, SrvPost(s, j));
    KeepLocal(c, s, SrvPost(s, j), j);
  }

  lemma StopOk(c: Config, s: State, j: nat)
    requires Shape(c, s) && CanSrvStop(s, j) && LinkOk(c, s, Sc(j))
    ensures var r := SrvStop(s, j); Local(c, s, r, j) && LinkOk(c, r, Sc(j)) && SameEvents(s, r) && r.eq == s.eq
    ensures SrvStop(s, j).servers[j] == SrvDone
  {
    var r, l := SrvStop(s, j), Sc(j);
    var n := NumsOf(c, s, l);
    MsgConsume(c, l, s.eps[l], n);
    assert NumsOf(c, r, l) == n.(consumed := n.consumed + 1);
    assert Dialled(r, l) == Dialled(s, l);
  }

  lemma KeepSrvStop(c: Config, s: State, j: nat)
    requires Inv(c, s) && CanSrvStop(s, j)
    ensures Inv(c, SrvStop(s, j))
  {
    OwnLinkOk(c, s, j);
    StopOk(c, s, j);
    EventsLocal(s, SrvStop(s, j));
    KeepLocal(c, s, SrvStop(s, j), j);
  }

  /** A running server only ever sees its clients go. */
  predicate Loses(s: State, r: State, j: nat, l: Link) {
    && CanSrvEvent(s, j) && s.eq[Srv(j)][0] == Down(l) && l in s.eps && l.Cs? && l.j == j && s.eps[l].st == DownQueued
    && r == Pop(s, Srv(j)).(eps := s.eps[l := s.eps[l].(st := Gone)])
  }

  lemma OnlyDown(c: Config, s: State, j: nat)
    requires Shape(c, s) && Links(c, s) && Events(s) && CanSrvEvent(s, j)
    ensures Loses(s, SrvEvent(s, j), j, s.eq[Srv(j)][0].l)
  {
    var e := s.eq[Srv(j)][0];
    assert EqOk(s, Srv(j)) && e in s.eq[Srv(j)] && Pending(s, Srv(j), e);
    assert LinkOk(c, s, e.l);
  }

  lemma LinksLoses(c: Config, s: State, r: State, j: nat, l: Link)
    requires Links(c, s) && Loses(s, r, j, l)
    ensures Links(c, r)
  {
    LinkLoses(c, s, r, j, l);
    LinksFabric(c, s, r, l);
  }

  lemma LinkLoses(c: Config, s: State, r: State, j: nat, l: Link)
    requires Loses(s, r, j, l) && LinkOk(c, s, l)
    ensures LinkOk(c, r, l)
  {
    assert NumsOf(c, r, l) == NumsOf(c, s, l);
    assert EndsOf(c, r, l) == EndsOf(c, s, l);
  }

  lemma EventsLoses(s: State, r: State, j: nat, l: Link)
    requires Events(s) && Loses(s, r, j, l)
    ensures Events(r)
  {
    EventsPop(s, r, Srv(j));
  }

  lemma CountersLoses(c: Config, s: State, r: State, j: nat, l: Link)
    requires Counters(c, s) && Loses(s, r, j, l)
    ensures Counters(c, r)
  {
    LosesNoCount(s, r, j, l);
    CountersKept(c, s, r);
  }

  lemma LosesNoCount(s: State, r: State, j: nat, l: Link)
    requires Loses(s, r, j, l)
    ensures SameCounts(s, r) && r.ctl == s.ctl && r.servers == s.servers
  {
  }

  lemma AnswersLoses(c: Config, s: State, r: State, j: nat, l: Link)
    requires Answers(c, s) && Loses(s, r, j, l)
    ensures Answers(c, r)
  {
    AnswersKept(c, s, r);
  }

  lemma KeepSrvEvent(c: Config, s: State, j: nat)
    requires Inv(c, s) && CanSrvEvent(s, j)
    ensures Inv(c, SrvEvent(s, j))
  {
    var r, l := SrvEvent(s, j), s.eq[Srv(j)][0].l;
    OnlyDown(c, s, j);
    LinksLoses(c, s, r, j, l);
    AnswersLoses(c, s, r, j, l);
    EventsLoses(s, r, j, l);
    CountersLoses(c, s, r, j, l);
  }
}
