/** The steps of the clients keep the invariant. */
module KeepClient {
  import opened Wire
  import opened Protocol
  import opened Invariant
  import opened Frames
  import opened Facts

  /** A step of client i that touches at most its endpoint t. */
  predicate Local(c: Config, s: State, r: State, i: nat, t: nat) {
    && Advances(c, s, r, i, t) && i < c.n && t <= c.m && LinkTo(i, t) in s.eps
    && r.eps.Keys == s.eps.Keys && (forall l | l in s.eps && l != LinkTo(i, t) :: r.eps[l] == s.eps[l])
    && r.ports == s.ports && r.tx == s.tx && r.eq == s.eq
    && (Rank(r.eps[LinkTo(i, t)].st) >= Rank(Up) <==> Rank(s.eps[LinkTo(i, t)].st) >= Rank(Up))
    && (r.eps[LinkTo(i, t)].st == Gone <==> s.eps[LinkTo(i, t)].st == Gone)
    && CliPcOk(c, i, r.clients[i].pc)
  }

  lemma CountersLocal(c: Config, s: State, r: State, i: nat, t: nat)
    requires Counters(c, s) && Local(c, s, r, i, t)
    ensures Counters(c, r)
  {
    CountersKept(c, s, r);
  }

  lemma AnswersLocal(c: Config, s: State, r: State, i: nat, t: nat)
    requires Answers(c, s) && Local(c, s, r, i, t)
    requires i < |r.ports| && Cc(i) in r.eps ==> ReplyAt(c, r, i)
    ensures Answers(c, r)
  {
    AnswersClient(c, s, r, i);
  }

  lemma LinksLocal(c: Config, s: State, r: State, i: nat, t: nat)
    requires Shape(c, s) && Links(c, s) && Local(c, s, r, i, t) && LinkOk(c, r, LinkTo(i, t))
    ensures Links(c, r)
  {
    LinksClient(c, s, r, i, t);
  }

  lemma PcsLocal(c: Config, s: State, r: State, i: nat, t: nat)
    requires Shape(c, s) && Pcs(c, s) && Local(c, s, r, i, t)
    ensures Shape(c, r) && Pcs(c, r)
  {
  }

  lemma KeepLocal(c: Config, s: State, r: State, i: nat, t: nat)
    requires Inv(c, s) && Local(c, s, r, i, t) && LinkOk(c, r, LinkTo(i, t)) && Events(r)
    requires i < |r.ports| && Cc(i) in r.eps ==> ReplyAt(c, r, i)
    ensures Inv(c, r)
  {
    PcsLocal(c, s, r, i, t);
    LinksLocal(c, s, r, i, t);
    AnswersLocal(c, s, r, i, t);
    CountersLocal(c, s, r, i, t);
  }

  lemma EventsLocal(s: State, r: State)
    requires Events(s) && r.eq == s.eq && SameEvents(s, r)
    ensures Events(r)
  {
    PendingKept(s, r);
    EventsKept(s, r);
  }

  /** What the invariant says about client i and its endpoint t. */
  predicate Here(c: Config, s: State, i: nat, t: nat) {
    && IsClient(c, s, i) && Sane(c) && t <= c.m && LinkTo(i, t) in s.eps
    && LinkOk(c, s, LinkTo(i, t)) && ReplyAt(c, s, i) && CliPcOk(c, i, s.clients[i].pc)
  }

  lemma At(c: Config, s: State, i: nat, t: nat)
    requires Core(c, s) && i < c.n && t <= c.m
    ensures Here(c, s, i, t)
  {
    assert Valid(c, Cc(i)) && Valid(c, LinkTo(i, t));
    assert LinkOk(c, s, LinkTo(i, t)) && ReplyAt(c, s, i);
  }

  /** The same reply numbers, the same messages: ReplyAt carries over. */
  lemma SameReply(c: Config, s: State, r: State, i: nat)
    requires IsClient(c, s, i) && IsClient(c, r, i) && ReplyAt(c, s, i) && r.ports == s.ports && r.ctl == s.ctl
    requires r.eps[Cc(i)].buff == s.eps[Cc(i)].buff && r.clients[i].outbox == s.clients[i].outbox
    requires r.clients[i].log == s.clients[i].log && Replies(c, r.clients[i].pc) == Replies(c, s.clients[i].pc)
    ensures ReplyAt(c, r, i)
  {
  }

  // ---------- dialling

  lemma RequestOk(c: Config, s: State, i: nat)
    requires CanRequest(s, i) && Here(c, s, i, s.clients[i].pc.t)
    ensures var t, r := s.clients[i].pc.t, Request(s, i);
      Local(c, s, r, i, t) && LinkOk(c, r, LinkTo(i, t)) && ReplyAt(c, r, i) && s.eps[LinkTo(i, t)].st == Idle
  {
    var t, r := s.clients[i].pc.t, Request(s, i);
    var l := LinkTo(i, t);
    var n := NumsOf(c, s, l);
    MsgPost(c, l, s.eps[l], n);
    assert NumsOf(c, r, l) == n.(recvs := n.recvs + 1);
    SameReply(c, s, r, i);
  }

  lemma EventsRequest(s: State, i: nat)
    requires Events(s) && CanRequest(s, i) && s.eps[LinkTo(i, s.clients[i].pc.t)].st == Idle
    ensures Events(Request(s, i))
  {
    EventsKept(s, Request(s, i));
  }

  lemma KeepRequest(c: Config, s: State, i: nat)
    requires Inv(c, s) && CanRequest(s, i)
    ensures Inv(c, Request(s, i))
  {
    var t := s.clients[i].pc.t;
    assert CliPcOk(c, i, s.clients[i].pc);
    At(c, s, i, t);
    RequestOk(c, s, i);
    EventsRequest(s, i);
    KeepLocal(c, s, Request(s, i), i, t);
  }

  lemma ConnectedOk(c: Config, s: State, i: nat)
    requires CanConnected(s, i) && Here(c, s, i, s.clients[i].pc.t)
    ensures var t, r := s.clients[i].pc.t, CliConnected(s, i);
      Local(c, s, r, i, t) && LinkOk(c, r, LinkTo(i, t)) && ReplyAt(c, r, i) && SameEvents(s, r)
  {
    var t, r := s.clients[i].pc.t, CliConnected(s, i);
    assert NumsOf(c, r, LinkTo(i, t)) == NumsOf(c, s, LinkTo(i, t));
    SameReply(c, s, r, i);
  }

  lemma KeepConnected(c: Config, s: State, i: nat)
    requires Inv(c, s) && CanConnected(s, i)
    ensures Inv(c, CliConnected(s, i))
  {
    var t := s.clients[i].pc.t;
    assert CliPcOk(c, i, s.clients[i].pc);
    At(c, s, i, t);
    ConnectedOk(c, s, i);
    EventsLocal(s, CliConnected(s, i));
    KeepLocal(c, s, CliConnected(s, i), i, t);
  }

  /** The endpoint a client waits for messages on. */
  function Due(pc: CliPc): nat {
    if pc.Dial? then pc.t else 0
  }

  /** A receive completion always belongs to the endpoint the client waits on. */
  lemma OnlyDue(c: Config, s: State, i: nat, u: Link)
    requires Core(c, s) && RxOf(s, i, u)
    ensures u == LinkTo(i, Due(s.clients[i].pc))
  {
    assert LinkOk(c, s, u);
    if u.Cs? { OnlyDueServer(c, s, i, u); } else { OnlyDueControl(c, s, i); }
  }

  lemma OnlyDueServer(c: Config, s: State, i: nat, u: Link)
    requires RxOf(s, i, u) && u.Cs? && LinkOk(c, s, u)
    ensures u == LinkTo(i, Due(s.clients[i].pc))
  {
  }

  lemma OnlyDueControl(c: Config, s: State, i: nat)
    requires RxOf(s, i, Cc(i)) && LinkOk(c, s, Cc(i))
    ensures Due(s.clients[i].pc) == 0
  {
  }

  lemma KeysPc(c: Config, t: nat)
    requires Sane(c) && t <= c.m
    ensures var p, q := Dial(t, ToKeys), AfterKeys(c, t);
      && (forall u | 0 <= u <= c.m && u != t :: CliDial(q, u) == CliDial(p, u)) && CliDial(q, t) == 3
      && (t != 0 ==> CliConsumed(c, q) == CliConsumed(c, p)) && (t == 0 ==> CliConsumed(c, q) == 1)
      && CliRecvs(c, q) == CliRecvs(c, p) && Replies(c, q) == Replies(c, p) && q != CliDone
  {
  }

  lemma KeysOk(c: Config, s: State, i: nat)
    requires i < |s.clients| && s.clients[i].pc.Dial?
    requires CanKeys(s, i, LinkTo(i, s.clients[i].pc.t)) && Here(c, s, i, s.clients[i].pc.t)
    ensures var t := s.clients[i].pc.t; var r := TakeKeys(c, s, i, LinkTo(i, t));
      Local(c, s, r, i, t) && LinkOk(c, r, LinkTo(i, t)) && ReplyAt(c, r, i) && SameEvents(s, r)
  {
    var t := s.clients[i].pc.t;
    var l := LinkTo(i, t);
    var r, n := TakeKeys(c, s, i, l), NumsOf(c, s, l);
    KeysPc(c, t);
    MsgConsume(c, l, s.eps[l], n);
    assert NumsOf(c, r, l) == n.(consumed := n.consumed + 1);
    SameReply(c, s, r, i);
  }

  lemma KeepKeys(c: Config, s: State, i: nat, u: Link)
    requires Inv(c, s) && CanKeys(s, i, u)
    ensures Inv(c, TakeKeys(c, s, i, u))
  {
    var t := s.clients[i].pc.t;
    assert CliPcOk(c, i, s.clients[i].pc);
    OnlyDue(c, s, i, u);
    At(c, s, i, t);
    KeysOk(c, s, i);
    EventsLocal(s, TakeKeys(c, s, i, u));
    KeepLocal(c, s, TakeKeys(c, s, i, u), i, t);
  }

  // ---------- commands before the benchmark

  lemma PostOk(c: Config, s: State, i: nat)
    requires CanCliPost(s, i) && Here(c, s, i, 0)
    ensures var r := CliPost(s, i); Local(c, s, r, i, 0) && LinkOk(c, r, Cc(i)) && ReplyAt(c, r, i) && SameEvents(s, r)
  {
    var r, l := CliPost(s, i), Cc(i);
    var n := NumsOf(c, s, l);
    MsgPost(c, l, s.eps[l], n);
    assert NumsOf(c, r, l) == n.(recvs := n.recvs + 1);
    SameReply(c, s, r, i);
  }

  lemma KeepCliPost(c: Config, s: State, i: nat)
    requires Inv(c, s) && CanCliPost(s, i)
    ensures Inv(c, CliPost(s, i))
  {
    At(c, s, i, 0);
    PostOk(c, s, i);
    EventsLocal(s, CliPost(s, i));
    KeepLocal(c, s, CliPost(s, i), i, 0);
  }

  lemma ObeyOk(c: Config, s: State, i: nat)
    requires CanObey(s, i, Cc(i)) && Here(c, s, i, 0)
    ensures var r := Obey(s, i, Cc(i));
      Local(c, s, r, i, 0) && LinkOk(c, r, Cc(i)) && ReplyAt(c, r, i) && SameEvents(s, r)
  {
    var r, l := Obey(s, i, Cc(i)), Cc(i);
    var n := NumsOf(c, s, l);
    MsgConsume(c, l, s.eps[l], n);
    assert NumsOf(c, r, l) == n.(consumed := n.consumed + 1);
    SameReply(c, s, r, i);
  }

  lemma KeepObey(c: Config, s: State, i: nat, u: Link)
    requires Inv(c, s) && CanObey(s, i, u)
    ensures Inv(c, Obey(s, i, u))
  {
    OnlyDue(c, s, i, u);
    At(c, s, i, 0);
    ObeyOk(c, s, i);
    EventsLocal(s, Obey(s, i, u));
    KeepLocal(c, s, Obey(s, i, u), i, 0);
  }

  /** Before it confirms, a client cannot have START on its way. */
  lemma NotYetStarted(c: Config, s: State, i: nat)
    requires Here(c, s, i, 0) && CtlPcOk(c, s.ctl) && s.clients[i].pc == Confirm
    ensures s.eps[Cc(i)].landed == 0 && s.eps[Cc(i)].inbox == []
  {
    Bounds(c, s.ctl, i, Confirm);
    assert MsgOk(c, Cc(i), s.eps[Cc(i)], NumsOf(c, s, Cc(i)));
  }

  lemma ConfirmOk(c: Config, s: State, i: nat)
    requires CanConfirm(s, i) && Here(c, s, i, 0) && s.eps[Cc(i)].landed == 0
    ensures var r := CliConfirm(s, i);
      Local(c, s, r, i, 0) && LinkOk(c, r, Cc(i)) && ReplyAt(c, r, i) && SameEvents(s, r)
  {
    assert NumsOf(c, CliConfirm(s, i), Cc(i)) == NumsOf(c, s, Cc(i));
  }

  lemma KeepConfirm(c: Config, s: State, i: nat)
    requires Inv(c, s) && CanConfirm(s, i)
    ensures Inv(c, CliConfirm(s, i))
  {
    At(c, s, i, 0);
    NotYetStarted(c, s, i);
    ConfirmOk(c, s, i);
    EventsLocal(s, CliConfirm(s, i));
    KeepLocal(c, s, CliConfirm(s, i), i, 0);
  }

  // ---------- steps that leave every endpoint alone

  predicate Quietly(c: Config, s: State, r: State, i: nat) {
    && ClientOnly(s, r, i) && r.eps == s.eps && r.ports == s.ports && r.tx == s.tx && r.eq == s.eq
    && (var p, q := s.clients[i].pc, r.clients[i].pc;
        && !p.Dial? && p != PostConnect && p != AwaitConnect && p != CliDone
        && !q.Dial? && q != PostConnect && q != AwaitConnect && CliPcOk(c, i, q)
        && CliConsumed(c, p) == CliConsumed(c, q) && CliRecvs(c, p) == CliRecvs(c, q) && Replies(c, p) == Replies(c, q))
    && r.clients[i].outbox == s.clients[i].outbox && r.clients[i].log == s.clients[i].log
  }

  lemma QuietlyOk(c: Config, s: State, r: State, i: nat)
    requires Quietly(c, s, r, i) && Here(c, s, i, 0)
    ensures Local(c, s, r, i, 0) && LinkOk(c, r, Cc(i)) && ReplyAt(c, r, i) && SameEvents(s, r)
  {
    assert NumsOf(c, r, Cc(i)) == NumsOf(c, s, Cc(i));
    SameReply(c, s, r, i);
  }

  lemma KeepQuietly(c: Config, s: State, r: State, i: nat)
    requires Inv(c, s) && Quietly(c, s, r, i)
    ensures Inv(c, r)
  {
    At(c, s, i, 0);
    QuietlyOk(c, s, r, i);
    EventsLocal(s, r);
    KeepLocal(c, s, r, i, 0);
  }

  lemma TxOk(c: Config, s: State, i: nat)
    requires CanCliTx(s, i)
    ensures Quietly(c, s, CliTx(s, i), i)
  {
  }

  lemma FillOk(c: Config, s: State, i: nat)
    requires Sane(c) && CanFill(s, i) && CliPcOk(c, i, s.clients[i].pc)
    ensures CliRecvs(c, CliFill(c, s, i).clients[i].pc) == 4 && Quietly(c, s, CliFill(c, s, i), i)
  {
  }

  lemma PollOk(c: Config, s: State, i: nat, w: Tx)
    requires CanPoll(c, s, i, w) && CliPcOk(c, i, s.clients[i].pc)
    ensures Quietly(c, s, Poll(c, s, i, w), i)
  {
  }

  lemma QuitOk(c: Config, s: State, i: nat)
    requires CanQuit(s, i)
    ensures Quietly(c, s, Quit(s, i), i)
  {
  }

  lemma KeepCliTx(c: Config, s: State, i: nat)
    requires Inv(c, s) && CanCliTx(s, i)
    ensures Inv(c, CliTx(s, i))
  {
    TxOk(c, s, i);
    KeepQuietly(c, s, CliTx(s, i), i);
  }

  lemma KeepFill(c: Config, s: State, i: nat)
    requires Inv(c, s) && CanFill(s, i)
    ensures Inv(c, CliFill(c, s, i))
  {
    assert CliPcOk(c, i, s.clients[i].pc);
    FillOk(c, s, i);
    KeepQuietly(c, s, CliFill(c, s, i), i);
  }

  lemma KeepPoll(c: Config, s: State, i: nat, w: Tx)
    requires Inv(c, s) && CanPoll(c, s, i, w)
    ensures Inv(c, Poll(c, s, i, w))
  {
    assert CliPcOk(c, i, s.clients[i].pc);
    PollOk(c, s, i, w);
    KeepQuietly(c, s, Poll(c, s, i, w), i);
  }

  lemma KeepQuit(c: Config, s: State, i: nat)
    requires Inv(c, s) && CanQuit(s, i)
    ensures Inv(c, Quit(s, i))
  {
    QuitOk(c, s, i);
    KeepQuietly(c, s, Quit(s, i), i);
  }

  // ---------- CHECKPOINT and STOP

  /** The next command of client i in the benchmark loop. */
  function NextCmd(c: Config, h: nat): Wire.Command {
    if h < c.k then Checkpoint else Stop
  }

  lemma Commanded(c: Config, s: State, i: nat)
    requires CanServe(s, i, Cc(i)) && Here(c, s, i, 0)
    ensures s.eps[Cc(i)].buff == Cmd(NextCmd(c, s.clients[i].pc.h)) && s.eps[Cc(i)].landed == 1
  {
    MsgConsume(c, Cc(i), s.eps[Cc(i)], NumsOf(c, s, Cc(i)));
  }

  lemma ServeLink(c: Config, s: State, i: nat, t: real)
    requires CanServe(s, i, Cc(i)) && Here(c, s, i, 0)
    ensures LinkOk(c, Serve(s, i, Cc(i), t), Cc(i))
  {
    var r, l := Serve(s, i, Cc(i), t), Cc(i);
    var n, e := NumsOf(c, s, l), s.eps[l];
    Commanded(c, s, i);
    MsgConsume(c, l, e, n);
    var e1, n1 := e.(landed := e.landed - 1), n.(consumed := n.consumed + 1);
    if s.clients[i].pc.h < c.k {
      MsgPost(c, l, e1, n1);
      assert NumsOf(c, r, l) == n1.(recvs := n1.recvs + 1);
    } else {
      assert NumsOf(c, r, l) == n1;
    }
    assert Dialled(r, l) == Dialled(s, l);
  }

  lemma ServeLocal(c: Config, s: State, i: nat, t: real)
    requires CanServe(s, i, Cc(i)) && Here(c, s, i, 0) && s.eps[Cc(i)].buff == Cmd(NextCmd(c, s.clients[i].pc.h))
    ensures var r := Serve(s, i, Cc(i), t); Local(c, s, r, i, 0) && SameEvents(s, r)
  {
  }

  lemma ServeReply(c: Config, s: State, i: nat, t: real)
    requires CanServe(s, i, Cc(i)) && Here(c, s, i, 0) && s.clients[i].outbox == []
    requires s.eps[Cc(i)].buff == Cmd(NextCmd(c, s.clients[i].pc.h))
    ensures ReplyAt(c, Serve(s, i, Cc(i), t), i)
  {
  }

  /** A client that has a command to read has nothing left to send. */
  lemma NothingOut(c: Config, s: State, i: nat)
    requires Here(c, s, i, 0) && CtlPcOk(c, s.ctl) && s.eps[Cc(i)].landed > 0
    ensures s.clients[i].outbox == []
  {
    if s.clients[i].outbox != [] { Quiet(c, s, i); }
  }

  lemma KeepServe(c: Config, s: State, i: nat, u: Link, t: real)
    requires Inv(c, s) && CanServe(s, i, u)
    ensures Inv(c, Serve(s, i, u, t))
  {
    OnlyDue(c, s, i, u);
    At(c, s, i, 0);
    Commanded(c, s, i);
    NothingOut(c, s, i);
    ServeLink(c, s, i, t);
    ServeLocal(c, s, i, t);
    ServeReply(c, s, i, t);
    EventsLocal(s, Serve(s, i, u, t));
    KeepLocal(c, s, Serve(s, i, u, t), i, 0);
  }
}
