/** Consequences of the invariant that span nodes: what one node may conclude about the others. */
module Facts {
  import opened Wire
  import opened Protocol
  import opened Invariant
  import opened Frames

  predicate IsClient(c: Config, s: State, i: nat) {
    i < c.n && |s.clients| == |s.ports| == c.n && Cc(i) in s.eps
  }

  /** While a reply of client i is in flight, nothing is on its way to the same buffer. */
  lemma Quiet(c: Config, s: State, i: nat)
    requires IsClient(c, s, i) && LinkOk(c, s, Cc(i)) && ReplyAt(c, s, i)
    requires CtlPcOk(c, s.ctl) && CliPcOk(c, i, s.clients[i].pc) && Sane(c)
    requires s.clients[i].outbox != []
    ensures s.eps[Cc(i)].inbox == [] && s.eps[Cc(i)].landed == 0
  {
    var n := NumsOf(c, s, Cc(i));
    assert MsgOk(c, Cc(i), s.eps[Cc(i)], n);
    Bounds(c, s.ctl, i, s.clients[i].pc);
  }

  /** Commands, replies and rounds move together. */
  lemma Bounds(c: Config, pc: CtlPc, i: nat, q: CliPc)
    requires Sane(c) && CtlPcOk(c, pc) && CliPcOk(c, i, q) && i < c.n
    ensures Replies(c, q) > Floor(c, pc) ==> 1 + CmdsTo(c, pc, i) <= CliConsumed(c, q)
    ensures CliConsumed(c, q) >= 2 ==> Replies(c, q) <= CliConsumed(c, q) - 1
    ensures CliConsumed(c, q) >= 3 ==> Replies(c, q) == CliConsumed(c, q) - 2
    ensures CliConsumed(c, q) < 2 ==> Replies(c, q) == 0
    ensures Floor(c, pc) == 0 ==> CmdsTo(c, pc, i) <= 1
    ensures Ceil(c, pc) <= Floor(c, pc) + 1 && Floor(c, pc) <= Opened(c, pc, i) <= Floor(c, pc) + 1
  {
  }

  /** The parts of the invariant without events and counters. */
  ghost predicate Core(c: Config, s: State) {
    Shape(c, s) && Pcs(c, s) && Links(c, s) && Answers(c, s)
  }

  /** A client that was told to connect knows that the controller has everyone. */
  lemma Told(c: Config, s: State, i: nat)
    requires Core(c, s) && i < c.n && CliConsumed(c, s.clients[i].pc) >= 2
    ensures AllIn(s.ctl)
  {
    assert LinkOk(c, s, Cc(i));
  }

  lemma ToldUp(c: Config, s: State, i: nat, l: Link)
    requires Core(c, s) && i < c.n && CliConsumed(c, s.clients[i].pc) >= 2
    requires l in s.eps && Passive(l) == Ctl
    ensures Rank(s.eps[l].st) >= Rank(Up)
  {
    Told(c, s, i);
    assert LinkOk(c, s, l);
  }

  /** A client that was told to start knows that every client has confirmed. */
  lemma Begun(c: Config, s: State, i: nat, x: nat)
    requires Core(c, s) && i < c.n && x < c.n && CliConsumed(c, s.clients[i].pc) >= 3
    ensures Replies(c, s.clients[x].pc) >= 1
  {
    assert LinkOk(c, s, Cc(i));
    assert Cc(x) in s.eps;
    assert ReplyAt(c, s, x);
  }

  /** A client that has confirmed is connected to every server and holds that server's keys for it. */
  lemma Connected(c: Config, s: State, i: nat, j: nat)
    requires Core(c, s) && i < c.n && j < c.m && Replies(c, s.clients[i].pc) >= 1
    ensures Cs(i, j) in s.eps && Rank(s.eps[Cs(i, j)].st) >= Rank(Up) && s.eps[Cs(i, j)].key == Some(Cs(i, j))
    ensures Rank(s.eps[Cc(i)].st) >= Rank(Up)
  {
    assert Valid(c, Cs(i, j)) && Valid(c, Cc(i));
    assert LinkOk(c, s, Cs(i, j)) && LinkOk(c, s, Cc(i));
    HasKeys(c, s, i, Cs(i, j));
    HasKeys(c, s, i, Cc(i));
  }

  lemma HasKeys(c: Config, s: State, i: nat, l: Link)
    requires i < |s.clients| && Replies(c, s.clients[i].pc) >= 1 && l in s.eps && OwnedBy(l, i) && LinkOk(c, s, l)
    ensures l.Cs? ==> s.eps[l].key == Some(l)
    ensures Rank(s.eps[l].st) >= Rank(Up)
  {
    assert MsgOk(c, l, s.eps[l], NumsOf(c, s, l));
  }

  /** A server has ended only after the controller's STOP. */
  lemma SrvLeft(c: Config, s: State, j: nat)
    requires Core(c, s) && j < c.m && s.servers[j] == SrvDone
    ensures AllIn(s.ctl)
  {
    assert Valid(c, Sc(j));
    assert LinkOk(c, s, Sc(j));
  }

  /** A connection is shut down only when the node that dialled it has ended. */
  lemma DownLeft(c: Config, s: State, l: Link)
    requires Links(c, s) && l in s.eps && Rank(s.eps[l].st) > Rank(Up)
    ensures Left(s, l)
  {
    assert LinkOk(c, s, l);
  }

  lemma LeftServed(c: Config, s: State, i: nat)
    requires i < |s.clients| && s.clients[i].pc == CliDone
    ensures CliConsumed(c, s.clients[i].pc) >= 3
  {
  }

  /** A server that has all its clients has left waitAllConn. */
  lemma FullInside(c: Config, s: State, j: nat)
    requires Counters(c, s) && Pcs(c, s) && Sane(c) && j < |s.servers| && |UpSet(s, Srv(j))| == c.n
    ensures Inside(s, Srv(j))
  {
    assert SrvCounter(s.servers[j], |UpSet(s, Srv(j))|) && SrvPcOk(c, s.servers[j]);
  }

  /** While a node accepts connections, none of them is shut down. */
  lemma NoneLeft(c: Config, s: State, h: Host, l: Link)
    requires Core(c, s) && Counters(c, s) && l in s.eps && Passive(l) == h
    requires match h case Ctl => !AllIn(s.ctl) case Srv(j) => j < c.m && !Inside(s, h)
    ensures Rank(s.eps[l].st) <= Rank(Up)
  {
    if Rank(s.eps[l].st) > Rank(Up) {
      DownLeft(c, s, l);
      assert Valid(c, l);
      match l
      case Cc(i) => LeftServed(c, s, i); Told(c, s, i);
      case Sc(j) => SrvLeft(c, s, j);
      case Cs(i, j) => LeftServed(c, s, i); AllUp(c, s, i, j); FullInside(c, s, j);
    }
  }

  lemma AllUp(c: Config, s: State, i: nat, j: nat)
    requires Core(c, s) && i < c.n && j < c.m && CliConsumed(c, s.clients[i].pc) >= 3
    ensures |UpSet(s, Srv(j))| == c.n
  {
    forall x | 0 <= x < c.n ensures Cs(x, j) in UpSet(s, Srv(j)) {
      Begun(c, s, i, x);
      Connected(c, s, x, j);
    }
    assert UpSet(s, Srv(j)) == Incoming(c, Srv(j));
    SizeIncoming(c, Srv(j));
  }

  /** Before a server is connected to the controller, no client has asked it for a connection. */
  lemma NoEarlyRequest(c: Config, s: State, i: nat, j: nat)
    requires Core(c, s) && i < c.n && j < c.m && Sc(j) in s.eps && Rank(s.eps[Sc(j)].st) < Rank(Up)
    ensures Cs(i, j) in s.eps && s.eps[Cs(i, j)].st == Idle
  {
    assert Valid(c, Cs(i, j)) && LinkOk(c, s, Cs(i, j));
    if s.eps[Cs(i, j)].st != Idle {
      ToldUp(c, s, i, Sc(j));
    }
  }

  /** At the end of a sending loop the controller's buffers hold no unread reply. */
  lemma QuietPort(c: Config, s: State, x: nat)
    requires Core(c, s) && s.ctl.Round? && s.ctl.stage == Sending && s.ctl.x == x < c.n
    ensures s.ports[x].landed == 0 && s.clients[x].outbox == []
  {
    assert Valid(c, Cc(x)) && LinkOk(c, s, Cc(x)) && ReplyAt(c, s, x);
    assert CliPcOk(c, x, s.clients[x].pc);
    Bounds(c, s.ctl, x, s.clients[x].pc);
  }
}
