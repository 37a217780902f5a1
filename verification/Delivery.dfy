/** What the controller may conclude about the delivery of its commands: from a reply everything,
    from a send completion nothing. */
module Delivery {
  import opened Wire
  import opened Protocol
  import opened Invariant
  import opened Facts
  import opened Ledger
  import Runs
  import Termination

  // ---------- replies

  /** Every command sent to client x so far, but for START, has been answered by it, and START has
      been followed by another that was. */
  predicate Answered(pc: CtlPc, x: nat) {
    match pc
    case Round(p, st, y) => (p == 2 && st == Sending && y <= x)
        || (p >= 4 && (st == Posting || (st == Sending && y <= x)))
    case Closing(_) => true
    case Finished => true
    case _ => false
  }

  /** Then all commands sent to the client have been delivered and read. */
  lemma RepliesDeliver(c: Config, s: State, x: nat)
    requires Sane(c) && Reachable(c, s) && x < c.n && Answered(s.ctl, x)
    ensures x < |s.clients| && Cc(x) in s.eps && s.eps[Cc(x)].inbox == [] && s.eps[Cc(x)].landed == 0
    ensures CliConsumed(c, s.clients[x].pc) == 1 + CmdsTo(c, s.ctl, x)
  {
    FullReachable(c, s);
    AllRead(c, s, x);
  }

  lemma AllRead(c: Config, s: State, x: nat)
    requires Core(c, s) && x < c.n && Answered(s.ctl, x)
    ensures Cc(x) in s.eps && s.eps[Cc(x)].inbox == [] && s.eps[Cc(x)].landed == 0
    ensures CliConsumed(c, s.clients[x].pc) == 1 + CmdsTo(c, s.ctl, x)
  {
    assert Valid(c, Cc(x)) && ReplyAt(c, s, x) && LinkOk(c, s, Cc(x)) && CliPcOk(c, x, s.clients[x].pc);
    Bounds(c, s.ctl, x, s.clients[x].pc);
  }

  // ---------- send completions

  predicate ByController(run: seq<Action>) { forall t | 0 <= t < |run| :: run[t].ByCtrl? }

  /** The round's command is still to be sent on endpoint x. */
  predicate ToSend(pc: CtlPc, x: nat) { pc.Round? && (pc.stage == Posting || (pc.stage == Sending && pc.x <= x)) }

  /** The connection with what the controller has yet to send in this round. */
  function Owed(c: Config, s: State, x: nat, p: nat): Ep
    requires Target(c, x) in s.eps
  {
    var e := s.eps[Target(c, x)];
    if ToSend(s.ctl, x) then e.(inbox := e.inbox + [Cmd(CmdOf(c, p))]) else e
  }

  function OwnAct(st: Stage): CtrlAct {
    match st case Posting => APost case Sending => ASend case Draining => ADrain case Gathering => AGather(0)
  }

  predicate Busy(c: Config, s: State) {
    s.ctl.Round? && s.ctl.stage != Gathering
  }

  function Left(c: Config, pc: CtlPc): nat {
    match pc
    case Round(p, st, x) =>
      (if x <= Bound(c, p, st) then Bound(c, p, st) - x else 0)
      + (match st
         case Posting => Bound(c, p, Sending) + Bound(c, p, Draining)
         case Sending => Bound(c, p, Draining)
         case _ => 0)
    case _ => 0
  }

  /** The controller is about to take the last step of the round's draining loop. */
  predicate Over(c: Config, s: State) {
    s.ctl.Round? && s.ctl.stage == Draining && s.ctl.x + 1 >= Bound(c, s.ctl.p, Draining)
  }

  /** One step of the controller inside its posting, sending and draining loops. */
  predicate Onward(c: Config, s: State, r: State) {
    && s.ctl.Round? && r.clients == s.clients && r.servers == s.servers
    && (forall l | l in s.eps :: l in r.eps)
    && (forall y | 0 <= y < Targets(c, s.ctl.p) :: Target(c, y) in s.eps && Target(c, y) in r.eps
          && (if Over(c, s) then r.eps[Target(c, y)] else Owed(c, r, y, s.ctl.p)) == Owed(c, s, y, s.ctl.p))
  }

  lemma TargetsThere(c: Config, s: State)
    requires Shape(c, s) && s.ctl.Round? && CtlPcOk(c, s.ctl)
    ensures forall y | 0 <= y < Targets(c, s.ctl.p) :: Target(c, y) in s.eps
  {
    forall y | 0 <= y < Targets(c, s.ctl.p) ensures Target(c, y) in s.eps { assert Valid(c, Target(c, y)); }
  }

  lemma Enabled(c: Config, s: State)
    requires Shape(c, s) && Pcs(c, s) && Busy(c, s)
    ensures CanCtrl(c, s, OwnAct(s.ctl.stage))
  {
    TargetsThere(c, s);
  }

  lemma StepsOn(c: Config, s: State)
    requires Busy(c, s) && CtlPcOk(c, s.ctl) && Sane(c) && CanCtrl(c, s, OwnAct(s.ctl.stage))
    requires forall y | 0 <= y < Targets(c, s.ctl.p) :: Target(c, y) in s.eps
    ensures var r := NextCtrl(c, s, OwnAct(s.ctl.stage));
      && Onward(c, s, r)
      && if Over(c, s) then r.ctl == After(c, s.ctl.p, Draining)
         else Busy(c, r) && r.ctl.p == s.ctl.p && Left(c, r.ctl) < Left(c, s.ctl)
  {
    var r, p := NextCtrl(c, s, OwnAct(s.ctl.stage)), s.ctl.p;
    forall y | 0 <= y < Targets(c, p)
      ensures Target(c, y) in r.eps && (if Over(c, s) then r.eps[Target(c, y)] else Owed(c, r, y, p))
          == Owed(c, s, y, p)
    {
      assert Target(c, y) in s.eps;
      if s.ctl.stage == Sending && y != s.ctl.x { assert Target(c, y) != Target(c, s.ctl.x); }
    }
  }

  /** t is s with the round's commands sent and nothing else done on their connections. */
  predicate Undelivered(c: Config, s: State, t: State, p: nat) {
    && t.clients == s.clients && t.servers == s.servers
    && forall y | 0 <= y < Targets(c, p) ::
         Target(c, y) in s.eps && Target(c, y) in t.eps && t.eps[Target(c, y)] == Owed(c, s, y, p)
  }

  lemma OneMore(c: Config, s: State, r: State, t: State)
    requires Onward(c, s, r) && if Over(c, s) then t == r else Undelivered(c, r, t, s.ctl.p)
    ensures Undelivered(c, s, t, s.ctl.p)
  {
  }

  /** The buffer of endpoint y holds command p, or will when the controller has sent it. */
  predicate Held(c: Config, s: State, y: nat, p: nat) {
    y < |s.ports| && ((s.ctl.Round? && s.ctl.p == p && ToSend(s.ctl, y)) || s.ports[y].buff == Cmd(CmdOf(c, p)))
  }

  predicate Overwrites(c: Config, s: State, t: State, p: nat) {
    forall y | 0 <= y < c.n && Held(c, s, y, p) :: y < |t.ports| && t.ports[y].buff == Cmd(CmdOf(c, p))
  }

  lemma HeldOn(c: Config, s: State, y: nat)
    requires Busy(c, s) && CanCtrl(c, s, OwnAct(s.ctl.stage)) && Held(c, s, y, s.ctl.p)
    requires CtlPcOk(c, s.ctl) && Sane(c) && |s.ports| == c.n
    ensures var r := NextCtrl(c, s, OwnAct(s.ctl.stage));
      if Over(c, s) then y < |r.ports| && r.ports[y].buff == Cmd(CmdOf(c, s.ctl.p)) else Held(c, r, y, s.ctl.p)
  {
  }

  /** From any point of a round before its replies are gathered, the controller alone can come to the
      end of its wait for send completions. Nothing it sends on the way is delivered. */
  lemma {:induction false} ControllerAlone(c: Config, s: State) returns (run: seq<Action>, t: State)
    requires Inv(c, s) && Busy(c, s)
    ensures Exec(c, s, run) == Some(t) && ByController(run) && t.ctl == After(c, s.ctl.p, Draining)
    ensures Undelivered(c, s, t, s.ctl.p) && Overwrites(c, s, t, s.ctl.p)
    decreases Left(c, s.ctl)
  {
    var a := ByCtrl(OwnAct(s.ctl.stage));
    Enabled(c, s);
    TargetsThere(c, s);
    StepsOn(c, s);
    var r := Next(c, s, a);
    if Over(c, s) {
      run, t := [a], r;
      OneRun(c, s, a);
    } else {
      Runs.KeepStep(c, s, a);
      var rest;
      rest, t := ControllerAlone(c, r);
      run := [a] + rest;
      Termination.Prefixed(c, s, a, rest);
    }
    OneMore(c, s, r, t);
    OverwritesOn(c, s, t);
  }

  lemma OverwritesOn(c: Config, s: State, t: State)
    requires Busy(c, s) && CanCtrl(c, s, OwnAct(s.ctl.stage)) && CtlPcOk(c, s.ctl) && Sane(c) && |s.ports| == c.n
    requires var r := NextCtrl(c, s, OwnAct(s.ctl.stage));
      if Over(c, s) then t == r else Overwrites(c, r, t, s.ctl.p)
    ensures Overwrites(c, s, t, s.ctl.p)
  {
    forall y | 0 <= y < c.n && Held(c, s, y, s.ctl.p) ensures y < |t.ports|
        && t.ports[y].buff == Cmd(CmdOf(c, s.ctl.p)) {
      HeldOn(c, s, y);
    }
  }

  lemma OneRun(c: Config, s: State, a: Action)
    requires Can(c, s, a)
    ensures Exec(c, s, [a]) == Some(Next(c, s, a))
  {
    assert [a][..0] == [] && Exec(c, s, []) == Some(s);
  }

  /** So at the end of the wait not one of the round's commands need have been delivered, whatever
      the round: n + m send completions of the keys were still to be polled. */
  lemma CompletionsProveNothing(c: Config, s: State) returns (run: seq<Action>, t: State)
    requires Sane(c) && Reachable(c, s)
    requires s.ctl.Round? && s.ctl == Round(s.ctl.p, if s.ctl.p == 2 then Sending else Posting, 0)
    ensures Exec(c, s, run) == Some(t) && ByController(run) && t.ctl == After(c, s.ctl.p, Draining)
    ensures forall y | 0 <= y < Targets(c, s.ctl.p) :: Target(c, y) in s.eps && Target(c, y) in t.eps
              && t.eps[Target(c, y)].inbox == s.eps[Target(c, y)].inbox + [Cmd(CmdOf(c, s.ctl.p))]
              && t.eps[Target(c, y)].landed == s.eps[Target(c, y)].landed
  {
    FullReachable(c, s);
    run, t := ControllerAlone(c, s);
  }

  // ---------- reuse of the controller's buffers

  /** When the controller overwrites the buffer of a client's endpoint in any round but those of CONNECT
      and of the command after START, everything it has sent from that buffer has been read. */
  lemma ReuseSafe(c: Config, s: State)
    requires Sane(c) && Reachable(c, s) && CanSend(c, s) && s.ctl.x < c.n && s.ctl.p != 1 && s.ctl.p != 3
    ensures Cc(s.ctl.x) in s.eps && s.eps[Cc(s.ctl.x)].inbox == [] && s.eps[Cc(s.ctl.x)].landed == 0
  {
    InRounds(c, s);
    RepliesDeliver(c, s, s.ctl.x);
  }

  lemma InRounds(c: Config, s: State)
    requires Sane(c) && Reachable(c, s) && s.ctl.Round?
    ensures s.ctl.p >= 1
  {
    FullReachable(c, s);
  }

  /** Two rounds of the controller with nobody else moving. */
  lemma {:induction false} Joined(c: Config, s: State, first: seq<Action>, second: seq<Action>)
    requires Exec(c, s, first).Some?
    ensures Exec(c, s, first + second) == Exec(c, Exec(c, s, first).value, second)
  {
    if second == [] {
      assert first + second == first;
    } else {
      var n := |second| - 1;
      Joined(c, s, first, second[..n]);
      assert first + second == (first + second[..n]) + [second[n]];
      LastOf(c, s, first + second[..n], second[n]);
      assert second == second[..n] + [second[n]];
      LastOf(c, Exec(c, s, first).value, second[..n], second[n]);
    }
  }

  lemma LastOf(c: Config, s: State, run: seq<Action>, a: Action)
    ensures Exec(c, s, run + [a]) == Then(c, Exec(c, s, run), a)
  {
    assert (run + [a])[..|run|] == run;
  }

  /** In those two rounds it may not have been: from wherever the controller is about to send START, it
      alone can come to where the next command has overwritten START in every client's buffer, and
      both are on their way unread, behind whatever was before them. */
  lemma StartOverwritten(c: Config, s: State) returns (run: seq<Action>, t: State)
    requires Sane(c) && Reachable(c, s) && s.ctl == Round(2, Sending, 0)
    ensures Exec(c, s, run) == Some(t) && ByController(run)
    ensures forall y | 0 <= y < c.n :: Twice(c, s, t, y)
  {
    FullReachable(c, s);
    var first, r := ControllerAlone(c, s);
    Runs.InvAfter(c, s, first);
    var second;
    second, t := ControllerAlone(c, r);
    run := first + second;
    Joined(c, s, first, second);
    forall y | 0 <= y < c.n ensures Twice(c, s, t, y) { BothUnread(c, s, r, t, y); }
  }

  predicate Twice(c: Config, s: State, t: State, y: nat) {
    && Cc(y) in s.eps && Cc(y) in t.eps && y < |t.ports|
    && t.eps[Cc(y)].inbox == s.eps[Cc(y)].inbox + [Cmd(Start), Cmd(CmdOf(c, 3))]
    && t.eps[Cc(y)].landed == s.eps[Cc(y)].landed && t.ports[y].buff == Cmd(CmdOf(c, 3))
  }

  lemma BothUnread(c: Config, s: State, r: State, t: State, y: nat)
    requires y < c.n && s.ctl == Round(2, Sending, 0) && r.ctl == Round(3, Posting, 0) && |r.ports| == c.n
    requires Undelivered(c, s, r, 2) && Undelivered(c, r, t, 3) && Overwrites(c, r, t, 3)
    ensures Twice(c, s, t, y)
  {
    assert Target(c, y) == Cc(y);
    assert Held(c, r, y, 3);
  }
}
