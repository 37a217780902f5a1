/** A server between waitAllConn and its end: it waits for STOP and keeps serving connection events. */
module Serving {
  import opened Wire
  import opened Endpoints
  import opened Acceptance

  /** A command as it arrives: the length of the completion and what is in the control buffer. */
  datatype Message = Message(len: nat, content: Payload)

  /** What one turn of the loop finds in the receive queue and in the event queue. */
  datatype Turn = Turn(order: Option<Message>, event: Option<CmEvent>)

  predicate IsStop(t: Turn) { t.order.Some? && t.order.value.len == INT_SIZE && t.order.value.content == Cmd(Stop) }
  predicate IsBad(t: Turn) { t.order.Some? && t.order.value.len != INT_SIZE }

  /** The events of these turns. */
  function Seen(turns: seq<Turn>): seq<CmEvent> {
    if turns == [] then [] else
    var before, last := Seen(turns[..|turns| - 1]), turns[|turns| - 1];
    if last.event.Some? then before + [last.event.value] else before
  }

  /** Answering the event of the next turn fails. Unlike waitAllConn the loop looks for negative results. */
  predicate Falters(d: Desk, before: seq<Turn>, t: Turn) {
    t.event.Some? && Reply(After(d, Seen(before)), t.event.value) < 0
  }

  /** Turns that neither stop nor fail. */
  predicate Quiet(d: Desk, turns: seq<Turn>) {
    forall t | 0 <= t < |turns| :: !IsStop(turns[t]) && !IsBad(turns[t]) && !Falters(d, turns[..t], turns[t])
  }

  /** The loop has made that many turns and goes on, or has just read STOP. */
  predicate Going(d: Desk, turns: seq<Turn>, used: nat, run: bool)
    requires used <= |turns|
  {
    if run then Quiet(d, turns[..used])
    else
      && used > 0 && Quiet(d, turns[..used - 1]) && IsStop(turns[used - 1])
      && !Falters(d, turns[..used - 1], turns[used - 1])
  }

  /** The loop has made that many turns: it has left with 0 after the turn of the first STOP, with -1
      before serving the event of a turn with a message of the wrong length, with the error of an
      answer that failed, or is still waiting. */
  predicate Leaves(d: Desk, turns: seq<Turn>, ret: int, used: nat, done: bool) {
    && used <= |turns|
    && if done then ret == 0 && Going(d, turns, used, false)
       else if ret == 0 then used == |turns| && Going(d, turns, used, true)
       else if used < |turns| && Quiet(d, turns[..used]) then ret == -1 && IsBad(turns[used])
       else
         && used > 0 && Quiet(d, turns[..used - 1]) && !IsBad(turns[used - 1])
         && Falters(d, turns[..used - 1], turns[used - 1])
         && ret == Reply(After(d, Seen(turns[..used - 1])), turns[used - 1].event.value)
  }

  class Server {
    const cep: Endpoint
    const node: Node

    ghost predicate Valid()
      reads node
    {
      node.Valid() && cep !in node.eps
    }

    constructor (cep: Endpoint, node: Node)
      requires node.Valid() && cep !in node.eps
      ensures Valid() && this.cep == cep && this.node == node
    {
      this.cep, this.node := cep, node;
    }

    /** A command read from the control buffer; unrecognized ones pass. */
    method Read(t: Turn) returns (stop: bool, bad: bool)
      requires Valid()
      modifies cep`ctrlBuff
      ensures Valid() && node.Slots() == old(node.Slots()) && stop == IsStop(t) && bad == IsBad(t)
      ensures t.order.Some? ==> cep.ctrlBuff == t.order.value.content
    {
      stop, bad := false, false;
      if t.order.Some? {
        cep.ctrlBuff := t.order.value.content;
        bad := t.order.value.len != INT_SIZE;
        stop := !bad && cep.ctrlBuff == Cmd(Stop);
      }
      assert forall x | 0 <= x < |node.eps| :: SlotOf(node.eps[x]) == old(SlotOf(node.eps[x]));
    }

    /** One turn: the command, then the event unless the command is malformed. */
    method Make(t: Turn, before: int) returns (counter: int, stop: bool, bad: bool, answer: int)
      requires Valid()
      modifies cep`ctrlBuff, node`nextFid, node.eps
      ensures Valid() && node.eps == old(node.eps) && stop == IsStop(t) && bad == IsBad(t)
      ensures var d := Desk(old(node.Slots()), old(node.nextFid), before);
        && answer == (if !bad && t.event.Some? then Reply(d, t.event.value) else 0)
        && Desk(node.Slots(), node.nextFid, counter) == if !bad && t.event.Some? then On(d, t.event.value) else d
    {
      counter, answer := before, 0;
      stop, bad := Read(t);
      if !bad && t.event.Some? {
        counter, answer := node.OnEvent(t.event.value, before);
      }
    }

    /** The receive for STOP. */
    method AwaitStop() returns (ret: int)
      requires Valid()
      modifies cep`rxCtx, cep`receives
      ensures Valid() && node.Slots() == old(node.Slots()) && ret == 0
      ensures cep.receives == old(cep.receives) + [Ctx(cep.id, INT_SIZE)]
    {
      ret := cep.CtrlRecv(INT_SIZE);
      assert forall x | 0 <= x < |node.eps| :: SlotOf(node.eps[x]) == old(SlotOf(node.eps[x]));
    }

    /** Turn after turn. All events but that of a malformed turn are served. */
    method Turns(turns: seq<Turn>) returns (ret: int, used: nat, done: bool, ghost counter: int)
      requires Valid()
      modifies cep`ctrlBuff, node`nextFid, node.eps
      ensures Valid() && Leaves(Desk(old(node.Slots()), old(node.nextFid), 0), turns, ret, used, done)
      ensures Desk(node.Slots(), node.nextFid, counter)
                == After(Desk(old(node.Slots()), old(node.nextFid), 0), Seen(turns[..used]))
    {
      ghost var d := Desk(node.Slots(), node.nextFid, 0);
      var run := true;
      var count := 0;
      used := 0;
      while run && used < |turns|
        invariant Valid() && node.eps == old(node.eps) && used <= |turns|
        invariant Desk(node.Slots(), node.nextFid, count) == After(d, Seen(turns[..used]))
        invariant Going(d, turns, used, run)
        decreases |turns| - used
      {
        var stop, bad, answer;
        Turned(d, turns, used);
        count, stop, bad, answer := Make(turns[used], count);
        if bad {
          return -1, used, false, count;
        }
        used := used + 1;
        if answer < 0 {
          return answer, used, false, count;
        }
        run := !stop;
      }
      ret, done, counter := 0, !run, count;
    }

    method StayAlive(turns: seq<Turn>) returns (ret: int, used: nat, done: bool)
      requires Valid()
      modifies cep, node, node.eps
      ensures Valid() && Leaves(Desk(old(node.Slots()), old(node.nextFid), 0), turns, ret, used, done)
      ensures exists counter :: Desk(node.Slots(), node.nextFid, counter)
                == After(Desk(old(node.Slots()), old(node.nextFid), 0), Seen(turns[..used]))
      ensures cep.receives == old(cep.receives) + [Ctx(cep.id, INT_SIZE)]
    {
      ret := AwaitStop();
      ghost var counter;
      ret, used, done, counter := Turns(turns);
    }
  }

  lemma Turned(d: Desk, turns: seq<Turn>, t: nat)
    requires t < |turns|
    ensures After(d, Seen(turns[..t + 1]))
            == if turns[t].event.Some? then On(After(d, Seen(turns[..t])), turns[t].event.value)
                else After(d, Seen(turns[..t]))
    ensures Quiet(d, turns[..t + 1]) <==>
            Quiet(d, turns[..t]) && !IsStop(turns[t]) && !IsBad(turns[t]) && !Falters(d, turns[..t], turns[t])
  {
    var longer := turns[..t + 1];
    assert longer[..t] == turns[..t];
    if turns[t].event.Some? {
      var seen := Seen(turns[..t]);
      assert (seen + [turns[t].event.value])[..|seen|] == seen;
    }
    QuietOne(d, turns, t);
  }

  lemma QuietOne(d: Desk, turns: seq<Turn>, t: nat)
    requires t < |turns|
    ensures Quiet(d, turns[..t + 1]) <==>
            Quiet(d, turns[..t]) && !IsStop(turns[t]) && !IsBad(turns[t]) && !Falters(d, turns[..t], turns[t])
  {
    var shorter, longer := turns[..t], turns[..t + 1];
    assert forall u | 0 <= u <= t :: longer[..u] == turns[..u];
    assert forall u | 0 <= u < t :: shorter[..u] == turns[..u] && shorter[u] == turns[u] == longer[u];
    assert longer[t] == turns[t];
    if Quiet(d, longer) {
      forall u | 0 <= u < t ensures !IsStop(shorter[u]) && !IsBad(shorter[u]) && !Falters(d, shorter[..u], shorter[u]) {
        assert !IsStop(longer[u]) && !IsBad(longer[u]) && !Falters(d, longer[..u], longer[u]);
      }
    }
  }

  /** How the loop ends, from what it reads: with 0 exactly after the turn of the first STOP, with -1
      before a message of another length, with the negative result of an answer right after it. */
  lemma LeavesExactly(d: Desk, turns: seq<Turn>, ret: int, used: nat, done: bool)
    requires Leaves(d, turns, ret, used, done)
    ensures used <= |turns| && (ret == 0 && !done ==> used == |turns|)
    ensures forall t | 0 <= t < used - 1 && turns[t].order.Some? ::
              turns[t].order.value.len == 4 && turns[t].order.value.content != Cmd(Stop)
    ensures done ==> ret == 0 && used > 0 && turns[used - 1].order == Some(Message(4, Cmd(Stop)))
    ensures !done && ret != 0 ==>
              || (used < |turns| && ret == -1 && turns[used].order.Some? && turns[used].order.value.len != 4)
              || (used > 0 && ret < 0 && turns[used - 1].event.Some?
                  && ret == Reply(After(d, Seen(turns[..used - 1])), turns[used - 1].event.value))
  {
    if used > 0 { QuietOne(d, turns, used - 1); }
    forall t | 0 <= t < used - 1 && turns[t].order.Some?
      ensures turns[t].order.value.len == 4 && turns[t].order.value.content != Cmd(Stop)
    {
      assert turns[..used - 1][t] == turns[t];
    }
  }

  /** The loop goes on through every turn without a message or with another command, if no answer fails. */
  lemma GoesOn(d: Desk, turns: seq<Turn>, t: nat)
    requires t < |turns| && Quiet(d, turns[..t])
    requires turns[t].order.Some? ==> turns[t].order.value.len == 4 && turns[t].order.value.content != Cmd(Stop)
    requires turns[t].event.Some? ==> Reply(After(d, Seen(turns[..t])), turns[t].event.value) >= 0
    ensures Quiet(d, turns[..t + 1])
  {
    QuietOne(d, turns, t);
  }
}
