/** A client's way into the benchmark: the controller first, then every server in turn, then the
    confirmation and the wait for START. */
module Dialling {
  import opened Wire
  import opened Endpoints
  import opened Protocol

  /** A command as it arrives: the result of the wait, the length of the completion, and what is in
      the control buffer. The length is arbitrary when the wait has failed. */
  datatype Order = Order(wait: int, len: nat, content: Payload)

  /** What the code makes of it: a message of another length is warned about, and then it is the wait
      that decides. */
  function Verdict(o: Order, expected: Command): int {
    if o.len != INT_SIZE then o.wait else if o.content == Cmd(expected) then 0 else -1
  }

  /** How many calls of connect succeed before the first that does not. */
  function GoodOnes(answers: seq<Answer>): (n: nat)
    ensures n <= |answers| && (forall x | 0 <= x < n :: Good(answers[x])) && (n < |answers| ==> !Good(answers[n]))
  {
    if answers == [] || !Good(answers[0]) then 0 else 1 + GoodOnes(answers[1..])
  }

  class Client {
    const cep: Endpoint
    const eps: seq<Endpoint>
    /** Send completions in the transmit queue, arrived or still to come. */
    ghost var pending: int

    ghost predicate Valid() {
      && (forall x, y | 0 <= x < y < |eps| :: eps[x] != eps[y])
      && (forall x | 0 <= x < |eps| :: eps[x] != cep)
    }

    constructor (cep: Endpoint, eps: seq<Endpoint>)
      requires (forall x, y | 0 <= x < y < |eps| :: eps[x] != eps[y]) && (forall x | 0 <= x < |eps| :: eps[x] != cep)
      ensures Valid() && this.cep == cep && this.eps == eps && pending == 0
    {
      this.cep, this.eps, this.pending := cep, eps, 0;
    }

    /** The next completion of the transmit queue; the result of the wait is ignored. */
    method AwaitSent(wait: int)
      modifies this`pending
      ensures pending == old(pending) - if wait == 0 then 1 else 0
    {
      if wait == 0 { pending := pending - 1; }
    }

    method ConnectToController(answer: Answer, posted: int, order: Order) returns (ret: int)
      requires Valid()
      modifies cep
      ensures ret == 0 <==> Good(answer) && Verdict(order, Connect) == 0
      ensures Good(answer) ==> ret == Verdict(order, Connect)
      ensures Good(answer) ==> ret == if order.len != 4 then order.wait else if order.content == Cmd(Connect) then 0
          else -1
      ensures Good(answer) ==> cep.remoteKeys == KeyIn(answer.receipt.content) && cep.ctrlBuff == order.content
      ensures cep.sends == old(cep.sends)
      ensures Good(answer) && posted == 0
          ==> cep.receives == old(cep.receives) + [Ctx(cep.id, KEYS_SIZE), Ctx(cep.id, INT_SIZE)]
    {
      ret := cep.Connect(answer);
      if ret != 0 {
        return ret;
      }
      ret := cep.CtrlRecv(INT_SIZE, posted);
      ret := order.wait;
      cep.ctrlBuff := order.content;
      if order.len == INT_SIZE {
        if cep.ctrlBuff == Cmd(Connect) { return 0; } else { return -1; }
      }
    }

    /** Endpoint by endpoint; the first that fails ends it. */
    method DialServers(answers: seq<Answer>) returns (ret: int)
      requires Valid() && |answers| == |eps|
      modifies eps
      ensures ret == 0 <==> GoodOnes(answers) == |eps|
      ensures forall x | 0 <= x < |eps| ::
                eps[x].remoteKeys == if x < GoodOnes(answers) then KeyIn(answers[x].receipt.content)
                    else old(eps[x].remoteKeys)
      ensures forall x | GoodOnes(answers) < x < |eps| :: eps[x].receives == old(eps[x].receives)
    {
      for n := 0 to |eps|
        invariant n <= GoodOnes(answers)
        invariant forall x | 0 <= x < n :: eps[x].remoteKeys == KeyIn(answers[x].receipt.content)
        invariant forall x | n <= x < |eps| ::
                    eps[x].remoteKeys == old(eps[x].remoteKeys) && eps[x].receives == old(eps[x].receives)
      {
        ret := eps[n].Connect(answers[n]);
        if ret != 0 {
          return ret;
        }
      }
      ret := 0;
    }

    /** The confirmation is sent only after every server has been connected and a receive posted for
        what follows; its send completion is taken before START is waited for. */
    method ConnectToServers(answers: seq<Answer>, posted: int, sent: int, wait: int, order: Order) returns (ret: int)
      requires Valid() && |answers| == |eps|
      modifies cep, eps, this`pending
      ensures ret == 0 <==> GoodOnes(answers) == |eps| && posted == 0 && sent == 0 && Verdict(order, Start) == 0
      ensures GoodOnes(answers) == |eps| && posted == 0 && sent == 0 ==>
                && Confirmed(cep, old(cep.sends)) && cep.receives == old(cep.receives) + [Ctx(cep.id, INT_SIZE)]
                && cep.ctrlBuff == order.content && ret == Verdict(order, Start)
                && pending == old(pending) + 1 - (if wait == 0 then 1 else 0)
                && forall x | 0 <= x < |eps| :: eps[x].remoteKeys == KeyIn(answers[x].receipt.content)
      ensures GoodOnes(answers) == |eps| && posted == 0 && sent == 0 ==>
                ret == if order.len != 4 then order.wait else if order.content == Cmd(Start) then 0 else -1
      ensures GoodOnes(answers) < |eps| || posted != 0 || sent != 0 ==>
                cep.sends == old(cep.sends) && pending == old(pending)
    {
      ret := DialServers(answers);
      if ret != 0 {
        return ret;
      }
      ret := cep.CtrlRecv(INT_SIZE, posted);
      if ret != 0 {
        return ret;
      }
      ret := cep.SendCommand(Connected, sent);
      if ret != 0 {
        return ret;
      }
      pending := pending + 1;
      AwaitSent(wait);
      ret := order.wait;
      cep.ctrlBuff := order.content;
      if order.len == INT_SIZE {
        if cep.ctrlBuff == Cmd(Start) { return 0; } else { return -1; }
      }
    }
  }

  /** CONNECTED is the one message sent since. */
  ghost predicate Confirmed(cep: Endpoint, before: seq<Sent>)
    reads cep
  {
    |cep.sends| == |before| + 1 && cep.sends[..|before|] == before && cep.sends[|before|].content == Cmd(Connected)
  }

  // ---------- the calls and the protocol's steps

  /** What `connect` finds when client i polls a completion of its endpoint u while dialling: the size
      its context asks for, its length, and the content of the buffer of the endpoint that dials. */
  function Found(s: State, i: nat, u: Link): Answer
    requires CanKeys(s, i, u)
  {
    var t := s.clients[i].pc.t;
    Answer(0, 0, Established, 0,
           Receipt(Ctx(if u.Cs? then u.j else i, AskedSize(t, u)), Len(s.eps[u].buff), s.eps[LinkTo(i, t)].buff))
  }

  function Ordered(s: State, i: nat, u: Link): Order
    requires CanObey(s, i, u)
  {
    Order(0, Len(s.eps[u].buff), s.eps[Cc(i)].buff)
  }

  /** The protocol's step on a keys message fails exactly where connect does, whichever endpoint the
      completion came from, and otherwise leaves the same keys. */
  lemma TakesLike(c: Config, s: State, i: nat, u: Link)
    requires CanKeys(s, i, u)
    ensures var r, a, l := TakeKeys(c, s, i, u), Found(s, i, u), LinkTo(i, s.clients[i].pc.t);
      && l in r.eps && (r.clients[i].pc == CliFailed <==> !Good(a))
      && (Good(a) ==> r.eps[l].key == KeyIn(a.receipt.content))
  {
  }

  /** The same for a command. */
  lemma ObeysLike(s: State, i: nat, u: Link)
    requires CanObey(s, i, u)
    ensures Obey(s, i, u).clients[i].pc == CliFailed
            <==> Verdict(Ordered(s, i, u), if s.clients[i].pc == AwaitConnect then Connect else Start) != 0
  {
  }
}
