/** waitAllConn: connection events counted while requests are accepted and keys are sent. */
module Acceptance {
  import opened Wire
  import opened Endpoints

  /** An event with the fid it concerns: a passive endpoint's for a request, an active one's
      otherwise; and how the fabric takes the answer to it: the accept, the posting of the keys.
      Invalid stands for any error while waiting. */
  datatype CmEvent = ConnReq(fid: nat, grant: Grant) | Connected(fid: nat, posted: int) | Shutdown(fid: nat) | Invalid

  /** What the loop reads and writes of one endpoint; keys counts the keys it sent. */
  datatype Slot = Slot(pep: nat, ep: Option<nat>, keys: nat)
  /** next is the fid the fabric gives the next active endpoint. */
  datatype Desk = Desk(slots: seq<Slot>, next: nat, counter: int)

  /** The first endpoint the search loops stop at; the number of endpoints if there is none. */
  function FindPep(slots: seq<Slot>, fid: nat): (n: nat)
    ensures n <= |slots| && (n < |slots| ==> slots[n].pep == fid) && forall x | 0 <= x < n :: slots[x].pep != fid
  {
    if slots == [] || slots[0].pep == fid then 0 else 1 + FindPep(slots[1..], fid)
  }

  function FindEp(slots: seq<Slot>, fid: nat): (n: nat)
    ensures n <= |slots| && (n < |slots| ==> slots[n].ep == Some(fid))
        && forall x | 0 <= x < n :: slots[x].ep != Some(fid)
  {
    if slots == [] || slots[0].ep == Some(fid) then 0 else 1 + FindEp(slots[1..], fid)
  }

  lemma {:induction false} StopsPep(slots: seq<Slot>, fid: nat, n: nat)
    requires n <= |slots| && (n < |slots| ==> slots[n].pep == fid) && forall x | 0 <= x < n :: slots[x].pep != fid
    ensures n == FindPep(slots, fid)
  {
    if n > 0 { StopsPep(slots[1..], fid, n - 1); }
  }

  lemma {:induction false} StopsEp(slots: seq<Slot>, fid: nat, n: nat)
    requires n <= |slots| && (n < |slots| ==> slots[n].ep == Some(fid))
        && forall x | 0 <= x < n :: slots[x].ep != Some(fid)
    ensures n == FindEp(slots, fid)
  {
    if n > 0 { StopsEp(slots[1..], fid, n - 1); }
  }

  function On(d: Desk, e: CmEvent): Desk {
    match e
    case ConnReq(fid, grant) =>
      var n := FindPep(d.slots, fid);
      if n < |d.slots| && grant != NoEndpoint then
        Desk(d.slots[n := d.slots[n].(ep := Some(d.next))], d.next + 1, d.counter)
      else d
    case Connected(fid, posted) =>
      var n := FindEp(d.slots, fid);
      Desk(if n < |d.slots| && posted == 0 then d.slots[n := d.slots[n].(keys := d.slots[n].keys + 1)] else d.slots,
           d.next, d.counter + 1)
    case Shutdown(_) => d.(counter := d.counter - 1)
    case Invalid => d
  }

  /** The result of answering the event. One that concerns no endpoint of the node is not answered. */
  function Reply(d: Desk, e: CmEvent): int {
    match e
    case ConnReq(fid, grant) => if grant != Granted && FindPep(d.slots, fid) < |d.slots| then -1 else 0
    case Connected(fid, posted) => if FindEp(d.slots, fid) < |d.slots| then posted else 0
    case _ => 0
  }

  function After(d: Desk, events: seq<CmEvent>): Desk {
    if events == [] then d else On(After(d, events[..|events| - 1]), events[|events| - 1])
  }

  /** None of the events is invalid, none of the answers to them fails. */
  predicate Calm(d: Desk, events: seq<CmEvent>) {
    forall t | 0 <= t < |events| :: events[t] != Invalid && Reply(After(d, events[..t]), events[t]) == 0
  }

  /** The call is still in its loop after these events. */
  predicate Still(d: Desk, goal: int, events: seq<CmEvent>) {
    After(d, events).counter < goal && Calm(d, events)
  }

  predicate ForNow(d: Desk, goal: int, events: seq<CmEvent>, used: nat)
    requires used <= |events|
  {
    forall t | 0 <= t < used :: Still(d, goal, events[..t])
  }

  /** The call has used that many events: it has left with 0 at the goal, with an error at an invalid
      event or one it failed to answer, or is still waiting after all of them. */
  predicate Ends(d: Desk, goal: int, events: seq<CmEvent>, ret: int, used: nat, done: bool) {
    && used <= |events| && ForNow(d, goal, events, used)
    && if done then ret == 0 && After(d, events[..used]).counter >= goal && Calm(d, events[..used])
       else if ret == 0 then used == |events| && Still(d, goal, events)
       else used > 0 && Stumbles(d, events, used - 1) && ret == ErrorOf(After(d, events[..used - 1]), events[used - 1])
  }

  predicate Stumbles(d: Desk, events: seq<CmEvent>, t: nat)
    requires t < |events|
  {
    ErrorOf(After(d, events[..t]), events[t]) != 0
  }

  /** Waiting for an invalid event is itself an error. */
  function ErrorOf(d: Desk, e: CmEvent): int { if e == Invalid then -1 else Reply(d, e) }
  lemma AfterOne(d: Desk, events: seq<CmEvent>, used: nat)
    requires used < |events|
    ensures After(d, events[..used + 1]) == On(After(d, events[..used]), events[used])
  {
    assert events[..used + 1][..used] == events[..used];
  }

  lemma CalmOne(d: Desk, events: seq<CmEvent>, used: nat)
    requires used < |events| && Calm(d, events[..used]) && !Stumbles(d, events, used)
    ensures Calm(d, events[..used + 1])
  {
    var longer := events[..used + 1];
    forall t | 0 <= t < |longer| ensures longer[t] != Invalid && Reply(After(d, longer[..t]), longer[t]) == 0 {
      assert longer[..t] == events[..t];
      if t < used { assert events[..used][..t] == events[..t]; }
    }
  }

  /** What one more event makes of the state and of what the loop knows. */
  lemma NextTurn(d: Desk, goal: int, events: seq<CmEvent>, used: nat)
    requires used < |events| && ForNow(d, goal, events, used) && Still(d, goal, events[..used])
    ensures After(d, events[..used + 1]) == On(After(d, events[..used]), events[used])
        && ForNow(d, goal, events, used + 1)
    ensures !Stumbles(d, events, used) ==> Calm(d, events[..used + 1])
  {
    AfterOne(d, events, used);
    if !Stumbles(d, events, used) { CalmOne(d, events, used); }
  }

  /** How many of the messages an endpoint sent are keys. */
  function KeySends(sends: seq<Sent>): nat {
    if sends == [] then 0 else KeySends(sends[..|sends| - 1]) + if sends[|sends| - 1].content.Keys? then 1 else 0
  }

  function KeysAmong(sends: seq<Sent>): set<nat> { set q | 0 <= q < |sends| && sends[q].content.Keys? }

  lemma {:induction false} KeySendsAre(sends: seq<Sent>)
    ensures KeySends(sends) == |KeysAmong(sends)|
  {
    if sends != [] {
      var n := |sends| - 1;
      KeySendsAre(sends[..n]);
      assert KeysAmong(sends) == KeysAmong(sends[..n]) + if sends[n].content.Keys? then {n} else {};
    }
  }

  ghost function SlotOf(e: Endpoint): Slot
    reads e
  {
    Slot(e.pep, e.ep, KeySends(e.sends))
  }

  /** What a CONNECTED changes, by the endpoint it is found to belong to. */
  lemma GreetedAs(d: Desk, fid: nat, posted: int, n: nat)
    requires n == FindEp(d.slots, fid)
    ensures On(d, CmEvent.Connected(fid, posted)) ==
            Desk(if n < |d.slots| && posted == 0 then d.slots[n := d.slots[n].(keys := d.slots[n].keys + 1)]
                else d.slots,
                 d.next, d.counter + 1)
    ensures Reply(d, CmEvent.Connected(fid, posted)) == if n < |d.slots| then posted else 0
  {
  }

  class Node {
    var eps: seq<Endpoint>
    var nextFid: nat

    ghost predicate Valid()
      reads this
    {
      forall x, y | 0 <= x < y < |eps| :: eps[x] != eps[y]
    }

    ghost function Slots(): seq<Slot>
      reads this, eps
      requires Valid()
    {
      seq(|eps|, x requires 0 <= x < |eps| reads this, eps => SlotOf(eps[x]))
    }

    constructor (eps: seq<Endpoint>, nextFid: nat)
      requires forall x, y | 0 <= x < y < |eps| :: eps[x] != eps[y]
      ensures Valid() && this.eps == eps && this.nextFid == nextFid
    {
      this.eps, this.nextFid := eps, nextFid;
    }

    method SearchPep(fid: nat) returns (n: nat)
      requires Valid()
      ensures n == FindPep(Slots(), fid)
    {
      n := 0;
      while n < |eps|
        invariant n <= |eps| && forall x | 0 <= x < n :: Slots()[x].pep != fid
      {
        if eps[n].pep == fid { break; }
        n := n + 1;
      }
      StopsPep(Slots(), fid, n);
    }

    method SearchEp(fid: nat) returns (n: nat)
      requires Valid()
      ensures n == FindEp(Slots(), fid)
    {
      n := 0;
      while n < |eps|
        invariant n <= |eps| && forall x | 0 <= x < n :: Slots()[x].ep != Some(fid)
      {
        if eps[n].ep == Some(fid) { break; }
        n := n + 1;
      }
      StopsEp(Slots(), fid, n);
    }

    /** A request is accepted at the endpoint it was addressed to. */
    method OnRequest(fid: nat, grant: Grant, ghost counter: int) returns (ret: int)
      requires Valid()
      modifies this`nextFid, eps
      ensures Valid() && ret == Reply(Desk(old(Slots()), old(nextFid), counter), ConnReq(fid, grant))
      ensures Desk(Slots(), nextFid, counter) == On(Desk(old(Slots()), old(nextFid), counter), ConnReq(fid, grant))
    {
      ret := 0;
      var n := SearchPep(fid);
      if n < |eps| {
        ret := eps[n].Accept(nextFid, grant);
        if grant != NoEndpoint { nextFid := nextFid + 1; }
        if grant == NoEndpoint {
          assert Slots() == old(Slots());
        } else {
          assert Slots() == old(Slots())[n := old(Slots())[n].(ep := Some(old(nextFid)))];
        }
      } else {
        assert Slots() == old(Slots());
      }
    }

    /** Endpoint n sends its keys. */
    method Greet(n: nat, posted: int) returns (ret: int)
      requires Valid() && n < |eps|
      modifies eps[n]
      ensures Valid() && ret == posted
      ensures Slots() == if posted == 0 then old(Slots())[n := old(Slots())[n].(keys := old(Slots())[n].keys + 1)]
          else old(Slots())
      ensures posted == 0 ==> Greeted(eps[n], old(eps[n].sends))
    {
      ret := eps[n].SendKeys(posted);
      if posted == 0 {
        MoreKeys(eps[n], old(eps[n].sends));
        assert Slots() == old(Slots())[n := old(Slots())[n].(keys := old(Slots())[n].keys + 1)];
      } else {
        assert Slots() == old(Slots());
      }
    }

    /** A new connection is greeted with the keys of its endpoint. */
    method OnConnected(fid: nat, posted: int, ghost counter: int) returns (ret: int, n: nat)
      requires Valid()
      modifies eps
      ensures Valid() && ret == Reply(Desk(old(Slots()), nextFid, counter), CmEvent.Connected(fid, posted))
      ensures Desk(Slots(), nextFid, counter + 1)
          == On(Desk(old(Slots()), nextFid, counter), CmEvent.Connected(fid, posted))
      ensures n == FindEp(old(Slots()), fid) && (n < |eps| && posted == 0 ==> Greeted(eps[n], old(eps[n].sends)))
    {
      ret := 0;
      n := SearchEp(fid);
      GreetedAs(Desk(Slots(), nextFid, counter), fid, posted, n);
      if n < |eps| { ret := Greet(n, posted); }
    }

    /** One turn of the loop: the counter before and after it, and the result of the answer. */
    method OnEvent(e: CmEvent, before: int) returns (counter: int, ret: int)
      requires Valid()
      modifies this`nextFid, eps
      ensures Valid() && Desk(Slots(), nextFid, counter) == On(Desk(old(Slots()), old(nextFid), before), e)
      ensures ret == Reply(Desk(old(Slots()), old(nextFid), before), e)
    {
      ret := 0;
      counter := before;
      match e {
        case ConnReq(fid, grant) =>
          ret := OnRequest(fid, grant, counter);
        case Connected(fid, posted) =>
          var found;
          ret, found := OnConnected(fid, posted, counter);
          counter := counter + 1;
        case Shutdown(fid) =>
          var n := SearchEp(fid);
          counter := counter - 1;
        case Invalid =>
      }
    }

    /** Returns once the counter has reached the goal, or with an error; `done` is false while the
        call is still waiting after the last event given. */
    method WaitAllConn(goal: int, events: seq<CmEvent>) returns (ret: int, used: nat, done: bool)
      requires Valid()
      modifies this`nextFid, eps
      ensures Valid() && used <= |events|
      ensures exists counter ::
                Desk(Slots(), nextFid, counter) == After(Desk(old(Slots()), old(nextFid), 0), events[..used])
      ensures Ends(Desk(old(Slots()), old(nextFid), 0), goal, events, ret, used, done)
    {
      ghost var d := Desk(Slots(), nextFid, 0);
      var counter := 0;
      used := 0;
      while counter < goal && used < |events|
        invariant Valid() && used <= |events|
        invariant Desk(Slots(), nextFid, counter) == After(d, events[..used])
        invariant Calm(d, events[..used]) && ForNow(d, goal, events, used)
        decreases |events| - used
      {
        NextTurn(d, goal, events, used);
        counter, ret := OnEvent(events[used], counter);
        used := used + 1;
        if events[used - 1] == Invalid {
          return -1, used, false;
        }
        if ret != 0 {
          return ret, used, false;
        }
      }
      assert events[..|events|] == events;
      ret, done := 0, counter >= goal;
    }
  }

  /** The endpoint has sent one more message, its own keys. */
  ghost predicate Greeted(e: Endpoint, before: seq<Sent>)
    reads e
  {
    |e.sends| == |before| + 1 && e.sends[..|before|] == before && e.sends[|before|].content == Keys(e.owner)
  }

  lemma MoreKeys(e: Endpoint, before: seq<Sent>)
    requires Greeted(e, before)
    ensures KeySends(e.sends) == KeySends(before) + 1
  {
  }

  // ---------- one event

  /** What a request does at the first endpoint it is addressed to, by how accepting it goes. */
  lemma RequestIs(d: Desk, fid: nat, grant: Grant, n: nat)
    requires n < |d.slots| && d.slots[n].pep == fid && forall x | 0 <= x < n :: d.slots[x].pep != fid
    ensures var r := On(d, ConnReq(fid, grant));
      && |r.slots| == |d.slots| && (forall x | 0 <= x < |d.slots| && x != n :: r.slots[x] == d.slots[x])
      && r.slots[n].pep == d.slots[n].pep && r.slots[n].keys == d.slots[n].keys && r.counter == d.counter
      && (grant == NoEndpoint ==> r == d)
      && (grant != NoEndpoint ==> r.slots[n].ep == Some(d.next) && r.next == d.next + 1)
    ensures Reply(d, ConnReq(fid, grant)) == if grant == Granted then 0 else -1
  {
    StopsPep(d.slots, fid, n);
  }

  /** What a CONNECTED does at the first endpoint it belongs to, by how sending the keys goes. */
  lemma ConnectedIs(d: Desk, fid: nat, posted: int, n: nat)
    requires n < |d.slots| && d.slots[n].ep == Some(fid) && forall x | 0 <= x < n :: d.slots[x].ep != Some(fid)
    ensures var r := On(d, CmEvent.Connected(fid, posted));
      && |r.slots| == |d.slots| && (forall x | 0 <= x < |d.slots| && x != n :: r.slots[x] == d.slots[x])
      && r.slots[n].pep == d.slots[n].pep && r.slots[n].ep == d.slots[n].ep
      && r.slots[n].keys == d.slots[n].keys + (if posted == 0 then 1 else 0)
      && r.counter == d.counter + 1 && r.next == d.next
    ensures Reply(d, CmEvent.Connected(fid, posted)) == posted
  {
    StopsEp(d.slots, fid, n);
  }

  /** What the other events do: one that concerns no endpoint of the node is not answered, but a
      CONNECTED is counted; a SHUTDOWN is counted down, whomever it concerns. */
  lemma OthersAre(d: Desk, fid: nat, grant: Grant, posted: int)
    ensures (forall x | 0 <= x < |d.slots| :: d.slots[x].pep != fid) ==>
              On(d, ConnReq(fid, grant)) == d && Reply(d, ConnReq(fid, grant)) == 0
    ensures (forall x | 0 <= x < |d.slots| :: d.slots[x].ep != Some(fid)) ==>
              && On(d, CmEvent.Connected(fid, posted)) == d.(counter := d.counter + 1)
              && Reply(d, CmEvent.Connected(fid, posted)) == 0
    ensures On(d, Shutdown(fid)) == d.(counter := d.counter - 1) && Reply(d, Shutdown(fid)) == 0
    ensures On(d, Invalid) == d && Reply(d, Invalid) == 0
  {
  }

  // ---------- legal streams of events

  /** What happens on endpoint n of the node: a request, its connection, its end, in this order and
      possibly again. Dialled is the CONNECTED of a connection the node itself asked for. */
  datatype Kind = Ask | Join | Part | Dialled
  datatype Item = Item(n: nat, kind: Kind)
  datatype Phase = Off | Asked | Live

  function NextPhase(kind: Kind): Phase {
    match kind case Ask => Asked case Join => Live case _ => Off
  }

  function PhaseOf(script: seq<Item>, n: nat): Phase {
    if script == [] then Off else
    var last := script[|script| - 1];
    if last.n == n && last.kind != Dialled then NextPhase(last.kind) else PhaseOf(script[..|script| - 1], n)
  }

  /** The phase in which an item may come. */
  function Expects(kind: Kind): Phase {
    match kind case Ask => Off case Join => Asked case _ => Live
  }

  predicate LegalNext(n: nat, before: seq<Item>, item: Item) {
    item.kind == Dialled || (item.n < n && PhaseOf(before, item.n) == Expects(item.kind))
  }

  predicate Legal(n: nat, script: seq<Item>) {
    forall t | 0 <= t < |script| :: LegalNext(n, script[..t], script[t])
  }

  function Lives(n: nat, script: seq<Item>): set<nat> { set x | 0 <= x < n && PhaseOf(script, x) == Live }

  function Tally(script: seq<Item>, kind: Kind): nat {
    if script == [] then 0 else
    Tally(script[..|script| - 1], kind) + if script[|script| - 1].kind == kind then 1 else 0
  }

  function Joins(script: seq<Item>, n: nat): nat {
    if script == [] then 0 else
    Joins(script[..|script| - 1], n) + if script[|script| - 1] == Item(n, Join) then 1 else 0
  }

  /** The fid of the active endpoint that answered the last request to n. */
  function FidOf(script: seq<Item>, n: nat, base: nat): Option<nat> {
    if script == [] then None else
    var before := script[..|script| - 1];
    if script[|script| - 1] == Item(n, Ask) then Some(base + Tally(before, Ask)) else FidOf(before, n, base)
  }

  /** The events as the fabric reports them: requests by passive endpoint, the rest by active one. */
  function Raw(d: Desk, own: nat, script: seq<Item>): (events: seq<CmEvent>)
    ensures |events| == |script| && forall t | 0 <= t < |events| :: Answerable(events[t])
  {
    if script == [] then [] else
    var before := script[..|script| - 1];
    Raw(d, own, before) + [RawOf(d, own, before, script[|script| - 1])]
  }

  /** The fabric takes the answer. */
  predicate Answerable(e: CmEvent) { (e.ConnReq? ==> e.grant == Granted) && (e.Connected? ==> e.posted == 0) }

  function RawOf(d: Desk, own: nat, before: seq<Item>, item: Item): CmEvent {
    var fid := FidOf(before, item.n, d.next);
    match item.kind
    case Ask => if item.n < |d.slots| then ConnReq(d.slots[item.n].pep, Granted) else Invalid
    case Join => if fid.Some? then CmEvent.Connected(fid.value, 0) else Invalid
    case Part => if fid.Some? then Shutdown(fid.value) else Invalid
    case Dialled => CmEvent.Connected(own, 0)
  }

  /** Before the call: passive endpoints are told apart, none was accepted, own is another fid. */
  predicate Ready(d: Desk, own: nat) {
    && own < d.next && d.counter == 0
    && (forall x | 0 <= x < |d.slots| :: d.slots[x].ep == None && d.slots[x].keys == 0)
    && (forall x, y | 0 <= x < y < |d.slots| :: d.slots[x].pep != d.slots[y].pep)
  }

  lemma {:induction false} FidsApart(script: seq<Item>, base: nat, x: nat, y: nat)
    ensures FidOf(script, x, base).Some? ==> base <= FidOf(script, x, base).value < base + Tally(script, Ask)
    ensures FidOf(script, y, base).Some? ==> base <= FidOf(script, y, base).value < base + Tally(script, Ask)
    ensures x != y && FidOf(script, x, base).Some? ==> FidOf(script, x, base) != FidOf(script, y, base)
  {
    if script != [] { FidsApart(script[..|script| - 1], base, x, y); }
  }

  lemma {:induction false} AskedFid(script: seq<Item>, n: nat, k: nat, base: nat)
    requires Legal(k, script) && PhaseOf(script, n) != Off
    ensures FidOf(script, n, base).Some?
  {
    var before := script[..|script| - 1];
    assert forall t | 0 <= t < |before| :: before[..t] == script[..t];
    if PhaseOf(before, n) != Off { AskedFid(before, n, k, base); }
  }

  lemma LivesNext(n: nat, script: seq<Item>)
    requires script != [] && LegalNext(n, script[..|script| - 1], script[|script| - 1])
    ensures |Lives(n, script)| == |Lives(n, script[..|script| - 1])|
              + (match script[|script| - 1].kind case Join => 1 case Part => -1 case _ => 0)
  {
    var before, last := script[..|script| - 1], script[|script| - 1];
    match last.kind
    case Join => assert Lives(n, script) == Lives(n, before) + {last.n};
    case Part => assert Lives(n, script) == Lives(n, before) - {last.n};
    case _ => assert Lives(n, script) == Lives(n, before);
  }

  /** What the desk is after a legal stream, told from the stream alone. */
  predicate Told(d: Desk, a: Desk, script: seq<Item>) {
    && |a.slots| == |d.slots| && a.next == d.next + Tally(script, Ask)
    && a.counter == |Lives(|d.slots|, script)| + Tally(script, Dialled)
    && forall x | 0 <= x < |d.slots| :: a.slots[x] == Slot(d.slots[x].pep, FidOf(script, x, d.next), Joins(script, x))
  }

  /** Every event reaches its own endpoint. */
  lemma Reaches(d: Desk, a: Desk, own: nat, before: seq<Item>, item: Item)
    requires Ready(d, own) && Told(d, a, before) && Legal(|d.slots|, before) && LegalNext(|d.slots|, before, item)
    ensures item.kind == Ask ==> FindPep(a.slots, d.slots[item.n].pep) == item.n
    ensures item.kind == Join || item.kind == Part ==>
              FidOf(before, item.n, d.next).Some? && FindEp(a.slots, FidOf(before, item.n, d.next).value) == item.n
    ensures item.kind == Dialled ==> FindEp(a.slots, own) == |a.slots|
  {
    match item.kind
    case Ask =>
      StopsPep(a.slots, d.slots[item.n].pep, item.n);
    case Dialled =>
      forall x | 0 <= x < |a.slots| ensures a.slots[x].ep != Some(own) { FidsApart(before, d.next, x, x); }
    case _ =>
      AskedFid(before, item.n, |d.slots|, d.next);
      forall x | 0 <= x < |a.slots| && x != item.n ensures a.slots[x].ep != FidOf(before, item.n, d.next) {
        FidsApart(before, d.next, item.n, x);
      }
      StopsEp(a.slots, FidOf(before, item.n, d.next).value, item.n);
  }

  lemma ToldNext(d: Desk, a: Desk, own: nat, script: seq<Item>)
    requires Ready(d, own) && script != [] && Told(d, a, script[..|script| - 1])
        && Legal(|d.slots|, script[..|script| - 1])
    requires LegalNext(|d.slots|, script[..|script| - 1], script[|script| - 1])
    ensures Told(d, On(a, RawOf(d, own, script[..|script| - 1], script[|script| - 1])), script)
  {
    Reaches(d, a, own, script[..|script| - 1], script[|script| - 1]);
    LivesNext(|d.slots|, script);
  }

  /** For every legal stream: the counter is the number of live connections (plus one for every
      connection the node dialled itself), every endpoint holds the active endpoint of its last
      request and has sent its keys once per CONNECTED. */
  lemma {:induction false} Counts(d: Desk, own: nat, script: seq<Item>)
    requires Ready(d, own) && Legal(|d.slots|, script)
    ensures Told(d, After(d, Raw(d, own, script)), script)
    ensures Invalid !in Raw(d, own, script)
  {
    if script == [] {
      assert Lives(|d.slots|, script) == {};
    } else {
      var n := |script| - 1;
      var before := script[..n];
      assert forall t | 0 <= t < n :: before[..t] == script[..t];
      Counts(d, own, before);
      var a := After(d, Raw(d, own, before));
      Reaches(d, a, own, before, script[n]);
      ToldNext(d, a, own, script);
      var raw := Raw(d, own, script);
      assert raw[..n] == Raw(d, own, before) && raw[n] == RawOf(d, own, before, script[n]);
    }
  }

  lemma {:induction false} RawPrefix(d: Desk, own: nat, script: seq<Item>, t: nat)
    requires t <= |script|
    ensures Raw(d, own, script)[..t] == Raw(d, own, script[..t])
  {
    var n := |script| - 1;
    if t <= n {
      assert script[..n][..t] == script[..t];
      RawPrefix(d, own, script[..n], t);
      assert Raw(d, own, script)[..t] == Raw(d, own, script[..n])[..t];
    } else {
      assert script[..t] == script;
    }
  }

  /** On a legal stream that the fabric lets the node answer a call never fails,
      and it returns with exactly `goal` connections alive,
      one fewer for every connection the node dialled itself meanwhile. */
  lemma ReturnsAtGoal(d: Desk, own: nat, script: seq<Item>, goal: nat, ret: int, used: nat, done: bool)
    requires Ready(d, own) && Legal(|d.slots|, script) && Ends(d, goal, Raw(d, own, script), ret, used, done)
    ensures ret == 0 && used <= |script|
    ensures done ==> |Lives(|d.slots|, script[..used])| + Tally(script[..used], Dialled) == goal
    ensures done ==> (|Lives(|d.slots|, script[..used])| == goal <==> Tally(script[..used], Dialled) == 0)
    ensures !done ==> used == |script| && |Lives(|d.slots|, script)| + Tally(script, Dialled) < goal
  {
    var raw := Raw(d, own, script);
    Counts(d, own, script);
    CountsPrefix(d, own, script, used);
    if done {
      AtGoal(d, goal, raw, used);
    } else {
      assert raw[..used] == raw && script[..used] == script;
    }
  }

  lemma CountsPrefix(d: Desk, own: nat, script: seq<Item>, t: nat)
    requires Ready(d, own) && Legal(|d.slots|, script) && t <= |script|
    ensures After(d, Raw(d, own, script)[..t]).counter == |Lives(|d.slots|, script[..t])| + Tally(script[..t], Dialled)
  {
    RawPrefix(d, own, script, t);
    LegalPrefix(|d.slots|, script, t);
    Counts(d, own, script[..t]);
  }

  /** The counter moves by one, so it leaves the loop at the goal itself. */
  lemma AtGoal(d: Desk, goal: nat, events: seq<CmEvent>, used: nat)
    requires used <= |events| && ForNow(d, goal, events, used) && d.counter == 0
        && After(d, events[..used]).counter >= goal
    ensures After(d, events[..used]).counter == goal
  {
    if used == 0 {
      assert After(d, events[..used]) == d;
    } else {
      assert Still(d, goal, events[..used - 1]);
      AfterOne(d, events, used - 1);
    }
  }

  lemma LegalPrefix(n: nat, script: seq<Item>, t: nat)
    requires Legal(n, script) && t <= |script|
    ensures Legal(n, script[..t])
  {
    forall u | 0 <= u < t ensures script[..t][..u] == script[..u] { }
  }

  // ---------- answers that fail

  /** The event of an item, with the fabric refusing the answer. */
  predicate Refuses(d: Desk, before: seq<Item>, item: Item, e: CmEvent) {
    match item.kind
    case Ask => item.n < |d.slots| && e.ConnReq? && e.fid == d.slots[item.n].pep && e.grant != Granted
    case Join => e.Connected? && FidOf(before, item.n, d.next) == Some(e.fid) && e.posted != 0
    case _ => false
  }

  /** The goal has not been reached anywhere in the stream. */
  predicate Short(n: nat, script: seq<Item>, goal: int) {
    forall t | 0 <= t <= |script| :: |Lives(n, script[..t])| + Tally(script[..t], Dialled) < goal
  }

  /** After a legal stream that did not reach the goal, an answer the fabric refuses ends the call at
      once, with its error. */
  lemma RefusedEnds(d: Desk, own: nat, script: seq<Item>, item: Item, e: CmEvent, rest: seq<CmEvent>, goal: nat,
                    ret: int, used: nat, done: bool)
    requires Ready(d, own) && Legal(|d.slots|, script) && LegalNext(|d.slots|, script, item)
    requires Refuses(d, script, item, e) && Short(|d.slots|, script, goal)
    requires Ends(d, goal, Raw(d, own, script) + [e] + rest, ret, used, done)
    ensures !done && used == |script| + 1 && ret == if item.kind == Ask then -1 else e.posted
  {
    Refused(d, own, script, item, e);
    EndsAfter(d, own, script, e, rest, goal, ret, used, done);
  }

  /** An invalid event ends it at once with -1. */
  lemma InvalidEnds(d: Desk, own: nat, script: seq<Item>, rest: seq<CmEvent>, goal: nat, ret: int, used: nat,
      done: bool)
    requires Ready(d, own) && Legal(|d.slots|, script) && Short(|d.slots|, script, goal)
    requires Ends(d, goal, Raw(d, own, script) + [Invalid] + rest, ret, used, done)
    ensures !done && used == |script| + 1 && ret == -1
  {
    EndsAfter(d, own, script, Invalid, rest, goal, ret, used, done);
  }

  /** In general: at the first event that is an error. */
  lemma EndsAfter(d: Desk, own: nat, script: seq<Item>, e: CmEvent, rest: seq<CmEvent>, goal: nat,
                  ret: int, used: nat, done: bool)
    requires Ready(d, own) && Legal(|d.slots|, script) && Short(|d.slots|, script, goal)
    requires ErrorOf(After(d, Raw(d, own, script)), e) != 0
    requires Ends(d, goal, Raw(d, own, script) + [e] + rest, ret, used, done)
    ensures !done && used == |script| + 1 && ret == ErrorOf(After(d, Raw(d, own, script)), e)
  {
    var raw := Raw(d, own, script);
    Waits(d, own, script, goal);
    InOrder(d, raw, e, rest, goal);
    EndsThere(d, raw + [e] + rest, |raw|, goal, ret, used, done);
  }

  lemma InOrder(d: Desk, raw: seq<CmEvent>, e: CmEvent, rest: seq<CmEvent>, goal: int)
    requires forall t | 0 <= t <= |raw| :: After(d, raw[..t]).counter < goal && (t < |raw| ==> !Stumbles(d, raw, t))
    ensures var events := raw + [e] + rest;
      && events[..|raw|] == raw && events[|raw|] == e
      && (forall t | 0 <= t < |raw| :: !Stumbles(d, events, t))
      && (forall t | 0 <= t <= |raw| :: After(d, events[..t]).counter < goal)
  {
    var events := raw + [e] + rest;
    forall t | 0 <= t <= |raw| ensures events[..t] == raw[..t] && After(d, events[..t]).counter < goal { }
    forall t | 0 <= t < |raw| ensures !Stumbles(d, events, t) {
      assert events[..t] == raw[..t] && events[t] == raw[t] && !Stumbles(d, raw, t);
    }
  }

  /** A call that meets an error before the goal has been reached ends there. */
  lemma EndsThere(d: Desk, events: seq<CmEvent>, n: nat, goal: int, ret: int, used: nat, done: bool)
    requires n < |events| && Stumbles(d, events, n) && Ends(d, goal, events, ret, used, done)
    requires forall t | 0 <= t < n :: !Stumbles(d, events, t)
    requires forall t | 0 <= t <= n :: After(d, events[..t]).counter < goal
    ensures !done && used == n + 1 && ret == ErrorOf(After(d, events[..n]), events[n])
  {
    assert events[..|events|] == events;
    NotCalm(d, events, n);
  }

  lemma NotCalm(d: Desk, events: seq<CmEvent>, n: nat)
    requires n < |events| && Stumbles(d, events, n)
    ensures forall k | n < k <= |events| :: !Calm(d, events[..k])
  {
    forall k | n < k <= |events| ensures !Calm(d, events[..k]) {
      assert events[..k][..n] == events[..n] && events[..k][n] == events[n];
    }
  }

  lemma Refused(d: Desk, own: nat, script: seq<Item>, item: Item, e: CmEvent)
    requires Ready(d, own) && Legal(|d.slots|, script) && LegalNext(|d.slots|, script, item)
        && Refuses(d, script, item, e)
    ensures ErrorOf(After(d, Raw(d, own, script)), e) == if item.kind == Ask then -1 else e.posted
  {
    Counts(d, own, script);
    Reaches(d, After(d, Raw(d, own, script)), own, script, item);
  }

  /** Up to the end of the stream the call goes on. */
  lemma Waits(d: Desk, own: nat, script: seq<Item>, goal: nat)
    requires Ready(d, own) && Legal(|d.slots|, script) && Short(|d.slots|, script, goal)
    ensures var raw := Raw(d, own, script);
      forall t | 0 <= t <= |script| :: After(d, raw[..t]).counter < goal && (t < |script| ==> !Stumbles(d, raw, t))
  {
    var raw := Raw(d, own, script);
    Counts(d, own, script);
    forall t | 0 <= t <= |script|
      ensures After(d, raw[..t]).counter < goal && (t < |script| ==> !Stumbles(d, raw, t))
    {
      CountsPrefix(d, own, script, t);
      if t < |script| { assert raw[t] in raw && Answerable(raw[t]); }
    }
  }
}
