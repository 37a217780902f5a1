/** The controller's commands: receives posted per client, the command sent to every target, the
    send completions awaited, the replies gathered and the ends of the connections counted. */
module Commanding {
  import opened Wire
  import opened Endpoints
  import opened Protocol
  import Acceptance
  import Gathering
  import Invariant
  import Ledger

  /** What an endpoint of the controller has sent, and the sizes of the receives it has posted. */
  datatype Traffic = Traffic(said: seq<Payload>, asked: seq<nat>)

  function Contents(sends: seq<Sent>): seq<Payload> {
    seq(|sends|, q requires 0 <= q < |sends| => sends[q].content)
  }

  function Sizes(receives: seq<Ctx>): seq<nat> {
    seq(|receives|, q requires 0 <= q < |receives| => receives[q].size)
  }

  ghost function TrafficOf(e: Endpoint): Traffic
    reads e
  {
    Traffic(Contents(e.sends), Sizes(e.receives))
  }

  function Say(t: Traffic, x: nat, command: Command, k: nat): Traffic {
    if x < k then t.(said := t.said + [Cmd(command)]) else t
  }

  function Ask(t: Traffic, x: nat, size: nat, k: nat): Traffic {
    if x < k then t.(asked := t.asked + [size]) else t
  }

  /** What the fabric answers to the posts, the sends and the waits of one command, in order. */
  datatype Calls = Calls(posts: seq<int>, sends: seq<int>, waits: seq<int>)

  predicate Fits(calls: Calls, posts: nat, sends: nat) {
    |calls.posts| == posts && |calls.sends| == |calls.waits| == sends
  }

  /** The first error, if any. */
  function Error(calls: Calls): int {
    if FirstError(calls.posts) != 0 then FirstError(calls.posts)
    else if FirstError(calls.sends) != 0 then FirstError(calls.sends)
    else FirstError(calls.waits)
  }

  /** What a command adds to endpoint x: posts and sends up to the first that fails. */
  function Issued(t: Traffic, x: nat, size: nat, command: Command, calls: Calls): Traffic {
    var asked := Ask(t, x, size, Successes(calls.posts));
    if FirstError(calls.posts) != 0 then asked else Say(asked, x, command, Successes(calls.sends))
  }

  /** Everything a run meets: what the fabric answers, and what arrives. */
  datatype Plan = Plan(connect: Calls, confirmations: seq<Gathering.Arrival>, start: Calls,
                       checkpoints: seq<Calls>, reports: seq<seq<Gathering.Arrival>>,
                       stop: Calls, totals: seq<Gathering.Arrival>, events: seq<Acceptance.CmEvent>)

  predicate Feasible(c: Config, plan: Plan) {
    && Fits(plan.connect, c.n, c.n) && Fits(plan.start, 0, c.n) && Fits(plan.stop, c.n, c.n + c.m)
    && |plan.checkpoints| == |plan.reports| == c.k && |plan.totals| == c.n && Gathering.Proper(c, plan.totals)
    && (forall q | 0 <= q < c.k :: Fits(plan.checkpoints[q], c.n, c.n))
    && (forall q | 0 <= q < c.k :: |plan.reports[q]| == c.n && Gathering.Proper(c, plan.reports[q]))
  }

  /** How the calls of a run go, one after another. */
  function Starting(c: Config, plan: Plan): Gathering.Reading {
    var confirmed := if Error(plan.connect) != 0 then Gathering.Failed(Error(plan.connect))
                     else Gathering.Confirming(plan.confirmations, c.n);
    if confirmed == Gathering.Complete && Error(plan.start) != 0 then Gathering.Failed(Error(plan.start)) else confirmed
  }

  function Checks(calls: seq<Calls>, reports: seq<seq<Gathering.Arrival>>): seq<int>
    requires |calls| == |reports|
  {
    seq(|calls|, q requires 0 <= q < |calls| =>
      if Error(calls[q]) != 0 then Error(calls[q]) else FirstError(Gathering.Waits(reports[q])))
  }

  function Stopping(c: Config, calls: Calls, totals: seq<Gathering.Arrival>,
      events: seq<Acceptance.CmEvent>): Gathering.Reading {
    if Error(calls) != 0 then Gathering.Failed(Error(calls))
    else if FirstError(Gathering.Waits(totals)) != 0 then Gathering.Failed(FirstError(Gathering.Waits(totals)))
    else Ending(events, c.n + c.m)
  }

  function Outcome(c: Config, plan: Plan): Gathering.Reading
    requires Feasible(c, plan)
  {
    if Starting(c, plan) != Gathering.Complete then Starting(c, plan)
    else if FirstError(Checks(plan.checkpoints, plan.reports)) != 0 then
      Gathering.Failed(FirstError(Checks(plan.checkpoints, plan.reports)))
    else Stopping(c, plan.stop, plan.totals, plan.events)
  }

  /** SHUTDOWN events among those read. */
  function Ends(events: seq<Acceptance.CmEvent>): nat {
    if events == [] then 0 else Ends(events[..|events| - 1]) + if events[|events| - 1].Shutdown? then 1 else 0
  }

  /** Events are read until n of them were SHUTDOWN; an invalid one ends it. */
  function Ending(events: seq<Acceptance.CmEvent>, n: nat): Gathering.Reading {
    if n == 0 then Gathering.Complete
    else if events == [] then Gathering.Missing
    else if events[0] == Acceptance.Invalid then Gathering.Failed(-1)
    else Ending(events[1..], if events[0].Shutdown? then n - 1 else n)
  }

  class Controller {
    const c: Config
    const eps: seq<Endpoint>
    const store: Gathering.Controller
    /** Send completions not polled yet. */
    ghost var pending: nat

    ghost predicate Valid()
      reads this, store
    {
      && Sane(c) && |eps| == c.n + c.m && store.c == c && store.Valid()
      && forall x, y | 0 <= x < y < |eps| :: eps[x] != eps[y]
    }

    constructor (c: Config, eps: seq<Endpoint>, store: Gathering.Controller, pending: nat)
      requires Sane(c) && |eps| == c.n + c.m && store.c == c && store.Valid()
      requires forall x, y | 0 <= x < y < |eps| :: eps[x] != eps[y]
      ensures Valid() && this.c == c && this.eps == eps && this.store == store && this.pending == pending
    {
      this.c, this.eps, this.store, this.pending := c, eps, store, pending;
    }

    /** One receive for every client, until posting one fails. */
    method PostEach(size: nat, results: seq<int>) returns (ret: int)
      requires Valid() && size > 0 && |results| == c.n
      modifies eps
      ensures Valid() && ret == FirstError(results)
      ensures forall x | 0 <= x < |eps| ::
                && eps[x].sends == old(eps[x].sends)
                && eps[x].receives == Posted(old(eps[x].receives), x, Ctx(eps[x].id, size), Successes(results))
    {
      for n := 0 to c.n
        invariant Valid() && n <= Successes(results)
        invariant forall x | 0 <= x < |eps| ::
                    && eps[x].sends == old(eps[x].sends)
                    && eps[x].receives == Posted(old(eps[x].receives), x, Ctx(eps[x].id, size), n)
      {
        ret := eps[n].CtrlRecv(size, results[n]);
        if ret != 0 {
          return ret;
        }
      }
      ret := 0;
    }

    /** The same, as it adds to what the endpoints have asked for. */
    method PostReceives(size: nat, results: seq<int>) returns (ret: int)
      requires Valid() && size > 0 && |results| == c.n
      modifies eps
      ensures Valid() && ret == FirstError(results)
      ensures forall x | 0 <= x < |eps| :: TrafficOf(eps[x]) == Ask(old(TrafficOf(eps[x])), x, size, Successes(results))
      ensures forall x | 0 <= x < Successes(results) ::
                eps[x].receives == old(eps[x].receives) + [Ctx(eps[x].id, size)]
      ensures forall x | Successes(results) <= x < |eps| :: eps[x].receives == old(eps[x].receives)
      ensures forall x | 0 <= x < |eps| :: eps[x].sends == old(eps[x].sends)
    {
      ret := PostEach(size, results);
      forall x | 0 <= x < |eps|
        ensures TrafficOf(eps[x]) == Ask(old(TrafficOf(eps[x])), x, size, Successes(results))
      {
        PostedAsks(old(eps[x].sends), old(eps[x].receives), x, Ctx(eps[x].id, size), Successes(results));
      }
    }

    /** The command goes out on the first endpoints, until sending it fails. */
    method SendAll(command: Command, results: seq<int>) returns (ret: int)
      requires Valid() && |results| <= |eps|
      modifies eps, this`pending
      ensures Valid() && ret == FirstError(results) && pending == old(pending) + Successes(results)
      ensures forall x | 0 <= x < |eps| ::
          TrafficOf(eps[x]) == Say(old(TrafficOf(eps[x])), x, command, Successes(results))
    {
      for n := 0 to |results|
        invariant Valid() && n <= Successes(results) && pending == old(pending) + n
        invariant forall x | 0 <= x < |eps| :: TrafficOf(eps[x]) == Say(old(TrafficOf(eps[x])), x, command, n)
      {
        ret := eps[n].SendCommand(command, results[n]);
        if ret != 0 {
          return ret;
        }
        pending := pending + 1;
      }
      ret := 0;
    }

    /** As many send completions are awaited, whichever sends they belong to. */
    method Drain(results: seq<int>) returns (ret: int)
      requires |results| <= pending
      modifies this`pending
      ensures ret == FirstError(results) && pending == old(pending) - Successes(results)
    {
      var counter := 0;
      while counter < |results|
        invariant 0 <= counter <= Successes(results) && pending == old(pending) - counter
      {
        if results[counter] != 0 {
          return results[counter];
        }
        pending := pending - 1;
        counter := counter + 1;
      }
      ret := 0;
    }

    /** CONNECT, then the confirmations; `done` is false while some are still missing. */
    method ControllerConnect(calls: Calls, arrivals: seq<Gathering.Arrival>) returns (ret: int, done: bool)
      requires Valid() && Fits(calls, c.n, c.n)
      modifies eps, this`pending
      ensures Valid() && (Error(calls) == 0 ==> pending == old(pending))
      ensures forall x | 0 <= x < |eps| ::
          TrafficOf(eps[x]) == Issued(old(TrafficOf(eps[x])), x, INT_SIZE, Connect, calls)
      ensures var r := if Error(calls) != 0 then Gathering.Failed(Error(calls))
          else Gathering.Confirming(arrivals, c.n);
        ret == Gathering.Result(r) && (done <==> r == Gathering.Complete)
    {
      done := false;
      ret := PostReceives(INT_SIZE, calls.posts);
      if ret != 0 { return; }
      ret := SendAll(Connect, calls.sends);
      if ret != 0 { return; }
      ret := Drain(calls.waits);
      if ret != 0 { return; }
      var used;
      ret, used, done := store.GatherConfirmations(arrivals);
    }

    method ControllerStart(calls: Calls) returns (ret: int)
      requires Valid() && Fits(calls, 0, c.n)
      modifies eps, this`pending
      ensures Valid() && ret == Error(calls) && (ret == 0 ==> pending == old(pending))
      ensures forall x | 0 <= x < |eps| ::
          TrafficOf(eps[x]) == Issued(old(TrafficOf(eps[x])), x, INT_SIZE, Start, calls)
    {
      ret := SendAll(Start, calls.sends);
      if ret != 0 { return; }
      ret := Drain(calls.waits);
    }

    /** CHECKPOINT, then a report of every client into the checkpoint matrix. */
    method ControllerCheckpoint(calls: Calls, arrivals: seq<Gathering.Arrival>) returns (ret: int)
      requires Valid() && Fits(calls, c.n, c.n) && |arrivals| == c.n && Gathering.Proper(c, arrivals)
      modifies eps, this`pending, store.checkpoint
      ensures Valid() && (ret == 0 ==> pending == old(pending))
      ensures ret == if Error(calls) != 0 then Error(calls) else FirstError(Gathering.Waits(arrivals))
      ensures forall x | 0 <= x < |eps| ::
                TrafficOf(eps[x]) == Issued(old(TrafficOf(eps[x])), x, TRANSFER_SIZE * c.m, Checkpoint, calls)
      ensures store.checkpoint[..] == Gathering.Collected(c, old(store.checkpoint[..]),
                if Error(calls) != 0 then [] else arrivals[..Gathering.Heeded(arrivals)])
    {
      ret := PostReceives(TRANSFER_SIZE * c.m, calls.posts);
      if ret != 0 { return; }
      ret := SendAll(Checkpoint, calls.sends);
      if ret != 0 { return; }
      ret := Drain(calls.waits);
      if ret != 0 { return; }
      ret := store.GatherCheckpoint(arrivals);
    }

    /** STOP to all, servers too; then the totals of every client and the end of every connection. */
    method ControllerStop(calls: Calls, arrivals: seq<Gathering.Arrival>, events: seq<Acceptance.CmEvent>)
      returns (ret: int, done: bool)
      requires Valid() && Fits(calls, c.n, c.n + c.m) && |arrivals| == c.n && Gathering.Proper(c, arrivals)
      modifies eps, this`pending, store.summary
      ensures Valid() && (Error(calls) == 0 ==> pending == old(pending))
      ensures forall x | 0 <= x < |eps| ::
                TrafficOf(eps[x]) == Issued(old(TrafficOf(eps[x])), x, TRANSFER_SIZE * c.m, Stop, calls)
      ensures store.summary[..] == Gathering.Collected(c, old(store.summary[..]),
                if Error(calls) != 0 then [] else arrivals[..Gathering.Heeded(arrivals)])
      ensures ret == Gathering.Result(Stopping(c, calls, arrivals, events))
      ensures done <==> Stopping(c, calls, arrivals, events) == Gathering.Complete
      ensures done ==> Ends(events) >= c.n + c.m
    {
      done := false;
      ret := PostReceives(TRANSFER_SIZE * c.m, calls.posts);
      if ret != 0 { return; }
      ret := SendAll(Stop, calls.sends);
      if ret != 0 { return; }
      ret := Drain(calls.waits);
      if ret != 0 { return; }
      ret := store.GatherSummary(arrivals);
      if ret != 0 { return; }
      ret, done := AwaitEnds(events);
    }

    /** Only SHUTDOWN counts. */
    method AwaitEnds(events: seq<Acceptance.CmEvent>) returns (ret: int, done: bool)
      ensures ret == Gathering.Result(Ending(events, c.n + c.m))
      ensures done <==> Ending(events, c.n + c.m) == Gathering.Complete
      ensures done ==> Ends(events) >= c.n + c.m
      ensures Acceptance.Invalid !in events ==> (done <==> Ends(events) >= c.n + c.m)
    {
      var counter, next := 0, 0;
      while counter < c.n + c.m && next < |events|
        invariant next <= |events| && counter == Ends(events[..next]) <= c.n + c.m
        invariant Ending(events, c.n + c.m) == Ending(events[next..], c.n + c.m - counter)
        decreases |events| - next
      {
        Tail(events, next);
        if events[next] == Acceptance.Invalid {
          return -1, false;
        }
        assert events[..next + 1][..next] == events[..next];
        if events[next].Shutdown? { counter := counter + 1; }
        next := next + 1;
      }
      ret, done := 0, counter >= c.n + c.m;
      EndsGrow(events, next);
      if next == |events| { assert events[..next] == events; }
    }

    ghost function Log(): seq<Traffic>
      reads this, eps
    {
      seq(|eps|, x requires 0 <= x < |eps| reads this, eps => TrafficOf(eps[x]))
    }

    /** Every endpoint has said and asked what the rounds up to p say and ask there since `base`. */
    ghost predicate Reached(base: seq<Traffic>, p: nat)
      reads this, eps
    {
      |base| == |eps| && forall x | 0 <= x < |eps| :: TrafficOf(eps[x]) == Through(c, base[x], x, p)
    }

    /** Nothing but a beginning of what all rounds together say and ask. */
    ghost predicate Within(base: seq<Traffic>)
      reads this, eps
    {
      |base| == |eps| && forall x | 0 <= x < |eps| :: Part(TrafficOf(eps[x]), Through(c, base[x], x, LastRound(c)))
    }

    /** CONNECT and START. */
    method Begin(ghost base: seq<Traffic>, plan: Plan) returns (ret: int, done: bool)
      requires Valid() && Feasible(c, plan) && base == Log()
      modifies eps, this`pending
      ensures Valid() && ret == Gathering.Result(Starting(c, plan))
          && (done <==> Starting(c, plan) == Gathering.Complete)
      ensures Within(base) && (done ==> Reached(base, 2) && pending == old(pending))
    {
      ret, done := ControllerConnect(plan.connect, plan.confirmations);
      forall x | 0 <= x < |eps|
        ensures Part(TrafficOf(eps[x]), Through(c, base[x], x, LastRound(c)))
        ensures done ==> TrafficOf(eps[x]) == Through(c, base[x], x, 1)
      {
        IssuedPart(c, base[x], x, 1, INT_SIZE, plan.connect);
      }
      if !done { return; }
      ret := ControllerStart(plan.start);
      done := ret == 0;
      forall x | 0 <= x < |eps|
        ensures Part(TrafficOf(eps[x]), Through(c, base[x], x, LastRound(c)))
        ensures done ==> TrafficOf(eps[x]) == Through(c, base[x], x, 2)
      {
        IssuedPart(c, base[x], x, 2, INT_SIZE, plan.start);
      }
    }

    /** Checkpoint q. */
    method OneCheckpoint(ghost base: seq<Traffic>, q: nat, calls: Calls,
        report: seq<Gathering.Arrival>) returns (ret: int)
      requires Valid() && Reached(base, q + 2) && q < c.k
      requires Fits(calls, c.n, c.n) && |report| == c.n && Gathering.Proper(c, report)
      modifies eps, this`pending, store.checkpoint
      ensures Valid() && ret == if Error(calls) != 0 then Error(calls) else FirstError(Gathering.Waits(report))
      ensures Within(base) && (ret == 0 ==> Reached(base, q + 3) && pending == old(pending))
    {
      ret := ControllerCheckpoint(calls, report);
      forall x | 0 <= x < |eps|
        ensures Part(TrafficOf(eps[x]), Through(c, base[x], x, LastRound(c)))
        ensures ret == 0 ==> TrafficOf(eps[x]) == Through(c, base[x], x, q + 3)
      {
        IssuedPart(c, base[x], x, q + 3, TRANSFER_SIZE * c.m, calls);
      }
    }

    /** The checkpoints, one after another. */
    method Checkpoints(ghost base: seq<Traffic>, calls: seq<Calls>, reports: seq<seq<Gathering.Arrival>>)
      returns (ret: int)
      requires Valid() && Reached(base, 2) && Within(base) && |calls| == |reports| == c.k
      requires forall q | 0 <= q < c.k :: Proper(calls[q], reports[q])
      modifies eps, this`pending, store.checkpoint
      ensures Valid() && ret == FirstError(Checks(calls, reports))
      ensures Within(base) && (ret == 0 ==> Reached(base, c.k + 2) && pending == old(pending))
    {
      ghost var p := 2;
      var q := 0;
      while q < c.k
        invariant 0 <= q <= c.k && p == q + 2 && AllWell(Checks(calls, reports), q)
        invariant Valid() && pending == old(pending) && Within(base) && Reached(base, p)
      {
        ret := OneCheckpoint(base, q, calls[q], reports[q]);
        NextResult(Checks(calls, reports), q);
        if ret != 0 {
          return ret;
        }
        p, q := p + 1, q + 1;
      }
      AllResults(Checks(calls, reports));
      ret := 0;
    }

    predicate Proper(calls: Calls, report: seq<Gathering.Arrival>) {
      Fits(calls, c.n, c.n) && |report| == c.n && Gathering.Proper(c, report)
    }

    /** All commands of a run with c.k checkpoints, to the end or to the first call that fails or does
        not return. Whatever happens, every endpoint has said and asked only a beginning of what the
        protocol's rounds say and ask there; all of it if the run is done. */
    method Command(plan: Plan) returns (ret: int, done: bool)
      requires Valid() && Feasible(c, plan)
      modifies eps, this`pending, store.checkpoint, store.summary
      ensures Valid() && (done <==> Outcome(c, plan) == Gathering.Complete) && ret == Gathering.Result(Outcome(c, plan))
      ensures Within(old(Log())) && (done ==> Reached(old(Log()), LastRound(c)) && pending == old(pending))
      ensures done ==> store.summary[..] == Gathering.Collected(c, old(store.summary[..]), plan.totals)
    {
      ghost var base := Log();
      ret, done := Begin(base, plan);
      if !done { return; }
      done := false;
      ret := Checkpoints(base, plan.checkpoints, plan.reports);
      if ret != 0 { return; }
      ret, done := End(base, plan);
    }

    /** STOP, the totals and the end of the connections. */
    method End(ghost base: seq<Traffic>, plan: Plan) returns (ret: int, done: bool)
      requires Valid() && Feasible(c, plan) && Reached(base, c.k + 2)
      modifies eps, this`pending, store.summary
      ensures Valid() && ret == Gathering.Result(Stopping(c, plan.stop, plan.totals, plan.events))
      ensures done <==> Stopping(c, plan.stop, plan.totals, plan.events) == Gathering.Complete
      ensures Within(base) && (done ==> Reached(base, LastRound(c)) && pending == old(pending))
      ensures done ==> store.summary[..] == Gathering.Collected(c, old(store.summary[..]), plan.totals)
    {
      ret, done := ControllerStop(plan.stop, plan.totals, plan.events);
      forall x | 0 <= x < |eps|
        ensures Part(TrafficOf(eps[x]), Through(c, base[x], x, LastRound(c)))
        ensures done ==> TrafficOf(eps[x]) == Through(c, base[x], x, LastRound(c))
      {
        IssuedPart(c, base[x], x, LastRound(c), TRANSFER_SIZE * c.m, plan.stop);
      }
      if done { assert plan.totals[..|plan.totals|] == plan.totals; }
    }
  }

  predicate AllWell(results: seq<int>, k: nat) { k <= |results| && forall q | 0 <= q < k :: results[q] == 0 }

  lemma NextResult(results: seq<int>, k: nat)
    requires AllWell(results, k) && k < |results|
    ensures if results[k] == 0 then AllWell(results, k + 1) else FirstError(results) == results[k]
  {
  }

  lemma AllResults(results: seq<int>)
    requires AllWell(results, |results|)
    ensures FirstError(results) == 0
  {
  }

  function Posted(receives: seq<Ctx>, x: nat, ctx: Ctx, k: nat): seq<Ctx> {
    if x < k then receives + [ctx] else receives
  }

  lemma PostedAsks(sends: seq<Sent>, receives: seq<Ctx>, x: nat, ctx: Ctx, k: nat)
    ensures Traffic(Contents(sends), Sizes(Posted(receives, x, ctx, k)))
        == Ask(Traffic(Contents(sends), Sizes(receives)), x, ctx.size, k)
  {
    assert Sizes(receives + [ctx]) == Sizes(receives) + [ctx.size];
  }

  lemma {:induction false} EndsGrow(events: seq<Acceptance.CmEvent>, t: nat)
    requires t <= |events|
    ensures Ends(events[..t]) <= Ends(events)
  {
    if t < |events| {
      assert events[..|events| - 1][..t] == events[..t];
      EndsGrow(events[..|events| - 1], t);
    } else {
      assert events[..t] == events;
    }
  }

  // ---------- the commands and the protocol

  /** Round p of the protocol as endpoint x sees it: its command if x is a target, and a receive for
      the reply if there is one. */
  function InRound(c: Config, t: Traffic, x: nat, p: nat): Traffic {
    var asked := if p == 2 then t else Ask(t, x, if p == 1 then INT_SIZE else TRANSFER_SIZE * c.m, c.n);
    Say(asked, x, CmdOf(c, p), Targets(c, p))
  }

  function Through(c: Config, t: Traffic, x: nat, p: nat): Traffic {
    if p == 0 then t else InRound(c, Through(c, t, x, p - 1), x, p)
  }

  predicate Part(a: Traffic, b: Traffic) { a.said <= b.said && a.asked <= b.asked }

  lemma {:induction false} ThroughGrows(c: Config, t: Traffic, x: nat, p: nat, q: nat)
    requires p <= q
    ensures Part(Through(c, t, x, p), Through(c, t, x, q))
  {
    if p < q { ThroughGrows(c, t, x, p, q - 1); }
  }

  /** What a call of round p adds is a part of what the round adds, and all of it if nothing fails. */
  lemma IssuedPart(c: Config, t: Traffic, x: nat, p: nat, size: nat, calls: Calls)
    requires 1 <= p <= LastRound(c) && Fits(calls, if p == 2 then 0 else c.n, Targets(c, p))
    requires p == 2 || size == if p == 1 then INT_SIZE else TRANSFER_SIZE * c.m
    ensures var r := Issued(Through(c, t, x, p - 1), x, size, CmdOf(c, p), calls);
      Part(r, Through(c, t, x, LastRound(c))) && (Error(calls) == 0 ==> r == Through(c, t, x, p))
  {
    ThroughGrows(c, t, x, p, LastRound(c));
  }

  /** After round p every client has been sent the first p commands of the protocol's numbering of
      messages, and a receive was posted for each of its replies: of the confirmation's size first, of
      a report's size then. */
  lemma {:induction false} Speaks(c: Config, x: nat, p: nat)
    requires Sane(c) && x < c.n && p <= LastRound(c)
    ensures var t := Through(c, Traffic([Keys(Cc(x))], []), x, p);
      && |t.said| == p + 1 && (forall q | 0 <= q <= p :: t.said[q] == Invariant.Msg(c, Cc(x), q))
      && |t.asked| == (if p <= 1 then p else p - 1)
      && forall q | 0 <= q < |t.asked| :: t.asked[q] == if q == 0 then 4 else 40 * c.m
  {
    if p > 0 { Speaks(c, x, p - 1); }
  }

  /** A server is sent its keys and STOP, nothing else. */
  lemma {:induction false} SpeaksToServer(c: Config, j: nat, p: nat)
    requires Sane(c) && j < c.m && p <= LastRound(c)
    ensures Through(c, Traffic([Keys(Sc(j))], []), c.n + j, p)
            == Traffic([Keys(Sc(j))] + (if p == LastRound(c) then [Cmd(Stop)] else []), [])
  {
    if p > 0 { SpeaksToServer(c, j, p - 1); }
  }

  /** What the controller's code sends on each of its endpoints over a whole run is exactly the
      sequence of messages the protocol has on that connection. */
  lemma SaysAll(c: Config, x: nat)
    requires Sane(c) && x < c.n + c.m
    ensures var l, t := Target(c, x), Through(c, Traffic([Keys(Target(c, x))], []), x, LastRound(c));
      && |t.said| == 1 + (if l.Cc? then Invariant.CmdsTo(c, Finished, l.i) else Invariant.StopsTo(c, Finished, l.j))
      && (forall q | 0 <= q < |t.said| :: t.said[q] == Invariant.Msg(c, l, q))
      && |t.asked| == (if l.Cc? then Invariant.Opened(c, Finished, l.i) else 0)
      && forall q | 0 <= q < |t.asked| :: t.asked[q] == if q == 0 then 4 else 40 * c.m
  {
    if x < c.n { Speaks(c, x, LastRound(c)); } else { SpeaksToServer(c, x - c.n, LastRound(c)); }
  }

  /** Every receive has the length of the reply it is for. */
  lemma ReceivesFit(c: Config, s: State, i: nat, q: nat)
    requires Sane(c) && Reachable(c, s) && i < |s.clients| && q <= |s.clients[i].log|
    ensures i < c.n
    ensures var t := Through(c, Traffic([Keys(Cc(i))], []), i, LastRound(c));
      q < |t.asked| && t.asked[q] == Len(Invariant.ReplyOf(s.clients[i].log, q))
  {
    Ledger.FullReachable(c, s);
    ReplyLength(c, i, s.clients[i], q);
    Speaks(c, i, LastRound(c));
  }

  lemma ReplyLength(c: Config, i: nat, cl: Protocol.Client, q: nat)
    requires Ledger.Account(c, i, cl) && q <= |cl.log|
    ensures q <= c.k + 1 && Len(Invariant.ReplyOf(cl.log, q)) == if q == 0 then 4 else 40 * c.m
  {
    if q > 0 { Ledger.FullRows(c, i, cl, q - 1); }
  }

  // ---------- what the results are

  /** The first error of all calls of a command: posts, then sends, then waits. */
  lemma ErrorIs(calls: Calls)
    ensures Error(calls) == FirstError(calls.posts + calls.sends + calls.waits)
  {
    FirstOfBoth(calls.posts, calls.sends);
    FirstOfBoth(calls.posts + calls.sends, calls.waits);
  }

  lemma FirstOfBoth(a: seq<int>, b: seq<int>)
    ensures FirstError(a + b) == if FirstError(a) != 0 then FirstError(a) else FirstError(b)
  {
    if FirstError(a) != 0 {
      FirstErrorIs(a + b, Successes(a));
    } else if FirstError(b) != 0 {
      FirstErrorIs(a + b, |a| + Successes(b));
    }
  }

  /** A run is done exactly if every post, send and wait succeeds, the confirmations come, and so do the
      ends of all connections. */
  lemma DoneExactly(c: Config, plan: Plan)
    requires Feasible(c, plan)
    ensures Outcome(c, plan) == Gathering.Complete <==>
            && Error(plan.connect) == 0 && Gathering.Confirming(plan.confirmations, c.n) == Gathering.Complete
            && Error(plan.start) == 0
            && (forall q | 0 <= q < c.k :: Error(plan.checkpoints[q]) == 0 && NoneFails(plan.reports[q]))
            && Error(plan.stop) == 0 && NoneFails(plan.totals)
            && Ending(plan.events, c.n + c.m) == Gathering.Complete
  {
    NoneFailsIs(plan.totals);
    forall q | 0 <= q < c.k ensures NoneFails(plan.reports[q]) <==> FirstError(Gathering.Waits(plan.reports[q])) == 0 {
      NoneFailsIs(plan.reports[q]);
    }
    var results := Checks(plan.checkpoints, plan.reports);
    assert forall q | 0 <= q < c.k ::
      results[q] == 0 <==> (Error(plan.checkpoints[q]) == 0 && NoneFails(plan.reports[q]));
  }

  predicate NoneFails(arrivals: seq<Gathering.Arrival>) { forall q | 0 <= q < |arrivals| :: arrivals[q].wait == 0 }

  lemma NoneFailsIs(arrivals: seq<Gathering.Arrival>)
    ensures NoneFails(arrivals) <==> FirstError(Gathering.Waits(arrivals)) == 0
  {
    assert forall q | 0 <= q < |arrivals| :: Gathering.Waits(arrivals)[q] == arrivals[q].wait;
  }

  function Downs(events: seq<Acceptance.CmEvent>): set<nat> { set q | 0 <= q < |events| && events[q].Shutdown? }

  lemma {:induction false} EndsAre(events: seq<Acceptance.CmEvent>)
    ensures Ends(events) == |Downs(events)|
  {
    if events != [] {
      var n := |events| - 1;
      EndsAre(events[..n]);
      assert Downs(events) == Downs(events[..n]) + if events[n].Shutdown? then {n} else {};
    }
  }

  lemma {:induction false} FrontEnd(events: seq<Acceptance.CmEvent>)
    requires events != []
    ensures Ends(events) == Ends(events[1..]) + if events[0].Shutdown? then 1 else 0
  {
    var n := |events| - 1;
    if n > 0 {
      FrontEnd(events[..n]);
      assert events[..n][1..] == events[1..][..n - 1];
    }
  }

  /** The wait for the ends fails at the first invalid event, if too few before it were SHUTDOWN, ends at
      the n-th SHUTDOWN, and otherwise goes on. */
  lemma {:induction false} EndingIs(events: seq<Acceptance.CmEvent>, n: nat, k: nat)
    requires k <= |events| && Ends(events[..k]) < n && Acceptance.Invalid !in events[..k]
    ensures k == |events| ==> Ending(events, n) == Gathering.Missing
    ensures k < |events| && events[k] == Acceptance.Invalid ==> Ending(events, n) == Gathering.Failed(-1)
    ensures k < |events| && events[k] != Acceptance.Invalid && Ends(events[..k + 1]) == n ==>
              Ending(events, n) == Gathering.Complete
  {
    if k > 0 {
      var less := if events[0].Shutdown? then n - 1 else n;
      assert events[..k][1..] == events[1..][..k - 1] && events[..k][0] == events[0];
      assert forall e | e in events[1..][..k - 1] :: e in events[..k];
      FrontEnd(events[..k]);
      if k < |events| {
        assert events[..k + 1][1..] == events[1..][..k] && events[..k + 1][0] == events[0];
        FrontEnd(events[..k + 1]);
      }
      EndingIs(events[1..], less, k - 1);
    } else if events != [] {
      assert events[..1] == [events[0]];
      FrontEnd(events[..1]);
    }
  }

  /** A post that fails keeps the command from being sent at all; a send that fails keeps it from the
      endpoints that follow. */
  lemma IssuedIs(t: Traffic, x: nat, size: nat, command: Command, calls: Calls)
    ensures var r, posted := Issued(t, x, size, command, calls), AllWell(calls.posts, |calls.posts|);
      && (x < |calls.posts| && AllWell(calls.posts, x + 1) ==> r.asked == t.asked + [size])
      && (x >= |calls.posts| || !AllWell(calls.posts, x + 1) ==> r.asked == t.asked)
      && (posted && x < |calls.sends| && AllWell(calls.sends, x + 1) ==> r.said == t.said + [Cmd(command)])
      && (!posted || x >= |calls.sends| || !AllWell(calls.sends, x + 1) ==> r.said == t.said)
  {
  }

  /** What a run returns: the first error, wherever it comes, or else how the two waits go. */
  lemma ReturnedIs(c: Config, plan: Plan)
    requires Feasible(c, plan)
    ensures Gathering.Result(Gathering.Complete) == Gathering.Result(Gathering.Missing) == 0
    ensures forall e :: Gathering.Result(Gathering.Failed(e)) == e
    ensures Error(plan.connect) != 0 ==> Outcome(c, plan) == Gathering.Failed(Error(plan.connect))
    ensures Error(plan.connect) == 0 && Gathering.Confirming(plan.confirmations, c.n) != Gathering.Complete ==>
              Outcome(c, plan) == Gathering.Confirming(plan.confirmations, c.n)
    ensures Started(c, plan) && Error(plan.start) != 0 ==> Outcome(c, plan) == Gathering.Failed(Error(plan.start))
    ensures Started(c, plan) && Error(plan.start) == 0 && !AllWell(Checks(plan.checkpoints, plan.reports), c.k) ==>
              Outcome(c, plan) == Gathering.Failed(FirstError(Checks(plan.checkpoints, plan.reports)))
    ensures Started(c, plan) && Error(plan.start) == 0 && AllWell(Checks(plan.checkpoints, plan.reports), c.k) ==>
              && (Error(plan.stop) != 0 ==> Outcome(c, plan) == Gathering.Failed(Error(plan.stop)))
              && (Error(plan.stop) == 0 && NoneFails(plan.totals)
                  ==> Outcome(c, plan) == Ending(plan.events, c.n + c.m))
              && (Error(plan.stop) == 0 && !NoneFails(plan.totals) ==>
                    Outcome(c, plan) == Gathering.Failed(FirstError(Gathering.Waits(plan.totals))))
  {
    NoneFailsIs(plan.totals);
  }

  predicate Started(c: Config, plan: Plan) {
    Error(plan.connect) == 0 && Gathering.Confirming(plan.confirmations, c.n) == Gathering.Complete
  }
}
