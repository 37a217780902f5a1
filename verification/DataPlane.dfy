/** The measured writes themselves: the servers' message buffers beside the protocol's state. A
    write goes where the keys held at its posting point, its words arrive one by one in any order
    and mixed with those of other writes, and it completes when all have arrived. */
module DataPlane {
  import opened Wire
  import opened Accounting
  import opened Protocol
  import opened Invariant
  import opened Ledger
  import Facts
  import Runs
  import Endpoints

  /** A posted write: the client's endpoint, the keys it was posted with, the words that have
      arrived, and whether its completion was polled. */
  datatype Flight = Flight(from: Link, key: Option<Link>, placed: set<nat>, done: bool)

  /** mem[l] is the message buffer of the server endpoint of l, in words. */
  datatype World = World(s: State, mem: map<Link, seq<int>>, flights: seq<Flight>)

  datatype Act = Plain(a: Action) | Finish(i: nat, j: nat, f: nat) | Place(f: nat, k: nat)

  function Post(s: State, l: Link): seq<Flight> {
    if l in s.eps then [Flight(l, s.eps[l].key, {}, false)] else []
  }

  /** The writes a step posts. */
  function Posts(c: Config, s: State, a: Action): seq<Flight>
    requires Can(c, s, a)
  {
    if a.ByCli? && a.cli.AFill? then Post(s, Cs(a.cli.i, s.clients[a.cli.i].pc.j))
    else if a.ByCli? && a.cli.APoll? && TxId(a.cli.i, a.cli.w) < c.m then Post(s, Cs(a.cli.i, TxId(a.cli.i, a.cli.w)))
    else []
  }

  function Polls(i: nat, j: nat): Action { ByCli(APoll(i, Write(j))) }

  predicate WritePoll(a: Action) { a.ByCli? && a.cli.APoll? && a.cli.w.Write? }

  predicate CanAct(c: Config, words: nat, w: World, act: Act) {
    match act
    case Plain(a) => Can(c, w.s, a) && !WritePoll(a)
    case Finish(i, j, f) =>
      && Can(c, w.s, Polls(i, j)) && f < |w.flights| && w.flights[f].from == Cs(i, j) && !w.flights[f].done
      && forall k | 0 <= k < words :: k in w.flights[f].placed
    case Place(f, k) =>
      && f < |w.flights| && k < words && !w.flights[f].done
      && w.flights[f].key.Some? && w.flights[f].key.value in w.mem && k < |w.mem[w.flights[f].key.value]|
  }

  function Do(c: Config, words: nat, w: World, act: Act): World
    requires CanAct(c, words, w, act)
  {
    match act
    case Plain(a) => World(Next(c, w.s, a), w.mem, w.flights + Posts(c, w.s, a))
    case Finish(i, j, f) =>
      World(Next(c, w.s, Polls(i, j)), w.mem,
            w.flights[f := w.flights[f].(done := true)] + Posts(c, w.s, Polls(i, j)))
    case Place(f, k) =>
      var fl := w.flights[f];
      var l := fl.key.value;
      World(w.s, w.mem[l := w.mem[l][k := Endpoints.Pattern(words)[k]]], w.flights[f := fl.(placed := fl.placed + {k})])
  }

  /** The clients' buffers hold the pattern, the servers' hold zeros, nothing is posted. */
  ghost predicate Opening(c: Config, words: nat, w: World) {
    && Begin(c, w.s) && w.flights == []
    && (forall l :: l in w.mem <==> l.Cs? && Valid(c, l))
    && forall l | l in w.mem :: w.mem[l] == Endpoints.Zeros(words)
  }

  function Execute(c: Config, words: nat, w: World, acts: seq<Act>): Option<World> {
    if acts == [] then Some(w)
    else match Execute(c, words, w, acts[..|acts| - 1])
      case None => None
      case Some(v) => var a := acts[|acts| - 1]; if CanAct(c, words, v, a) then Some(Do(c, words, v, a)) else None
  }

  ghost predicate Occurs(c: Config, words: nat, w: World) {
    exists start, acts :: Opening(c, words, start) && Execute(c, words, start, acts) == Some(w)
  }

  // ---------- what every step keeps

  function Posted(fs: seq<Flight>, l: Link): nat {
    if fs == [] then 0 else Posted(fs[..|fs| - 1], l) + if fs[|fs| - 1].from == l then 1 else 0
  }

  function Polled(fs: seq<Flight>, l: Link): nat {
    if fs == [] then 0 else Polled(fs[..|fs| - 1], l) + if fs[|fs| - 1].from == l && fs[|fs| - 1].done then 1 else 0
  }

  /** A word is what it was before the first write, or what every write puts there. */
  predicate Clean(buffer: seq<int>, words: nat) {
    |buffer| == words && forall k | 0 <= k < words :: buffer[k] == 0 || buffer[k] == k
  }

  /** The words of a write that have arrived are in its own endpoint's buffer. */
  predicate FlightOk(c: Config, words: nat, mem: map<Link, seq<int>>, fl: Flight) {
    && fl.from.Cs? && Valid(c, fl.from) && fl.key == Some(fl.from) && fl.from in mem && |mem[fl.from]| == words
    && (forall k | k in fl.placed :: k < words && mem[fl.from][k] == k)
    && (fl.done ==> forall k | 0 <= k < words :: k in fl.placed)
  }

  ghost predicate MemOk(c: Config, words: nat, mem: map<Link, seq<int>>) {
    && (forall l :: l in mem <==> l.Cs? && Valid(c, l))
    && forall l | l in mem :: Clean(mem[l], words)
  }

  /** Writes posted and polled are the flights of the endpoint and those that are done. */
  predicate Matches(a: Acc, fs: seq<Flight>, i: nat, j: nat) {
    j < |a.posted| && j < |a.polled| && a.posted[j] == Posted(fs, Cs(i, j)) && a.polled[j] == Polled(fs, Cs(i, j))
  }

  ghost predicate FlightsOk(c: Config, words: nat, w: World) {
    forall f | 0 <= f < |w.flights| :: FlightOk(c, words, w.mem, w.flights[f])
  }

  ghost predicate CountsOk(c: Config, w: World) {
    |w.s.clients| == c.n && forall i, j | 0 <= i < c.n && 0 <= j < c.m :: Matches(w.s.clients[i].acc, w.flights, i, j)
  }

  ghost predicate DataOk(c: Config, words: nat, w: World) {
    Full(c, w.s) && Buffers(c, words, w)
  }

  ghost predicate Buffers(c: Config, words: nat, w: World) {
    MemOk(c, words, w.mem) && FlightsOk(c, words, w) && CountsOk(c, w)
  }

  lemma {:induction false} PostedMore(fs: seq<Flight>, gs: seq<Flight>, l: Link)
    ensures Posted(fs + gs, l) == Posted(fs, l) + Posted(gs, l) && Polled(fs + gs, l) == Polled(fs, l) + Polled(gs, l)
  {
    if gs == [] {
      assert fs + gs == fs;
    } else {
      assert (fs + gs)[..|fs + gs| - 1] == fs + gs[..|gs| - 1];
      PostedMore(fs, gs[..|gs| - 1], l);
    }
  }

  lemma {:induction false} OneChanged(fs: seq<Flight>, f: nat, fl: Flight, l: Link)
    requires f < |fs| && fl.from == fs[f].from
    ensures Posted(fs[f := fl], l) == Posted(fs, l)
    ensures Polled(fs[f := fl], l) == Polled(fs, l)
              + (if fl.from == l && fl.done then 1 else 0) - (if fl.from == l && fs[f].done then 1 else 0)
  {
    var n := |fs| - 1;
    if f < n {
      assert fs[f := fl][..n] == fs[..n][f := fl];
      OneChanged(fs[..n], f, fl, l);
    } else {
      assert fs[f := fl][..n] == fs[..n];
    }
  }

  /** A client that posts writes holds the keys of every one of its server endpoints. */
  lemma KeysHeld(c: Config, s: State, i: nat, j: nat)
    requires Facts.Core(c, s) && i < c.n && j < c.m && CliConsumed(c, s.clients[i].pc) >= 3
    ensures Cs(i, j) in s.eps && s.eps[Cs(i, j)].key == Some(Cs(i, j))
  {
    Facts.Begun(c, s, i, i);
    Facts.Connected(c, s, i, j);
  }

  predicate Counting(a: Action) { a.ByCli? && (a.cli.AFill? || a.cli.APoll?) }

  /** Steps that are neither a write nor a poll leave the counts of writes alone. */
  predicate SameCounts(s: State, r: State) {
    |r.clients| == |s.clients| && forall i | 0 <= i < |s.clients| ::
      r.clients[i].acc.posted == s.clients[i].acc.posted && r.clients[i].acc.polled == s.clients[i].acc.polled
  }

  lemma CliCounts(c: Config, s: State, a: CliAct)
    requires CanCli(c, s, a) && !a.AFill? && !a.APoll?
    ensures SameCounts(s, NextCli(c, s, a))
  {
  }

  lemma PlainCounts(c: Config, s: State, a: Action)
    requires Can(c, s, a) && !Counting(a)
    ensures SameCounts(s, Next(c, s, a))
  {
    match a
    case ByFabric(x) => FabricAccounts(c, s, x);
    case ByCtrl(x) => CtrlAccounts(c, s, x);
    case ByCli(x) => CliCounts(c, s, x);
    case ByServer(x) => ServerAccounts(c, s, x);
  }

  /** Where a counting step posts its write. */
  function Aim(c: Config, s: State, a: Action): Option<nat>
    requires Can(c, s, a) && Counting(a)
  {
    match a.cli
    case AFill(i) => Some(s.clients[i].pc.j)
    case APoll(i, w) => if TxId(i, w) < c.m then Some(TxId(i, w)) else None
    case _ => None
  }

  /** Client i has posted one more write, to server j, and polled the completion of one at p. */
  predicate Counted(c: Config, s: State, r: State, i: nat, j: Option<nat>, p: Option<nat>) {
    && |r.clients| == |s.clients| && i < |s.clients|
    && (forall x | 0 <= x < |s.clients| && x != i :: r.clients[x] == s.clients[x])
    && var a, b := s.clients[i].acc, r.clients[i].acc;
    && |a.posted| == |a.polled| == |b.posted| == |b.polled| == c.m
    && (forall x | 0 <= x < c.m ::
          && b.posted[x] == a.posted[x] + (if j == Some(x) then 1 else 0)
          && b.polled[x] == a.polled[x] + (if p == Some(x) then 1 else 0))
  }

  lemma FillCounts(c: Config, s: State, i: nat)
    requires CanFill(s, i) && Sized(s.clients[i].acc, c.m)
    ensures Counted(c, s, CliFill(c, s, i), i, Some(s.clients[i].pc.j), None)
  {
  }

  lemma PollCounts(c: Config, s: State, i: nat, w: Tx)
    requires CanPoll(c, s, i, w)
    ensures Counted(c, s, Poll(c, s, i, w), i, if TxId(i, w) < c.m then Some(TxId(i, w)) else None,
                    if w.Write? then Some(w.j) else None)
  {
  }

  function New(i: nat, j: nat): Flight { Flight(Cs(i, j), Some(Cs(i, j)), {}, false) }

  lemma NewOk(c: Config, words: nat, w: World, i: nat, j: nat)
    requires Buffers(c, words, w) && i < c.n && j < c.m
    ensures FlightOk(c, words, w.mem, New(i, j))
  {
    assert Valid(c, Cs(i, j)) && Clean(w.mem[Cs(i, j)], words);
  }

  /** One more flight of client i, and possibly one done. */
  lemma CountsMove(c: Config, w: World, v: World, i: nat, j: Option<nat>, p: Option<nat>, fs: seq<Flight>)
    requires CountsOk(c, w) && Counted(c, w.s, v.s, i, j, p)
    requires forall x | 0 <= x < c.m ::
               && Posted(fs, Cs(i, x)) == Posted(w.flights, Cs(i, x))
               && Polled(fs, Cs(i, x)) == Polled(w.flights, Cs(i, x)) + if p == Some(x) then 1 else 0
    requires forall y, x | 0 <= y < c.n && 0 <= x < c.m && y != i ::
               && Posted(fs, Cs(y, x)) == Posted(w.flights, Cs(y, x))
               && Polled(fs, Cs(y, x)) == Polled(w.flights, Cs(y, x))
    requires v.flights == fs + if j.Some? then [New(i, j.value)] else []
    ensures CountsOk(c, v)
  {
    forall y, x | 0 <= y < c.n && 0 <= x < c.m ensures Matches(v.s.clients[y].acc, v.flights, y, x) {
      assert Matches(w.s.clients[y].acc, w.flights, y, x);
      PostedMore(fs, v.flights[|fs|..], Cs(y, x));
    }
  }

  /** Flights may be added, and marked done when they are complete; buffers stay. */
  lemma FlightsMove(c: Config, words: nat, w: World, v: World)
    requires FlightsOk(c, words, w) && v.mem == w.mem && |v.flights| >= |w.flights|
    requires forall f | 0 <= f < |w.flights| :: v.flights[f] == w.flights[f] || FlightOk(c, words, w.mem, v.flights[f])
    requires forall f | |w.flights| <= f < |v.flights| :: FlightOk(c, words, w.mem, v.flights[f])
    ensures FlightsOk(c, words, v)
  {
    forall f | 0 <= f < |v.flights| ensures FlightOk(c, words, v.mem, v.flights[f]) {
      if f < |w.flights| { assert FlightOk(c, words, w.mem, w.flights[f]); }
    }
  }

  lemma KeepSame(c: Config, words: nat, w: World, v: World)
    requires Buffers(c, words, w) && SameCounts(w.s, v.s) && v.mem == w.mem && v.flights == w.flights
    ensures Buffers(c, words, v)
  {
    forall i, j | 0 <= i < c.n && 0 <= j < c.m ensures Matches(v.s.clients[i].acc, v.flights, i, j) {
      assert Matches(w.s.clients[i].acc, w.flights, i, j);
    }
  }

  lemma KeepCounting(c: Config, words: nat, w: World, v: World, i: nat, j: Option<nat>)
    requires Buffers(c, words, w) && i < c.n && (j.Some? ==> j.value < c.m)
    requires Counted(c, w.s, v.s, i, j, None) && v.mem == w.mem
    requires v.flights == w.flights + if j.Some? then [New(i, j.value)] else []
    ensures Buffers(c, words, v)
  {
    if j.Some? { NewOk(c, words, w, i, j.value); }
    FlightsMove(c, words, w, v);
    CountsMove(c, w, v, i, j, None, w.flights);
  }

  lemma KeepDone(c: Config, words: nat, w: World, v: World, i: nat, j: nat, f: nat)
    requires Buffers(c, words, w) && i < c.n && j < c.m && f < |w.flights|
    requires Counted(c, w.s, v.s, i, Some(j), Some(j)) && v.mem == w.mem
    requires w.flights[f].from == Cs(i, j) && !w.flights[f].done
        && forall k | 0 <= k < words :: k in w.flights[f].placed
    requires v.flights == w.flights[f := w.flights[f].(done := true)] + [New(i, j)]
    ensures Buffers(c, words, v)
  {
    var fs := w.flights[f := w.flights[f].(done := true)];
    assert FlightOk(c, words, w.mem, w.flights[f]);
    NewOk(c, words, w, i, j);
    FlightsMove(c, words, w, v);
    forall y, x | 0 <= y < c.n && 0 <= x < c.m
      ensures Posted(fs, Cs(y, x)) == Posted(w.flights, Cs(y, x))
      ensures Polled(fs, Cs(y, x)) == Polled(w.flights, Cs(y, x)) + if y == i && x == j then 1 else 0
    {
      OneChanged(w.flights, f, w.flights[f].(done := true), Cs(y, x));
    }
    CountsMove(c, w, v, i, Some(j), Some(j), fs);
  }

  /** One word arrives. */
  predicate Arrives(words: nat, w: World, v: World, f: nat, k: nat) {
    && f < |w.flights| && k < words && v.s == w.s
    && var fl := w.flights[f];
    && fl.from in w.mem && k < |w.mem[fl.from]|
    && v.mem == w.mem[fl.from := w.mem[fl.from][k := k]]
    && v.flights == w.flights[f := fl.(placed := fl.placed + {k})]
  }

  lemma PlaceArrives(c: Config, words: nat, w: World, f: nat, k: nat)
    requires Buffers(c, words, w) && CanAct(c, words, w, Place(f, k))
    ensures Arrives(words, w, Do(c, words, w, Place(f, k)), f, k)
  {
    assert FlightOk(c, words, w.mem, w.flights[f]);
  }

  lemma ArrivesMem(c: Config, words: nat, w: World, v: World, f: nat, k: nat)
    requires MemOk(c, words, w.mem) && Arrives(words, w, v, f, k)
    ensures MemOk(c, words, v.mem)
  {
    forall l | l in v.mem ensures Clean(v.mem[l], words) { assert Clean(w.mem[l], words); }
  }

  lemma ArrivesFlight(c: Config, words: nat, w: World, v: World, f: nat, k: nat, fl: Flight)
    requires Arrives(words, w, v, f, k) && FlightOk(c, words, w.mem, fl)
    ensures FlightOk(c, words, v.mem, fl)
    ensures fl == w.flights[f] ==> FlightOk(c, words, v.mem, v.flights[f])
  {
  }

  lemma ArrivesFlights(c: Config, words: nat, w: World, v: World, f: nat, k: nat)
    requires FlightsOk(c, words, w) && Arrives(words, w, v, f, k)
    ensures FlightsOk(c, words, v)
  {
    forall g | 0 <= g < |v.flights| ensures FlightOk(c, words, v.mem, v.flights[g]) {
      ArrivesFlight(c, words, w, v, f, k, w.flights[g]);
    }
  }

  lemma ArrivesCounts(c: Config, words: nat, w: World, v: World, f: nat, k: nat)
    requires CountsOk(c, w) && Arrives(words, w, v, f, k)
    ensures CountsOk(c, v)
  {
    forall i, j | 0 <= i < c.n && 0 <= j < c.m ensures Matches(v.s.clients[i].acc, v.flights, i, j) {
      assert Matches(w.s.clients[i].acc, w.flights, i, j);
      OneChanged(w.flights, f, v.flights[f], Cs(i, j));
    }
  }

  /** What a step posts goes to the keys its client holds. */
  predicate Addressed(c: Config, s: State, a: Action)
    requires Can(c, s, a)
  {
    Counting(a) ==>
      && a.cli.i < c.n && |s.clients| == c.n && Sized(s.clients[a.cli.i].acc, c.m)
      && (Aim(c, s, a).Some? ==> Aim(c, s, a).value < c.m)
      && Posts(c, s, a) == if Aim(c, s, a).Some? then [New(a.cli.i, Aim(c, s, a).value)] else []
  }

  lemma KeepBuffers(c: Config, words: nat, w: World, act: Act)
    requires Buffers(c, words, w) && CanAct(c, words, w, act)
    requires act.Place? || Addressed(c, w.s, Underlying(act))
    ensures Buffers(c, words, Do(c, words, w, act))
  {
    var v := Do(c, words, w, act);
    match act
    case Plain(a) =>
      if !Counting(a) {
        PlainCounts(c, w.s, a);
        KeepSame(c, words, w, v);
      } else if a.cli.AFill? {
        FillCounts(c, w.s, a.cli.i);
        KeepCounting(c, words, w, v, a.cli.i, Aim(c, w.s, a));
      } else {
        PollCounts(c, w.s, a.cli.i, a.cli.w);
        KeepCounting(c, words, w, v, a.cli.i, Aim(c, w.s, a));
      }
    case Finish(i, j, f) =>
      PollCounts(c, w.s, i, Write(j));
      KeepDone(c, words, w, v, i, j, f);
    case Place(f, k) =>
      PlaceArrives(c, words, w, f, k);
      ArrivesMem(c, words, w, v, f, k);
      ArrivesFlights(c, words, w, v, f, k);
      ArrivesCounts(c, words, w, v, f, k);
  }

  /** The protocol's part of a step. */
  function Underlying(act: Act): Action {
    if act.Plain? then act.a else if act.Finish? then Polls(act.i, act.j) else Polls(0, 0)
  }

  lemma Keyed(c: Config, s: State, a: Action)
    requires Full(c, s) && Can(c, s, a)
    ensures Addressed(c, s, a)
  {
    if Counting(a) {
      InBounds(c, s, a);
      if Aim(c, s, a).Some? { KeysHeld(c, s, a.cli.i, Aim(c, s, a).value); }
    }
  }

  lemma InBounds(c: Config, s: State, a: Action)
    requires Pcs(c, s) && Accounts(c, s) && |s.clients| == c.n && Can(c, s, a) && Counting(a)
    ensures a.cli.i < c.n && Sized(s.clients[a.cli.i].acc, c.m) && CliConsumed(c, s.clients[a.cli.i].pc) >= 3
    ensures Aim(c, s, a).Some? ==> Aim(c, s, a).value < c.m
  {
    assert CliPcOk(c, a.cli.i, s.clients[a.cli.i].pc) && Account(c, a.cli.i, s.clients[a.cli.i]);
  }

  lemma KeepAct(c: Config, words: nat, w: World, act: Act)
    requires DataOk(c, words, w) && CanAct(c, words, w, act)
    ensures DataOk(c, words, Do(c, words, w, act))
  {
    if !act.Place? {
      var a := Underlying(act);
      KeepFull(c, w.s, a);
      Keyed(c, w.s, a);
    }
    KeepBuffers(c, words, w, act);
  }

  lemma OpeningOk(c: Config, words: nat, w: World)
    requires Sane(c) && Opening(c, words, w)
    ensures DataOk(c, words, w)
  {
    FullBegin(c, w.s);
    NothingPosted(c, words, w);
  }

  lemma NothingPosted(c: Config, words: nat, w: World)
    requires Opening(c, words, w)
    ensures Buffers(c, words, w)
  {
    forall i, j | 0 <= i < c.n && 0 <= j < c.m ensures Matches(w.s.clients[i].acc, w.flights, i, j) {
      assert Initial(w.s.clients[i].acc, i, c.m);
    }
  }

  lemma {:induction false} DataRun(c: Config, words: nat, start: World, acts: seq<Act>)
    requires Sane(c) && Opening(c, words, start) && Execute(c, words, start, acts).Some?
    ensures DataOk(c, words, Execute(c, words, start, acts).value)
  {
    if acts == [] {
      OpeningOk(c, words, start);
    } else {
      var n := |acts| - 1;
      DataRun(c, words, start, acts[..n]);
      KeepAct(c, words, Execute(c, words, start, acts[..n]).value, acts[n]);
    }
  }

  lemma DataOccurs(c: Config, words: nat, w: World)
    requires Sane(c) && Occurs(c, words, w)
    ensures DataOk(c, words, w)
  {
    var start, acts :| Opening(c, words, start) && Execute(c, words, start, acts) == Some(w);
    DataRun(c, words, start, acts);
  }

  // ---------- results

  lemma {:induction false} SomeDone(fs: seq<Flight>, l: Link) returns (f: nat)
    requires Polled(fs, l) > 0
    ensures f < |fs| && fs[f].from == l && fs[f].done
  {
    var n := |fs| - 1;
    if fs[n].from == l && fs[n].done { f := n; } else { f := SomeDone(fs[..n], l); }
  }

  lemma {:induction false} SomeOpen(fs: seq<Flight>, l: Link) returns (f: nat)
    requires Polled(fs, l) < Posted(fs, l)
    ensures f < |fs| && fs[f].from == l && !fs[f].done
  {
    var n := |fs| - 1;
    if fs[n].from == l && !fs[n].done { f := n; } else { f := SomeOpen(fs[..n], l); }
  }

  /** Every word k of a server's buffer for client i is 0 or k, and all are k as soon as the
      completion of any of that client's writes to the server was polled. */
  lemma Integrity(c: Config, words: nat, w: World, i: nat, j: nat)
    requires Sane(c) && Occurs(c, words, w) && i < c.n && j < c.m
    ensures Cs(i, j) in w.mem && |w.mem[Cs(i, j)]| == words
    ensures forall k | 0 <= k < words :: w.mem[Cs(i, j)][k] == 0 || w.mem[Cs(i, j)][k] == k
    ensures i < |w.s.clients| && j < |w.s.clients[i].acc.polled|
    ensures w.s.clients[i].acc.polled[j] > 0 ==> w.mem[Cs(i, j)] == Endpoints.Pattern(words)
  {
    DataOccurs(c, words, w);
    BufferHolds(c, words, w, i, j);
  }

  lemma BufferHolds(c: Config, words: nat, w: World, i: nat, j: nat)
    requires Buffers(c, words, w) && i < c.n && j < c.m
    ensures Cs(i, j) in w.mem && Clean(w.mem[Cs(i, j)], words)
    ensures i < |w.s.clients| && j < |w.s.clients[i].acc.polled|
    ensures w.s.clients[i].acc.polled[j] > 0 ==> w.mem[Cs(i, j)] == Endpoints.Pattern(words)
  {
    assert Valid(c, Cs(i, j)) && Matches(w.s.clients[i].acc, w.flights, i, j);
    if w.s.clients[i].acc.polled[j] > 0 {
      var f := SomeDone(w.flights, Cs(i, j));
      assert FlightOk(c, words, w.mem, w.flights[f]);
    }
  }

  lemma OneWord(c: Config, words: nat, w: World, act: Act, l: Link, k: nat)
    requires Buffers(c, words, w) && CanAct(c, words, w, act) && l in w.mem && k < words
    ensures l in Do(c, words, w, act).mem && k < |w.mem[l]| && k < |Do(c, words, w, act).mem[l]|
    ensures Do(c, words, w, act).mem[l][k] != w.mem[l][k] ==>
              act.Place? && act.k == k && w.flights[act.f].from == l && w.mem[l][k] == 0
  {
    assert Clean(w.mem[l], words);
    if act.Place? { PlaceArrives(c, words, w, act.f, act.k); }
  }

  /** The keys the writes of endpoint l were posted with, in order. */
  function KeysOf(fs: seq<Flight>, l: Link): seq<Option<Link>> {
    if fs == [] then [] else
    var before := KeysOf(fs[..|fs| - 1], l);
    if fs[|fs| - 1].from == l then before + [fs[|fs| - 1].key] else before
  }

  lemma {:induction false} OwnKeys(fs: seq<Flight>, l: Link)
    requires forall f | 0 <= f < |fs| :: fs[f].key == Some(fs[f].from)
    ensures KeysOf(fs, l) == Endpoints.Writes(Posted(fs, l), Some(l))
  {
    if fs != [] { OwnKeys(fs[..|fs| - 1], l); }
  }

  /** The writes client i has posted to server j are as many as it counts, and all of them went to the
      keys its endpoint holds. */
  lemma WritesAimed(c: Config, words: nat, w: World, i: nat, j: nat)
    requires Sane(c) && Occurs(c, words, w) && i < c.n && j < c.m
    ensures i < |w.s.clients| && j < |w.s.clients[i].acc.posted| && Cs(i, j) in w.s.eps
    ensures var n := w.s.clients[i].acc.posted[j];
      && KeysOf(w.flights, Cs(i, j)) == Endpoints.Writes(n, Some(Cs(i, j)))
      && (n > 0 ==> w.s.eps[Cs(i, j)].key == Some(Cs(i, j)))
  {
    DataOccurs(c, words, w);
    AllAimed(c, words, w, i, j);
    assert Valid(c, Cs(i, j)) && Account(c, i, w.s.clients[i]);
    if w.s.clients[i].acc.posted[j] > 0 {
      WritesMeanStarted(c, i, w.s.clients[i], j);
      KeysHeld(c, w.s, i, j);
    }
  }

  lemma AllAimed(c: Config, words: nat, w: World, i: nat, j: nat)
    requires Buffers(c, words, w) && i < c.n && j < c.m
    ensures i < |w.s.clients| && j < |w.s.clients[i].acc.posted|
    ensures KeysOf(w.flights, Cs(i, j)) == Endpoints.Writes(w.s.clients[i].acc.posted[j], Some(Cs(i, j)))
  {
    assert Matches(w.s.clients[i].acc, w.flights, i, j);
    forall f | 0 <= f < |w.flights| ensures w.flights[f].key == Some(w.flights[f].from) {
      assert FlightOk(c, words, w.mem, w.flights[f]);
    }
    OwnKeys(w.flights, Cs(i, j));
  }

  /** A step changes at most one word of one buffer, that of the writing client's own endpoint, and
      never takes a word back. */
  lemma OwnBufferOnly(c: Config, words: nat, w: World, act: Act, l: Link, k: nat)
    requires Sane(c) && Occurs(c, words, w) && CanAct(c, words, w, act) && l in w.mem && k < words
    ensures l in Do(c, words, w, act).mem && k < |w.mem[l]| && k < |Do(c, words, w, act).mem[l]|
    ensures Do(c, words, w, act).mem[l][k] != w.mem[l][k] ==>
              act.Place? && act.k == k && w.flights[act.f].from == l && w.mem[l][k] == 0
  {
    DataOccurs(c, words, w);
    OneWord(c, words, w, act, l, k);
  }

  /** Whatever completion the protocol lets a client poll, there is a write of it that can finish:
      each of its missing words can arrive, and once all have, it can be polled. */
  lemma CanFinish(c: Config, words: nat, w: World, i: nat, j: nat) returns (f: nat)
    requires Sane(c) && Occurs(c, words, w) && Can(c, w.s, Polls(i, j))
    ensures f < |w.flights| && w.flights[f].from == Cs(i, j) && !w.flights[f].done
    ensures forall k | 0 <= k < words :: CanAct(c, words, w, Place(f, k))
    ensures (forall k | 0 <= k < words :: k in w.flights[f].placed) ==> CanAct(c, words, w, Finish(i, j, f))
  {
    DataOccurs(c, words, w);
    f := OpenFlight(c, words, w, i, j);
  }

  lemma OpenFlight(c: Config, words: nat, w: World, i: nat, j: nat) returns (f: nat)
    requires Buffers(c, words, w) && Can(c, w.s, Polls(i, j))
    ensures f < |w.flights| && w.flights[f].from == Cs(i, j) && !w.flights[f].done
    ensures forall k | 0 <= k < words :: CanAct(c, words, w, Place(f, k))
    ensures (forall k | 0 <= k < words :: k in w.flights[f].placed) ==> CanAct(c, words, w, Finish(i, j, f))
  {
    assert Matches(w.s.clients[i].acc, w.flights, i, j);
    f := SomeOpen(w.flights, Cs(i, j));
    assert FlightOk(c, words, w.mem, w.flights[f]);
  }

  /** The protocol takes the steps it takes without the buffers, and no others. */
  lemma {:induction false} Projects(c: Config, words: nat, start: World, acts: seq<Act>)
    requires Opening(c, words, start) && Execute(c, words, start, acts).Some?
    ensures Reachable(c, Execute(c, words, start, acts).value.s)
  {
    if acts == [] {
      assert Exec(c, start.s, []) == Some(start.s);
    } else {
      var n := |acts| - 1;
      Projects(c, words, start, acts[..n]);
      if !acts[n].Place? { Runs.OneStep(c, Execute(c, words, start, acts[..n]).value.s, Underlying(acts[n])); }
    }
  }
}
