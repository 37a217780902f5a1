/** A server after waitAllConn over whole runs: what it reads makes its loop go on until STOP and leave
    with it, and no connection is accepted nor greeted any more. */
module ServerRuns {
  import opened Wire
  import opened Protocol
  import opened Invariant
  import Endpoints
  import KeepServer
  import Runs
  import Acceptance
  import Serving

  /** An event as the fabric reports it: fids tells the endpoints apart, and every answer is taken. */
  function EventOf(e: Event, fids: Link -> nat): Acceptance.CmEvent {
    match e
    case Req(l) => Acceptance.ConnReq(fids(l), Endpoints.Granted)
    case Est(l) => Acceptance.CmEvent.Connected(fids(l), 0)
    case Own(l) => Acceptance.CmEvent.Connected(fids(l), 0)
    case Down(l) => Acceptance.Shutdown(fids(l))
  }

  function TurnOf(c: Config, s: State, j: nat, a: ServerAct, fids: Link -> nat): seq<Serving.Turn>
    requires CanServer(c, s, a)
  {
    match a
    case ASrvStop(x) =>
      var b := s.eps[Sc(x)].buff;
      if x == j then [Serving.Turn(Some(Serving.Message(Len(b), b)), None)] else []
    case ASrvEvent(x) => if x == j then [Serving.Turn(None, Some(EventOf(s.eq[Srv(x)][0], fids)))] else []
    case _ => []
  }

  /** What server j reads while it waits for STOP, in order. */
  function Turns(c: Config, init: State, run: seq<Action>, j: nat, fids: Link -> nat): seq<Serving.Turn>
    requires Exec(c, init, run).Some?
  {
    if run == [] then [] else
    var before, a := run[..|run| - 1], run[|run| - 1];
    Turns(c, init, before, j, fids)
    + if a.ByServer? then TurnOf(c, Exec(c, init, before).value, j, a.server, fids) else []
  }

  predicate Leaving(t: Serving.Turn) { t.order == None && t.event.Some? && t.event.value.Shutdown? }

  predicate OnlyLeaving(turns: seq<Serving.Turn>) { forall t | 0 <= t < |turns| :: Leaving(turns[t]) }

  predicate Attends(pc: SrvPc, turns: seq<Serving.Turn>) {
    if pc == Running then OnlyLeaving(turns)
    else if pc == SrvDone then
      turns != [] && OnlyLeaving(turns[..|turns| - 1])
          && turns[|turns| - 1] == Serving.Turn(Some(Serving.Message(INT_SIZE, Cmd(Stop))), None)
    else turns == []
  }

  // ---------- steps

  lemma FabricSame(c: Config, s: State, a: FabricAct)
    requires CanFabric(c, s, a)
    ensures NextFabric(c, s, a).servers == s.servers
  {
  }

  lemma CliSame(c: Config, s: State, a: CliAct)
    requires CanCli(c, s, a)
    ensures NextCli(c, s, a).servers == s.servers
  {
  }

  lemma CtrlSame(c: Config, s: State, a: CtrlAct, j: nat)
    requires CanCtrl(c, s, a) && j < |s.servers|
    ensures var r := NextCtrl(c, s, a);
      && j < |r.servers|
      && (r.servers[j] == s.servers[j]
          || (s.servers[j].SrvAccepting? && (r.servers[j].SrvAccepting? || r.servers[j] == PostStop)))
  {
  }

  /** What the server itself does. */
  lemma ServerTurn(c: Config, s: State, a: ServerAct, j: nat, fids: Link -> nat, turns: seq<Serving.Turn>)
    requires CanServer(c, s, a) && j < |s.servers| && Attends(s.servers[j], turns)
    requires a == ASrvEvent(j) ==> s.eq[Srv(j)][0].Down?
    requires a == ASrvStop(j) ==> s.eps[Sc(j)].buff == Cmd(Stop)
    requires j < |NextServer(c, s, a).servers| && NextServer(c, s, a).servers[j] != SrvFailed
    ensures Attends(NextServer(c, s, a).servers[j], turns + TurnOf(c, s, j, a, fids))
  {
    var more := turns + TurnOf(c, s, j, a, fids);
    if a == ASrvStop(j) {
      assert more[..|more| - 1] == turns;
    } else if a == ASrvEvent(j) {
      assert more[|turns|] == Serving.Turn(None, Some(EventOf(s.eq[Srv(j)][0], fids)));
    } else {
      assert more == turns;
    }
  }

  lemma TurnFacts(c: Config, s: State, a: ServerAct, j: nat)
    requires Inv(c, s) && CanServer(c, s, a) && j < |s.servers|
    ensures a == ASrvEvent(j) ==> s.eq[Srv(j)][0].Down?
    ensures a == ASrvStop(j) ==> s.eps[Sc(j)].buff == Cmd(Stop)
  {
    if a == ASrvEvent(j) {
      KeepServer.OnlyDown(c, s, j);
    } else if a == ASrvStop(j) {
      assert LinkOk(c, s, Sc(j));
      KeepServer.StopOk(c, s, j);
    }
  }

  lemma AttendStep(c: Config, s: State, a: Action, j: nat, fids: Link -> nat, turns: seq<Serving.Turn>)
    requires Inv(c, s) && Can(c, s, a) && j < c.m && Attends(s.servers[j], turns) && Inv(c, Next(c, s, a))
    ensures Attends(Next(c, s, a).servers[j], turns + if a.ByServer? then TurnOf(c, s, j, a.server, fids) else [])
  {
    match a
    case ByFabric(x) => FabricSame(c, s, x); assert turns + [] == turns;
    case ByCtrl(x) => CtrlSame(c, s, x, j); assert turns + [] == turns;
    case ByCli(x) => CliSame(c, s, x); assert turns + [] == turns;
    case ByServer(x) =>
      TurnFacts(c, s, x, j);
      assert SrvPcOk(c, Next(c, s, a).servers[j]);
      ServerTurn(c, s, x, j, fids, turns);
  }

  lemma {:induction false} AttendRun(c: Config, init: State, run: seq<Action>, j: nat, fids: Link -> nat)
    requires Sane(c) && Begin(c, init) && Exec(c, init, run).Some? && j < c.m
    ensures j < |Exec(c, init, run).value.servers|
    ensures Attends(Exec(c, init, run).value.servers[j], Turns(c, init, run, j, fids))
  {
    if run != [] {
      var n := |run| - 1;
      AttendRun(c, init, run[..n], j, fids);
      Runs.InvRun(c, init, run[..n]);
      Runs.InvRun(c, init, run);
      AttendStep(c, Exec(c, init, run[..n]).value, run[n], j, fids, Turns(c, init, run[..n], j, fids));
    }
  }

  // ---------- results

  lemma {:induction false} SeenLeaving(d: Acceptance.Desk, turns: seq<Serving.Turn>)
    requires OnlyLeaving(turns)
    ensures Acceptance.After(d, Serving.Seen(turns)).slots == d.slots
        && Acceptance.After(d, Serving.Seen(turns)).next == d.next
    ensures Serving.Quiet(d, turns)
  {
    if turns != [] {
      var n := |turns| - 1;
      SeenLeaving(d, turns[..n]);
      Serving.Turned(d, turns, n);
      assert turns[..n + 1] == turns;
    }
  }

  /** In every run, the loop of a server goes on with what the server has read as long as it is running,
      and has left with 0 when it is done; the state of its endpoints is what it was. */
  lemma ServingRefines(c: Config, init: State, run: seq<Action>, j: nat, fids: Link -> nat, d: Acceptance.Desk)
    requires Sane(c) && Begin(c, init) && Exec(c, init, run).Some? && j < c.m
    ensures j < |Exec(c, init, run).value.servers|
    ensures var pc, turns := Exec(c, init, run).value.servers[j], Turns(c, init, run, j, fids);
      && (pc == Running || pc == SrvDone ==> Serving.Leaves(d, turns, 0, |turns|, pc == SrvDone))
      && Acceptance.After(d, Serving.Seen(turns)).slots == d.slots
  {
    AttendRun(c, init, run, j, fids);
    Attended(Exec(c, init, run).value.servers[j], Turns(c, init, run, j, fids), d);
  }

  lemma Attended(pc: SrvPc, turns: seq<Serving.Turn>, d: Acceptance.Desk)
    requires Attends(pc, turns)
    ensures pc == Running || pc == SrvDone ==> Serving.Leaves(d, turns, 0, |turns|, pc == SrvDone)
    ensures Acceptance.After(d, Serving.Seen(turns)).slots == d.slots
  {
    if pc == SrvDone {
      var n := |turns| - 1;
      SeenLeaving(d, turns[..n]);
      Serving.Turned(d, turns, n);
      assert turns[..n + 1] == turns;
    } else {
      SeenLeaving(d, turns);
      assert turns[..|turns|] == turns;
    }
  }
}
