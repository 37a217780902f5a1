/** The invariant holds in every reachable state. */
module Runs {
  import opened Wire
  import opened Protocol
  import opened Invariant
  import opened KeepFabric
  import opened KeepController
  import opened KeepAccept
  import KeepServer
  import KeepClient

  lemma NothingUp(s: State)
    requires forall l | l in s.eps :: s.eps[l].st == Idle
    ensures (forall h :: |UpSet(s, h)| == 0) && |GoneSet(s)| == 0
  {
    forall h ensures UpSet(s, h) == {} { }
    assert GoneSet(s) == {};
  }

  lemma LinksBegin(c: Config, s: State)
    requires Begin(c, s)
    ensures Links(c, s)
  {
    forall l | l in s.eps ensures LinkOk(c, s, l) {
      assert Valid(c, l);
    }
  }

  lemma EventsBegin(c: Config, s: State)
    requires Begin(c, s)
    ensures Events(s)
  {
    forall h | h in s.eq ensures EqOk(s, h) {
      assert forall e :: !Pending(s, h, e);
    }
  }

  lemma PcsBegin(c: Config, s: State)
    requires Sane(c) && Begin(c, s)
    ensures Shape(c, s) && Pcs(c, s) && Answers(c, s)
  {
  }

  lemma CountersBegin(c: Config, s: State)
    requires Begin(c, s)
    ensures Counters(c, s)
  {
    NothingUp(s);
  }

  lemma InvBegin(c: Config, s: State)
    requires Sane(c) && Begin(c, s)
    ensures Inv(c, s)
  {
    LinksBegin(c, s);
    EventsBegin(c, s);
    PcsBegin(c, s);
    CountersBegin(c, s);
  }

  lemma KeepFabricStep(c: Config, s: State, a: FabricAct)
    requires Inv(c, s) && CanFabric(c, s, a)
    ensures Inv(c, NextFabric(c, s, a))
  {
    match a
    case AArrive(l) => KeepArrive(c, s, l);
    case AAnswer(l) => KeepAnswer(c, s, l);
    case AEstablish(l) => KeepEstablish(c, s, l);
    case AShutdown(l) => KeepShutdown(c, s, l);
    case ADeliver(l) => KeepDeliver(c, s, l);
    case AReply(i) => KeepReply(c, s, i);
  }

  lemma KeepCtrlStep(c: Config, s: State, a: CtrlAct)
    requires Inv(c, s) && CanCtrl(c, s, a)
    ensures Inv(c, NextCtrl(c, s, a))
  {
    match a
    case AListen => KeepListen(c, s);
    case APost => KeepPost(c, s);
    case ASend => KeepSend(c, s);
    case ADrain => KeepDrain(c, s);
    case AGather(i) => KeepGather(c, s, i);
    case AClose => KeepClose(c, s);
    case AAccept(h) => KeepAccept.KeepAccept(c, s, h);
  }

  lemma KeepCliStep(c: Config, s: State, a: CliAct)
    requires Inv(c, s) && CanCli(c, s, a)
    ensures Inv(c, NextCli(c, s, a))
  {
    match a
    case ARequest(i) => KeepClient.KeepRequest(c, s, i);
    case AConnected(i) => KeepClient.KeepConnected(c, s, i);
    case AKeys(i, u) => KeepClient.KeepKeys(c, s, i, u);
    case ACliPost(i) => KeepClient.KeepCliPost(c, s, i);
    case AObey(i, u) => KeepClient.KeepObey(c, s, i, u);
    case AConfirm(i) => KeepClient.KeepConfirm(c, s, i);
    case ACliTx(i) => KeepClient.KeepCliTx(c, s, i);
    case AFill(i) => KeepClient.KeepFill(c, s, i);
    case AServe(i, u, t) => KeepClient.KeepServe(c, s, i, u, t);
    case APoll(i, w) => KeepClient.KeepPoll(c, s, i, w);
    case AQuit(i) => KeepClient.KeepQuit(c, s, i);
  }

  lemma KeepServerStep(c: Config, s: State, a: ServerAct)
    requires Inv(c, s) && CanServer(c, s, a)
    ensures Inv(c, NextServer(c, s, a))
  {
    match a
    case AOpen(j) => KeepServer.KeepOpen(c, s, j);
    case ASrvRequest(j) => KeepServer.KeepSrvRequest(c, s, j);
    case AUplink(j) => KeepServer.KeepUplink(c, s, j);
    case ASrvKeys(j) => KeepServer.KeepSrvKeys(c, s, j);
    case ASrvPost(j) => KeepServer.KeepSrvPost(c, s, j);
    case ASrvStop(j) => KeepServer.KeepSrvStop(c, s, j);
    case ASrvEvent(j) => KeepServer.KeepSrvEvent(c, s, j);
  }

  lemma KeepStep(c: Config, s: State, a: Action)
    requires Inv(c, s) && Can(c, s, a)
    ensures Inv(c, Next(c, s, a))
  {
    match a
    case ByFabric(x) => KeepFabricStep(c, s, x);
    case ByCtrl(x) => KeepCtrlStep(c, s, x);
    case ByCli(x) => KeepCliStep(c, s, x);
    case ByServer(x) => KeepServerStep(c, s, x);
  }

  /** The invariant holds along every run. */
  lemma {:induction false} InvRun(c: Config, init: State, run: seq<Action>)
    requires Sane(c) && Begin(c, init) && Exec(c, init, run).Some?
    ensures Inv(c, Exec(c, init, run).value)
  {
    if run == [] {
      InvBegin(c, init);
    } else {
      var n := |run| - 1;
      InvRun(c, init, run[..n]);
      KeepStep(c, Exec(c, init, run[..n]).value, run[n]);
    }
  }

  /** And from every state where it holds. */
  lemma {:induction false} InvAfter(c: Config, s: State, run: seq<Action>)
    requires Inv(c, s) && Exec(c, s, run).Some?
    ensures Inv(c, Exec(c, s, run).value)
  {
    if run != [] {
      var n := |run| - 1;
      InvAfter(c, s, run[..n]);
      KeepStep(c, Exec(c, s, run[..n]).value, run[n]);
    }
  }

  lemma OneStep(c: Config, s: State, a: Action)
    requires Reachable(c, s) && Can(c, s, a)
    ensures Reachable(c, Next(c, s, a))
  {
    var init, run :| Begin(c, init) && Exec(c, init, run) == Some(s);
    assert (run + [a])[..|run|] == run;
    assert Exec(c, init, run + [a]) == Some(Next(c, s, a));
  }
}
