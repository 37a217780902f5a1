/** Which configurations end well: every one has a run to the end, and exactly those with no more
    clients than servers never run out of range. */
module Outcomes {
  import opened Wire
  import opened Accounting
  import opened Protocol
  import opened Invariant
  import opened Ledger
  import opened Progress
  import Runs
  import Safety
  import Termination

  // ---------- a beginning

  function FirstAcc(c: Config, i: nat): Acc {
    var rows := seq(c.m, x => Transfer(i, x, 0.0, 0.0, 0));
    var zeros := seq(c.m, _ => 0);
    Acc(rows, rows, rows, WINDOW, zeros, zeros, 0, zeros)
  }

  function FirstClient(c: Config, i: nat): Client {
    Client(Dial(0, ToRequest), [], 0, FirstAcc(c, i), [])
  }

  /** The connections and the event queues of a configuration. */
  function AllLinks(c: Config): set<Link> {
    (set i | 0 <= i < c.n :: Cc(i)) + (set j | 0 <= j < c.m :: Sc(j))
    + (set i, j | 0 <= i < c.n && 0 <= j < c.m :: Cs(i, j))
  }

  function AllHosts(c: Config): set<Host> {
    {Ctl} + set j | 0 <= j < c.m :: Srv(j)
  }

  function First(c: Config): State {
    State(Listening(0), 0, seq(c.n, _ => Port(0, 0, Blank, 0)),
          seq(c.n * c.m, _ => Transfer(0, 0, 0.0, 0.0, 0)), seq(c.n * c.m, _ => Transfer(0, 0, 0.0, 0.0, 0)), [],
          seq(c.n, i requires 0 <= i => FirstClient(c, i)), seq(c.m, _ => Opening(0)),
          map l | l in AllLinks(c) :: Ep(Idle, 0, [], 0, Blank, None),
          map h | h in AllHosts(c) :: [])
  }

  lemma FirstBegins(c: Config)
    ensures Begin(c, First(c)) && Exec(c, First(c), []) == Some(First(c)) && Sound(First(c))
  {
    forall l ensures l in AllLinks(c) <==> Valid(c, l) { }
    forall i: nat | i < c.n ensures Initial(FirstAcc(c, i), i, c.m) { }
  }

  // ---------- every configuration has a complete run

  /** Whatever the numbers of clients, servers and checkpoints, some run ends with every node done. */
  lemma CanComplete(c: Config) returns (run: seq<Action>, t: State)
    requires Sane(c)
    ensures Exec(c, First(c), run) == Some(t) && Reachable(c, t) && Done(t)
  {
    FirstBegins(c);
    FullBegin(c, First(c));
    run, t := Termination.Completes(c, First(c));
  }

  // ---------- out of range

  /** A client that is done was once about to poll for the last time. */
  lemma {:induction false} BeforeDone(c: Config, init: State, run: seq<Action>, i: nat) returns (k: nat)
    requires Begin(c, init) && Exec(c, init, run).Some? && i < c.n
    requires i < |Exec(c, init, run).value.clients| && Exec(c, init, run).value.clients[i].pc == CliDone
    ensures k < |run| && Exec(c, init, run[..k]).Some?
    ensures i < |Exec(c, init, run[..k]).value.clients| && Exec(c, init, run[..k]).value.clients[i].pc == LastPoll
  {
    var n := |run| - 1;
    var s := Exec(c, init, run[..n]).value;
    OnlyFromLast(c, s, run[n], i);
    if s.clients[i].pc == LastPoll {
      k := n;
    } else {
      k := BeforeDone(c, init, run[..n], i);
      assert run[..n][..k] == run[..k];
    }
  }

  lemma OnlyFromLast(c: Config, s: State, a: Action, i: nat)
    requires Can(c, s, a) && i < |Next(c, s, a).clients| && Next(c, s, a).clients[i].pc == CliDone
    ensures i < |s.clients| && (s.clients[i].pc == CliDone || s.clients[i].pc == LastPoll)
  {
    match a
    case ByFabric(x) => FabricAccounts(c, s, x);
    case ByCtrl(x) => CtrlAccounts(c, s, x);
    case ByCli(x) => CliOthers(c, s, x); if x.i == i { DoneFromLast(c, s, x); }
    case ByServer(x) => ServerAccounts(c, s, x);
  }

  lemma DoneFromLast(c: Config, s: State, a: CliAct)
    requires CanCli(c, s, a) && a.i < |NextCli(c, s, a).clients| && NextCli(c, s, a).clients[a.i].pc == CliDone
    ensures a.i < |s.clients| && (s.clients[a.i].pc == CliDone || s.clients[a.i].pc == LastPoll)
  {
  }

  /** A client about to poll for the last time, whose id is no server's, has only to find the
      completion of one of its reports. */
  lemma CrashFromLast(c: Config, s: State, i: nat) returns (r: State)
    requires Sane(c) && Reachable(c, s) && i < |s.clients| && i >= c.m && s.clients[i].pc == LastPoll
    ensures Reachable(c, r) && i < |r.clients| && r.clients[i].pc.Crashed?
  {
    FullReachable(c, s);
    assert Account(c, i, s.clients[i]);
    r := Poll(c, s, i, ReportSend);
    Runs.OneStep(c, s, ByCli(APoll(i, ReportSend)));
  }

  /** A client whose id is not below the number of servers goes out of range in some run. */
  lemma SomeCrash(c: Config, i: nat) returns (s: State)
    requires Sane(c) && c.m <= i < c.n
    ensures Reachable(c, s) && i < |s.clients| && s.clients[i].pc.Crashed?
  {
    var r := LastReached(c, i);
    s := CrashFromLast(c, r, i);
  }

  /** Every client can come to its last poll. */
  lemma LastReached(c: Config, i: nat) returns (s: State)
    requires Sane(c) && i < c.n
    ensures Reachable(c, s) && i < |s.clients| && s.clients[i].pc == LastPoll
  {
    var run, t := CanComplete(c);
    AllClients(c, t);
    FirstBegins(c);
    var k := BeforeDone(c, First(c), run, i);
    s := Exec(c, First(c), run[..k]).value;
  }

  lemma AllClients(c: Config, s: State)
    requires Sane(c) && Reachable(c, s)
    ensures |s.clients| == c.n
  {
    FullReachable(c, s);
  }

  ghost predicate NeverOutOfRange(c: Config) {
    forall s, i | Reachable(c, s) && 0 <= i < |s.clients| :: !s.clients[i].pc.Crashed?
  }

  /** transfer[] and eps[] are indexed within bounds in every run exactly if there are no more
      clients than servers. */
  lemma InRangeExactly(c: Config)
    requires Sane(c)
    ensures NeverOutOfRange(c) <==> c.n <= c.m
  {
    if c.n <= c.m {
      forall s, i | Reachable(c, s) && 0 <= i < |s.clients| ensures !s.clients[i].pc.Crashed? {
        FullReachable(c, s);
        Safety.IndexSafe(c, s, i);
      }
    } else {
      var s := SomeCrash(c, c.m);
    }
  }

  /** With no more clients than servers, every run that cannot go on has ended as it should: all
      nodes done, k checkpoints read out, every report gathered, every SHUTDOWN counted. */
  lemma AlwaysEnds(c: Config, s: State)
    requires Sane(c) && c.n <= c.m && Reachable(c, s) && forall a :: Can(c, s, a) ==> !Control(a)
    ensures Done(s) && |s.readouts| == c.k && |GoneSet(s)| == c.n + c.m
    ensures forall i | 0 <= i < |s.clients| :: |s.clients[i].log| == c.k + 1 && s.clients[i].outbox == []
  {
    InRangeExactly(c);
    Termination.RunsEndDone(c, s);
  }
}
