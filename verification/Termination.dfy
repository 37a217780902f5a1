/** Every run has a bounded number of control steps, and can only stop where everything is done. */
module Termination {
  import opened Wire
  import opened Accounting
  import opened Protocol
  import opened Invariant
  import opened Facts
  import opened Ledger
  import opened Progress
  import opened Measure
  import Runs
  import Safety

  // ---------- sums

  ghost function Sum(n: nat, f: nat -> nat): nat {
    if n == 0 then 0 else Sum(n - 1, f) + f(n - 1)
  }

  lemma {:induction false} SumLe(n: nat, f: nat -> nat, g: nat -> nat)
    requires forall i: nat | i < n :: f(i) <= g(i)
    ensures Sum(n, f) <= Sum(n, g)
  {
    if n > 0 { SumLe(n - 1, f, g); }
  }

  lemma {:induction false} SumLt(n: nat, f: nat -> nat, g: nat -> nat, x: nat)
    requires (forall i: nat | i < n :: f(i) <= g(i)) && x < n && f(x) < g(x)
    ensures Sum(n, f) < Sum(n, g)
  {
    if x == n - 1 { SumLe(n - 1, f, g); } else { SumLt(n - 1, f, g, x); }
  }

  lemma {:induction false} SumMax(n: nat, f: nat -> nat, b: nat)
    requires forall i: nat | i < n :: f(i) <= b
    ensures Sum(n, f) <= n * b
  {
    if n > 0 {
      SumMax(n - 1, f, b);
      assert n * b == (n - 1) * b + b;
    }
  }

  // ---------- the total

  ghost function ServerLinks(c: Config, s: State, i: nat): nat -> nat {
    (j: nat) => LinkWork(c, s, Cs(i, j))
  }

  ghost function ClientShare(c: Config, s: State): nat -> nat {
    (i: nat) => ClientWork(c, s, i) + PortWork(s, i) + LinkWork(c, s, Cc(i)) + Sum(c.m, ServerLinks(c, s, i))
  }

  ghost function ServerShare(c: Config, s: State): nat -> nat {
    (j: nat) => ServerWork(c, s, j) + LinkWork(c, s, Sc(j))
  }

  ghost function Total(c: Config, s: State): nat {
    CtlWork(c, s.ctl) + Sum(c.n, ClientShare(c, s)) + Sum(c.m, ServerShare(c, s))
  }

  /** An explicit bound on the number of control steps of any run. */
  function MostSteps(c: Config): nat { CtlBound(c) + c.n * ClientBound(c) + c.m * ServerBound(c) }
  function CtlBound(c: Config): nat { 2 * (c.n + c.m) + 4 * (c.k + 3) * (c.n + c.m) }
  function ClientBound(c: Config): nat { 26 + 22 * c.m + 3 * c.k }
  function ServerBound(c: Config): nat { c.n + 16 }

  lemma SharesGrow(c: Config, s: State, r: State, i: nat)
    requires Grows(c, s, r)
    ensures ClientShare(c, s)(i) <= ClientShare(c, r)(i) && ServerShare(c, s)(i) <= ServerShare(c, r)(i)
  {
    SumLe(c.m, ServerLinks(c, s, i), ServerLinks(c, r, i));
  }

  lemma TotalGrows(c: Config, s: State, r: State)
    requires Grows(c, s, r)
    ensures Total(c, s) <= Total(c, r)
  {
    forall i: nat ensures ClientShare(c, s)(i) <= ClientShare(c, r)(i) && ServerShare(c, s)(i) <= ServerShare(c, r)(i) {
      SharesGrow(c, s, r, i);
    }
    SumLe(c.n, ClientShare(c, s), ClientShare(c, r));
    SumLe(c.m, ServerShare(c, s), ServerShare(c, r));
  }

  lemma ClientStrict(c: Config, s: State, r: State, i: nat)
    requires Grows(c, s, r) && i < c.n && ClientShare(c, s)(i) < ClientShare(c, r)(i)
    ensures Total(c, s) < Total(c, r)
  {
    forall x: nat ensures ClientShare(c, s)(x) <= ClientShare(c, r)(x) && ServerShare(c, s)(x) <= ServerShare(c, r)(x) {
      SharesGrow(c, s, r, x);
    }
    SumLt(c.n, ClientShare(c, s), ClientShare(c, r), i);
    SumLe(c.m, ServerShare(c, s), ServerShare(c, r));
  }

  lemma ServerStrict(c: Config, s: State, r: State, j: nat)
    requires Grows(c, s, r) && j < c.m && ServerShare(c, s)(j) < ServerShare(c, r)(j)
    ensures Total(c, s) < Total(c, r)
  {
    forall x: nat ensures ClientShare(c, s)(x) <= ClientShare(c, r)(x) && ServerShare(c, s)(x) <= ServerShare(c, r)(x) {
      SharesGrow(c, s, r, x);
    }
    SumLe(c.n, ClientShare(c, s), ClientShare(c, r));
    SumLt(c.m, ServerShare(c, s), ServerShare(c, r), j);
  }

  lemma LinkStrict(c: Config, s: State, r: State, l: Link)
    requires Grows(c, s, r) && Valid(c, l) && LinkWork(c, s, l) < LinkWork(c, r, l)
    ensures Total(c, s) < Total(c, r)
  {
    match l
    case Cc(i) =>
      SumLe(c.m, ServerLinks(c, s, i), ServerLinks(c, r, i));
      ClientStrict(c, s, r, i);
    case Sc(j) => ServerStrict(c, s, r, j);
    case Cs(i, j) =>
      SumLt(c.m, ServerLinks(c, s, i), ServerLinks(c, r, i), j);
      ClientStrict(c, s, r, i);
  }

  lemma TotalGrowsStrictly(c: Config, s: State, r: State)
    requires Grows(c, s, r) && GrowsStrictly(c, s, r)
    ensures Total(c, s) < Total(c, r)
  {
    if CtlWork(c, s.ctl) < CtlWork(c, r.ctl) {
      forall x: nat ensures ClientShare(c, s)(x) <= ClientShare(c, r)(x)
          && ServerShare(c, s)(x) <= ServerShare(c, r)(x) {
        SharesGrow(c, s, r, x);
      }
      SumLe(c.n, ClientShare(c, s), ClientShare(c, r));
      SumLe(c.m, ServerShare(c, s), ServerShare(c, r));
    } else if l :| Valid(c, l) && LinkWork(c, s, l) < LinkWork(c, r, l) {
      LinkStrict(c, s, r, l);
    } else if i: nat :| i < c.n && PortWork(s, i) < PortWork(r, i) {
      SumLe(c.m, ServerLinks(c, s, i), ServerLinks(c, r, i));
      ClientStrict(c, s, r, i);
    } else if i: nat :| i < c.n && ClientWork(c, s, i) < ClientWork(c, r, i) {
      SumLe(c.m, ServerLinks(c, s, i), ServerLinks(c, r, i));
      ClientStrict(c, s, r, i);
    } else {
      var j: nat :| j < c.m && ServerWork(c, s, j) < ServerWork(c, r, j);
      ServerStrict(c, s, r, j);
    }
  }

  // ---------- the bound

  lemma CtlMost(c: Config, pc: CtlPc)
    requires Sane(c) && CtlPcOk(c, pc)
    ensures CtlWork(c, pc) <= CtlBound(c)
  {
    if pc.Round? { Longer(Loops(pc.p, pc.stage), 4 * LastRound(c), c.n + c.m, pc.x); }
  }

  lemma CliMost(c: Config, i: nat, pc: CliPc)
    requires Sane(c) && CliPcOk(c, i, pc)
    ensures CliWork(c, pc) <= 12 + 13 * c.m + c.k
  {
    if pc.Fill? { Longer(pc.r, WINDOW, c.m, pc.j); }
  }

  lemma LinkMost(c: Config, s: State, l: Link)
    requires Core(c, s) && Valid(c, l)
    ensures LinkWork(c, s, l) <= 8 + (match l case Cc(_) => c.k + 4 case Sc(_) => 2 case Cs(_, _) => 1)
  {
    assert LinkOk(c, s, l);
    assert l.Cc? ==> CliPcOk(c, l.i, s.clients[l.i].pc);
    LinkAtMost(c, s, l);
  }

  lemma LinkAtMost(c: Config, s: State, l: Link)
    requires l in s.eps && LinkOk(c, s, l) && (l.Cc? ==> l.i < |s.clients| && CliPcOk(c, l.i, s.clients[l.i].pc))
    ensures LinkWork(c, s, l) <= 8 + (match l case Cc(_) => c.k + 4 case Sc(_) => 2 case Cs(_, _) => 1)
  {
  }

  lemma PortMost(c: Config, s: State, i: nat)
    requires Core(c, s) && i < c.n
    ensures PortWork(s, i) <= c.k + 2
  {
    assert Valid(c, Cc(i)) && ReplyAt(c, s, i);
  }

  lemma SrvMost(c: Config, pc: SrvPc)
    requires SrvPcOk(c, pc)
    ensures SrvWork(c, pc) <= c.n + 6
  {
  }

  lemma ClientMost(c: Config, s: State, i: nat)
    requires Core(c, s) && i < c.n
    ensures ClientShare(c, s)(i) <= ClientBound(c)
  {
    assert CliPcOk(c, i, s.clients[i].pc);
    CliMost(c, i, s.clients[i].pc);
    LinkMost(c, s, Cc(i));
    PortMost(c, s, i);
    forall j: nat | j < c.m ensures ServerLinks(c, s, i)(j) <= 9 { LinkMost(c, s, Cs(i, j)); }
    SumMax(c.m, ServerLinks(c, s, i), 9);
  }

  lemma ServerMost(c: Config, s: State, j: nat)
    requires Core(c, s) && j < c.m
    ensures ServerShare(c, s)(j) <= ServerBound(c)
  {
    PcAt(c, s, j);
    SrvMost(c, s.servers[j]);
    LinkMost(c, s, Sc(j));
  }

  lemma ClientsMost(c: Config, s: State)
    requires Core(c, s)
    ensures Sum(c.n, ClientShare(c, s)) <= c.n * ClientBound(c)
  {
    forall i: nat | i < c.n ensures ClientShare(c, s)(i) <= ClientBound(c) { ClientMost(c, s, i); }
    SumMax(c.n, ClientShare(c, s), ClientBound(c));
  }

  lemma ServersMost(c: Config, s: State)
    requires Core(c, s)
    ensures Sum(c.m, ServerShare(c, s)) <= c.m * ServerBound(c)
  {
    forall j: nat | j < c.m ensures ServerShare(c, s)(j) <= ServerBound(c) { ServerMost(c, s, j); }
    SumMax(c.m, ServerShare(c, s), ServerBound(c));
  }

  lemma TotalMost(c: Config, s: State)
    requires Core(c, s)
    ensures Total(c, s) <= MostSteps(c)
  {
    CtlMost(c, s.ctl);
    ClientsMost(c, s);
    ServersMost(c, s);
    AddBounds(c, s);
  }

  lemma AddBounds(c: Config, s: State)
    requires CtlWork(c, s.ctl) <= CtlBound(c)
    requires Sum(c.n, ClientShare(c, s)) <= c.n * ClientBound(c) && Sum(c.m, ServerShare(c, s)) <= c.m * ServerBound(c)
    ensures Total(c, s) <= MostSteps(c)
  {
  }

  // ---------- runs

  function ControlSteps(run: seq<Action>): nat {
    if run == [] then 0 else ControlSteps(run[..|run| - 1]) + (if Control(run[|run| - 1]) then 1 else 0)
  }

  lemma StepTotal(c: Config, s: State, a: Action)
    requires Inv(c, s) && Can(c, s, a)
    ensures Total(c, s) + (if Control(a) then 1 else 0) <= Total(c, Next(c, s, a))
  {
    StepGrows(c, s, a);
    TotalGrows(c, s, Next(c, s, a));
    if Control(a) { TotalGrowsStrictly(c, s, Next(c, s, a)); }
  }

  lemma {:induction false} RunTotal(c: Config, init: State, run: seq<Action>)
    requires Sane(c) && Begin(c, init) && Exec(c, init, run).Some?
    ensures ControlSteps(run) <= Total(c, Exec(c, init, run).value)
  {
    if run != [] {
      var n := |run| - 1;
      RunTotal(c, init, run[..n]);
      Runs.InvRun(c, init, run[..n]);
      StepTotal(c, Exec(c, init, run[..n]).value, run[n]);
    }
  }

  /** No run has more than MostSteps control steps, however many writes complete in between. */
  lemma BoundedRuns(c: Config, init: State, run: seq<Action>)
    requires Sane(c) && Begin(c, init) && Exec(c, init, run).Some?
    ensures ControlSteps(run) <= MostSteps(c)
  {
    RunTotal(c, init, run);
    Runs.InvRun(c, init, run);
    TotalMost(c, Exec(c, init, run).value);
  }

  /** A run after which no control step is possible has ended: k checkpoints were read out, all
      reports were gathered, every node has returned and every SHUTDOWN was counted. */
  lemma RunsEndDone(c: Config, s: State)
    requires Sane(c) && Reachable(c, s) && Sound(s) && forall a :: Can(c, s, a) ==> !Control(a)
    ensures Done(s) && |s.readouts| == c.k && |GoneSet(s)| == c.n + c.m
    ensures forall i | 0 <= i < |s.clients| :: |s.clients[i].log| == c.k + 1 && s.clients[i].outbox == []
  {
    if !Done(s) {
      var a := NeverStuck(c, s);
    }
    FullReachable(c, s);
    forall i | 0 <= i < |s.clients| ensures |s.clients[i].log| == c.k + 1 && s.clients[i].outbox == [] {
      Safety.AllReported(c, s, i);
    }
  }

  /** From every reachable error-free state the benchmark can be brought to its end by control
      steps alone: no completion of a write is ever needed. */
  lemma {:induction false} Completes(c: Config, s: State) returns (run: seq<Action>, t: State)
    requires Full(c, s) && Sound(s)
    ensures Exec(c, s, run) == Some(t) && Done(t) && ControlSteps(run) == |run|
    decreases MostSteps(c) - Total(c, s)
  {
    if Done(s) {
      run, t := [], s;
    } else {
      var a := Moves(c, s);
      var r := Next(c, s, a);
      KeepFull(c, s, a);
      StepTotal(c, s, a);
      TotalMost(c, r);
      StaysSound(c, s, a);
      var rest;
      rest, t := Completes(c, r);
      run := [a] + rest;
      Prefixed(c, s, a, rest);
    }
  }

  lemma StaysSound(c: Config, s: State, a: Action)
    requires Sound(s) && Can(c, s, a) && Control(a)
    ensures Sound(Next(c, s, a))
  {
    match a
    case ByFabric(x) => FabricAccounts(c, s, x);
    case ByCtrl(x) => CtrlAccounts(c, s, x);
    case ByCli(x) => CliOthers(c, s, x); CliSound(c, s, x);
    case ByServer(x) => ServerAccounts(c, s, x);
  }

  lemma CliSound(c: Config, s: State, a: CliAct)
    requires CanCli(c, s, a) && !a.APoll? && a.i < |NextCli(c, s, a).clients| && !s.clients[a.i].pc.Crashed?
    ensures !NextCli(c, s, a).clients[a.i].pc.Crashed?
  {
  }

  lemma {:induction false} Prefixed(c: Config, s: State, a: Action, rest: seq<Action>)
    requires Can(c, s, a)
    ensures Exec(c, s, [a] + rest) == Exec(c, Next(c, s, a), rest)
    ensures ControlSteps([a] + rest) == (if Control(a) then 1 else 0) + ControlSteps(rest)
  {
    var all := [a] + rest;
    if rest == [] {
      assert all[..0] == [] && all == [a];
      assert Exec(c, s, all[..0]) == Some(s);
    } else {
      var n := |rest| - 1;
      assert all[..|all| - 1] == [a] + rest[..n] && all[|all| - 1] == rest[n];
      Prefixed(c, s, a, rest[..n]);
    }
  }
}
