/** The whole benchmark as a step relation: one controller, n clients, m servers, the
    connections between them and their event and completion queues.

    What is assumed of the fabric, and nothing more:
    - messages of one connection arrive reliably and in order, each in a posted receive, and
      wait until there is one;
    - a connection request waits until the peer listens on that endpoint;
    - events of one node are read in the order they were queued; the active side's CONNECTED
      is queued before the passive side's;
    - every posted send and write yields exactly one completion; completions of different
      endpoints are polled in any order;
    - what a node has sent is delivered before its peer sees its SHUTDOWN.
    A message to a client or server carries the payload it had when it was posted. A message
    to the controller carries whatever its sender's buffer holds when it is delivered. */
module Protocol {
  import opened Wire
  import opened Accounting

  /** n clients, m servers, k checkpoints before the stop. */
  datatype Config = Config(n: nat, m: nat, k: nat)

  predicate Sane(c: Config) { c.n > 0 && c.m > 0 }

  datatype Host = Ctl | Srv(j: nat)

  // ---------- connections

  datatype Conn = Idle | Requested | ReqQueued | Accepted | Answered | EstQueued | Up | DownQueued | Gone

  function Rank(s: Conn): nat {
    match s
    case Idle => 0 case Requested => 1 case ReqQueued => 2 case Accepted => 3 case Answered => 4
    case EstQueued => 5 case Up => 6 case DownQueued => 7 case Gone => 8
  }

  /** Event queue entries: CONNREQ, CONNECTED and SHUTDOWN on the passive side of a
      connection; Own is the CONNECTED of a server's own dial to the controller. */
  datatype Event = Req(l: Link) | Est(l: Link) | Down(l: Link) | Own(l: Link)

  /** The dialling endpoint of a connection, with the messages on their way to it.
      posted: receives not yet filled; landed: receive completions not yet polled. */
  datatype Ep = Ep(st: Conn, posted: nat, inbox: seq<Payload>, landed: nat, buff: Payload, key: Option<Link>)

  function Passive(l: Link): Host {
    match l case Cc(_) => Ctl case Sc(_) => Ctl case Cs(_, j) => Srv(j)
  }

  predicate Valid(c: Config, l: Link) {
    match l case Cc(i) => i < c.n case Sc(j) => j < c.m case Cs(i, j) => i < c.n && j < c.m
  }

  /** Position of the passive endpoint of l in its node's list of endpoints. */
  function Slot(c: Config, l: Link): nat {
    match l case Cc(i) => i case Sc(j) => c.n + j case Cs(i, _) => i
  }

  // ---------- nodes

  datatype Stage = Posting | Sending | Draining | Gathering

  /** Round p has command CmdOf(p); Round(p, stage, x) is loop `stage` of it at index x. */
  datatype CtlPc = Listening(x: nat) | Accepting(c: int) | Round(p: nat, stage: Stage, x: nat)
                 | Closing(c: int) | Finished | CtlFailed

  /** The controller's endpoint for client i; taken counts the replies copied out of it (history). */
  datatype Port = Port(posted: nat, landed: nat, buff: Payload, taken: nat)

  datatype Sub = ToRequest | ToEvent | ToKeys

  /** Dial(t, _) connects to the controller (t = 0) or to server t - 1. h counts commands handled.
      Crashed is the access of transfer[] or eps[] outside its bounds. */
  datatype CliPc = Dial(t: nat, sub: Sub) | PostConnect | AwaitConnect | PostStart | Confirm | AwaitTx
                 | AwaitStart | PostBench | Fill(r: nat, j: nat) | Loop(h: nat) | LastPoll | CliDone
                 | Crashed(h: nat) | CliFailed

  /** outbox: messages sent and not yet delivered; sends: their completions not yet polled;
      log: every report sent (history). */
  datatype Client = Client(pc: CliPc, outbox: seq<Payload>, sends: nat, acc: Acc, log: seq<Entry>)

  datatype SrvPc = Opening(x: nat) | SrvDial(sub: Sub) | SrvAccepting(c: int) | PostStop | Running
                 | SrvDone | SrvFailed

  /** tx: send completions the controller has not polled; readouts: the checkpoint matrix as it
      was read out after every checkpoint (history). */
  datatype State = State(ctl: CtlPc, tx: nat, ports: seq<Port>,
                         checkpoint: seq<Transfer>, summary: seq<Transfer>, readouts: seq<seq<Transfer>>,
                         clients: seq<Client>, servers: seq<SrvPc>,
                         eps: map<Link, Ep>, eq: map<Host, seq<Event>>)

  // ---------- the controller's rounds

  function LastRound(c: Config): nat { c.k + 3 }

  function CmdOf(c: Config, p: nat): Command {
    if p == 1 then Connect else if p == 2 then Start else if p < LastRound(c) then Checkpoint else Stop
  }

  function Targets(c: Config, p: nat): nat {
    if p == LastRound(c) then c.n + c.m else c.n
  }

  function Bound(c: Config, p: nat, st: Stage): nat {
    if st == Sending || st == Draining then Targets(c, p) else c.n
  }

  /** The loop that follows loop `st` of round p. */
  function After(c: Config, p: nat, st: Stage): CtlPc {
    match st
    case Posting => Round(p, Sending, 0)
    case Sending => Round(p, Draining, 0)
    case Draining => if p == 2 then Round(3, Posting, 0) else Round(p, Gathering, 0)
    case Gathering =>
      if p == 1 then Round(2, Sending, 0) else if p < LastRound(c) then Round(p + 1, Posting, 0) else Closing(0)
  }

  function Settle(c: Config, p: nat, st: Stage, x: nat): CtlPc {
    if x < Bound(c, p, st) then Round(p, st, x) else After(c, p, st)
  }

  function Target(c: Config, x: nat): Link {
    if x < c.n then Cc(x) else Sc(if x >= c.n then x - c.n else 0)
  }

  function PutAt(a: seq<Transfer>, at: nat, row: seq<Transfer>): (r: seq<Transfer>)
    requires at + |row| <= |a|
  {
    a[..at] + row + a[at + |row|..]
  }

  /** Row `i` of a matrix with m columns, overwritten as by memcpy(&a[i*m], row, ...). */
  function StoreRow(a: seq<Transfer>, m: nat, i: nat, row: seq<Transfer>): (r: seq<Transfer>)
    requires |row| == m && i * m + m <= |a|
  {
    PutAt(a, i * m, row)
  }

  // ---------- the clients' phases

  function LinkTo(i: nat, t: nat): Link {
    if t == 0 then Cc(i) else Cs(i, t - 1)
  }

  predicate OwnedBy(l: Link, i: nat) {
    match l case Cc(x) => x == i case Sc(_) => false case Cs(x, _) => x == i
  }

  function AfterKeys(c: Config, t: nat): CliPc {
    if t == 0 then PostConnect else if t < c.m then Dial(t + 1, ToRequest) else PostStart
  }

  function NextFill(c: Config, r: nat, j: nat): CliPc {
    if j + 1 < c.m then Fill(r, j + 1) else if r + 1 < WINDOW then Fill(r + 1, 0) else Loop(0)
  }

  // ---------- small updates

  function Push(eq: map<Host, seq<Event>>, h: Host, e: Event): map<Host, seq<Event>> {
    if h in eq then eq[h := eq[h] + [e]] else eq
  }

  function SetSt(s: State, l: Link, st: Conn): State
    requires l in s.eps
  {
    s.(eps := s.eps[l := s.eps[l].(st := st)])
  }

  function PostRecv(s: State, l: Link): State
    requires l in s.eps
  {
    s.(eps := s.eps[l := s.eps[l].(posted := s.eps[l].posted + 1)])
  }

  function SendTo(s: State, l: Link, p: Payload): State
    requires l in s.eps
  {
    s.(eps := s.eps[l := s.eps[l].(inbox := s.eps[l].inbox + [p])])
  }

  function PollRx(s: State, l: Link): State
    requires l in s.eps && s.eps[l].landed > 0
  {
    s.(eps := s.eps[l := s.eps[l].(landed := s.eps[l].landed - 1)])
  }

  function SetPc(s: State, i: nat, pc: CliPc): State
    requires i < |s.clients|
  {
    s.(clients := s.clients[i := s.clients[i].(pc := pc)])
  }

  function SetSrv(s: State, j: nat, pc: SrvPc): State
    requires j < |s.servers|
  {
    s.(servers := s.servers[j := pc])
  }

  // ---------- steps of the fabric

  predicate Listens(c: Config, s: State, l: Link) {
    match Passive(l)
    case Ctl => !(s.ctl.Listening? && s.ctl.x <= Slot(c, l))
    case Srv(j) => j < |s.servers| && !(s.servers[j].Opening? && s.servers[j].x <= Slot(c, l))
  }

  /** The node that dialled l has returned from its phases. */
  predicate Exited(s: State, l: Link) {
    match l
    case Cc(i) => i < |s.clients| && s.clients[i].pc == CliDone && s.clients[i].outbox == []
    case Cs(i, _) => i < |s.clients| && s.clients[i].pc == CliDone
    case Sc(j) => j < |s.servers| && s.servers[j] == SrvDone
  }

  predicate CanArrive(c: Config, s: State, l: Link) {
    l in s.eps && s.eps[l].st == Requested && Listens(c, s, l)
  }

  function Arrive(s: State, l: Link): State
    requires l in s.eps
  {
    SetSt(s, l, ReqQueued).(eq := Push(s.eq, Passive(l), Req(l)))
  }

  predicate CanAnswer(s: State, l: Link) { l in s.eps && s.eps[l].st == Accepted }
  function Answer(s: State, l: Link): State
    requires l in s.eps
  {
    SetSt(s, l, Answered).(eq := if l.Sc? then Push(s.eq, Srv(l.j), Own(l)) else s.eq)
  }

  predicate CanEstablish(s: State, l: Link) { l in s.eps && s.eps[l].st == Answered }
  function Establish(s: State, l: Link): State
    requires l in s.eps
  {
    SetSt(s, l, EstQueued).(eq := Push(s.eq, Passive(l), Est(l)))
  }

  predicate CanShutdown(s: State, l: Link) { l in s.eps && s.eps[l].st == Up && Exited(s, l) }
  function Shutdown(s: State, l: Link): State
    requires l in s.eps
  {
    SetSt(s, l, DownQueued).(eq := Push(s.eq, Passive(l), Down(l)))
  }

  predicate CanDeliver(s: State, l: Link) { l in s.eps && s.eps[l].inbox != [] && s.eps[l].posted > 0 }
  function Deliver(s: State, l: Link): State
    requires CanDeliver(s, l)
  {
    var e := s.eps[l];
    s.(eps := s.eps[l := e.(posted := e.posted - 1, landed := e.landed + 1, buff := e.inbox[0], inbox := e.inbox[1..])])
  }

  predicate CanReply(s: State, i: nat) {
    i < |s.clients| && i < |s.ports| && Cc(i) in s.eps && s.clients[i].outbox != [] && s.ports[i].posted > 0
  }

  function Reply(s: State, i: nat): State
    requires CanReply(s, i)
  {
    var p := s.ports[i];
    s.(ports := s.ports[i := p.(posted := p.posted - 1, landed := p.landed + 1, buff := s.eps[Cc(i)].buff)],
       clients := s.clients[i := s.clients[i].(outbox := s.clients[i].outbox[1..])])
  }

  // ---------- waitAllConn, at the controller and at the servers

  /** The counter of waitAllConn after an event: every CONNECTED counts up, every SHUTDOWN down. */
  function Count(counter: int, e: Event): int {
    match e
    case Req(_) => counter
    case Est(_) => counter + 1
    case Own(_) => counter + 1
    case Down(_) => counter - 1
  }

  /** Accepting a request, answering CONNECTED with the keys. */
  function Handle(s: State, h: Host, e: Event): State {
    match e
    case Req(l) => if l in s.eps then SetSt(s, l, Accepted) else s
    case Est(l) =>
      if l !in s.eps then s else
      var r := SendTo(SetSt(s, l, Up), l, Keys(l));
      if h != Ctl then r else
      r.(tx := r.tx + 1,
         ports := if l.Cc? && l.i < |r.ports| then r.ports[l.i := r.ports[l.i].(buff := Keys(l))] else r.ports)
    case Down(l) => if l in s.eps then SetSt(s, l, Gone) else s
    case Own(_) => s
  }

  function Pop(s: State, h: Host): State
    requires h in s.eq && s.eq[h] != []
  {
    s.(eq := s.eq[h := s.eq[h][1..]])
  }

  predicate CanAccept(s: State, h: Host) {
    && h in s.eq && s.eq[h] != []
    && match h case Ctl => s.ctl.Accepting? case Srv(j) => j < |s.servers| && s.servers[j].SrvAccepting?
  }

  function Accept(c: Config, s: State, h: Host): State
    requires CanAccept(s, h)
  {
    var e := s.eq[h][0];
    var r := Handle(Pop(s, h), h, e);
    match h
    case Ctl =>
      var x := Count(s.ctl.c, e);
      r.(ctl := if x < c.n + c.m then Accepting(x) else Round(1, Posting, 0))
    case Srv(j) =>
      var x := Count(s.servers[j].c, e);
      r.(servers := s.servers[j := if x < c.n then SrvAccepting(x) else PostStop])
  }

  // ---------- steps of the controller

  predicate CanListen(s: State) { s.ctl.Listening? }
  function Listen(c: Config, s: State): State
    requires CanListen(s)
  {
    s.(ctl := if s.ctl.x + 1 < c.n + c.m then Listening(s.ctl.x + 1) else Accepting(0))
  }

  predicate CanPost(s: State) { s.ctl.Round? && s.ctl.stage == Posting && s.ctl.x < |s.ports| }
  function CtlPost(c: Config, s: State): State
    requires CanPost(s)
  {
    var x := s.ctl.x;
    s.(ports := s.ports[x := s.ports[x].(posted := s.ports[x].posted + 1)], ctl := Settle(c, s.ctl.p, Posting, x + 1))
  }

  predicate CanSend(c: Config, s: State) { s.ctl.Round? && s.ctl.stage == Sending && Target(c, s.ctl.x) in s.eps }
  function CtlSend(c: Config, s: State): State
    requires CanSend(c, s)
  {
    var x, cmd := s.ctl.x, Cmd(CmdOf(c, s.ctl.p));
    SendTo(s, Target(c, x), cmd).(
      tx := s.tx + 1,
      ports := if x < |s.ports| then s.ports[x := s.ports[x].(buff := cmd)] else s.ports,
      ctl := Settle(c, s.ctl.p, Sending, x + 1))
  }

  predicate CanDrain(s: State) { s.ctl.Round? && s.ctl.stage == Draining && s.tx > 0 }
  function CtlDrain(c: Config, s: State): State
    requires CanDrain(s)
  {
    s.(tx := s.tx - 1, ctl := Settle(c, s.ctl.p, Draining, s.ctl.x + 1))
  }

  predicate CanGather(s: State, i: nat) {
    s.ctl.Round? && s.ctl.stage == Gathering && i < |s.ports| && s.ports[i].landed > 0
  }

  /** A receive completion with context id i: the confirmation or report in buffer i is taken. */
  function CtlGather(c: Config, s: State, i: nat): State
    requires CanGather(s, i)
  {
    var p, x, port := s.ctl.p, s.ctl.x, s.ports[i];
    var r := s.(ports := s.ports[i := port.(landed := port.landed - 1, taken := port.taken + 1)]);
    if p == 1 then
      if Len(port.buff) != INT_SIZE then r.(ctl := CtlFailed)
      else r.(ctl := Settle(c, p, Gathering, if port.buff == Cmd(Connected) then x + 1 else x))
    else
      var fits := port.buff.Report? && |port.buff.rows| == c.m;
      var d := r.(ctl := Settle(c, p, Gathering, x + 1));
      if p < LastRound(c) then
        var a := if fits && i * c.m + c.m <= |s.checkpoint| then StoreRow(s.checkpoint, c.m, i, port.buff.rows)
                 else s.checkpoint;
        d.(checkpoint := a, readouts := if x + 1 < c.n then s.readouts else s.readouts + [a])
      else
        d.(summary := if fits && i * c.m + c.m <= |s.summary| then StoreRow(s.summary, c.m, i, port.buff.rows)
                      else s.summary)
  }

  predicate CanClose(s: State) { s.ctl.Closing? && Ctl in s.eq && s.eq[Ctl] != [] }
  function CtlClose(c: Config, s: State): State
    requires CanClose(s)
  {
    var e := s.eq[Ctl][0];
    if !e.Down? then Pop(s, Ctl) else
    var r := if e.l in s.eps then SetSt(Pop(s, Ctl), e.l, Gone) else Pop(s, Ctl);
    r.(ctl := if s.ctl.c + 1 < c.n + c.m then Closing(s.ctl.c + 1) else Finished)
  }

  // ---------- steps of the clients

  predicate CanRequest(s: State, i: nat) {
    i < |s.clients| && s.clients[i].pc.Dial? && s.clients[i].pc.sub == ToRequest
        && LinkTo(i, s.clients[i].pc.t) in s.eps
  }

  function Request(s: State, i: nat): State
    requires CanRequest(s, i)
  {
    var t := s.clients[i].pc.t;
    SetPc(SetSt(PostRecv(s, LinkTo(i, t)), LinkTo(i, t), Requested), i, Dial(t, ToEvent))
  }

  predicate CanConnected(s: State, i: nat) {
    && i < |s.clients| && s.clients[i].pc.Dial? && s.clients[i].pc.sub == ToEvent
    && LinkTo(i, s.clients[i].pc.t) in s.eps && Rank(s.eps[LinkTo(i, s.clients[i].pc.t)].st) >= Rank(Answered)
  }

  function CliConnected(s: State, i: nat): State
    requires CanConnected(s, i)
  {
    SetPc(s, i, Dial(s.clients[i].pc.t, ToKeys))
  }

  function KeyIn(p: Payload): Option<Link> {
    if p.Keys? then Some(p.owner) else None
  }

  /** A completion of client i's receive queue, on whichever of its endpoints. */
  predicate RxOf(s: State, i: nat, u: Link) {
    i < |s.clients| && Cc(i) in s.eps && u in s.eps && OwnedBy(u, i) && s.eps[u].landed > 0
  }

  /** The size asked for by the last receive posted on u while its client dials t: the keys' size, or
      a command's on the endpoint towards the controller once that is connected. */
  function AskedSize(t: nat, u: Link): nat { if u.Cc? && t > 0 then INT_SIZE else KEYS_SIZE }

  predicate CanKeys(s: State, i: nat, u: Link) {
    && RxOf(s, i, u) && s.clients[i].pc.Dial? && s.clients[i].pc.sub == ToKeys
    && LinkTo(i, s.clients[i].pc.t) in s.eps
  }

  function TakeKeys(c: Config, s: State, i: nat, u: Link): State
    requires CanKeys(s, i, u)
  {
    var t := s.clients[i].pc.t;
    var l := LinkTo(i, t);
    var r := PollRx(s, u);
    if Len(s.eps[u].buff) != AskedSize(t, u) then SetPc(r, i, CliFailed)
    else SetPc(r.(eps := r.eps[l := r.eps[l].(key := KeyIn(s.eps[l].buff))]), i, AfterKeys(c, t))
  }

  predicate CanCliPost(s: State, i: nat) {
    && i < |s.clients| && Cc(i) in s.eps
    && (s.clients[i].pc == PostConnect || s.clients[i].pc == PostStart || s.clients[i].pc == PostBench)
  }

  function CliPost(s: State, i: nat): State
    requires CanCliPost(s, i)
  {
    var pc := s.clients[i].pc;
    SetPc(PostRecv(s, Cc(i)), i,
          if pc == PostConnect then AwaitConnect else if pc == PostStart then Confirm else Fill(0, 0))
  }

  predicate CanObey(s: State, i: nat, u: Link) {
    RxOf(s, i, u) && (s.clients[i].pc == AwaitConnect || s.clients[i].pc == AwaitStart)
  }

  /** A message of the wrong size draws a warning and passes; a wrong command is an error. */
  function Obey(s: State, i: nat, u: Link): State
    requires CanObey(s, i, u)
  {
    var first := s.clients[i].pc == AwaitConnect;
    var pass := Len(s.eps[u].buff) != INT_SIZE || s.eps[Cc(i)].buff == Cmd(if first then Connect else Start);
    SetPc(PollRx(s, u), i, if !pass then CliFailed else if first then Dial(1, ToRequest) else PostBench)
  }

  /** Copy p into the control buffer towards the controller and send it. */
  function CliSend(s: State, i: nat, p: Payload): State
    requires i < |s.clients| && Cc(i) in s.eps
  {
    var cl := s.clients[i];
    s.(eps := s.eps[Cc(i) := s.eps[Cc(i)].(buff := p)],
       clients := s.clients[i := cl.(outbox := cl.outbox + [p], sends := cl.sends + 1)])
  }

  predicate CanConfirm(s: State, i: nat) { i < |s.clients| && Cc(i) in s.eps && s.clients[i].pc == Confirm }
  function CliConfirm(s: State, i: nat): State
    requires CanConfirm(s, i)
  {
    SetPc(CliSend(s, i, Cmd(Connected)), i, AwaitTx)
  }

  predicate CanCliTx(s: State, i: nat) { i < |s.clients| && s.clients[i].pc == AwaitTx && s.clients[i].sends > 0 }
  function CliTx(s: State, i: nat): State
    requires CanCliTx(s, i)
  {
    s.(clients := s.clients[i := s.clients[i].(pc := AwaitStart, sends := s.clients[i].sends - 1)])
  }

  predicate CanFill(s: State, i: nat) {
    i < |s.clients| && s.clients[i].pc.Fill? && s.clients[i].pc.j < |s.clients[i].acc.posted|
  }

  function CliFill(c: Config, s: State, i: nat): State
    requires CanFill(s, i)
  {
    var cl := s.clients[i];
    s.(clients := s.clients[i := cl.(pc := NextFill(c, cl.pc.r, cl.pc.j), acc := Post(cl.acc, cl.pc.j))])
  }

  predicate CanServe(s: State, i: nat, u: Link) {
    && RxOf(s, i, u) && s.clients[i].pc.Loop?
    && |s.clients[i].acc.transfer| == |s.clients[i].acc.temp| == |s.clients[i].acc.delta|
  }

  /** A client that has handled the command in its control buffer and sent its report. */
  function Served(cl: Client, cmd: Payload, t: real): Client
    requires cl.pc.Loop? && |cl.acc.transfer| == |cl.acc.temp| == |cl.acc.delta|
  {
    var acc := if cmd == Cmd(Stop) then OnStop(cl.acc, t)
               else if cmd == Cmd(Checkpoint) then OnCheckpoint(cl.acc, t) else OnOther(cl.acc, t);
    cl.(pc := if cmd == Cmd(Stop) then LastPoll else Loop(cl.pc.h + 1), acc := acc,
        outbox := cl.outbox + [Report(acc.delta)], sends := cl.sends + 1,
        log := cl.log + [Entry(acc.delta, cl.acc.recent)])
  }

  /** One receive completion polled inside the benchmark loop, with clock reading t. */
  function Serve(s: State, i: nat, u: Link, t: real): State
    requires CanServe(s, i, u)
  {
    var r := PollRx(s, u);
    var cmd := s.eps[Cc(i)].buff;
    if Len(s.eps[u].buff) != INT_SIZE then SetPc(r, i, CliFailed) else
    var cl := Served(s.clients[i], cmd, t);
    var e := r.eps[Cc(i)];
    r.(eps := r.eps[Cc(i) := e.(posted := if cmd == Cmd(Checkpoint) then e.posted + 1 else e.posted,
                                buff := Report(cl.acc.delta))],
       clients := s.clients[i := cl])
  }

  /** What a completion of the client's transmit queue belongs to. */
  datatype Tx = Write(j: nat) | ReportSend

  function TxId(i: nat, w: Tx): nat { if w.Write? then w.j else i }

  function Handled(c: Config, pc: CliPc): nat {
    match pc case Loop(h) => h case Crashed(h) => h case LastPoll => c.k + 1 case CliDone => c.k + 1 case _ => 0
  }

  predicate CanPoll(c: Config, s: State, i: nat, w: Tx) {
    && i < |s.clients| && (s.clients[i].pc.Loop? || s.clients[i].pc == LastPoll)
    && Sized(s.clients[i].acc, c.m)
    && (w.Write? ==> w.j < c.m && s.clients[i].acc.polled[w.j] < s.clients[i].acc.posted[w.j])
    && (w.ReportSend? ==> s.clients[i].sends > 0)
  }

  /** A client that has polled a completion: counted by context id, whatever it completes. */
  function Polled(c: Config, i: nat, cl: Client, w: Tx): Client
    requires Sized(cl.acc, c.m) && (w.Write? ==> w.j < c.m) && (w.ReportSend? ==> cl.sends > 0)
  {
    var id := TxId(i, w);
    var d := if w.ReportSend? then cl.(sends := cl.sends - 1) else cl;
    if id < c.m then d.(acc := Complete(cl.acc, id, w.Write?), pc := if cl.pc == LastPoll then CliDone else cl.pc)
    else d.(pc := Crashed(Handled(c, cl.pc)))
  }

  /** One transmit completion polled. */
  function Poll(c: Config, s: State, i: nat, w: Tx): State
    requires CanPoll(c, s, i, w)
  {
    s.(clients := s.clients[i := Polled(c, i, s.clients[i], w)])
  }

  /** After STOP the loop polls the transmit queue once more; here it is empty. */
  predicate CanQuit(s: State, i: nat) { i < |s.clients| && s.clients[i].pc == LastPoll }
  function Quit(s: State, i: nat): State
    requires CanQuit(s, i)
  {
    SetPc(s, i, CliDone)
  }

  // ---------- steps of the servers

  predicate CanOpen(s: State, j: nat) { j < |s.servers| && s.servers[j].Opening? }
  function Open(c: Config, s: State, j: nat): State
    requires CanOpen(s, j)
  {
    var x := s.servers[j].x;
    SetSrv(s, j, if x + 1 < c.n then Opening(x + 1) else SrvDial(ToRequest))
  }

  predicate CanSrvRequest(s: State, j: nat) { j < |s.servers| && s.servers[j] == SrvDial(ToRequest) && Sc(j) in s.eps }
  function SrvRequest(s: State, j: nat): State
    requires CanSrvRequest(s, j)
  {
    SetSrv(SetSt(PostRecv(s, Sc(j)), Sc(j), Requested), j, SrvDial(ToEvent))
  }

  predicate CanUplink(s: State, j: nat) {
    j < |s.servers| && s.servers[j] == SrvDial(ToEvent) && Srv(j) in s.eq && s.eq[Srv(j)] != []
  }

  /** The first event of the server's queue must be a CONNECTED. */
  function Uplink(s: State, j: nat): State
    requires CanUplink(s, j)
  {
    var e := s.eq[Srv(j)][0];
    SetSrv(Pop(s, Srv(j)), j, if e.Own? || e.Est? then SrvDial(ToKeys) else SrvFailed)
  }

  predicate CanSrvKeys(s: State, j: nat) {
    j < |s.servers| && s.servers[j] == SrvDial(ToKeys) && Sc(j) in s.eps && s.eps[Sc(j)].landed > 0
  }

  function SrvKeys(s: State, j: nat): State
    requires CanSrvKeys(s, j)
  {
    var r := PollRx(s, Sc(j));
    var b := s.eps[Sc(j)].buff;
    if Len(b) != KEYS_SIZE then SetSrv(r, j, SrvFailed)
    else SetSrv(r.(eps := r.eps[Sc(j) := r.eps[Sc(j)].(key := KeyIn(b))]), j, SrvAccepting(0))
  }

  predicate CanSrvPost(s: State, j: nat) { j < |s.servers| && s.servers[j] == PostStop && Sc(j) in s.eps }
  function SrvPost(s: State, j: nat): State
    requires CanSrvPost(s, j)
  {
    SetSrv(PostRecv(s, Sc(j)), j, Running)
  }

  predicate CanSrvStop(s: State, j: nat) {
    j < |s.servers| && s.servers[j] == Running && Sc(j) in s.eps && s.eps[Sc(j)].landed > 0
  }

  function SrvStop(s: State, j: nat): State
    requires CanSrvStop(s, j)
  {
    var b := s.eps[Sc(j)].buff;
    SetSrv(PollRx(s, Sc(j)), j,
           if Len(b) != INT_SIZE then SrvFailed else if b == Cmd(Stop) then SrvDone else Running)
  }

  predicate CanSrvEvent(s: State, j: nat) {
    j < |s.servers| && s.servers[j] == Running && Srv(j) in s.eq && s.eq[Srv(j)] != []
  }

  function SrvEvent(s: State, j: nat): State
    requires CanSrvEvent(s, j)
  {
    Handle(Pop(s, Srv(j)), Srv(j), s.eq[Srv(j)][0])
  }

  // ---------- runs

  datatype FabricAct = AArrive(l: Link) | AAnswer(l: Link) | AEstablish(l: Link) | AShutdown(l: Link)
                     | ADeliver(l: Link) | AReply(i: nat)

  datatype CtrlAct = AListen | APost | ASend | ADrain | AGather(i: nat) | AClose | AAccept(h: Host)

  datatype CliAct = ARequest(i: nat) | AConnected(i: nat) | AKeys(i: nat, u: Link) | ACliPost(i: nat)
                  | AObey(i: nat, u: Link) | AConfirm(i: nat) | ACliTx(i: nat) | AFill(i: nat)
                  | AServe(i: nat, u: Link, t: real) | APoll(i: nat, w: Tx) | AQuit(i: nat)

  datatype ServerAct = AOpen(j: nat) | ASrvRequest(j: nat) | AUplink(j: nat) | ASrvKeys(j: nat) | ASrvPost(j: nat)
                     | ASrvStop(j: nat) | ASrvEvent(j: nat)

  predicate CanFabric(c: Config, s: State, a: FabricAct) {
    match a
    case AArrive(l) => CanArrive(c, s, l)
    case AAnswer(l) => CanAnswer(s, l)
    case AEstablish(l) => CanEstablish(s, l)
    case AShutdown(l) => CanShutdown(s, l)
    case ADeliver(l) => CanDeliver(s, l)
    case AReply(i) => CanReply(s, i)
  }

  function NextFabric(c: Config, s: State, a: FabricAct): State
    requires CanFabric(c, s, a)
  {
    match a
    case AArrive(l) => Arrive(s, l)
    case AAnswer(l) => Answer(s, l)
    case AEstablish(l) => Establish(s, l)
    case AShutdown(l) => Shutdown(s, l)
    case ADeliver(l) => Deliver(s, l)
    case AReply(i) => Reply(s, i)
  }

  predicate CanCtrl(c: Config, s: State, a: CtrlAct) {
    match a
    case AListen => CanListen(s)
    case APost => CanPost(s)
    case ASend => CanSend(c, s)
    case ADrain => CanDrain(s)
    case AGather(i) => CanGather(s, i)
    case AClose => CanClose(s)
    case AAccept(h) => CanAccept(s, h)
  }

  function NextCtrl(c: Config, s: State, a: CtrlAct): State
    requires CanCtrl(c, s, a)
  {
    match a
    case AListen => Listen(c, s)
    case APost => CtlPost(c, s)
    case ASend => CtlSend(c, s)
    case ADrain => CtlDrain(c, s)
    case AGather(i) => CtlGather(c, s, i)
    case AClose => CtlClose(c, s)
    case AAccept(h) => Accept(c, s, h)
  }

  predicate CanCli(c: Config, s: State, a: CliAct) {
    match a
    case ARequest(i) => CanRequest(s, i)
    case AConnected(i) => CanConnected(s, i)
    case AKeys(i, u) => CanKeys(s, i, u)
    case ACliPost(i) => CanCliPost(s, i)
    case AObey(i, u) => CanObey(s, i, u)
    case AConfirm(i) => CanConfirm(s, i)
    case ACliTx(i) => CanCliTx(s, i)
    case AFill(i) => CanFill(s, i)
    case AServe(i, u, _) => CanServe(s, i, u)
    case APoll(i, w) => CanPoll(c, s, i, w)
    case AQuit(i) => CanQuit(s, i)
  }

  function NextCli(c: Config, s: State, a: CliAct): State
    requires CanCli(c, s, a)
  {
    match a
    case ARequest(i) => Request(s, i)
    case AConnected(i) => CliConnected(s, i)
    case AKeys(i, u) => TakeKeys(c, s, i, u)
    case ACliPost(i) => CliPost(s, i)
    case AObey(i, u) => Obey(s, i, u)
    case AConfirm(i) => CliConfirm(s, i)
    case ACliTx(i) => CliTx(s, i)
    case AFill(i) => CliFill(c, s, i)
    case AServe(i, u, t) => Serve(s, i, u, t)
    case APoll(i, w) => Poll(c, s, i, w)
    case AQuit(i) => Quit(s, i)
  }

  predicate CanServer(c: Config, s: State, a: ServerAct) {
    match a
    case AOpen(j) => CanOpen(s, j)
    case ASrvRequest(j) => CanSrvRequest(s, j)
    case AUplink(j) => CanUplink(s, j)
    case ASrvKeys(j) => CanSrvKeys(s, j)
    case ASrvPost(j) => CanSrvPost(s, j)
    case ASrvStop(j) => CanSrvStop(s, j)
    case ASrvEvent(j) => CanSrvEvent(s, j)
  }

  function NextServer(c: Config, s: State, a: ServerAct): State
    requires CanServer(c, s, a)
  {
    match a
    case AOpen(j) => Open(c, s, j)
    case ASrvRequest(j) => SrvRequest(s, j)
    case AUplink(j) => Uplink(s, j)
    case ASrvKeys(j) => SrvKeys(s, j)
    case ASrvPost(j) => SrvPost(s, j)
    case ASrvStop(j) => SrvStop(s, j)
    case ASrvEvent(j) => SrvEvent(s, j)
  }

  datatype Action = ByFabric(fabric: FabricAct) | ByCtrl(ctrl: CtrlAct) | ByCli(cli: CliAct)
                  | ByServer(server: ServerAct)

  predicate Can(c: Config, s: State, a: Action) {
    match a
    case ByFabric(x) => CanFabric(c, s, x)
    case ByCtrl(x) => CanCtrl(c, s, x)
    case ByCli(x) => CanCli(c, s, x)
    case ByServer(x) => CanServer(c, s, x)
  }

  function Next(c: Config, s: State, a: Action): State
    requires Can(c, s, a)
  {
    match a
    case ByFabric(x) => NextFabric(c, s, x)
    case ByCtrl(x) => NextCtrl(c, s, x)
    case ByCli(x) => NextCli(c, s, x)
    case ByServer(x) => NextServer(c, s, x)
  }

  ghost predicate Begin(c: Config, s: State) {
    && s.ctl == Listening(0) && s.tx == 0 && s.readouts == []
    && |s.ports| == c.n && (forall i | 0 <= i < c.n :: s.ports[i] == Port(0, 0, Blank, 0))
    && |s.checkpoint| == |s.summary| == c.n * c.m
    && |s.clients| == c.n
    && (forall i | 0 <= i < c.n ::
          && s.clients[i].pc == Dial(0, ToRequest) && s.clients[i].outbox == [] && s.clients[i].sends == 0
          && s.clients[i].log == [] && Initial(s.clients[i].acc, i, c.m))
    && |s.servers| == c.m && (forall j | 0 <= j < c.m :: s.servers[j] == Opening(0))
    && (forall l :: l in s.eps <==> Valid(c, l))
    && (forall l | l in s.eps :: s.eps[l] == Ep(Idle, 0, [], 0, Blank, None))
    && (forall h :: h in s.eq <==> h == Ctl || (h.Srv? && h.j < c.m))
    && (forall h | h in s.eq :: s.eq[h] == [])
  }

  function Then(c: Config, s: Option<State>, a: Action): Option<State> {
    if s.Some? && Can(c, s.value, a) then Some(Next(c, s.value, a)) else None
  }

  /** The actions of a run, applied in order; None when one of them is not possible. */
  function Exec(c: Config, s: State, run: seq<Action>): Option<State> {
    if run == [] then Some(s) else Then(c, Exec(c, s, run[..|run| - 1]), run[|run| - 1])
  }

  ghost predicate Reachable(c: Config, s: State) {
    exists init, run :: Begin(c, init) && Exec(c, init, run) == Some(s)
  }
}
