/** What every step keeps. Each conjunct speaks of one connection, one client, one event
    queue or one counter; the steps of other nodes enter it only through a few numbers
    derived from their program counters. */
module Invariant {
  import opened Wire
  import opened Accounting
  import opened Protocol

  // ---------- what a program counter implies

  /** Reports or confirmations collected in the rounds before p. */
  function Before(p: nat): nat {
    if p <= 1 then 0 else if p == 2 then 1 else p - 2
  }

  /** All connections of the controller are up. */
  predicate AllIn(pc: CtlPc) { pc.Round? || pc.Closing? || pc.Finished? }

  /** Commands the controller has sent to client i. */
  function CmdsTo(c: Config, pc: CtlPc, i: nat): nat {
    match pc
    case Round(p, st, x) =>
      if p == 0 then 0 else
      p - 1 + (if st == Posting || (st == Sending && i >= x) then 0 else 1)
    case Closing(_) => LastRound(c)
    case Finished => LastRound(c)
    case _ => 0
  }

  /** Commands the controller has sent to server j. */
  function StopsTo(c: Config, pc: CtlPc, j: nat): nat {
    match pc
    case Round(p, st, x) =>
      if p == LastRound(c) && st != Posting && (st == Sending ==> c.n + j < x) then 1 else 0
    case Closing(_) => 1
    case Finished => 1
    case _ => 0
  }

  /** Receives the controller has posted for replies of client i. */
  function Opened(c: Config, pc: CtlPc, i: nat): nat {
    match pc
    case Round(p, st, x) => Before(p) + (if p == 2 || (st == Posting && i >= x) then 0 else 1)
    case Closing(_) => c.k + 2
    case Finished => c.k + 2
    case _ => 0
  }

  /** Replies the controller has taken from every client, and may have taken from some. */
  function Floor(c: Config, pc: CtlPc): nat {
    match pc
    case Round(p, _, _) => Before(p)
    case Closing(_) => c.k + 2
    case Finished => c.k + 2
    case _ => 0
  }

  function Ceil(c: Config, pc: CtlPc): nat {
    if pc.Round? && pc.stage == Gathering then Floor(c, pc) + 1 else Floor(c, pc)
  }

  /** Send completions not polled yet: the keys' completions are never waited for. */
  function Lag(c: Config, pc: CtlPc): int {
    match pc
    case Listening(_) => 0
    case Accepting(x) => x
    case Round(p, Sending, x) => c.n + c.m + x
    case Round(p, Draining, x) => c.n + c.m + Targets(c, p) - x
    case _ => c.n + c.m
  }

  /** Dialling: 0 not requested, 1 awaiting CONNECTED, 2 awaiting keys, 3 connected with keys. */
  function SubDial(sub: Sub): nat {
    match sub case ToRequest => 0 case ToEvent => 1 case ToKeys => 2
  }

  function CliDial(pc: CliPc, t: nat): nat {
    match pc
    case Dial(u, sub) => if t < u then 3 else if t == u then SubDial(sub) else 0
    case PostConnect => if t == 0 then 3 else 0
    case AwaitConnect => if t == 0 then 3 else 0
    case _ => 3
  }

  function SrvDialled(pc: SrvPc): nat {
    match pc case Opening(_) => 0 case SrvDial(sub) => SubDial(sub) case _ => 3
  }

  function Dialled(s: State, l: Link): nat {
    match l
    case Cc(i) => if i < |s.clients| then CliDial(s.clients[i].pc, 0) else 0
    case Cs(i, j) => if i < |s.clients| then CliDial(s.clients[i].pc, j + 1) else 0
    case Sc(j) => if j < |s.servers| then SrvDialled(s.servers[j]) else 0
  }

  /** Control messages client i has consumed, receives it has posted for them, replies sent. */
  function CliConsumed(c: Config, pc: CliPc): nat {
    match pc
    case Dial(t, _) => if t == 0 then 0 else 2
    case PostConnect => 1
    case AwaitConnect => 1
    case PostBench => 3
    case Fill(_, _) => 3
    case Loop(h) => 3 + h
    case Crashed(h) => 3 + h
    case LastPoll => c.k + 4
    case CliDone => c.k + 4
    case _ => 2
  }

  function CliRecvs(c: Config, pc: CliPc): nat {
    match pc
    case Dial(t, sub) => if t > 0 then 2 else if sub == ToRequest then 0 else 1
    case PostConnect => 1
    case AwaitConnect => 2
    case PostStart => 2
    case Fill(_, _) => 4
    case Loop(h) => 4 + h
    case Crashed(h) => if h <= c.k then 4 + h else c.k + 4
    case LastPoll => c.k + 4
    case CliDone => c.k + 4
    case _ => 3
  }

  function Replies(c: Config, pc: CliPc): nat {
    match pc
    case AwaitTx => 1
    case AwaitStart => 1
    case PostBench => 1
    case Fill(_, _) => 1
    case Loop(h) => 1 + h
    case Crashed(h) => 1 + h
    case LastPoll => c.k + 2
    case CliDone => c.k + 2
    case _ => 0
  }

  function SrvConsumed(pc: SrvPc): nat {
    match pc case Opening(_) => 0 case SrvDial(_) => 0 case SrvDone => 2 case _ => 1
  }

  function SrvRecvs(pc: SrvPc): nat {
    match pc
    case Opening(_) => 0
    case SrvDial(sub) => if sub == ToRequest then 0 else 1
    case Running => 2
    case SrvDone => 2
    case _ => 1
  }

  /** Messages sent on a connection towards the dialling node, consumed there, and receives
      posted for them. */
  datatype Nums = Nums(sent: nat, consumed: nat, recvs: nat)

  function NumsOf(c: Config, s: State, l: Link): Nums
    requires l in s.eps
  {
    var keys := if Rank(s.eps[l].st) >= Rank(Up) then 1 else 0;
    match l
    case Cc(i) =>
      if i >= |s.clients| then Nums(0, 0, 0) else
      var pc := s.clients[i].pc;
      Nums(keys + CmdsTo(c, s.ctl, i), CliConsumed(c, pc), CliRecvs(c, pc))
    case Sc(j) =>
      if j >= |s.servers| then Nums(0, 0, 0) else
      Nums(keys + StopsTo(c, s.ctl, j), SrvConsumed(s.servers[j]), SrvRecvs(s.servers[j]))
    case Cs(i, j) =>
      var d := Dialled(s, l);
      Nums(keys, if d == 3 then 1 else 0, if d >= 1 then 1 else 0)
  }

  /** Message number x on l: the keys first, then the commands in order. */
  function Msg(c: Config, l: Link, x: nat): Payload {
    if x == 0 then Keys(l) else if l.Sc? then Cmd(Stop) else Cmd(CmdOf(c, x))
  }

  /** Reply number q of a client: the confirmation, then its reports in order. */
  function ReplyOf(log: seq<Entry>, q: nat): Payload {
    if q == 0 then Cmd(Connected) else if q - 1 < |log| then Report(log[q - 1].rows) else Blank
  }

  // ---------- the conjuncts

  predicate CtlPcOk(c: Config, pc: CtlPc) {
    match pc
    case Listening(x) => x < c.n + c.m
    case Accepting(x) => 0 <= x < c.n + c.m
    case Round(p, st, x) =>
      1 <= p <= LastRound(c) && x < Bound(c, p, st) && (p == 2 ==> st == Sending || st == Draining)
    case Closing(x) => 0 <= x < c.n + c.m
    case Finished => true
    case CtlFailed => false
  }

  predicate CliPcOk(c: Config, i: nat, pc: CliPc) {
    match pc
    case Dial(t, _) => t <= c.m
    case Fill(r, j) => r < WINDOW && j < c.m
    case Loop(h) => h <= c.k
    case Crashed(h) => h <= c.k + 1 && i >= c.m
    case CliFailed => false
    case _ => true
  }

  predicate SrvPcOk(c: Config, pc: SrvPc) {
    match pc
    case Opening(x) => x < c.n
    case SrvAccepting(x) => 0 <= x < c.n
    case SrvFailed => false
    case _ => true
  }

  ghost predicate Shape(c: Config, s: State) {
    && Sane(c)
    && |s.ports| == |s.clients| == c.n && |s.servers| == c.m
    && (forall l :: l in s.eps <==> Valid(c, l))
    && (forall h :: h in s.eq <==> h == Ctl || (h.Srv? && h.j < c.m))
  }

  ghost predicate Pcs(c: Config, s: State) {
    && CtlPcOk(c, s.ctl) && s.tx == Lag(c, s.ctl)
    && (forall i | 0 <= i < |s.clients| :: CliPcOk(c, i, s.clients[i].pc))
    && (forall j | 0 <= j < |s.servers| :: SrvPcOk(c, s.servers[j]))
  }

  predicate MsgOk(c: Config, l: Link, e: Ep, n: Nums) {
    && |e.inbox| + e.landed + n.consumed == n.sent
    && e.posted + e.landed + n.consumed == n.recvs <= n.consumed + 1
    && (forall x | 0 <= x < |e.inbox| :: e.inbox[x] == Msg(c, l, n.consumed + e.landed + x))
    && (e.landed > 0 ==> e.buff == Msg(c, l, n.consumed))
  }

  /** Receives opened for a client's replies, replies sent, replies taken at least and at most. */
  datatype Tally = Tally(opens: nat, replies: nat, floor: nat, ceil: nat)

  function TallyOf(c: Config, pc: CtlPc, i: nat, cl: CliPc): Tally {
    Tally(Opened(c, pc, i), Replies(c, cl), Floor(c, pc), Ceil(c, pc))
  }

  predicate ReplyOk(p: Port, outbox: seq<Payload>, log: seq<Entry>, buff: Payload, t: Tally) {
    && p.posted + p.landed + p.taken == t.opens
    && |outbox| + p.landed + p.taken == t.replies
    && t.floor <= p.taken <= t.ceil && |outbox| <= 1
    && |log| + (if t.replies > 0 then 1 else 0) == t.replies
    && (outbox != [] ==> outbox[0] == buff == ReplyOf(log, p.taken + p.landed))
    && (p.landed > 0 ==> p.buff == ReplyOf(log, p.taken))
  }

  predicate ReplyAt(c: Config, s: State, i: nat)
    requires i < |s.clients| && i < |s.ports| && Cc(i) in s.eps
  {
    ReplyOk(s.ports[i], s.clients[i].outbox, s.clients[i].log, s.eps[Cc(i)].buff, TallyOf(c, s.ctl, i, s.clients[i].pc))
  }

  ghost predicate Answers(c: Config, s: State) {
    forall i | 0 <= i < |s.clients| && i < |s.ports| && Cc(i) in s.eps :: ReplyAt(c, s, i)
  }

  predicate Inside(s: State, h: Host) {
    match h
    case Ctl => AllIn(s.ctl)
    case Srv(j) => j < |s.servers| && (s.servers[j] == PostStop || s.servers[j] == Running || s.servers[j] == SrvDone)
  }

  /** The node that dialled l has ended. */
  predicate Left(s: State, l: Link) {
    match l
    case Cc(i) => i < |s.clients| && s.clients[i].pc == CliDone
    case Cs(i, _) => i < |s.clients| && s.clients[i].pc == CliDone
    case Sc(j) => j < |s.servers| && s.servers[j] == SrvDone
  }

  /** How far the two ends of a connection have come. */
  datatype Ends = Ends(dialled: nat, listens: bool, inside: bool, left: bool)

  function EndsOf(c: Config, s: State, l: Link): Ends {
    Ends(Dialled(s, l), Listens(c, s, l), Inside(s, Passive(l)), Left(s, l))
  }

  predicate ConnOk(l: Link, e: Ep, n: Ends) {
    && (n.dialled == 0 <==> e.st == Idle)
    && (n.dialled >= 2 ==> Rank(e.st) >= Rank(Answered))
    && (Rank(e.st) >= Rank(ReqQueued) ==> n.listens)
    && (Rank(e.st) > Rank(Up) ==> n.left)
    && (n.inside ==> Rank(e.st) >= Rank(Up))
    && e.key == (if n.dialled == 3 then Some(l) else None)
  }

  predicate LinkOk(c: Config, s: State, l: Link)
    requires l in s.eps
  {
    MsgOk(c, l, s.eps[l], NumsOf(c, s, l)) && ConnOk(l, s.eps[l], EndsOf(c, s, l))
  }

  ghost predicate Links(c: Config, s: State) {
    forall l | l in s.eps :: LinkOk(c, s, l)
  }

  /** The events that must be in the queue of h. */
  predicate Pending(s: State, h: Host, e: Event) {
    e.l in s.eps &&
    match e
    case Req(l) => Passive(l) == h && s.eps[l].st == ReqQueued
    case Est(l) => Passive(l) == h && s.eps[l].st == EstQueued
    case Down(l) => Passive(l) == h && s.eps[l].st == DownQueued
    case Own(l) => l.Sc? && h == Srv(l.j) && Rank(s.eps[l].st) >= Rank(Answered)
                   && l.j < |s.servers| && s.servers[l.j] == SrvDial(ToEvent)
  }

  ghost predicate EqOk(s: State, h: Host)
    requires h in s.eq
  {
    && Distinct(s.eq[h])
    && (forall e :: e in s.eq[h] <==> Pending(s, h, e))
    && (forall e | e in s.eq[h] && e.Own? :: s.eq[h][0] == e)
  }

  ghost predicate Events(s: State) {
    forall h | h in s.eq :: EqOk(s, h)
  }

  predicate Distinct(q: seq<Event>) {
    forall x, y | 0 <= x < y < |q| :: q[x] != q[y]
  }

  function UpSet(s: State, h: Host): set<Link> {
    set l | l in s.eps && Passive(l) == h && Rank(s.eps[l].st) >= Rank(Up)
  }

  function GoneSet(s: State): set<Link> {
    set l | l in s.eps && Passive(l) == Ctl && s.eps[l].st == Gone
  }

  function TakenSet(s: State, q: nat): set<nat> {
    set i | 0 <= i < |s.ports| && s.ports[i].taken == q
  }

  ghost predicate Counters(c: Config, s: State) {
    && (s.ctl.Listening? ==> |UpSet(s, Ctl)| == 0)
    && (s.ctl.Accepting? ==> |UpSet(s, Ctl)| == s.ctl.c)
    && (forall j | 0 <= j < |s.servers| :: SrvCounter(s.servers[j], |UpSet(s, Srv(j))|))
    && (s.ctl.Round? && s.ctl.stage == Gathering ==> |TakenSet(s, Before(s.ctl.p) + 1)| == s.ctl.x)
    && (s.ctl.Closing? ==> |GoneSet(s)| == s.ctl.c)
    && (!s.ctl.Closing? && !s.ctl.Finished? ==> |GoneSet(s)| == 0)
    && (s.ctl.Finished? ==> |GoneSet(s)| == c.n + c.m)
  }

  predicate SrvCounter(pc: SrvPc, ups: nat) {
    match pc
    case Opening(_) => ups == 0
    case SrvDial(_) => ups == 0
    case SrvAccepting(x) => ups == x
    case _ => true
  }

  ghost predicate Inv(c: Config, s: State) {
    Shape(c, s) && Pcs(c, s) && Links(c, s) && Answers(c, s) && Events(s) && Counters(c, s)
  }
}
