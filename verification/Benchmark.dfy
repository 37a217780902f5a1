/** The client's transfer loop as it runs: arrays updated in place, one poll of each completion
    queue per iteration. Its specification is a function of the polls. */
module Benchmark {
  import opened Wire
  import opened Accounting
  import opened Endpoints

  /** A receive completion: its length, the message now in the control buffer, the clock; and what the
      fabric answers when the report that follows it is sent. */
  datatype Rx = Rx(len: nat, content: Payload, time: real, sent: int)
  /** A transmit completion: its context id, and whether it completes a write (or a report). */
  datatype Tx = Tx(id: nat, write: bool)
  /** What one iteration finds in the two queues. */
  datatype Polls = Polls(rx: Option<Rx>, tx: Option<Tx>)

  datatype Outcome = Running | Stopped | BadSize | SendFailed | OutOfRange

  /** The loop's state: books, control buffer, reports handed to ctrl_send, receives posted. */
  datatype Bench = Bench(acc: Acc, buff: Payload, log: seq<Entry>, receives: nat)

  predicate Fit(b: Bench) {
    && |b.acc.transfer| == |b.acc.temp| == |b.acc.delta|
    && |b.acc.posted| == |b.acc.polled| == |b.acc.recent| == |b.acc.transfer|
  }

  function OnCommand(a: Acc, p: Payload, t: real): Acc
    requires |a.transfer| == |a.temp| == |a.delta|
  {
    if p == Cmd(Stop) then OnStop(a, t) else if p == Cmd(Checkpoint) then OnCheckpoint(a, t) else OnOther(a, t)
  }

  function HandleRx(b: Bench, r: Rx): Bench
    requires Fit(b)
  {
    var a := OnCommand(b.acc, r.content, r.time);
    Bench(a, Report(a.delta), if r.sent == 0 then b.log + [Entry(a.delta, b.acc.recent)] else b.log,
          if r.content == Cmd(Checkpoint) then b.receives + 1 else b.receives)
  }

  function HandleTx(b: Bench, t: Tx): Bench
    requires Fit(b) && t.id < |b.acc.transfer|
  {
    b.(acc := Complete(b.acc, t.id, t.write))
  }

  function StepRx(b: Bench, p: Polls): (Bench, Outcome)
    requires Fit(b)
  {
    match p.rx
    case None => (b, Running)
    case Some(r) =>
      if r.len != INT_SIZE then (b.(buff := r.content), BadSize)
      else (HandleRx(b, r), if r.sent != 0 then SendFailed else if r.content == Cmd(Stop) then Stopped else Running)
  }

  function StepTx(b: Bench, p: Polls): (Bench, Outcome)
    requires Fit(b)
  {
    match p.tx
    case None => (b, Running)
    case Some(t) => if t.id < |b.acc.transfer| then (HandleTx(b, t), Running) else (b, OutOfRange)
  }

  /** One iteration: the receive queue, then the transmit queue, also after STOP. */
  function Step(b: Bench, p: Polls): (r: (Bench, Outcome))
    requires Fit(b)
    ensures Fit(r.0) && |r.0.acc.transfer| == |b.acc.transfer|
  {
    var (b1, o1) := StepRx(b, p);
    if o1 == BadSize || o1 == SendFailed then (b1, o1) else
    var (b2, o2) := StepTx(b1, p);
    (b2, if o2 == OutOfRange then OutOfRange else o1)
  }

  function Run(b: Bench, polls: seq<Polls>): (r: (Bench, Outcome))
    requires Fit(b)
    ensures Fit(r.0) && |r.0.acc.transfer| == |b.acc.transfer|
  {
    if polls == [] then (b, Running) else
    var (b1, o1) := Run(b, polls[..|polls| - 1]);
    if o1 != Running then (b1, o1) else Step(b1, polls[|polls| - 1])
  }

  class Client {
    const id: nat
    const m: nat
    const eps: seq<Endpoint>
    var transfer: array<Transfer>
    var temp: array<Transfer>
    var delta: array<Transfer>
    var queuesize: int
    var ctrlBuff: Payload
    var receives: nat
    var stop: bool
    ghost var posted: seq<nat>
    ghost var polled: seq<nat>
    ghost var recent: seq<nat>
    ghost var echoes: nat
    ghost var log: seq<Entry>

    /** Every write posted on an endpoint went to the keys it holds, and they are those counted. */
    ghost predicate Valid()
      reads this, eps
    {
      && transfer != temp && transfer != delta && temp != delta
      && transfer.Length == temp.Length == delta.Length == m
      && |posted| == |polled| == |recent| == m == |eps|
      && (forall x, y | 0 <= x < y < m :: eps[x] != eps[y])
      && forall x | 0 <= x < m :: eps[x].writes == Writes(posted[x], eps[x].remoteKeys)
    }

    ghost function View(): (b: Bench)
      reads this, transfer, temp, delta, eps
      requires Valid()
      ensures Fit(b) && Sized(b.acc, m)
    {
      Bench(Acc(transfer[..], temp[..], delta[..], queuesize, posted, polled, echoes, recent), ctrlBuff, log, receives)
    }

    constructor (id: nat, m: nat, eps: seq<Endpoint>)
      requires |eps| == m && (forall x, y | 0 <= x < y < m :: eps[x] != eps[y])
          && forall x | 0 <= x < m :: eps[x].writes == []
      ensures Valid() && fresh(transfer) && fresh(temp) && fresh(delta)
      ensures this.id == id && this.m == m && this.eps == eps && !stop
      ensures Initial(View().acc, id, m) && log == [] && receives == 0 && ctrlBuff == Blank && queuesize == 10
      ensures forall x | 0 <= x < m ::
                && temp[x] == Transfer(id, x, 0.0, 0.0, 0)
                && transfer[x].from == delta[x].from == id && transfer[x].to == delta[x].to == x
                && transfer[x].timeSec == delta[x].timeSec == 0.0
                    && transfer[x].completions == delta[x].completions == 0
    {
      this.id := id;
      this.m := m;
      this.eps := eps;
      transfer := new Transfer[m];
      temp := new Transfer[m];
      delta := new Transfer[m];
      queuesize := WINDOW;
      ctrlBuff := Blank;
      receives := 0;
      stop := false;
      posted, polled, recent := seq(m, _ => 0), seq(m, _ => 0), seq(m, _ => 0);
      echoes := 0;
      log := [];
      new;
      InitRecords();
    }

    /** One record per server in each array; deltaSec of two of them keeps what the allocation left. */
    method InitRecords()
      requires Valid()
      modifies transfer, temp, delta
      ensures forall x | 0 <= x < m ::
                && temp[x] == Transfer(id, x, 0.0, 0.0, 0)
                && transfer[x] == Transfer(id, x, transfer[x].deltaSec, 0.0, 0)
                && delta[x] == Transfer(id, x, delta[x].deltaSec, 0.0, 0)
    {
      for i := 0 to m
        invariant forall x | 0 <= x < i ::
          && temp[x] == Transfer(id, x, 0.0, 0.0, 0)
          && transfer[x] == Transfer(id, x, transfer[x].deltaSec, 0.0, 0)
          && delta[x] == Transfer(id, x, delta[x].deltaSec, 0.0, 0)
      {
        temp[i] := temp[i].(from := id, to := i, completions := 0, timeSec := 0.0, deltaSec := 0.0);
        transfer[i] := transfer[i].(from := id, to := i, completions := 0, timeSec := 0.0);
        delta[i] := delta[i].(from := id, to := i, completions := 0, timeSec := 0.0);
      }
    }

    /** A write to server j: one more to the keys its endpoint holds. */
    method Write(j: nat)
      requires Valid() && j < m
      modifies this`posted, eps[j]
      ensures Valid() && posted == old(posted)[j := old(posted[j]) + 1]
      ensures eps[j].remoteKeys == old(eps[j].remoteKeys)
    {
      eps[j].RdmaWrite();
      posted := posted[j := posted[j] + 1];
    }

    /** One write to every server. */
    method WriteAll(r: nat)
      requires Valid() && forall x | 0 <= x < m :: posted[x] == r
      modifies this`posted, eps
      ensures Valid() && forall x | 0 <= x < m :: posted[x] == r + 1
      ensures forall x | 0 <= x < m :: eps[x].remoteKeys == old(eps[x].remoteKeys)
    {
      for j := 0 to m
        modifies this`posted, eps
        invariant Valid() && forall x | 0 <= x < m :: posted[x] == r + (if x < j then 1 else 0)
        invariant forall x | 0 <= x < m :: eps[x].remoteKeys == old(eps[x].remoteKeys)
      {
        Write(j);
      }
    }

    /** The receive for the first command, then ten rounds of one write to every server. */
    method Begin()
      requires Valid() && Initial(View().acc, id, m)
      modifies this`receives, this`posted, eps
      ensures Valid() && receives == old(receives) + 1
      ensures View().acc == old(View().acc).(posted := posted)
      ensures Books(View().acc, id, m) && Window(View().acc)
      ensures forall x | 0 <= x < m ::
                eps[x].remoteKeys == old(eps[x].remoteKeys) && eps[x].writes == Writes(10, eps[x].remoteKeys)
    {
      receives := receives + 1;
      for r := 0 to WINDOW
        modifies this`posted, eps
        invariant Valid() && forall x | 0 <= x < m :: posted[x] == r
        invariant forall x | 0 <= x < m :: eps[x].remoteKeys == old(eps[x].remoteKeys)
      {
        WriteAll(r);
      }
      FilledAll(old(View().acc), View().acc, id, m);
    }

    method StampTimes(time: real)
      requires Valid()
      modifies transfer
      ensures Valid() && transfer[..] == Stamp(old(transfer[..]), time)
      ensures forall x | 0 <= x < m :: transfer[x] == old(transfer[x]).(timeSec := time)
    {
      for i := 0 to m
        invariant forall x | 0 <= x < i :: transfer[x] == old(transfer[x]).(timeSec := time)
        invariant forall x | i <= x < m :: transfer[x] == old(transfer[x])
      {
        transfer[i] := transfer[i].(timeSec := time);
      }
    }

    method TotalsToDelta()
      requires Valid()
      modifies delta
      ensures Valid() && delta[..] == StopDelta(transfer[..], old(delta[..]))
    {
      var sum := 0;
      for i := 0 to m
        invariant forall x | 0 <= x < i ::
          delta[x] == old(delta[x]).(timeSec := transfer[x].timeSec, deltaSec := transfer[x].timeSec,
                                     completions := transfer[x].completions)
        invariant forall x | i <= x < m :: delta[x] == old(delta[x])
        invariant sum == Total(transfer[..i])
      {
        delta[i] := delta[i].(timeSec := transfer[i].timeSec);
        delta[i] := delta[i].(deltaSec := transfer[i].timeSec);
        delta[i] := delta[i].(completions := transfer[i].completions);
        sum := sum + transfer[i].completions;
        assert transfer[..i + 1][..i] == transfer[..i];
      }
    }

    /** delta is computed from temp and temp is overwritten, index by index. */
    method DifferencesToDelta()
      requires Valid()
      modifies delta, temp
      ensures Valid()
      ensures delta[..] == CheckpointDelta(transfer[..], old(temp[..]), old(delta[..]))
      ensures temp[..] == CheckpointTemp(transfer[..], old(temp[..]))
    {
      for i := 0 to m
        invariant forall x | 0 <= x < i ::
          && delta[x] == old(delta[x]).(deltaSec := transfer[x].timeSec - old(temp[x]).timeSec,
                                        timeSec := transfer[x].timeSec,
                                        completions := transfer[x].completions - old(temp[x]).completions)
          && temp[x] == old(temp[x]).(timeSec := transfer[x].timeSec, completions := transfer[x].completions)
        invariant forall x | i <= x < m :: delta[x] == old(delta[x]) && temp[x] == old(temp[x])
      {
        delta[i] := delta[i].(deltaSec := transfer[i].timeSec - temp[i].timeSec);
        delta[i] := delta[i].(timeSec := transfer[i].timeSec);
        delta[i] := delta[i].(completions := transfer[i].completions - temp[i].completions);
        temp[i] := temp[i].(timeSec := transfer[i].timeSec);
        temp[i] := temp[i].(completions := transfer[i].completions);
      }
    }

    /** The command is copied out of the control buffer and the books follow it. */
    method Obey(r: Rx)
      requires Valid() && !stop
      modifies this`ctrlBuff, this`receives, this`stop, this`recent, transfer, temp, delta
      ensures Valid() && stop == (r.content == Cmd(Stop)) && ctrlBuff == r.content && log == old(log)
      ensures receives == old(receives) + if r.content == Cmd(Checkpoint) then 1 else 0
      ensures View().acc == OnCommand(old(View()).acc, r.content, r.time)
    {
      ctrlBuff := r.content;
      StampTimes(r.time);
      if ctrlBuff == Cmd(Stop) {
        TotalsToDelta();
        stop := true;
      } else if ctrlBuff == Cmd(Checkpoint) {
        DifferencesToDelta();
        recent := seq(m, _ => 0);
        receives := receives + 1;
      }
    }

    /** And the report goes out, whatever the command was. */
    method Command(r: Rx) returns (ret: int)
      requires Valid() && !stop
      modifies this`ctrlBuff, this`receives, this`stop, this`recent, this`log, transfer, temp, delta
      ensures Valid() && View() == HandleRx(old(View()), r) && stop == (r.content == Cmd(Stop)) && ret == r.sent
      ensures forall x | 0 <= x < m :: transfer[x] == old(transfer[x]).(timeSec := r.time)
      ensures r.content == Cmd(Checkpoint) ==> forall x | 0 <= x < m ::
                && delta[x].timeSec == r.time && delta[x].deltaSec == r.time - old(temp[x].timeSec)
                && delta[x].completions == old(transfer[x].completions) - old(temp[x].completions)
                && temp[x].timeSec == r.time && temp[x].completions == old(transfer[x].completions)
      ensures r.content == Cmd(Stop) ==> temp[..] == old(temp[..]) && forall x | 0 <= x < m ::
                && delta[x].timeSec == r.time && delta[x].deltaSec == r.time
                && delta[x].completions == old(transfer[x].completions)
      ensures r.content != Cmd(Checkpoint) && r.content != Cmd(Stop) ==>
                temp[..] == old(temp[..]) && delta[..] == old(delta[..])
      ensures receives == old(receives) + if r.content == Cmd(Checkpoint) then 1 else 0
      ensures ctrlBuff == Report(delta[..])
      ensures log == if r.sent == 0 then old(log) + [Entry(delta[..], old(recent))] else old(log)
    {
      ghost var counted := recent;
      ghost var before := View().acc;
      Obey(r);
      forall x | 0 <= x < m { Records(before, r, x); }
      ctrlBuff := Report(delta[..]);
      ret := r.sent;
      if ret == 0 { log := log + [Entry(delta[..], counted)]; }
    }

    /** A completion is counted by its context id. */
    method Count(t: Tx)
      requires Valid() && t.id < m
      modifies this`queuesize, this`polled, this`recent, this`echoes, transfer
      ensures Valid() && posted == old(posted)
      ensures View().(acc := View().acc.(posted := posted[t.id := posted[t.id] + 1])) == HandleTx(old(View()), t)
      ensures transfer[..] == old(transfer[..])[t.id := transfer[t.id]]
      ensures transfer[t.id] == old(transfer[t.id]).(completions := old(transfer[t.id]).completions + 1)
      ensures queuesize == old(queuesize) + 1
    {
      transfer[t.id] := transfer[t.id].(completions := transfer[t.id].completions + 1);
      queuesize := queuesize + 1;
      recent := recent[t.id := recent[t.id] + 1];
      if t.write { polled := polled[t.id := polled[t.id] + 1]; } else { echoes := echoes + 1; }
      assert transfer[..] == old(transfer[..])[t.id := transfer[t.id]];
    }

    /** And answered by a write to the same server. */
    method Completion(t: Tx)
      requires Valid() && t.id < m
      modifies this`queuesize, this`posted, this`polled, this`recent, this`echoes, transfer, eps[t.id]
      ensures Valid() && View() == HandleTx(old(View()), t)
      ensures transfer[t.id] == old(transfer[t.id]).(completions := old(transfer[t.id]).completions + 1)
      ensures forall x | 0 <= x < m && x != t.id :: transfer[x] == old(transfer[x])
      ensures queuesize == old(queuesize) + 1
      ensures eps[t.id].writes == old(eps[t.id].writes) + [eps[t.id].remoteKeys]
          && eps[t.id].remoteKeys == old(eps[t.id].remoteKeys)
    {
      Count(t);
      Write(t.id);
      assert forall x | 0 <= x < m && x != t.id :: transfer[..][x] == old(transfer[..])[x];
    }

    method Receive(p: Polls) returns (outcome: Outcome)
      requires Valid() && !stop
      modifies this`ctrlBuff, this`receives, this`stop, this`recent, this`log, transfer, temp, delta
      ensures Valid() && (View(), outcome) == StepRx(old(View()), p)
      ensures outcome == Stopped || outcome == Running ==> (stop <==> outcome == Stopped)
    {
      outcome := Running;
      if p.rx.Some? {
        if p.rx.value.len != INT_SIZE {
          ctrlBuff := p.rx.value.content;
          return BadSize;
        }
        var ret := Command(p.rx.value);
        if ret != 0 {
          return SendFailed;
        }
        if stop { outcome := Stopped; }
      }
    }

    method Transmit(p: Polls) returns (outcome: Outcome)
      requires Valid()
      modifies this`queuesize, this`posted, this`polled, this`recent, this`echoes, transfer, eps
      ensures Valid() && (View(), outcome) == StepTx(old(View()), p)
      ensures forall x | 0 <= x < m :: eps[x].remoteKeys == old(eps[x].remoteKeys)
    {
      outcome := Running;
      if p.tx.Some? {
        if p.tx.value.id >= m {
          return OutOfRange;
        }
        Completion(p.tx.value);
      }
    }

    /** One iteration. */
    method Iterate(p: Polls) returns (outcome: Outcome)
      requires Valid() && !stop
      modifies this`ctrlBuff, this`receives, this`stop, this`recent, this`log, this`queuesize, this`posted, this`polled,
               this`echoes, transfer, temp, delta, eps
      ensures Valid() && (View(), outcome) == Step(old(View()), p)
      ensures forall x | 0 <= x < m :: eps[x].remoteKeys == old(eps[x].remoteKeys)
      ensures outcome == Running ==> !stop
    {
      outcome := Receive(p);
      if outcome == BadSize || outcome == SendFailed {
        return outcome;
      }
      var sent := Transmit(p);
      if sent == OutOfRange { outcome := OutOfRange; }
    }

    /** The loop, for any polls: where it is afterwards is Run of the polls. */
    method Loop(polls: seq<Polls>) returns (outcome: Outcome)
      requires Valid() && !stop
      modifies this, transfer, temp, delta, eps
      ensures Valid() && transfer == old(transfer) && temp == old(temp) && delta == old(delta)
      ensures (View(), outcome) == Run(old(View()), polls)
      ensures forall x | 0 <= x < m :: eps[x].remoteKeys == old(eps[x].remoteKeys)
      ensures forall x | 0 <= x < m :: eps[x].writes == Writes(View().acc.posted[x], old(eps[x].remoteKeys))
    {
      outcome := Running;
      var next := 0;
      while next < |polls| && outcome == Running
        invariant 0 <= next <= |polls| && Valid()
        invariant transfer == old(transfer) && temp == old(temp) && delta == old(delta)
        invariant (View(), outcome) == Run(old(View()), polls[..next])
        invariant forall x | 0 <= x < m :: eps[x].remoteKeys == old(eps[x].remoteKeys)
        invariant outcome == Running ==> !stop
      {
        outcome := Iterate(polls[next]);
        next := next + 1;
        assert polls[..next][..next - 1] == polls[..next - 1];
      }
      if next < |polls| { RunEnded(old(View()), polls, next); }
      assert polls[..|polls|] == polls;
    }
  }

  /** The records after a command, field by field. */
  lemma Records(a: Acc, r: Rx, x: nat)
    requires |a.transfer| == |a.temp| == |a.delta| == |a.recent| && x < |a.transfer|
    ensures var b := OnCommand(a, r.content, r.time);
      && |b.transfer| == |b.temp| == |b.delta| == |a.transfer| && b.transfer[x] == a.transfer[x].(timeSec := r.time)
      && (r.content == Cmd(Checkpoint) ==>
            && b.delta[x] == a.delta[x].(timeSec := r.time, deltaSec := r.time - a.temp[x].timeSec,
                                         completions := a.transfer[x].completions - a.temp[x].completions)
            && b.temp[x] == a.temp[x].(timeSec := r.time, completions := a.transfer[x].completions))
      && (r.content == Cmd(Stop) ==>
            && b.temp == a.temp
            && b.delta[x] == a.delta[x].(timeSec := r.time, deltaSec := r.time,
                completions := a.transfer[x].completions))
      && (r.content != Cmd(Checkpoint) && r.content != Cmd(Stop) ==> b.temp == a.temp && b.delta == a.delta)
  {
    CheckpointRecords(a, r.time, x);
    StopRecords(a, r.time, x);
    OtherRecords(a, r.time, x);
  }

  /** How an iteration goes, from what it polls: it stops at once after a message of another length or a
      report that was not sent, goes out of range at a completion with an id that is none of a
      server's, and polls the transmit queue in all other cases, also after STOP. */
  lemma StepExactly(b: Bench, p: Polls)
    requires Fit(b)
    ensures var (r, outcome) := Step(b, p);
      var bad := p.rx.Some? && p.rx.value.len != 4;
      var unsent := p.rx.Some? && p.rx.value.len == 4 && p.rx.value.sent != 0;
      var outside := p.tx.Some? && p.tx.value.id >= |b.acc.transfer|;
      && (outcome == BadSize <==> bad) && (outcome == SendFailed <==> unsent)
      && (outcome == OutOfRange <==> !bad && !unsent && outside)
      && (outcome == Stopped <==> !bad && !unsent && !outside && p.rx.Some? && p.rx.value.content == Cmd(Stop))
      && (bad ==> r == b.(buff := p.rx.value.content))
      && (bad || unsent || outside || p.tx == None ==> r.acc.posted == b.acc.posted && r.acc.polled == b.acc.polled)
      && (!bad && !unsent && !outside && p.tx.Some? ==>
            r.acc.posted == b.acc.posted[p.tx.value.id := b.acc.posted[p.tx.value.id] + 1])
      && (p.rx == None ==> r.log == b.log && r.buff == b.buff && r.receives == b.receives)
      && (p.rx.Some? && !bad ==>
            r.buff == Report(r.acc.delta) && |r.log| == |b.log| + if unsent then 0 else 1)
  {
  }

  /** Polls after the loop has ended change nothing. */
  lemma {:induction false} RunEnded(b: Bench, polls: seq<Polls>, k: nat)
    requires Fit(b) && k <= |polls| && Run(b, polls[..k]).1 != Running
    ensures Run(b, polls) == Run(b, polls[..k])
  {
    if k < |polls| {
      var shorter := polls[..|polls| - 1];
      assert shorter[..k] == polls[..k];
      RunEnded(b, shorter, k);
    } else {
      assert polls[..k] == polls;
    }
  }

  // ---------- what every run of the loop keeps

  /** The fabric completes what was posted: writes by server, reports with the client's own id. */
  predicate Legal(b: Bench, id: nat, p: Polls)
    requires Fit(b)
  {
    var a := StepRx(b, p).0;
    match p.tx
    case None => true
    case Some(t) =>
      if t.write then t.id < |a.acc.polled| && a.acc.polled[t.id] < a.acc.posted[t.id]
      else t.id == id && a.acc.echoes < |a.log|
  }

  ghost predicate LegalRun(b: Bench, id: nat, polls: seq<Polls>)
    requires Fit(b)
  {
    forall k | 0 <= k < |polls| && Run(b, polls[..k]).1 == Running :: Legal(Run(b, polls[..k]).0, id, polls[k])
  }

  predicate Sound(b: Bench, id: nat, m: nat) {
    && Fit(b) && Books(b.acc, id, m) && Window(b.acc) && b.acc.echoes <= |b.log|
    && (id >= m ==> b.acc.echoes == 0)
  }

  lemma RxSound(b: Bench, id: nat, m: nat, p: Polls)
    requires Sound(b, id, m)
    ensures Sound(StepRx(b, p).0, id, m)
  {
    if p.rx.Some? {
      CheckpointBooks(b.acc, id, m, p.rx.value.time);
      StopBooks(b.acc, id, m, p.rx.value.time);
      OtherBooks(b.acc, id, m, p.rx.value.time);
    }
  }

  lemma TxSound(b: Bench, id: nat, m: nat, p: Polls)
    requires Sound(b, id, m)
    requires p.tx.Some? && p.tx.value.write ==>
               p.tx.value.id < m && b.acc.polled[p.tx.value.id] < b.acc.posted[p.tx.value.id]
    requires p.tx.Some? && !p.tx.value.write ==> p.tx.value.id == id && b.acc.echoes < |b.log|
    ensures Sound(StepTx(b, p).0, id, m)
    ensures StepTx(b, p).1 == OutOfRange <==> p.tx.Some? && !p.tx.value.write && id >= m
  {
    if p.tx.Some? && p.tx.value.id < m { CompleteBooks(b.acc, id, m, p.tx.value.id, p.tx.value.write); }
  }

  /** An iteration runs out of range exactly when it polls the completion of a report send on a
      client whose id is not below the number of servers. */
  lemma StepSound(b: Bench, id: nat, m: nat, p: Polls)
    requires Sound(b, id, m) && Legal(b, id, p)
    ensures Sound(Step(b, p).0, id, m)
    ensures Step(b, p).1 == OutOfRange <==>
            StepRx(b, p).1 in {Running, Stopped} && p.tx.Some? && !p.tx.value.write && id >= m
  {
    RxSound(b, id, m, p);
    if StepRx(b, p).1 in {Running, Stopped} { TxSound(StepRx(b, p).0, id, m, p); }
  }

  /** For every sequence of polls the window stays exact; no access is out of range if id < m. */
  lemma {:induction false} RunSound(b: Bench, id: nat, m: nat, polls: seq<Polls>)
    requires Sound(b, id, m) && LegalRun(b, id, polls)
    ensures Sound(Run(b, polls).0, id, m)
    ensures id < m ==> Run(b, polls).1 != OutOfRange
  {
    if polls != [] {
      var n := |polls| - 1;
      forall k | 0 <= k < n && Run(b, polls[..n][..k]).1
          == Running ensures Legal(Run(b, polls[..n][..k]).0, id, polls[..n][k]) {
        assert polls[..n][..k] == polls[..k];
      }
      RunSound(b, id, m, polls[..n]);
      if Run(b, polls[..n]).1 == Running { StepSound(Run(b, polls[..n]).0, id, m, polls[n]); }
    }
  }
}
