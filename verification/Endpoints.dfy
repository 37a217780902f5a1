/** One endpoint: its message buffer, its control buffer, the contexts it posts and its keys. */
module Endpoints {
  import opened Wire

  /** A context names the endpoint and the size of what was posted with it. */
  datatype Ctx = Ctx(id: nat, size: nat)

  /** What was handed to the fabric. A sent message is taken from the control buffer. */
  datatype Sent = Sent(content: Payload, ctx: Ctx)

  /** A receive completion for `connect`: context, length, and what is in the control buffer. */
  datatype Receipt = Receipt(ctx: Ctx, len: nat, content: Payload)

  /** What reading the event queue comes back with: a CONNECTED, another event, EAGAIN, an error. */
  datatype Occasion = Established | Other | Again | Failure

  /** What one call of `connect` finds: the results of posting the receive and the request, the
      event, the result of waiting for a receive completion, and that completion. */
  datatype Answer = Answer(recv: int, request: int, event: Occasion, wait: int, receipt: Receipt)

  /** The connection is made and keys have come. A read that comes back with EAGAIN is passed over. */
  predicate Good(a: Answer) {
    a.recv == 0 && a.request == 0 && (a.event == Established || a.event == Again) && a.wait == 0
    && a.receipt.ctx.size == a.receipt.len
  }

  /** How accepting a request goes: no active endpoint could be made, or one was made and then could
      not be bound, enabled or accepted. */
  datatype Grant = Granted | NoEndpoint | Refused

  /** The two fillings of a message buffer. */
  function Zeros(words: nat): seq<int> { seq(words, _ => 0) }
  function Pattern(words: nat): seq<int> { seq(words, k => k) }

  /** n writes posted with the same keys. */
  function Writes(n: nat, keys: Option<Link>): (s: seq<Option<Link>>)
    ensures |s| == n && forall q | 0 <= q < n :: s[q] == keys
  {
    seq(n, _ => keys)
  }

  class Endpoint {
    const id: nat
    const owner: Link
    const ctrlSize: nat
    const msgSize: nat
    const msgBuff: array<int>
    var pep: nat
    var ep: Option<nat>
    var ctrlBuff: Payload
    var rxCtx: Ctx
    var cCtx: Ctx
    var txCtx: Ctx
    var remoteKeys: Option<Link>
    var run: bool
    ghost var receives: seq<Ctx>
    ghost var sends: seq<Sent>
    ghost var writes: seq<Option<Link>>

    /** Words of the message buffer. */
    function Words(): nat { msgBuff.Length }

    constructor (id: nat, owner: Link, ctrlSize: nat, msgSize: nat)
      ensures this.id == id && this.owner == owner && this.ctrlSize == ctrlSize && this.msgSize == msgSize
          && fresh(msgBuff)
      ensures Words() == msgSize / INT_SIZE && ep == None && remoteKeys == None && !run && ctrlBuff == Blank
      ensures receives == [] && sends == [] && writes == []
      ensures rxCtx == cCtx == txCtx == Ctx(id, 0)
    {
      this.id, this.owner, this.ctrlSize, this.msgSize := id, owner, ctrlSize, msgSize;
      msgBuff := new int[msgSize / INT_SIZE];
      pep, ep, ctrlBuff, remoteKeys, run := 0, None, Blank, None, false;
      rxCtx, cCtx, txCtx := Ctx(id, 0), Ctx(id, 0), Ctx(id, 0);
      receives, sends, writes := [], [], [];
    }

    /** Zeroes the message buffer and takes a passive endpoint. */
    method Server(handle: nat)
      modifies this`pep, msgBuff
      ensures pep == handle && msgBuff[..] == Zeros(Words()) && forall k | 0 <= k < Words() :: msgBuff[k] == 0
    {
      for i := 0 to msgBuff.Length
        modifies msgBuff
        invariant forall k | 0 <= k < i :: msgBuff[k] == 0
      {
        msgBuff[i] := 0;
      }
      pep := handle;
    }

    /** Test data is generated in a buffer of its own and copied: word k is k. */
    method SetDataBuffer()
      modifies msgBuff
      ensures msgBuff[..] == Pattern(Words()) && forall k | 0 <= k < Words() :: msgBuff[k] == k
    {
      var message := new int[msgBuff.Length];
      for i := 0 to message.Length
        modifies message
        invariant forall k | 0 <= k < i :: message[k] == k
      {
        message[i] := i;
      }
      forall k | 0 <= k < msgBuff.Length { msgBuff[k] := message[k]; }
    }

    /** The remote address is whatever keys are held; the context keeps the endpoint's id. */
    method RdmaWrite()
      modifies this`txCtx, this`writes
      ensures writes == old(writes) + [remoteKeys] && txCtx == Ctx(old(txCtx.id), msgSize)
    {
      txCtx := txCtx.(size := msgSize);
      writes := writes + [remoteKeys];
    }

    /** A size of zero stands for the whole control buffer. `posted` is what the fabric answers; so below. */
    method CtrlRecv(size: nat, posted: int := 0) returns (ret: int)
      modifies this`rxCtx, this`receives
      ensures ret == posted && rxCtx == Ctx(id, if size == 0 then ctrlSize else size)
      ensures receives == if posted == 0 then old(receives) + [rxCtx] else old(receives)
    {
      var n := size;
      if n <= 0 { n := ctrlSize; }
      rxCtx := rxCtx.(id := id);
      rxCtx := rxCtx.(size := n);
      if posted == 0 { receives := receives + [rxCtx]; }
      ret := posted;
    }

    method CtrlSend(size: nat, posted: int := 0) returns (ret: int)
      modifies this`cCtx, this`sends
      ensures ret == posted && cCtx == Ctx(old(cCtx.id), if size == 0 then ctrlSize else size)
      ensures sends == if posted == 0 then old(sends) + [Sent(ctrlBuff, cCtx)] else old(sends)
    {
      var n := size;
      if n <= 0 { n := ctrlSize; }
      cCtx := cCtx.(size := n);
      if posted == 0 { sends := sends + [Sent(ctrlBuff, cCtx)]; }
      ret := posted;
    }

    method SendKeys(posted: int := 0) returns (ret: int)
      modifies this`ctrlBuff, this`cCtx, this`sends
      ensures ret == posted && ctrlBuff == Keys(owner) && cCtx == Ctx(old(cCtx.id), Len(ctrlBuff))
      ensures sends == if posted == 0 then old(sends) + [Sent(Keys(owner), cCtx)] else old(sends)
    {
      ctrlBuff := Keys(owner);
      ret := CtrlSend(KEYS_SIZE, posted);
    }

    method SendCommand(command: Command, posted: int := 0) returns (ret: int)
      modifies this`ctrlBuff, this`cCtx, this`sends
      ensures ret == posted && ctrlBuff == Cmd(command) && cCtx == Ctx(old(cCtx.id), Len(ctrlBuff))
      ensures sends == if posted == 0 then old(sends) + [Sent(Cmd(command), cCtx)] else old(sends)
    {
      ctrlBuff := Cmd(command);
      cCtx := cCtx.(size := INT_SIZE);
      ret := CtrlSend(INT_SIZE, posted);
    }

    /** A request is answered with a new active endpoint, which replaces the one before. */
    method Accept(handle: nat, grant: Grant := Granted) returns (ret: int)
      modifies this`ep
      ensures ret == (if grant == Granted then 0 else -1) && ep == if grant == NoEndpoint then old(ep) else Some(handle)
    {
      if grant == NoEndpoint {
        return -1;
      }
      ep := Some(handle);
      ret := if grant == Refused then -1 else 0;
    }

    /** It succeeds exactly on a good answer, and then holds the keys that came. A failing call
        returns the first error and leaves the keys alone; the receive it posted stays posted. */
    method Connect(a: Answer) returns (ret: int)
      modifies this`rxCtx, this`receives, this`ctrlBuff, this`remoteKeys, this`run
      ensures ret == 0 <==> Good(a)
      ensures ret == 0 <==>
              && a.recv == 0 && a.request == 0 && (a.event == Established || a.event == Again)
              && a.wait == 0 && a.receipt.ctx.size == a.receipt.len
      ensures receives == if a.recv == 0 then old(receives) + [Ctx(id, KEYS_SIZE)] else old(receives)
      ensures ret == 0 ==> run && ctrlBuff == a.receipt.content
      ensures ret == 0 ==> remoteKeys == if a.receipt.content.Keys? then Some(a.receipt.content.owner) else None
      ensures ret != 0 ==> remoteKeys == old(remoteKeys) && run == old(run)
      ensures a.recv != 0 ==> ret == a.recv
      ensures a.recv == 0 && a.request != 0 ==> ret == a.request
      ensures a.recv == 0 && a.request == 0 && (a.event == Other || a.event == Failure) ==> ret == -1
      ensures a.recv == 0 && a.request == 0 && (a.event == Established || a.event == Again) ==>
                ret == if a.wait != 0 then a.wait else if a.receipt.ctx.size == a.receipt.len then 0 else -1
    {
      ret := CtrlRecv(KEYS_SIZE, a.recv);
      if ret != 0 {
        return ret;
      }
      if a.request != 0 {
        return a.request;
      }
      if a.event == Other || a.event == Failure {
        return -1;
      }
      if a.wait != 0 {
        return a.wait;
      }
      ctrlBuff := a.receipt.content;
      if a.receipt.ctx.size == a.receipt.len {
        remoteKeys := if ctrlBuff.Keys? then Some(ctrlBuff.owner) else None;
        run := true;
        return 0;
      }
      return -1;
    }
  }
}
