/** What travels between the nodes: control messages, completions and the
    transfer records of the measurement reports. */
module Wire {

  datatype Option<+T> = None | Some(value: T)

  datatype Command = Stop | Start | Connect | Connected | Checkpoint

  /** One record of a report; the deprecated data_byte field carries no information. */
  datatype Transfer = Transfer(from: int, to: int, deltaSec: real, timeSec: real, completions: int)

  /** A connection, named by the endpoint that dials it:
      client i to the controller, server j to the controller, client i to server j. */
  datatype Link = Cc(i: nat) | Sc(j: nat) | Cs(i: nat, j: nat)

  /** The contents of a control buffer. Keys(l) is the id/rkey/address triple of the
      message buffer that belongs to the passive endpoint of l. */
  datatype Payload = Blank | Keys(owner: Link) | Cmd(command: Command) | Report(rows: seq<Transfer>)

  /** Sizes on a 64-bit host: sizeof(int), sizeof(struct keys), sizeof(struct transfer) each. */
  const INT_SIZE: nat := 4
  const KEYS_SIZE: nat := 24
  const TRANSFER_SIZE: nat := 40

  function Len(p: Payload): nat {
    match p
    case Blank => 0
    case Keys(_) => KEYS_SIZE
    case Cmd(_) => INT_SIZE
    case Report(rows) => TRANSFER_SIZE * |rows|
  }

  /** Results of calls made one after another until one fails: how many succeed, and the error. */
  function Successes(results: seq<int>): (n: nat)
    ensures n <= |results| && (forall q | 0 <= q < n :: results[q] == 0) && (n < |results| ==> results[n] != 0)
  {
    if results == [] || results[0] != 0 then 0 else 1 + Successes(results[1..])
  }

  function FirstError(results: seq<int>): (error: int)
    ensures error == 0 <==> forall q | 0 <= q < |results| :: results[q] == 0
  {
    if Successes(results) < |results| then results[Successes(results)] else 0
  }

  /** The error is the result of the first call that failed. */
  lemma FirstErrorIs(results: seq<int>, k: nat)
    requires k < |results| && results[k] != 0 && forall q | 0 <= q < k :: results[q] == 0
    ensures FirstError(results) == results[k] && Successes(results) == k
  {
  }

  /** The code tells messages apart by their lengths: no two kinds have the same, as long as a report
      has a record. */
  lemma LengthsApart(command: Command, owner: Link, rows: seq<Transfer>)
    requires rows != []
    ensures Len(Cmd(command)) == 4 && Len(Keys(owner)) == 24 && Len(Report(rows)) == 40 * |rows|
    ensures Len(Report(rows)) > Len(Keys(owner)) > Len(Cmd(command)) > Len(Blank)
  {
  }

  lemma Tail<T>(s: seq<T>, k: nat)
    requires k < |s|
    ensures s[k..][0] == s[k] && s[k..][1..] == s[k + 1..]
  {
  }
}
