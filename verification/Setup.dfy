/** Construction of a node's endpoints: which port every endpoint listens on or dials. */
module Setup {
  import opened Wire
  import opened Protocol
  import opened Ledger

  datatype Mode = Processing | Entering | Central

  /** hosts are the server addresses of the server list. */
  datatype Settings = Settings(n: nat, m: nat, startPort: int, controllerPort: int, offset: int,
                               hosts: seq<string>, controller: string)

  /** An endpoint: the address and port it listens on or dials, and its id. */
  datatype Plug = Plug(addr: string, port: int, id: int)

  const LOCAL := ""

  function Plugs(g: Settings, mode: Mode, id: nat): seq<Plug>
    requires mode.Entering? ==> g.m <= |g.hosts|
  {
    match mode
    case Processing => seq(g.n, x => Plug(LOCAL, g.startPort + x, x))
    case Entering => seq(g.m, x requires 0 <= x < g.m => Plug(g.hosts[x], g.startPort + id, x))
    case Central => seq(g.n, x => Plug(LOCAL, g.controllerPort + x, x))
                    + seq(g.m, x => Plug(LOCAL, g.controllerPort + x + g.offset, x + 1000))
  }

  function CepOf(g: Settings, mode: Mode, id: nat): Option<Plug> {
    match mode
    case Processing => Some(Plug(g.controller, id + g.controllerPort + g.offset, id))
    case Entering => Some(Plug(g.controller, id + g.controllerPort, id))
    case Central => None
  }

  class Node {
    const id: nat
    var eps: seq<Plug>
    var cep: Option<Plug>

    constructor (id: nat)
      ensures this.id == id && eps == [] && cep == None
    {
      this.id := id;
      eps, cep := [], None;
    }

    /** Fails exactly when a client's server list is too short. */
    method Init(mode: Mode, g: Settings) returns (ret: int)
      requires eps == [] && cep == None
      modifies this
      ensures ret == if mode.Entering? && g.m > |g.hosts| then -1 else 0
      ensures ret == 0 ==> eps == Plugs(g, mode, id) && cep == CepOf(g, mode, id)
      ensures ret == 0 && mode.Entering? ==>
                && |eps| == g.m && cep == Some(Plug(g.controller, g.controllerPort + id, id))
                && forall x | 0 <= x < g.m :: eps[x] == Plug(g.hosts[x], g.startPort + id, x)
      ensures ret == 0 && mode.Processing? ==>
                && |eps| == g.n && cep == Some(Plug(g.controller, g.controllerPort + g.offset + id, id))
                && forall x | 0 <= x < g.n :: eps[x].port == g.startPort + x && eps[x].id == x
      ensures ret == 0 && mode.Central? ==>
                && |eps| == g.n + g.m && cep == None
                && (forall x | 0 <= x < g.n :: eps[x].port == g.controllerPort + x && eps[x].id == x)
                && (forall x | g.n <= x < g.n + g.m ::
                      eps[x].port == g.controllerPort + g.offset + x - g.n && eps[x].id == x - g.n + 1000)
      ensures ret != 0 ==> eps == [] && cep == None
    {
      match mode {
        case Processing =>
          for i := 0 to g.n
            invariant eps == seq(i, x => Plug(LOCAL, g.startPort + x, x)) && cep == None
          {
            eps := eps + [Plug(LOCAL, g.startPort + i, i)];
          }
          cep := Some(Plug(g.controller, id + (g.controllerPort + g.offset), id));
        case Entering =>
          if g.m > |g.hosts| {
            return -1;
          }
          for i := 0 to g.m
            invariant eps == seq(i, x requires 0 <= x < i => Plug(g.hosts[x], g.startPort + id, x)) && cep == None
          {
            eps := eps + [Plug(g.hosts[i], g.startPort + id, i)];
          }
          cep := Some(Plug(g.controller, id + g.controllerPort, id));
        case Central =>
          for i := 0 to g.n
            invariant eps == seq(i, x => Plug(LOCAL, g.controllerPort + x, x)) && cep == None
          {
            eps := eps + [Plug(LOCAL, g.controllerPort + i, i)];
          }
          ghost var clients := eps;
          for i := 0 to g.m
            invariant eps == clients + seq(i, x => Plug(LOCAL, g.controllerPort + x + g.offset, x + 1000))
                && cep == None
          {
            eps := eps + [Plug(LOCAL, g.controllerPort + i + g.offset, i + 1000)];
          }
      }
      ret := 0;
    }
  }

  // ---------- pairing

  /** The endpoint that dials l, and the endpoint of the passive node at l's slot. */
  function Dials(g: Settings, l: Link): Option<Plug>
    requires g.m <= |g.hosts|
  {
    match l
    case Cc(i) => CepOf(g, Entering, i)
    case Sc(j) => CepOf(g, Processing, j)
    case Cs(i, j) => if j < g.m then Some(Plugs(g, Entering, i)[j]) else None
  }

  function Listeners(g: Settings, h: Host): seq<Plug> {
    match h case Ctl => Plugs(g, Central, 0) case Srv(j) => Plugs(g, Processing, j)
  }

  /** No two endpoints of one listening node share a port. */
  predicate PortsDistinct(ps: seq<Plug>) {
    forall x, y | 0 <= x < y < |ps| :: ps[x].port != ps[y].port
  }

  /** The controller's ports are distinct exactly when the two ranges do not overlap; for an offset
      that is not negative, exactly when it is at least the number of clients. */
  lemma SharedPorts(g: Settings)
    requires g.n > 0 && g.m > 0
    ensures PortsDistinct(Plugs(g, Central, 0)) <==> g.n <= g.offset || g.offset + g.m <= 0
    ensures forall j: nat :: PortsDistinct(Plugs(g, Processing, j))
  {
    var ps := Plugs(g, Central, 0);
    if 0 <= g.offset < g.n {
      assert ps[g.offset].port == ps[g.n].port;
    } else if g.offset < 0 < g.offset + g.m {
      assert ps[0].port == ps[g.n - g.offset].port;
    }
  }

  /** The address of a listening node. */
  function AddressOf(g: Settings, h: Host): string {
    match h case Ctl => g.controller case Srv(j) => if j < |g.hosts| then g.hosts[j] else LOCAL
  }

  /** The servers have different addresses, none of them the controller's. */
  predicate Apart(g: Settings) {
    && g.m <= |g.hosts| && (forall j | 0 <= j < g.m :: g.hosts[j] != g.controller)
    && (forall x, y | 0 <= x < y < g.m :: g.hosts[x] != g.hosts[y])
  }

  /** Of all listening endpoints of all nodes, a dialling endpoint finds exactly that of its own slot at
      the node it dials: client i endpoint i of every server and of the controller, server s endpoint
      n + s of the controller. */
  lemma Pairing(g: Settings, l: Link, h: Host, x: nat)
    requires g.n <= g.offset && Apart(g) && x < |Listeners(g, h)| && (h.Srv? ==> h.j < g.m)
    requires Valid(Config(g.n, g.m, 0), l)
    ensures Dials(g, l).Some?
    ensures Dials(g, l).value.addr == AddressOf(g, h) && Dials(g, l).value.port == Listeners(g, h)[x].port
        <==> h == Passive(l) && x == Slot(Config(g.n, g.m, 0), l)
  {
    match l case Cs(i, j) => if h.Srv? && h.j != j { assert g.hosts[h.j] != g.hosts[j]; } case _ =>
  }

  /** Where it dials, by address, port and id: the id is the one its completions carry. */
  lemma DialsWhere(g: Settings, l: Link)
    requires g.m <= |g.hosts| && Valid(Config(g.n, g.m, 0), l)
    ensures Dials(g, l) == match l
      case Cc(i) => Some(Plug(g.controller, g.controllerPort + i, i))
      case Sc(j) => Some(Plug(g.controller, g.controllerPort + g.offset + j, j))
      case Cs(i, j) => Some(Plug(g.hosts[j], g.startPort + i, j))
  {
  }

  /** With a smaller offset some client and some server would dial the same endpoint. */
  lemma Mispairing(g: Settings)
    requires g.n > 0 && g.m > 0 && g.m <= |g.hosts| && 0 <= g.offset < g.n
    ensures Dials(g, Sc(0)).value.port == Dials(g, Cc(g.offset)).value.port
  {
  }

  /** A receive completion at the controller carries an id below n, that of the endpoint it
      arrived on and of the client dialling it. */
  lemma ReceiveIds(g: Settings, c: Config, s: State, i: nat)
    requires Sane(c) && Reachable(c, s) && c.n == g.n && c.m == g.m && CanGather(s, i)
    ensures i < c.n && Plugs(g, Central, 0)[i].id == i == Slot(c, Cc(i))
  {
    FullReachable(c, s);
  }

  /** The controller's endpoint ids tell its endpoints apart exactly up to a thousand clients. */
  lemma DistinctIds(g: Settings)
    requires g.m > 0
    ensures (forall x, y | 0 <= x < y < g.n + g.m :: Plugs(g, Central, 0)[x].id != Plugs(g, Central, 0)[y].id)
        <==> g.n <= 1000
  {
    var ps := Plugs(g, Central, 0);
    if g.n > 1000 { assert ps[1000].id == ps[g.n].id; }
  }
}
