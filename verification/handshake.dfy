/** The certificate handshake before the encrypted channel, with symbolic keys and signatures. */
module Handshake {
  import opened Types

  type Ip = nat

  /** Every key pair that is ever generated is different from the others. */
  datatype Key = RootKey(controller: nat) | ControllerKey(controller: nat) | AgentKey(serial: nat)

  /** A certificate over `key`, for an address if it names one, signed by `signer`. */
  datatype Cert = Cert(key: Key, address: Option<Ip>, signer: Key)

  datatype Pem = Empty | CertPem(cert: Cert) | Other

  datatype Csr = Csr(key: Key, address: Ip)

  // ----- the agent's service -----

  datatype AgentCerts = AgentCerts(root: Pem, key: Option<Key>, cert: Pem, server: Ip)

  /** `armed`: the one-shot sender is still there; `signals`: how often it was used; `generated`: keys made so far. */
  datatype Agent = Agent(certs: AgentCerts, armed: bool, signals: nat, generated: nat)

  const UNSPECIFIED: Ip := 0

  const FRESH := Agent(AgentCerts(Empty, None, Empty, UNSPECIFIED), true, 0, 0)

  /** `address` is None when the text does not parse; `generates` tells whether making a key and request works. */
  datatype Rpc =
    | WhoAmI(remote: Ip)
    | RequestCsr(address: Option<Ip>, root: Pem, generates: bool)
    | SwitchConnection(cert: Pem)

  datatype Reply = Address(ip: Ip) | Request(csr: Csr) | Acked | EmptyCertificate | Panicked

  function ReplyTo(a: Agent, r: Rpc): Reply {
    match r
    case WhoAmI(remote) => Address(remote)
    case RequestCsr(address, _, generates) =>
      if address.Some? && generates then Request(Csr(AgentKey(a.generated), address.value)) else Panicked
    case SwitchConnection(cert) => if cert == Empty then EmptyCertificate else Acked
  }

  /** A request that panics has already replaced the root. */
  function Handle(a: Agent, r: Rpc): Agent {
    match r
    case WhoAmI(remote) => a.(certs := a.certs.(server := remote))
    case RequestCsr(address, root, generates) =>
      var replaced := a.(certs := a.certs.(root := root));
      if address.Some? && generates
      then replaced.(certs := replaced.certs.(key := Some(AgentKey(a.generated))), generated := a.generated + 1)
      else replaced
    case SwitchConnection(cert) =>
      if cert == Empty then a
      else a.(certs := a.certs.(cert := cert), armed := false, signals := a.signals + (if a.armed then 1 else 0))
  }

  class BootstrapService {
    var certs: AgentCerts
    var doneTx: bool
    ghost var signals: nat
    var generated: nat

    ghost function Value(): Agent
      reads this
    {
      Agent(certs, doneTx, signals, generated)
    }

    constructor ()
      ensures Value() == FRESH
    {
      certs := AgentCerts(Empty, None, Empty, UNSPECIFIED);
      doneTx, signals, generated := true, 0, 0;
    }

    method WhoAmI(remote: Ip) returns (reply: Reply)
      modifies this
      ensures Value() == Handle(old(Value()), Rpc.WhoAmI(remote))
      ensures reply == ReplyTo(old(Value()), Rpc.WhoAmI(remote))
    {
      certs := certs.(server := remote);
      reply := Address(remote);
    }

    method RequestCsr(address: Option<Ip>, root: Pem, generates: bool) returns (reply: Reply)
      modifies this
      ensures Value() == Handle(old(Value()), Rpc.RequestCsr(address, root, generates))
      ensures reply == ReplyTo(old(Value()), Rpc.RequestCsr(address, root, generates))
    {
      certs := certs.(root := root);
      if address.None? {
        return Panicked;
      }
      if !generates {
        return Panicked;
      }
      var key := AgentKey(generated);
      generated := generated + 1;
      certs := certs.(key := Some(key));
      return Request(Csr(key, address.value));
    }

    method SwitchConnection(cert: Pem) returns (reply: Reply)
      modifies this
      ensures Value() == Handle(old(Value()), Rpc.SwitchConnection(cert))
      ensures reply == ReplyTo(old(Value()), Rpc.SwitchConnection(cert))
    {
      if cert == Empty {
        return EmptyCertificate;
      }
      certs := certs.(cert := cert);
      if doneTx {
        doneTx := false;
        signals := signals + 1;
      }
      return Acked;
    }
  }

  function Served(a: Agent, rpcs: seq<Rpc>): Agent
    decreases |rpcs|
  {
    if rpcs == [] then a else Handle(Served(a, rpcs[..|rpcs| - 1]), rpcs[|rpcs| - 1])
  }

  predicate Switches(r: Rpc) {
    r.SwitchConnection? && r.cert != Empty
  }

  ghost predicate LastSwitch(rpcs: seq<Rpc>, i: int)
    requires 0 <= i < |rpcs|
  {
    Switches(rpcs[i]) && forall j | i < j < |rpcs| :: !Switches(rpcs[j])
  }

  /** Over any sequence of calls the end of the bootstrap is signalled at most once, and exactly when a call has
      stored a non-empty certificate; the agent then holds the certificate of the last such call. */
  lemma {:induction false} DoneOnce(rpcs: seq<Rpc>)
    ensures var a := Served(FRESH, rpcs);
            && a.signals <= 1
            && (a.signals == 1 <==> !a.armed)
            && (a.signals == 1 <==> exists i :: 0 <= i < |rpcs| && Switches(rpcs[i]))
            && (a.signals == 1 <==> a.certs.cert != Empty)
            && (a.signals == 1 ==> exists i :: 0 <= i < |rpcs| && LastSwitch(rpcs, i) && a.certs.cert == rpcs[i].cert)
  {
    if rpcs != [] {
      var n := |rpcs| - 1;
      var before := rpcs[..n];
      DoneOnce(before);
      if Switches(rpcs[n]) {
        assert LastSwitch(rpcs, n);
      } else if Served(FRESH, before).signals == 1 {
        var i :| 0 <= i < |before| && LastSwitch(before, i) && Served(FRESH, before).certs.cert == before[i].cert;
        assert LastSwitch(rpcs, i) && rpcs[i] == before[i];
      }
    }
  }

  // ----- controllers -----

  /** Where a controller is in `bootstrap_mtls`. */
  datatype Pc = Dialing | Told(seen: Ip) | Signing(csr: Csr) | Connecting | GaveUp

  /** `asked` and `stored` record the controllers whose request, and whose certificate, reached the agent; `issued`
      the key the agent made for each. */
  datatype World = World(
    agent: Agent, dialed: map<nat, Ip>, pcs: map<nat, Pc>,
    asked: seq<nat>, stored: seq<nat>, issued: map<nat, Key>)

  /** Controller `id` makes its next call, or gives up before it reaches the agent. */
  datatype Move = Call(id: nat, remote: Ip, generates: bool, answered: bool) | Drop(id: nat)

  function Root(id: nat): Cert {
    Cert(RootKey(id), None, RootKey(id))
  }

  function Signed(csr: Csr, id: nat): Cert {
    Cert(csr.key, Some(csr.address), RootKey(id))
  }

  function Opening(dialed: map<nat, Ip>): World {
    World(FRESH, dialed, map id | id in dialed :: Dialing, [], [], map[])
  }

  predicate Active(w: World, id: nat) {
    id in w.dialed && id in w.pcs && !w.pcs[id].Connecting? && !w.pcs[id].GaveUp?
  }

  /** The call a controller at `pc` makes. */
  function NextRpc(pc: Pc, id: nat, dialed: Ip, m: Move): Rpc
    requires m.Call? && !pc.Connecting? && !pc.GaveUp?
  {
    match pc
    case Dialing => WhoAmI(m.remote)
    case Told(_) => RequestCsr(Some(dialed), CertPem(Root(id)), m.generates)
    case Signing(csr) => SwitchConnection(CertPem(Signed(csr, id)))
  }

  function NextPc(reply: Reply): Pc {
    match reply
    case Address(ip) => Told(ip)
    case Request(csr) => Signing(csr)
    case Acked => Connecting
    case _ => GaveUp
  }

  function Step(w: World, m: Move): World {
    if !Active(w, m.id) then w
    else if m.Drop? then w.(pcs := w.pcs[m.id := GaveUp])
    else
      var pc := w.pcs[m.id];
      var rpc := NextRpc(pc, m.id, w.dialed[m.id], m);
      var reply := ReplyTo(w.agent, rpc);
      World(Handle(w.agent, rpc), w.dialed,
            w.pcs[m.id := if m.answered then NextPc(reply) else GaveUp],
            if pc.Told? then w.asked + [m.id] else w.asked,
            if pc.Signing? then w.stored + [m.id] else w.stored,
            if reply.Request? then w.issued[m.id := reply.csr.key] else w.issued)
  }

  function Run(w: World, moves: seq<Move>): World
    decreases |moves|
  {
    if moves == [] then w else Run(Step(w, moves[0]), moves[1..])
  }

  function Last(s: seq<nat>): nat
    requires s != []
  {
    s[|s| - 1]
  }

  /** The agent holds the root of the last controller that asked, and the key it made for it if it could make one. */
  ghost predicate RootInv(w: World) {
    if w.asked == [] then w.agent.certs.root == Empty && w.agent.certs.key == None
    else w.agent.certs.root == CertPem(Root(Last(w.asked)))
         && (Last(w.asked) in w.issued ==> w.agent.certs.key == Some(w.issued[Last(w.asked)]))
  }

  /** The agent holds the certificate of the last controller that stored one, over the key made for that one. */
  ghost predicate CertInv(w: World) {
    if w.stored == [] then w.agent.certs.cert == Empty
    else var id := Last(w.stored);
         id in w.issued && id in w.dialed
         && w.agent.certs.cert == CertPem(Cert(w.issued[id], Some(w.dialed[id]), RootKey(id)))
  }

  ghost predicate PcInv(w: World, id: nat) {
    && (id in w.pcs <==> id in w.dialed)
    && (id in w.pcs && (w.pcs[id].Dialing? || w.pcs[id].Told?) ==> id !in w.asked && id !in w.issued)
    && (id in w.pcs && w.pcs[id].Signing? ==>
          id in w.issued && w.pcs[id].csr == Csr(w.issued[id], w.dialed[id]))
    && (id in w.pcs && w.pcs[id].Connecting? ==> id in w.asked && id in w.stored)
    && (id in w.pcs && w.pcs[id].Signing? ==> id in w.asked)
  }

  ghost predicate Inv(w: World) {
    && RootInv(w) && CertInv(w)
    && w.agent.signals <= 1 && (w.agent.signals == 1 <==> w.stored != [])
    && (w.agent.armed <==> w.agent.signals == 0)
    && forall id: nat :: PcInv(w, id)
  }

  lemma StepKeeps(w: World, m: Move)
    requires Inv(w)
    ensures Inv(Step(w, m))
  {
    assert PcInv(w, m.id);
    var v := Step(w, m);
    forall id: nat ensures PcInv(v, id) {
      assert PcInv(w, id);
    }
  }

  lemma {:induction false} RunKeeps(w: World, moves: seq<Move>)
    requires Inv(w)
    ensures Inv(Run(w, moves)) && Run(w, moves).dialed == w.dialed
    decreases |moves|
  {
    if moves != [] {
      StepKeeps(w, moves[0]);
      RunKeeps(Step(w, moves[0]), moves[1..]);
    }
  }

  // ----- the encrypted channel -----

  function ControllerCert(id: nat, seen: Ip): Cert {
    Cert(ControllerKey(id), Some(seen), RootKey(id))
  }

  /** `cert` is signed by the key of the self-signed `root`. */
  predicate SignedBy(cert: Cert, root: Cert) {
    root.signer == root.key && cert.signer == root.key
  }

  /** The controller accepts the agent: its certificate is signed by the controller's root, names the dialed address,
      and is over the key the agent proves to hold. */
  predicate ControllerAccepts(a: AgentCerts, id: nat, dialed: Ip) {
    && a.cert.CertPem? && SignedBy(a.cert.cert, Root(id))
    && a.cert.cert.address == Some(dialed)
    && a.key == Some(a.cert.cert.key)
  }

  /** The agent accepts the controller: its certificate is signed by the root the agent holds. */
  predicate AgentAccepts(a: AgentCerts, id: nat, seen: Ip) {
    a.root.CertPem? && SignedBy(ControllerCert(id, seen), a.root.cert)
  }

  predicate MutualTls(a: AgentCerts, id: nat, dialed: Ip, seen: Ip) {
    ControllerAccepts(a, id, dialed) && AgentAccepts(a, id, seen)
  }

  lemma OpeningHolds(dialed: map<nat, Ip>)
    ensures Inv(Opening(dialed))
  {
    forall id: nat ensures PcInv(Opening(dialed), id) {
    }
  }

  /** For any number of controllers in any interleaving: the two sides accept each other exactly if the last request
      and the last stored certificate are both that controller's. */
  lemma Agreement(dialed: map<nat, Ip>, moves: seq<Move>, id: nat, seen: Ip)
    requires id in dialed
    ensures var w := Run(Opening(dialed), moves);
            MutualTls(w.agent.certs, id, dialed[id], seen)
            <==> w.asked != [] && Last(w.asked) == id && w.stored != [] && Last(w.stored) == id
  {
    OpeningHolds(dialed);
    RunKeeps(Opening(dialed), moves);
  }

  predicate OnlyBy(moves: seq<Move>, id: nat) {
    forall i | 0 <= i < |moves| :: moves[i].id == id
  }

  ghost predicate Alone(w: World, id: nat) {
    && (forall i | 0 <= i < |w.asked| :: w.asked[i] == id)
    && (forall i | 0 <= i < |w.stored| :: w.stored[i] == id)
    && (w.stored != [] ==> w.asked != [])
    && (id in w.pcs && w.pcs[id].Signing? ==> w.asked != [])
  }

  lemma {:induction false} AloneStays(w: World, moves: seq<Move>, id: nat)
    requires Alone(w, id) && OnlyBy(moves, id)
    ensures Alone(Run(w, moves), id)
    decreases |moves|
  {
    if moves != [] {
      AloneStays(Step(w, moves[0]), moves[1..], id);
    }
  }

  /** With a single controller, once the end of the bootstrap is signalled the agent holds that controller's root, a
      key, and a certificate for the dialed address signed by that root over that very key; both sides accept. */
  lemma SingleControllerAgrees(dialed: map<nat, Ip>, moves: seq<Move>, id: nat, seen: Ip)
    requires id in dialed && OnlyBy(moves, id)
    requires Run(Opening(dialed), moves).agent.signals == 1
    ensures var a := Run(Opening(dialed), moves).agent.certs;
            && a.root == CertPem(Root(id))
            && a.key.Some? && a.cert == CertPem(Signed(Csr(a.key.value, dialed[id]), id))
            && MutualTls(a, id, dialed[id], seen)
  {
    OpeningHolds(dialed);
    RunKeeps(Opening(dialed), moves);
    AloneStays(Opening(dialed), moves, id);
  }

  /** A controller that came to the end of its bootstrap agrees with the agent unless another asked, or stored a
      certificate, after it did. */
  lemma AgreesUnlessOvertaken(dialed: map<nat, Ip>, moves: seq<Move>, id: nat, seen: Ip)
    requires var w := Run(Opening(dialed), moves); id in w.pcs && w.pcs[id].Connecting?
    ensures var w := Run(Opening(dialed), moves);
            && id in w.dialed && id in w.asked && id in w.stored && w.agent.signals == 1
            && (MutualTls(w.agent.certs, id, w.dialed[id], seen) <==> Last(w.asked) == id && Last(w.stored) == id)
  {
    OpeningHolds(dialed);
    RunKeeps(Opening(dialed), moves);
    assert PcInv(Run(Opening(dialed), moves), id);
    Agreement(dialed, moves, id, seen);
  }

  /** Two controllers that interleave can leave the agent with nobody it agrees with: the second asks between the
      first's request and its certificate. */
  lemma TwoControllersDisagree()
    ensures var dialed := map[0 := 10, 1 := 10];
            var moves := [Call(0, 7, true, true), Call(0, 7, true, true), Call(1, 8, true, true),
                          Call(1, 8, true, true), Call(0, 7, true, true)];
            var w := Run(Opening(dialed), moves);
            w.agent.signals == 1
            && forall id, seen | id in dialed :: !MutualTls(w.agent.certs, id, dialed[id], seen)
  {
  }
}
