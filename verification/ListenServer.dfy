/**
 Accepting connections (ListenServer.cc, poll) through the router's four connect filters (NodeRouter.cc):
 who owns an accepted peer, and who deletes it.
 */
module ListenServer {
  import opened Common

  type Peer = nat

  /** What reading a new peer's registration gives; `Unreadable` is an exception, `Invalid` a failed context. */
  datatype Registration =
    | Unreadable
    | Invalid
    | ClientOf(session: Id)
    | NodePeer(node: Id)
    | Executor(session: Id, computation: Id)
    | Control
    | Other

  /** `dataGone`: the session's routing data disappears between a filter's check and the endpoint's constructor. */
  datatype Incoming = Incoming(peer: Peer, registration: Registration, dataGone: bool)

  const MAX_NEW_PEERS: nat := 32

  /** What a filter did: returned null, returned an endpoint, or threw. */
  datatype Verdict = Declined | Took(ep: nat) | Threw

  /** All of the router that connections change: its tables, its endpoints' peers, and the peers deleted. */
  datatype Tables = Tables(
    clients: map<Id, nat>, nodes: map<Id, nat>, ipc: map<Id, nat>, service: Option<nat>,
    eps: seq<Option<Peer>>, deleted: multiset<Peer>)

  /** What the router knows when a connection comes: itself, its routing data, and the nodes' addresses. */
  datatype Knowledge = Knowledge(self: Id, routing: set<Id>, known: set<Id>)

  function TurnedAway(t: Tables, peer: Peer): Tables {
    t.(deleted := t.deleted + multiset{peer})
  }

  function WithEndpoint(t: Tables, peer: Option<Peer>): Tables {
    t.(eps := t.eps + [peer])
  }

  /** The endpoint `e` gets another peer, or none; the one it had is deleted. */
  function Repeered(t: Tables, e: nat, peer: Option<Peer>): Tables {
    if e < |t.eps| then t.(eps := t.eps[e := peer], deleted := t.deleted + One(t.eps[e])) else t
  }

  ghost predicate TablesValid(t: Tables) {
    && (forall n :: n in t.nodes ==> t.nodes[n] < |t.eps|)
    && (forall c :: c in t.ipc ==> t.ipc[c] < |t.eps|)
  }

  /** Only the first client of a session is kept. */
  ghost predicate SettlesClient(k: Knowledge, t: Tables, t': Tables, i: Incoming, session: Id) {
    if session in t.clients || (session in k.routing && i.dataGone) then t' == TurnedAway(t, i.peer)
    else t' == WithEndpoint(t, Some(i.peer)).(clients := t.clients[session := |t.eps|])
  }

  /** A greater node's connection is kept, a lesser one's is to be dialled back. */
  ghost predicate SettlesNode(k: Knowledge, t: Tables, t': Tables, i: Incoming, node: Id) {
    if k.self <= node then
      if node in t.nodes then t' == Repeered(t, t.nodes[node], Some(i.peer))
      else t' == WithEndpoint(t, Some(i.peer)).(nodes := t.nodes[node := |t.eps|])
    else if node in t.nodes || node !in k.known then t' == TurnedAway(t, i.peer)
    else t' == TurnedAway(WithEndpoint(t, None), i.peer).(nodes := t.nodes[node := |t.eps|])
  }

  /** A computation is kept when the router knows its session; the one before it under its id is destroyed. */
  ghost predicate SettlesExecutor(k: Knowledge, t: Tables, t': Tables, i: Incoming, session: Id, computation: Id) {
    if session != NULL_ID && (session !in k.routing || i.dataGone) then t' == TurnedAway(t, i.peer)
    else
      var more := WithEndpoint(t, Some(i.peer));
      t' == (if computation in t.ipc then Repeered(more, t.ipc[computation], None) else more)
              .(ipc := t.ipc[computation := |t.eps|])
  }

  /** Only the first service is kept. */
  ghost predicate SettlesControl(t: Tables, t': Tables, i: Incoming) {
    if t.service.Some? then t' == TurnedAway(t, i.peer)
    else t' == WithEndpoint(t, Some(i.peer)).(service := Some(|t.eps|))
  }

  /** Who ends up with a peer, by its registration and what was there before it. */
  ghost predicate Settles(k: Knowledge, t: Tables, t': Tables, i: Incoming) {
    match i.registration
    case ClientOf(session) => SettlesClient(k, t, t', i, session)
    case NodePeer(node) => SettlesNode(k, t, t', i, node)
    case Executor(session, computation) => SettlesExecutor(k, t, t', i, session, computation)
    case Control => SettlesControl(t, t', i)
    case _ => t' == TurnedAway(t, i.peer)
  }

  /** What one filter, meant for the registration or not, does about it. */
  ghost predicate Filtered(k: Knowledge, t: Tables, t': Tables, v: Verdict, mine: bool, i: Incoming) {
    if v.Took? then mine && Settles(k, t, t', i)
    else
      && t' == t && (v.Threw? ==> mine || i.registration.Unreadable?)
      && (mine ==> Settles(k, t, TurnedAway(t, i.peer), i))
  }

  /** The peer has an owner: the endpoint under its registration in the table it belongs to. */
  ghost predicate OwnedAsRegistered(t: Tables, i: Incoming) {
    match i.registration
    case ClientOf(session) => session in t.clients && OwnsPeer(t, t.clients[session], i.peer)
    case NodePeer(node) => node in t.nodes && OwnsPeer(t, t.nodes[node], i.peer)
    case Executor(_, computation) => computation in t.ipc && OwnsPeer(t, t.ipc[computation], i.peer)
    case Control => t.service.Some? && OwnsPeer(t, t.service.value, i.peer)
    case _ => false
  }

  predicate OwnsPeer(t: Tables, e: nat, peer: Peer) {
    e < |t.eps| && t.eps[e] == Some(peer)
  }

  /** A connection the router is to keep. */
  predicate Welcomed(k: Knowledge, t: Tables, i: Incoming) {
    match i.registration
    case ClientOf(session) => session !in t.clients && (session in k.routing ==> !i.dataGone)
    case NodePeer(node) => k.self <= node
    case Executor(session, _) => session == NULL_ID || (session in k.routing && !i.dataGone)
    case Control => t.service.None?
    case _ => false
  }

  lemma KeptIsOwned(k: Knowledge, t: Tables, t': Tables, i: Incoming)
    requires TablesValid(t) && Settles(k, t, t', i) && Welcomed(k, t, i)
    ensures OwnedAsRegistered(t', i)
  {
    match i.registration
    case ClientOf(session) => assert SettlesClient(k, t, t', i, session);
    case NodePeer(node) => assert SettlesNode(k, t, t', i, node);
    case Executor(session, computation) => assert SettlesExecutor(k, t, t', i, session, computation);
    case Control => assert SettlesControl(t, t', i);
  }

  lemma OthersAreDeleted(k: Knowledge, t: Tables, t': Tables, i: Incoming)
    requires Settles(k, t, t', i) && !Welcomed(k, t, i)
    ensures t'.deleted == t.deleted + multiset{i.peer} && t.eps <= t'.eps
    ensures !i.registration.NodePeer? ==> t' == TurnedAway(t, i.peer)
  {
  }

  lemma NodeIsTracked(k: Knowledge, t: Tables, t': Tables, i: Incoming)
    requires Settles(k, t, t', i) && i.registration.NodePeer?
    ensures i.registration.node in t'.nodes <==>
            i.registration.node in t.nodes || k.self <= i.registration.node || i.registration.node in k.known
  {
    assert SettlesNode(k, t, t', i, i.registration.node);
  }

  /** A connection kept is owned under its registration; any other is deleted, and at most a dial back is tracked. */
  lemma SettlesByRegistration(k: Knowledge, t: Tables, t': Tables, i: Incoming)
    requires TablesValid(t) && Settles(k, t, t', i)
    ensures Welcomed(k, t, i) ==> OwnedAsRegistered(t', i)
    ensures !Welcomed(k, t, i) ==> t'.deleted == t.deleted + multiset{i.peer} && t.eps <= t'.eps
    ensures !Welcomed(k, t, i) && !i.registration.NodePeer? ==> t' == TurnedAway(t, i.peer)
    ensures i.registration.NodePeer? && i.registration.node in k.known ==> i.registration.node in t'.nodes
  {
    if Welcomed(k, t, i) { KeptIsOwned(k, t, t', i); } else { OthersAreDeleted(k, t, t', i); }
    if i.registration.NodePeer? { NodeIsTracked(k, t, t', i); }
  }

  /** The states from one peer to the next. */
  ghost predicate Settlement(k: Knowledge, trace: seq<Tables>, peers: seq<Incoming>) {
    && |trace| == |peers| + 1
    && forall j :: 0 <= j < |peers| ==> Settles(k, trace[j], trace[j + 1], peers[j])
  }

  function All(ready: seq<seq<Incoming>>): seq<Incoming> {
    if ready == [] then [] else All(ready[..|ready| - 1]) + ready[|ready| - 1]
  }

  lemma SettlementMore(k: Knowledge, trace: seq<Tables>, peers: seq<Incoming>, t: Tables, i: Incoming)
    requires Settlement(k, trace, peers) && Settles(k, trace[|peers|], t, i)
    ensures Settlement(k, trace + [t], peers + [i])
  {
    var (trace', peers') := (trace + [t], peers + [i]);
    forall j | 0 <= j < |peers'| ensures Settles(k, trace'[j], trace'[j + 1], peers'[j]) {
      if j < |peers| {
        assert trace'[j] == trace[j] && trace'[j + 1] == trace[j + 1] && peers'[j] == peers[j];
      }
    }
  }

  lemma SettlementsJoin(k: Knowledge, a: seq<Tables>, xs: seq<Incoming>, b: seq<Tables>, ys: seq<Incoming>)
    requires Settlement(k, a, xs) && Settlement(k, b, ys) && b[0] == a[|xs|]
    ensures Settlement(k, a + b[1..], xs + ys)
  {
    var (trace, peers) := (a + b[1..], xs + ys);
    forall j | 0 <= j < |peers| ensures Settles(k, trace[j], trace[j + 1], peers[j]) {
      if j < |xs| {
        assert trace[j] == a[j] && trace[j + 1] == a[j + 1] && peers[j] == xs[j];
      } else {
        var n := j - |xs|;
        assert trace[j] == b[n] && trace[j + 1] == b[n + 1] && peers[j] == ys[n];
      }
    }
  }

  function One(peer: Option<Peer>): multiset<Peer> {
    match peer
    case Some(p) => multiset{p}
    case None => multiset{}
  }

  /** The peers endpoints own; an endpoint still dialling, or destroyed, owns none. */
  function Owned(eps: seq<Option<Peer>>): multiset<Peer> {
    if eps == [] then multiset{} else Owned(eps[..|eps| - 1]) + One(eps[|eps| - 1])
  }

  lemma {:induction false} OwnedPut(eps: seq<Option<Peer>>, e: nat, peer: Option<Peer>)
    requires e < |eps|
    ensures Owned(eps[e := peer]) + One(eps[e]) == Owned(eps) + One(peer)
  {
    var (last, put) := (|eps| - 1, eps[e := peer]);
    var init := eps[..last];
    assert Owned(eps) == Owned(init) + One(eps[last]);
    assert Owned(put) == Owned(put[..last]) + One(put[last]);
    if e == last {
      assert put[..last] == init;
    } else {
      assert put[..last] == init[e := peer];
      OwnedPut(init, e, peer);
      Regroup(Owned(put[..last]), One(eps[last]), One(eps[e]), Owned(init), One(peer));
    }
  }

  lemma Regroup(a: multiset<Peer>, x: multiset<Peer>, y: multiset<Peer>, b: multiset<Peer>, z: multiset<Peer>)
    requires a + y == b + z
    ensures a + x + y == b + x + z
  {
    assert a + x + y == a + y + x;
    assert b + x + z == b + z + x;
  }

  lemma MovedToDeleted(a: multiset<Peer>, b: multiset<Peer>, x: multiset<Peer>, y: multiset<Peer>, d: multiset<Peer>)
    requires a + x == b + y
    ensures a + (d + x) == b + d + y
  {
    assert a + (d + x) == (a + x) + d;
  }

  lemma OwnedMore(eps: seq<Option<Peer>>, peer: Option<Peer>)
    ensures Owned(eps + [peer]) == Owned(eps) + One(peer)
  {
    assert (eps + [peer])[..|eps|] == eps;
  }

  /** `eps[e]` is endpoint `e`'s `mPeer`; `deleted` counts every deletion of a peer. */
  class Router {
    const self: Id
    var eps: seq<Option<Peer>>
    var deleted: multiset<Peer>
    var clients: map<Id, nat>
    var nodes: map<Id, nat>
    var ipc: map<Id, nat>
    var service: Option<nat>
    var routing: set<Id>
    var known: set<Id>

    constructor (self: Id)
      ensures Valid() && Accounted() == multiset{} && this.self == self
    {
      this.self := self;
      eps, deleted, clients, nodes, ipc, service := [], multiset{}, map[], map[], map[], None;
      routing, known := {}, {};
    }

    predicate Valid()
      reads this
    {
      && (forall n :: n in nodes ==> nodes[n] < |eps|)
      && (forall c :: c in ipc ==> ipc[c] < |eps|)
    }

    ghost function View(): Tables
      reads this
    {
      Tables(clients, nodes, ipc, service, eps, deleted)
    }

    ghost function Knows(): Knowledge
      reads this
    {
      Knowledge(self, routing, known)
    }

    /** Every peer once for each owner and once for each deletion. */
    ghost function Accounted(): multiset<Peer>
      reads this
    {
      Owned(eps) + deleted
    }

    method NewEndpoint(peer: Option<Peer>) returns (e: nat)
      requires Valid()
      modifies this`eps
      ensures Valid() && e == |old(eps)| && eps == old(eps) + [peer] && View() == WithEndpoint(old(View()), peer)
      ensures Accounted() == old(Accounted()) + One(peer)
    {
      e := |eps|;
      OwnedMore(eps, peer);
      eps := eps + [peer];
    }

    method Delete(peer: Peer)
      modifies this`deleted
      ensures deleted == old(deleted) + multiset{peer} && View() == TurnedAway(old(View()), peer)
      ensures Accounted() == old(Accounted()) + multiset{peer}
    {
      deleted := deleted + multiset{peer};
    }

    /** The destructor of an endpoint deletes its peer. */
    method DestroyEndpoint(e: nat)
      requires Valid() && e < |eps|
      modifies this`eps, this`deleted
      ensures Valid() && |eps| == |old(eps)| && eps == old(eps)[e := None]
      ensures View() == Repeered(old(View()), e, None)
      ensures Accounted() == old(Accounted())
    {
      OwnedPut(eps, e, None);
      MovedToDeleted(Owned(eps[e := None]), Owned(eps), One(eps[e]), One(None), deleted);
      deleted := deleted + One(eps[e]);
      eps := eps[e := None];
    }

    /** A peer set before is deleted, and the new one takes its place. */
    method SetPeer(e: nat, peer: Peer)
      requires Valid() && e < |eps|
      modifies this`eps, this`deleted
      ensures Valid() && eps == old(eps)[e := Some(peer)] && deleted == old(deleted) + One(old(eps)[e])
      ensures View() == Repeered(old(View()), e, Some(peer))
      ensures Accounted() == old(Accounted()) + multiset{peer}
    {
      OwnedPut(eps, e, Some(peer));
      MovedToDeleted(Owned(eps[e := Some(peer)]), Owned(eps), One(eps[e]), multiset{peer}, deleted);
      deleted := deleted + One(eps[e]);
      eps := eps[e := Some(peer)];
    }

    method ClientFilter(i: Incoming) returns (v: Verdict)
      requires Valid()
      modifies this`eps, this`clients
      ensures Valid() && Accounted() == old(Accounted()) + if v.Took? then multiset{i.peer} else multiset{}
      ensures v.Took? ==> i.registration.ClientOf? && v.ep == |old(eps)| && eps == old(eps) + [Some(i.peer)]
      ensures v.Took? ==> clients == old(clients)[i.registration.session := v.ep]
      ensures Filtered(Knows(), old(View()), View(), v, i.registration.ClientOf?, i)
      ensures !v.Took? ==> eps == old(eps) && clients == old(clients)
    {
      if !i.registration.ClientOf? { return Declined; }
      var session := i.registration.session;
      if session in clients { return Threw; }
      // with routing data the constructor looks it up again; without, the endpoint only sends
      if session in routing && i.dataGone { return Threw; }
      var e := KeepClient(session, i.peer);
      v := Took(e);
    }

    method KeepClient(session: Id, peer: Peer) returns (e: nat)
      requires Valid()
      modifies this`eps, this`clients
      ensures Valid() && Accounted() == old(Accounted()) + multiset{peer} && e == |old(eps)|
      ensures View() == WithEndpoint(old(View()), Some(peer)).(clients := old(clients)[session := e])
    {
      e := NewEndpoint(Some(peer));
      clients := clients[session := e];
    }

    method NodeFilter(i: Incoming) returns (v: Verdict)
      requires Valid()
      modifies this`eps, this`nodes, this`deleted
      ensures Valid() && Accounted() == old(Accounted()) + if v.Took? then multiset{i.peer} else multiset{}
      ensures v.Took? <==>
              && i.registration.NodePeer?
              && (i.registration.node in old(nodes) || Welcome(i.registration.node))
      ensures v.Took? ==> i.registration.node in nodes && nodes[i.registration.node] == v.ep < |eps|
      // a lesser node's connection is deleted, a greater node's is the endpoint's
      ensures v.Took? && i.registration.node < self ==> deleted == old(deleted) + multiset{i.peer}
      ensures v.Took? && self <= i.registration.node ==> eps[v.ep] == Some(i.peer)
      ensures Filtered(Knows(), old(View()), View(), v, i.registration.NodePeer?, i)
      ensures !v.Took? ==> v == Declined && eps == old(eps) && deleted == old(deleted) && nodes == old(nodes)
    {
      if !i.registration.NodePeer? { return Declined; }
      var other := i.registration.node;
      if other in nodes {
        UseExisting(other, i.peer);
      } else if Welcome(other) {
        MakeNode(other, i.peer);
      } else {
        return Declined;
      }
      v := Took(nodes[other]);
    }

    /** A lesser node must be dialled back, so its address must be known. */
    predicate Welcome(other: Id)
      reads this
    {
      self <= other || other in known
    }

    method UseExisting(other: Id, peer: Peer)
      requires Valid() && other in nodes
      modifies this`eps, this`deleted
      ensures Valid() && Accounted() == old(Accounted()) + multiset{peer}
      ensures other < self ==> View() == TurnedAway(old(View()), peer)
      ensures self <= other ==> View() == Repeered(old(View()), nodes[other], Some(peer))
    {
      if other < self {
        Delete(peer);
      } else {
        SetPeer(nodes[other], peer);
      }
    }

    method MakeNode(other: Id, peer: Peer)
      requires Valid() && other !in nodes && Welcome(other)
      modifies this`eps, this`nodes, this`deleted
      ensures Valid() && Accounted() == old(Accounted()) + multiset{peer}
      ensures nodes == old(nodes)[other := |old(eps)|] && |eps| == |old(eps)| + 1
      ensures other < self ==> View() == TurnedAway(WithEndpoint(old(View()), None), peer).(nodes := nodes)
      ensures self <= other ==> View() == WithEndpoint(old(View()), Some(peer)).(nodes := nodes)
    {
      if other < self {
        var e := NewEndpoint(None);
        nodes := nodes[other := e];
        Delete(peer);
      } else {
        var e := NewEndpoint(Some(peer));
        nodes := nodes[other := e];
      }
    }

    method IpcFilter(i: Incoming) returns (v: Verdict)
      requires Valid()
      modifies this`eps, this`ipc, this`deleted
      ensures Valid() && Accounted() == old(Accounted()) + if v.Took? then multiset{i.peer} else multiset{}
      ensures v.Took? ==> i.registration.Executor? && v.ep == |old(eps)| < |eps| && eps[v.ep] == Some(i.peer)
      ensures v.Took? ==> ipc == old(ipc)[i.registration.computation := v.ep]
      ensures Filtered(Knows(), old(View()), View(), v, i.registration.Executor?, i)
      ensures !v.Took? ==> eps == old(eps) && ipc == old(ipc) && deleted == old(deleted)
    {
      if !i.registration.Executor? { return Declined; }
      var (session, computation) := (i.registration.session, i.registration.computation);
      // the constructor of an endpoint with a session throws when its routing data is missing
      if session != NULL_ID && (session !in routing || i.dataGone) { return Threw; }
      var e := MakeIpc(computation, i.peer);
      v := Took(e);
    }

    method MakeIpc(computation: Id, peer: Peer) returns (e: nat)
      requires Valid()
      modifies this`eps, this`ipc, this`deleted
      ensures Valid() && Accounted() == old(Accounted()) + multiset{peer}
      ensures e == |old(eps)| < |eps| && eps[e] == Some(peer) && ipc == old(ipc)[computation := e]
      ensures var more := WithEndpoint(old(View()), Some(peer));
              View() == (if computation in old(ipc) then Repeered(more, old(ipc)[computation], None) else more)
                          .(ipc := old(ipc)[computation := e])
    {
      e := NewEndpoint(Some(peer));
      ReplaceIpc(computation, e);
    }

    method ReplaceIpc(computation: Id, e: nat)
      requires Valid() && e < |eps| && (computation in ipc ==> ipc[computation] != e)
      modifies this`eps, this`ipc, this`deleted
      ensures Valid() && Accounted() == old(Accounted()) && |eps| == |old(eps)| && eps[e] == old(eps)[e]
      ensures View() == (if computation in old(ipc) then Repeered(old(View()), old(ipc)[computation], None)
                         else old(View())).(ipc := old(ipc)[computation := e])
    {
      if computation in ipc {
        // the table's reference was the last: the endpoint replaced is destroyed
        DestroyEndpoint(ipc[computation]);
      }
      ipc := ipc[computation := e];
    }

    method ServiceFilter(i: Incoming) returns (v: Verdict)
      requires Valid()
      modifies this`eps, this`service
      ensures Valid() && Accounted() == old(Accounted()) + if v.Took? then multiset{i.peer} else multiset{}
      ensures v.Took? ==> old(service) == None && service == Some(v.ep)
      ensures v.Took? ==> i.registration.Control? && v.ep == |old(eps)| && eps == old(eps) + [Some(i.peer)]
      ensures i.registration.Control? ==> (v.Took? <==> old(service) == None)
      ensures Filtered(Knows(), old(View()), View(), v, i.registration.Control?, i)
      ensures !v.Took? ==> eps == old(eps) && service == old(service)
    {
      if !i.registration.Control? { return Declined; }
      if service.Some? { return Threw; }
      var e := NewEndpoint(Some(i.peer));
      service := Some(e);
      v := Took(e);
    }

    /** Reading the registration happens in the first filter; a failed one makes every filter decline. */
    method RunFilter(filter: nat, i: Incoming) returns (v: Verdict)
      requires Valid() && filter < 4
      modifies this
      ensures Valid() && Accounted() == old(Accounted()) + if v.Took? then multiset{i.peer} else multiset{}
      ensures Knows() == old(Knows())
      ensures Filtered(Knows(), old(View()), View(), v, IsFor(filter, i.registration), i)
    {
      if i.registration.Unreadable? { return Threw; }
      if i.registration.Invalid? { return Declined; }
      v := RunRead(filter, i);
    }

    method RunRead(filter: nat, i: Incoming) returns (v: Verdict)
      requires Valid() && filter < 4
      modifies this
      ensures Valid() && Accounted() == old(Accounted()) + if v.Took? then multiset{i.peer} else multiset{}
      ensures Knows() == old(Knows())
      ensures Filtered(Knows(), old(View()), View(), v, IsFor(filter, i.registration), i)
    {
      SomeFilterIsFor(i.registration);
      if filter == 0 {
        v := ClientFilter(i);
      } else if filter == 1 {
        v := NodeFilter(i);
      } else if filter == 2 {
        v := IpcFilter(i);
      } else {
        v := ServiceFilter(i);
      }
    }

    /** One new peer through the filter chain: the first endpoint wins, an exception ends the chain. */
    method Admit(slots: array<Option<Incoming>>, at: nat)
      requires Valid() && at < slots.Length && slots[at].Some?
      modifies this, slots
      ensures Valid() && Accounted() == old(Accounted()) + multiset{old(slots[at]).value.peer}
      ensures Knows() == old(Knows()) && Settles(Knows(), old(View()), View(), old(slots[at]).value)
      ensures slots[..] == old(slots[..])[at := None]
    {
      var i := slots[at].value;
      var filter := 0;
      var taken := false;
      while filter < 4
        invariant filter <= 4 && Valid() && !taken && slots[..] == old(slots[..])
        invariant Accounted() == old(Accounted()) && View() == old(View()) && Knows() == old(Knows())
        invariant forall f :: 0 <= f < filter && IsFor(f, i.registration) ==>
                    Settles(Knows(), old(View()), TurnedAway(old(View()), i.peer), i)
      {
        var v := RunFilter(filter, i);
        if v.Took? { taken := true; }
        if v != Declined { break; }
        filter := filter + 1;
      }
      if !taken {
        // shut down and deleted: nobody took ownership
        assert Settles(Knows(), old(View()), TurnedAway(old(View()), i.peer), i) by { SomeFilterIsFor(i.registration); }
        Delete(i.peer);
      }
      slots[at] := None;
    }

    /** The next peer of a batch, with the states from one peer to the next. */
    method AdmitNext(slots: array<Option<Incoming>>, batch: seq<Incoming>, k: nat, ghost trace: seq<Tables>)
      returns (ghost trace': seq<Tables>)
      requires Valid() && k < |batch| && Handled(slots[..], batch, k)
      requires Settlement(Knows(), trace, batch[..k]) && trace[k] == View()
      modifies this, slots
      ensures Valid() && Accounted() == old(Accounted()) + multiset{batch[k].peer} && Knows() == old(Knows())
      ensures Handled(slots[..], batch, k + 1)
      ensures Settlement(Knows(), trace', batch[..k + 1]) && trace'[0] == trace[0] && trace'[k + 1] == View()
    {
      HandledMore(slots[..], batch, k);
      Admit(slots, k);
      SettlementMore(Knows(), trace, batch[..k], View(), batch[k]);
      assert batch[..k] + [batch[k]] == batch[..k + 1];
      trace' := trace + [View()];
    }

    /** One ready acceptor; the slots beyond its new peers may still hold anything. */
    method AcceptFrom(slots: array<Option<Incoming>>, batch: seq<Incoming>) returns (ghost trace: seq<Tables>)
      requires Valid() && |batch| <= slots.Length
      modifies this, slots
      ensures Valid() && Accounted() == old(Accounted()) + Peers(batch)
      ensures Handled(slots[..], batch, |batch|)
      ensures Knows() == old(Knows()) && Settlement(Knows(), trace, batch)
      ensures trace[0] == old(View()) && trace[|batch|] == View()
    {
      AcceptAll(slots, batch);
      assert batch[..0] == [];
      trace := [View()];
      for k := 0 to |batch|
        invariant Valid() && Accounted() == old(Accounted()) + Peers(batch[..k])
        invariant Handled(slots[..], batch, k) && Knows() == old(Knows())
        invariant Settlement(Knows(), trace, batch[..k]) && trace[0] == old(View()) && trace[k] == View()
      {
        trace := AdmitNext(slots, batch, k, trace);
        PeersMore(batch, k);
      }
      assert batch[..|batch|] == batch;
    }

    /** One `poll`: what each ready acceptor delivered, every peer settled in turn by its registration. */
    method Poll(ready: seq<seq<Incoming>>) returns (ghost trace: seq<Tables>)
      requires Valid() && forall b :: b in ready ==> |b| <= MAX_NEW_PEERS
      modifies this
      ensures Valid() && Accounted() == old(Accounted()) + AllPeers(ready)
      ensures Knows() == old(Knows()) && Settlement(Knows(), trace, All(ready))
      ensures trace[0] == old(View()) && trace[|All(ready)|] == View()
    {
      var slots := new Option<Incoming>[MAX_NEW_PEERS](_ => None);
      assert ready[..0] == [];
      trace := [View()];
      for k := 0 to |ready|
        invariant Valid() && fresh(slots) && slots.Length == MAX_NEW_PEERS && Knows() == old(Knows())
        invariant Accounted() == old(Accounted()) + AllPeers(ready[..k])
        invariant Settlement(Knows(), trace, All(ready[..k]))
        invariant trace[0] == old(View()) && trace[|All(ready[..k])|] == View()
      {
        assert ready[k] in ready;
        ghost var more := AcceptFrom(slots, ready[k]);
        AllPeersMore(ready, k);
        SettlementsJoin(Knows(), trace, All(ready[..k]), more, ready[k]);
        AllMore(ready, k);
        trace := trace + more[1..];
      }
      assert ready[..|ready|] == ready;
    }

    /** The service's endpoint is in no table of the peer manager, but held all the same. */
    predicate Tracked(e: nat)
      reads this
    {
      e in clients.Values || e in nodes.Values || e in ipc.Values || service == Some(e)
    }

    /** `untrackPeer`: the endpoint leaves the table that holds it. */
    method Untrack(e: nat)
      requires Valid()
      modifies this`clients, this`nodes, this`ipc
      ensures Valid() && Accounted() == old(Accounted()) && (service != Some(e) ==> !Tracked(e))
      ensures forall f :: Tracked(f) ==> old(Tracked(f))
      ensures clients == map c | c in old(clients) && old(clients)[c] != e :: old(clients)[c]
      ensures nodes == map n | n in old(nodes) && old(nodes)[n] != e :: old(nodes)[n]
      ensures ipc == map c | c in old(ipc) && old(ipc)[c] != e :: old(ipc)[c]
    {
      clients := map c | c in clients && clients[c] != e :: clients[c];
      nodes := map n | n in nodes && nodes[n] != e :: nodes[n];
      ipc := map c | c in ipc && ipc[c] != e :: ipc[c];
    }

    method UntrackAll(flagged: seq<nat>)
      requires Valid()
      modifies this`clients, this`nodes, this`ipc
      ensures Valid() && Accounted() == old(Accounted())
      ensures forall e :: e in flagged && service != Some(e) ==> !Tracked(e)
      ensures forall e :: Tracked(e) ==> old(Tracked(e))
    {
      for k := 0 to |flagged|
        invariant Valid() && Accounted() == old(Accounted())
        invariant forall e :: e in flagged[..k] && service != Some(e) ==> !Tracked(e)
        invariant forall e :: Tracked(e) ==> old(Tracked(e))
      {
        Untrack(flagged[k]);
      }
    }

    ghost function Held(): set<nat>
      reads this
    {
      set e: nat | e < |eps| && Tracked(e)
    }

    method DestroyUnheld(unheld: seq<nat>)
      requires Valid()
      modifies this`eps, this`deleted
      ensures Valid() && Accounted() == old(Accounted()) && Destroyed(eps, old(eps), unheld, Held())
    {
      assert unheld[..|unheld|] == unheld;
      ghost var held := Held();
      for k := 0 to |unheld|
        invariant Valid() && Accounted() == old(Accounted()) && |eps| == |old(eps)|
        invariant Destroyed(eps, old(eps), unheld[..k], held)
      {
        DestroyedMore(eps, old(eps), unheld, k, held);
        if unheld[k] < |eps| && !Tracked(unheld[k]) {
          DestroyEndpoint(unheld[k]);
        }
      }
      assert Held() == held;
    }

    /** After a poll: flagged endpoints are untracked, and whatever nobody holds any more is destroyed. */
    method Sweep(flagged: seq<nat>, unheld: seq<nat>)
      requires Valid()
      modifies this
      ensures Valid() && Accounted() == old(Accounted()) && Destroyed(eps, old(eps), unheld, Held())
      ensures forall e :: e in flagged && service != Some(e) ==> !Tracked(e)
    {
      UntrackAll(flagged);
      DestroyUnheld(unheld);
    }
  }

  /** The endpoints of `unheld` that no table holds have been destroyed, and no others. */
  ghost predicate Destroyed(eps: seq<Option<Peer>>, was: seq<Option<Peer>>, unheld: seq<nat>, held: set<nat>) {
    && |eps| == |was|
    && forall e :: 0 <= e < |eps| ==> eps[e] == if e in unheld && e !in held then None else was[e]
  }

  lemma DestroyedMore(eps: seq<Option<Peer>>, was: seq<Option<Peer>>, unheld: seq<nat>, k: nat, held: set<nat>)
    requires k < |unheld| && Destroyed(eps, was, unheld[..k], held)
    ensures var x := unheld[k];
            Destroyed(if x < |eps| && x !in held then eps[x := None] else eps, was, unheld[..k + 1], held)
  {
    assert unheld[..k + 1] == unheld[..k] + [unheld[k]];
  }

  function Peers(batch: seq<Incoming>): multiset<Peer> {
    if batch == [] then multiset{} else Peers(batch[..|batch| - 1]) + multiset{batch[|batch| - 1].peer}
  }

  function AllPeers(ready: seq<seq<Incoming>>): multiset<Peer> {
    if ready == [] then multiset{} else AllPeers(ready[..|ready| - 1]) + Peers(ready[|ready| - 1])
  }

  lemma AllMore(ready: seq<seq<Incoming>>, k: nat)
    requires k < |ready|
    ensures All(ready[..k + 1]) == All(ready[..k]) + ready[k]
  {
    assert ready[..k + 1][..k] == ready[..k];
  }

  /** The filter a registration is meant for. */
  predicate IsFor(filter: nat, r: Registration) {
    match r
    case ClientOf(_) => filter == 0
    case NodePeer(_) => filter == 1
    case Executor(_, _) => filter == 2
    case Control => filter == 3
    case _ => false
  }

  lemma SomeFilterIsFor(r: Registration)
    ensures r.ClientOf? <==> IsFor(0, r)
    ensures r.NodePeer? <==> IsFor(1, r)
    ensures r.Executor? <==> IsFor(2, r)
    ensures r.Control? <==> IsFor(3, r)
  {
  }

  lemma AllPeersMore(ready: seq<seq<Incoming>>, k: nat)
    requires k < |ready|
    ensures AllPeers(ready[..k + 1]) == AllPeers(ready[..k]) + Peers(ready[k])
  {
    assert ready[..k + 1][..k] == ready[..k];
  }

  lemma PeersMore(batch: seq<Incoming>, k: nat)
    requires k < |batch|
    ensures Peers(batch[..k + 1]) == Peers(batch[..k]) + multiset{batch[k].peer}
  {
    assert batch[..k + 1][..k] == batch[..k];
  }

  /** The slots of a batch of which the first `k` peers have been dealt with. */
  ghost predicate Handled(slots: seq<Option<Incoming>>, batch: seq<Incoming>, k: nat) {
    && |batch| <= |slots|
    && forall j :: 0 <= j < |batch| ==> slots[j] == if j < k then None else Some(batch[j])
  }

  lemma HandledMore(slots: seq<Option<Incoming>>, batch: seq<Incoming>, k: nat)
    requires Handled(slots, batch, k) && k < |batch|
    ensures slots[k] == Some(batch[k]) && Handled(slots[k := None], batch, k + 1)
  {
  }

  method AcceptAll(slots: array<Option<Incoming>>, batch: seq<Incoming>)
    requires |batch| <= slots.Length
    modifies slots
    ensures Handled(slots[..], batch, 0)
  {
    for k := 0 to |batch|
      invariant forall j :: 0 <= j < k ==> slots[j] == Some(batch[j])
    {
      slots[k] := Some(batch[k]);
    }
  }

  lemma OwnerCounts(eps: seq<Option<Peer>>, p: Peer, e: nat)
    requires e < |eps| && eps[e] == Some(p)
    ensures Owned(eps)[p] >= 1
  {
    OwnedPut(eps, e, None);
    assert (Owned(eps) + One(None))[p] == (Owned(eps[e := None]) + multiset{p})[p];
  }

  lemma TwoOwnersCount(eps: seq<Option<Peer>>, p: Peer, e: nat, f: nat)
    requires e < |eps| && f < |eps| && e != f && eps[e] == Some(p) && eps[f] == Some(p)
    ensures Owned(eps)[p] >= 2
  {
    OwnedPut(eps, e, None);
    OwnerCounts(eps[e := None], p, f);
    assert (Owned(eps) + One(None))[p] == (Owned(eps[e := None]) + multiset{p})[p];
  }

  lemma {:induction false} OwnedHasOwner(eps: seq<Option<Peer>>, p: Peer)
    ensures p in Owned(eps) ==> exists e :: 0 <= e < |eps| && eps[e] == Some(p)
  {
    if eps != [] && p in Owned(eps) {
      var n := |eps| - 1;
      if eps[n] != Some(p) {
        OwnedHasOwner(eps[..n], p);
        var e :| 0 <= e < n && eps[..n][e] == Some(p);
        assert eps[e] == Some(p);
      }
    }
  }

  ghost predicate OnlyOwner(eps: seq<Option<Peer>>, p: Peer, e: nat) {
    e < |eps| && eps[e] == Some(p) && forall f :: 0 <= f < |eps| && eps[f] == Some(p) ==> f == e
  }

  /** One owner and never deleted, or deleted once and no owner. */
  ghost predicate Settled(eps: seq<Option<Peer>>, deleted: multiset<Peer>, p: Peer) {
    if deleted[p] == 0 then exists e :: OnlyOwner(eps, p, e)
    else deleted[p] == 1 && forall e :: 0 <= e < |eps| ==> eps[e] != Some(p)
  }

  lemma CountedOnce(eps: seq<Option<Peer>>, deleted: multiset<Peer>, p: Peer)
    requires (Owned(eps) + deleted)[p] == 1
    ensures Settled(eps, deleted, p)
  {
    if p in Owned(eps) {
      OwnedHasOwner(eps, p);
      var e :| 0 <= e < |eps| && eps[e] == Some(p);
      forall f | 0 <= f < |eps| && eps[f] == Some(p) ensures f == e {
        if f != e { TwoOwnersCount(eps, p, e, f); }
      }
      assert OnlyOwner(eps, p, e);
    } else {
      forall e | 0 <= e < |eps| ensures eps[e] != Some(p) {
        if eps[e] == Some(p) { OwnerCounts(eps, p, e); }
      }
    }
  }

  /** One turn of the router's thread: a poll, then the endpoints flagged and those no longer held by anyone. */
  datatype Round = Round(ready: seq<seq<Incoming>>, flagged: seq<nat>, unheld: seq<nat>)

  /** No peer is accepted twice. */
  ghost predicate AllNew(rounds: seq<Round>) {
    forall p :: RoundPeers(rounds)[p] <= 1
  }

  function RoundPeers(rounds: seq<Round>): multiset<Peer> {
    if rounds == [] then multiset{}
    else RoundPeers(rounds[..|rounds| - 1]) + AllPeers(rounds[|rounds| - 1].ready)
  }

  /**
   After any polls, with endpoints destroyed between them, each accepted peer has a single owning endpoint or
   was deleted a single time.
   */
  method Serve(router: Router, rounds: seq<Round>)
    requires router.Valid() && router.Accounted() == multiset{} && AllNew(rounds)
    requires forall r, b :: r in rounds && b in r.ready ==> |b| <= MAX_NEW_PEERS
    modifies router
    ensures router.Valid()
    ensures forall p :: p in RoundPeers(rounds) ==> Settled(router.eps, router.deleted, p)
  {
    assert rounds[..0] == [];
    for k := 0 to |rounds|
      invariant router.Valid() && router.Accounted() == RoundPeers(rounds[..k])
    {
      ghost var _ := router.Poll(rounds[k].ready);
      router.Sweep(rounds[k].flagged, rounds[k].unheld);
      assert rounds[..k + 1][..k] == rounds[..k];
    }
    assert rounds[..|rounds|] == rounds;
    forall p | p in RoundPeers(rounds) ensures (Owned(router.eps) + router.deleted)[p] == 1 {
    }
    forall p | p in RoundPeers(rounds) {
      CountedOnce(router.eps, router.deleted, p);
    }
  }
}
