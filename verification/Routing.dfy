/**
 Message routing: how one node splits an address list (RouteMessage.cc), and how the nodes of a
 session together deliver an envelope (RemoteEndpoint.cc routes again whatever a node peer sends).
 */
module Routing {
  import opened Common

  /** A null node addresses the session's client. */
  datatype Address = Address(session: Id, node: Id, computation: Id)

  datatype Envelope = Envelope(to: seq<Address>, body: nat)

  /** What routing reads of SessionRoutingData: this node, the session's node map and its entry node. */
  datatype RoutingData = RoutingData(session: Id, self: Id, known: set<Id>, entry: Id)

  function ClientAddress(session: Id): Address {
    Address(session, NULL_ID, NULL_ID)
  }

  predicate ForClient(to: seq<Address>) {
    exists a :: a in to && a.node == NULL_ID
  }

  function LocalComputations(self: Id, to: seq<Address>): set<Id> {
    set a | a in to && a.node != NULL_ID && a.node == self && a.computation != NULL_ID :: a.computation
  }

  function RemoteNodes(self: Id, to: seq<Address>): set<Id> {
    set a | a in to && a.node != NULL_ID && a.node != self :: a.node
  }

  /** The addresses on node `n`, in list order. */
  function ForNode(to: seq<Address>, n: Id): seq<Address> {
    if to == [] then []
    else
      var last := to[|to| - 1];
      ForNode(to[..|to| - 1], n) + if last.node == n then [last] else []
  }

  /** The addresses of computation `c` on node `n`, in list order. */
  function ForComputation(to: seq<Address>, n: Id, c: Id): seq<Address> {
    if to == [] then []
    else
      var last := to[|to| - 1];
      ForComputation(to[..|to| - 1], n, c) + if last.node == n && last.computation == c then [last] else []
  }

  /** One more address at the end of the list adds to at most one of the three results. */
  lemma OneMoreAddress(self: Id, to: seq<Address>, a: Address)
    ensures ForClient(to + [a]) <==> ForClient(to) || a.node == NULL_ID
    ensures LocalComputations(self, to + [a])
         == LocalComputations(self, to)
          + if a.node != NULL_ID && a.node == self && a.computation != NULL_ID then {a.computation} else {}
    ensures RemoteNodes(self, to + [a])
         == RemoteNodes(self, to) + if a.node != NULL_ID && a.node != self then {a.node} else {}
  {
    var more := to + [a];
    assert a in more;
    assert forall x :: x in more <==> x in to || x == a;
  }

  lemma OneMoreListed(to: seq<Address>, a: Address, n: Id, c: Id)
    ensures ForNode(to + [a], n) == ForNode(to, n) + if a.node == n then [a] else []
    ensures ForComputation(to + [a], n, c)
         == ForComputation(to, n, c) + if a.node == n && a.computation == c then [a] else []
  {
    assert (to + [a])[..|to|] == to;
  }

  lemma {:induction false} NotListed(to: seq<Address>, n: Id, c: Id)
    ensures (forall a :: a in to ==> a.node != n) ==> ForNode(to, n) == []
    ensures (forall a :: a in to ==> a.node != n || a.computation != c) ==> ForComputation(to, n, c) == []
  {
    if to != [] {
      NotListed(to[..|to| - 1], n, c);
    }
  }

  function Listed(lists: map<Id, seq<Address>>, key: Id): seq<Address> {
    if key in lists then lists[key] else []
  }

  ghost predicate LocalLists(self: Id, to: seq<Address>, ipcLists: map<Id, seq<Address>>) {
    && ipcLists.Keys == LocalComputations(self, to)
    && forall c :: c in ipcLists ==> ipcLists[c] == ForComputation(to, self, c)
  }

  ghost predicate RemoteLists(self: Id, to: seq<Address>, nodeLists: map<Id, seq<Address>>) {
    && nodeLists.Keys == RemoteNodes(self, to)
    && forall n :: n in nodeLists ==> nodeLists[n] == ForNode(to, n)
  }

  /** What is in no list has no addresses yet. */
  lemma UnlistedLocal(self: Id, to: seq<Address>, c: Id)
    requires self != NULL_ID && c != NULL_ID && c !in LocalComputations(self, to)
    ensures ForComputation(to, self, c) == []
  {
    forall a | a in to ensures a.node != self || a.computation != c {
      assert a.node == self && a.computation == c ==> a.computation in LocalComputations(self, to);
    }
    NotListed(to, self, c);
  }

  lemma UnlistedRemote(self: Id, to: seq<Address>, n: Id)
    requires n != NULL_ID && n != self && n !in RemoteNodes(self, to)
    ensures ForNode(to, n) == []
  {
    forall a | a in to ensures a.node != n {
      assert a.node == n ==> a.node in RemoteNodes(self, to);
    }
    NotListed(to, n, NULL_ID);
  }

  /** One more address, for a local computation or not. */
  lemma LocalListsMore(self: Id, to: seq<Address>, a: Address, ipcLists: map<Id, seq<Address>>)
    requires LocalLists(self, to, ipcLists)
    ensures var more := ipcLists[a.computation := Listed(ipcLists, a.computation) + [a]];
            var local := a.node != NULL_ID && a.node == self && a.computation != NULL_ID;
            LocalLists(self, to + [a], if local then more else ipcLists)
  {
    OneMoreAddress(self, to, a);
    var local := a.node != NULL_ID && a.node == self && a.computation != NULL_ID;
    var lists := if local then ipcLists[a.computation := Listed(ipcLists, a.computation) + [a]] else ipcLists;
    forall c | c in lists ensures lists[c] == ForComputation(to + [a], self, c) {
      OneMoreListed(to, a, self, c);
      if c !in ipcLists { UnlistedLocal(self, to, c); }
    }
  }

  /** One more address, for a remote node or not. */
  lemma RemoteListsMore(self: Id, to: seq<Address>, a: Address, nodeLists: map<Id, seq<Address>>)
    requires RemoteLists(self, to, nodeLists)
    ensures var more := nodeLists[a.node := Listed(nodeLists, a.node) + [a]];
            var remote := a.node != NULL_ID && a.node != self;
            RemoteLists(self, to + [a], if remote then more else nodeLists)
  {
    OneMoreAddress(self, to, a);
    var remote := a.node != NULL_ID && a.node != self;
    var lists := if remote then nodeLists[a.node := Listed(nodeLists, a.node) + [a]] else nodeLists;
    forall n | n in lists ensures lists[n] == ForNode(to + [a], n) {
      OneMoreListed(to, a, n, NULL_ID);
      if n !in nodeLists { UnlistedRemote(self, to, n); }
    }
  }

  method ParseDestinationAddressLists(self: Id, to: seq<Address>)
    returns (ipcLists: map<Id, seq<Address>>, nodeLists: map<Id, seq<Address>>, toClient: bool)
    ensures toClient <==> ForClient(to)
    ensures ipcLists.Keys == LocalComputations(self, to)
    ensures forall c :: c in ipcLists ==> ipcLists[c] == ForComputation(to, self, c)
    ensures nodeLists.Keys == RemoteNodes(self, to)
    ensures forall n :: n in nodeLists ==> nodeLists[n] == ForNode(to, n)
  {
    ipcLists, nodeLists, toClient := map[], map[], false;
    for i := 0 to |to|
      invariant toClient <==> ForClient(to[..i])
      invariant LocalLists(self, to[..i], ipcLists) && RemoteLists(self, to[..i], nodeLists)
    {
      var a := to[i];
      assert to[..i + 1] == to[..i] + [a];
      OneMoreAddress(self, to[..i], a);
      LocalListsMore(self, to[..i], a, ipcLists);
      RemoteListsMore(self, to[..i], a, nodeLists);
      if a.node == NULL_ID {
        toClient := true;
      } else if a.node == self && a.computation != NULL_ID {
        ipcLists := ipcLists[a.computation := Listed(ipcLists, a.computation) + [a]];
      } else if a.node != self {
        nodeLists := nodeLists[a.node := Listed(nodeLists, a.node) + [a]];
      }
    }
    assert to[..|to|] == to;
  }

  /** The list each remote node is sent: its own addresses, and the client's when the detour goes there. */
  function NodeLists(rd: RoutingData, to: seq<Address>): map<Id, seq<Address>> {
    var lists := map n | n in RemoteNodes(rd.self, to) :: ForNode(to, n);
    if ForClient(to) && rd.self != rd.entry then
      lists[rd.entry := Listed(lists, rd.entry) + [ClientAddress(rd.session)]]
    else lists
  }

  lemma NodeListsAre(rd: RoutingData, to: seq<Address>, lists: map<Id, seq<Address>>)
    requires lists.Keys == RemoteNodes(rd.self, to) && forall n :: n in lists ==> lists[n] == ForNode(to, n)
    ensures !(ForClient(to) && rd.self != rd.entry) ==> NodeLists(rd, to) == lists
    ensures ForClient(to) && rd.self != rd.entry ==>
              NodeLists(rd, to) == lists[rd.entry := Listed(lists, rd.entry) + [ClientAddress(rd.session)]]
  {
    assert lists == map n | n in RemoteNodes(rd.self, to) :: ForNode(to, n);
  }

  function Queued(table: map<Id, seq<Envelope>>, key: Id): seq<Envelope> {
    if key in table then table[key] else []
  }

  /** What waits for the session's client: in its endpoint's queue, or until it connects in the stash. */
  function ClientQueue(clients: map<Id, seq<Envelope>>, pending: map<Id, seq<Envelope>>, session: Id): seq<Envelope> {
    if session in clients then clients[session] else Queued(pending, session)
  }

  function ClientShare(rd: RoutingData, envelope: Envelope): seq<Envelope> {
    if ForClient(envelope.to) && rd.self == rd.entry then [envelope] else []
  }

  /** Every computation of `to` that has an endpoint is queued the envelope. */
  function AfterLocal(ipc: map<Id, seq<Envelope>>, to: set<Id>, envelope: Envelope): map<Id, seq<Envelope>> {
    map c | c in ipc :: if c in to then ipc[c] + [envelope] else ipc[c]
  }

  /** Every node of `to` is queued the envelope, readdressed to that node's list. */
  function AfterForward(nodes: map<Id, seq<Envelope>>, to: set<Id>, lists: map<Id, seq<Address>>, body: nat)
    : map<Id, seq<Envelope>>
    requires to <= lists.Keys
  {
    map n | n in nodes.Keys + to ::
      if n in to then Queued(nodes, n) + [Envelope(lists[n], body)] else nodes[n]
  }

  /** The ids below every unreachable one: the node loop stops at the first id that has no endpoint and no address. */
  ghost function Reached(ids: set<Id>, reachable: set<Id>): set<Id> {
    set n | n in ids && forall m :: m in ids && m !in reachable ==> n < m
  }

  lemma ForwardOne(nodes: map<Id, seq<Envelope>>, to: set<Id>, n: Id, lists: map<Id, seq<Address>>, body: nat)
    requires to <= lists.Keys && n in lists && n !in to
    ensures var before := AfterForward(nodes, to, lists, body);
            AfterForward(nodes, to + {n}, lists, body) == before[n := Queued(before, n) + [Envelope(lists[n], body)]]
  {
  }

  lemma StopsAt(ids: set<Id>, reachable: set<Id>, done: set<Id>, stop: Id)
    requires done <= ids && done <= reachable
    requires stop in ids && stop !in done && stop !in reachable
    requires forall m :: m in ids && m !in done ==> stop <= m
    requires Prefix(done, ids)
    ensures Reached(ids, reachable) == done
  {
    forall d | d in done ensures d in Reached(ids, reachable) {
      assert forall m :: m in ids && m !in reachable ==> m !in done;
    }
    forall d | d in Reached(ids, reachable) ensures d in done {
      assert d < stop;
    }
  }

  /** The queues one node's router routes into: one per tracked endpoint, and the stash of absent clients. */
  class ThreadedNodeRouter {
    var clients: map<Id, seq<Envelope>>
    var ipc: map<Id, seq<Envelope>>
    var nodes: map<Id, seq<Envelope>>
    var pending: map<Id, seq<Envelope>>

    constructor ()
      ensures clients == ipc == nodes == pending == map[]
    {
      clients, ipc, nodes, pending := map[], map[], map[], map[];
    }

    method SendToLocalClient(session: Id, envelope: Envelope)
      modifies this`clients, this`pending
      ensures session in old(clients) ==>
                clients == old(clients)[session := old(clients)[session] + [envelope]] && pending == old(pending)
      ensures session !in old(clients) ==>
                && pending == old(pending)[session := Queued(old(pending), session) + [envelope]]
                && clients == old(clients)
    {
      if session in clients {
        clients := clients[session := clients[session] + [envelope]];
      } else {
        pending := pending[session := Queued(pending, session) + [envelope]];
      }
    }

    method SendToLocalComputations(todo: set<Id>, envelope: Envelope)
      modifies this`ipc
      ensures ipc == AfterLocal(old(ipc), todo, envelope)
    {
      var left, done: set<Id> := todo, {};
      assert ipc == AfterLocal(ipc, {}, envelope);
      while left != {}
        invariant done !! left && done + left == todo
        invariant ipc == AfterLocal(old(ipc), done, envelope)
      {
        var c :| c in left;
        if c in ipc {
          ipc := ipc[c := ipc[c] + [envelope]];
        }
        left, done := left - {c}, done + {c};
      }
    }

    /** Ascending over the node ids; `ok` is false when an untracked node is missing from the node map (KeyError). */
    method SendToNodes(lists: map<Id, seq<Address>>, known: set<Id>, envelope: Envelope) returns (ok: bool)
      modifies this`nodes
      ensures ok <==> lists.Keys <= known + old(nodes.Keys)
      ensures nodes == AfterForward(old(nodes), Reached(lists.Keys, known + old(nodes.Keys)), lists, envelope.body)
    {
      var done: set<Id> := {};
      ghost var reachable := known + nodes.Keys;
      assert nodes == AfterForward(nodes, {}, lists, envelope.body);
      while done != lists.Keys
        invariant done <= lists.Keys && done <= reachable
        invariant Prefix(done, lists.Keys)
        invariant nodes == AfterForward(old(nodes), done, lists, envelope.body)
        decreases lists.Keys - done
      {
        var n := NextId(lists.Keys, done);
        if n !in nodes && n !in known {
          StopsAt(lists.Keys, reachable, done, n);
          return false;
        }
        ForwardOne(old(nodes), done, n, lists, envelope.body);
        nodes := nodes[n := Queued(nodes, n) + [Envelope(lists[n], envelope.body)]];
        done := done + {n};
      }
      assert Reached(lists.Keys, reachable) == done;
      ok := true;
    }

    method RouteMessage(envelope: Envelope, rd: RoutingData) returns (ok: bool)
      modifies this
      ensures ClientQueue(clients, pending, rd.session)
           == old(ClientQueue(clients, pending, rd.session)) + ClientShare(rd, envelope)
      ensures ForClient(envelope.to) && rd.self == rd.entry && rd.session in old(clients) ==>
                clients == old(clients)[rd.session := old(clients)[rd.session] + [envelope]] && pending == old(pending)
      ensures ForClient(envelope.to) && rd.self == rd.entry && rd.session !in old(clients) ==>
                && pending == old(pending)[rd.session := Queued(old(pending), rd.session) + [envelope]]
                && clients == old(clients)
      ensures !(ForClient(envelope.to) && rd.self == rd.entry) ==> clients == old(clients) && pending == old(pending)
      ensures ipc == AfterLocal(old(ipc), LocalComputations(rd.self, envelope.to), envelope)
      ensures ok <==> NodeLists(rd, envelope.to).Keys <= rd.known + old(nodes.Keys)
      ensures var lists := NodeLists(rd, envelope.to);
              nodes == AfterForward(old(nodes), Reached(lists.Keys, rd.known + old(nodes.Keys)), lists, envelope.body)
    {
      var ipcLists, nodeLists, toClient := ParseDestinationAddressLists(rd.self, envelope.to);
      NodeListsAre(rd, envelope.to, nodeLists);
      if toClient {
        if rd.self == rd.entry {
          SendToLocalClient(rd.session, envelope);
        } else {
          nodeLists := nodeLists[rd.entry := Listed(nodeLists, rd.entry) + [ClientAddress(rd.session)]];
        }
      }
      SendToLocalComputations(ipcLists.Keys, envelope);
      ok := SendToNodes(nodeLists, rd.known, envelope);
    }
  }

  // ---------------------------------------------------------------------------------------------
  // The whole session: every node routes, and routes again what a node peer sends it.

  /** One hand-over to a destination: a computation's endpoint on its host node, or the session's client. */
  datatype Delivery =
    | ToComputation(node: Id, computation: Id, body: nat)
    | ToClient(session: Id, body: nat)

  /** What an address list promises, with no mention of nodes routing: each pair once, the client at most once. */
  ghost function Flat(session: Id, to: seq<Address>, body: nat): set<Delivery> {
    (set a | a in to && a.node != NULL_ID && a.computation != NULL_ID :: ToComputation(a.node, a.computation, body))
    + if ForClient(to) then {ToClient(session, body)} else {}
  }

  /** What `RouteMessage` hands over on the node itself. */
  ghost function HandedOver(rd: RoutingData, to: seq<Address>, body: nat): set<Delivery> {
    (set c | c in LocalComputations(rd.self, to) :: ToComputation(rd.self, c, body))
    + if ForClient(to) && rd.self == rd.entry then {ToClient(rd.session, body)} else {}
  }

  /** Of these, what finds its endpoint: the client's always does, or is stashed. */
  ghost function Found(rd: RoutingData, to: seq<Address>, body: nat, ipc: set<Id>): set<Delivery> {
    set d | d in HandedOver(rd, to, body) && (d.ToComputation? ==> d.computation in ipc)
  }

  /** An envelope on its way to the endpoint of node `dst`. */
  datatype Hop = Hop(dst: Id, envelope: Envelope)

  ghost function Hops(ids: set<Id>, lists: map<Id, seq<Address>>, body: nat): seq<Hop>
    requires ids <= lists.Keys
  {
    if ids == {} then []
    else
      var n := Least(ids);
      [Hop(n, Envelope(lists[n], body))] + Hops(ids - {n}, lists, body)
  }

  ghost function Forwarded(rd: RoutingData, to: seq<Address>, body: nat): seq<Hop> {
    var lists := NodeLists(rd, to);
    Hops(lists.Keys, lists, body)
  }

  /** What is sent on: the lists of the nodes reached before the first that cannot be. */
  ghost function SentOn(rd: RoutingData, to: seq<Address>, body: nat, nodes: set<Id>): seq<Hop> {
    var lists := NodeLists(rd, to);
    Hops(Reached(lists.Keys, nodes), lists, body)
  }

  /** The envelopes among `hops` on their way to `n`, in order. */
  ghost function HopsTo(hops: seq<Hop>, n: Id): seq<Envelope> {
    if hops == [] then [] else (if hops[0].dst == n then [hops[0].envelope] else []) + HopsTo(hops[1..], n)
  }

  lemma {:induction false} OneHopEach(ids: set<Id>, lists: map<Id, seq<Address>>, body: nat, n: Id)
    requires ids <= lists.Keys
    ensures HopsTo(Hops(ids, lists, body), n) == if n in ids then [Envelope(lists[n], body)] else []
  {
    if ids != {} {
      var least := Least(ids);
      var hops := Hops(ids, lists, body);
      assert hops[1..] == Hops(ids - {least}, lists, body);
      OneHopEach(ids - {least}, lists, body, n);
    }
  }

  /**
   The queues `RouteMessage` leaves are the old ones plus the hops and hand-overs of the session-wide model,
   whichever nodes can be reached and whichever computations have endpoints.
   */
  lemma QueuesMatchHops(
    rd: RoutingData, envelope: Envelope, nodes: map<Id, seq<Envelope>>, reachable: set<Id>,
    ipc: map<Id, seq<Envelope>>, n: Id, c: Id)
    ensures var lists := NodeLists(rd, envelope.to);
            Queued(AfterForward(nodes, Reached(lists.Keys, reachable), lists, envelope.body), n)
            == Queued(nodes, n) + HopsTo(SentOn(rd, envelope.to, envelope.body, reachable), n)
    ensures c in ipc ==>
              AfterLocal(ipc, LocalComputations(rd.self, envelope.to), envelope)[c]
              == ipc[c] + Share(rd, envelope, ipc.Keys, ToComputation(rd.self, c, envelope.body))
    ensures ClientShare(rd, envelope) == Share(rd, envelope, ipc.Keys, ToClient(rd.session, envelope.body))
  {
    var lists := NodeLists(rd, envelope.to);
    OneHopEach(Reached(lists.Keys, reachable), lists, envelope.body, n);
  }

  /** No computation gains or loses its endpoint, no node its own, and only nodes sent to gain one. */
  lemma EndpointsMatchHops(
    rd: RoutingData, envelope: Envelope, nodes: map<Id, seq<Envelope>>, reachable: set<Id>,
    ipc: map<Id, seq<Envelope>>, n: Id)
    ensures AfterLocal(ipc, LocalComputations(rd.self, envelope.to), envelope).Keys == ipc.Keys
    ensures var lists := NodeLists(rd, envelope.to);
            n in AfterForward(nodes, Reached(lists.Keys, reachable), lists, envelope.body) <==>
            n in nodes || HopsTo(SentOn(rd, envelope.to, envelope.body, reachable), n) != []
  {
    var lists := NodeLists(rd, envelope.to);
    OneHopEach(Reached(lists.Keys, reachable), lists, envelope.body, n);
  }

  ghost function Share(rd: RoutingData, envelope: Envelope, ipc: set<Id>, d: Delivery): seq<Envelope> {
    if d in Found(rd, envelope.to, envelope.body, ipc) then [envelope] else []
  }

  /**
   `entries` is the node map every node agrees on, reduced to the entry node of each session; `lost` is what
   a node dropped, for want of an endpoint, an address or routing data.
   */
  datatype Net = Net(
    entries: map<Id, Id>, hops: seq<Hop>,
    delivered: multiset<Delivery>, lost: multiset<Delivery>, promised: multiset<Delivery>)

  /** What a node has when it routes: endpoints of computations, and nodes it tracks or has the address of. */
  datatype Means = Means(ipc: set<Id>, nodes: set<Id>)

  function DataAt(entries: map<Id, Id>, node: Id, session: Id): RoutingData
    requires session in entries
  {
    RoutingData(session, node, {}, entries[session])
  }

  ghost predicate OneSession(to: seq<Address>, session: Id) {
    forall a :: a in to ==> a.session == session
  }

  /** A receiver without the session's routing data drops the envelope. */
  datatype NetStep =
    | Inject(origin: Id, session: Id, envelope: Envelope, means: Means)
    | Receive(index: nat, means: Means)
    | Drop(index: nat)

  ghost predicate NetInit(net: Net) {
    && net.hops == [] && net.delivered == net.lost == net.promised == multiset{}
    && forall s :: s in net.entries ==> net.entries[s] != NULL_ID
  }

  /** The hand-overs that find no endpoint, and the lists that are not sent on. */
  ghost function LostAt(rd: RoutingData, to: seq<Address>, body: nat, means: Means): multiset<Delivery> {
    var lists := NodeLists(rd, to);
    multiset(HandedOver(rd, to, body) - Found(rd, to, body, means.ipc))
    + Owed(Hops(lists.Keys - Reached(lists.Keys, means.nodes), lists, body))
  }

  ghost function RoutedAt(net: Net, rd: RoutingData, envelope: Envelope, means: Means): Net {
    net.(hops := net.hops + SentOn(rd, envelope.to, envelope.body, means.nodes),
         delivered := net.delivered + multiset(Found(rd, envelope.to, envelope.body, means.ipc)),
         lost := net.lost + LostAt(rd, envelope.to, envelope.body, means))
  }

  ghost function Without(net: Net, i: nat): Net
    requires i < |net.hops|
  {
    net.(hops := net.hops[..i] + net.hops[i + 1..])
  }

  /** The receiving endpoint takes the session from the first address. */
  predicate Known(net: Net, i: nat) {
    i < |net.hops| && net.hops[i].envelope.to != [] && net.hops[i].envelope.to[0].session in net.entries
  }

  function ReceiverData(net: Net, i: nat): RoutingData
    requires Known(net, i)
  {
    DataAt(net.entries, net.hops[i].dst, net.hops[i].envelope.to[0].session)
  }

  ghost predicate NetNext(net: Net, net': Net, step: NetStep) {
    match step
    case Inject(origin, session, envelope, means) =>
      && origin != NULL_ID && session in net.entries && OneSession(envelope.to, session)
      && net' == RoutedAt(net.(promised := net.promised + multiset(Flat(session, envelope.to, envelope.body))),
                          DataAt(net.entries, origin, session), envelope, means)
    case Receive(i, means) =>
      Known(net, i) && net' == RoutedAt(Without(net, i), ReceiverData(net, i), net.hops[i].envelope, means)
    case Drop(i) =>
      && i < |net.hops| && net.hops[i].envelope.to != []
      && net' == Without(net, i).(lost := net.lost + Owes(net.hops[i].envelope))
  }

  /** What an envelope still promises. */
  ghost function Owes(e: Envelope): multiset<Delivery> {
    if e.to == [] then multiset{} else multiset(Flat(e.to[0].session, e.to, e.body))
  }

  ghost function Owed(hops: seq<Hop>): multiset<Delivery> {
    if hops == [] then multiset{} else Owes(hops[0].envelope) + Owed(hops[1..])
  }

  /** A hop the receiving node only hands over: nothing in its list leads to a third node. */
  ghost predicate Final(entries: map<Id, Id>, hop: Hop) {
    && hop.dst != NULL_ID && hop.envelope.to != []
    && hop.envelope.to[0].session in entries
    && OneSession(hop.envelope.to, hop.envelope.to[0].session)
    && NodeLists(DataAt(entries, hop.dst, hop.envelope.to[0].session), hop.envelope.to) == map[]
  }

  ghost predicate NetInv(net: Net) {
    && (forall s :: s in net.entries ==> net.entries[s] != NULL_ID)
    && (forall i :: 0 <= i < |net.hops| ==> Final(net.entries, net.hops[i]))
    && net.promised == net.delivered + net.lost + Owed(net.hops)
  }

  /** The node that must hand a delivery over. */
  ghost function Owner(entry: Id, d: Delivery): Id {
    if d.ToComputation? then d.node else entry
  }

  ghost function OwnedBy(s: set<Delivery>, entry: Id, owners: set<Id>): set<Delivery> {
    set d | d in s && Owner(entry, d) in owners
  }

  lemma {:induction false} ForNodeHolds(to: seq<Address>, n: Id)
    ensures forall a :: a in ForNode(to, n) <==> a in to && a.node == n
  {
    if to != [] {
      ForNodeHolds(to[..|to| - 1], n);
      assert to == to[..|to| - 1] + [to[|to| - 1]];
    }
  }

  /** Membership in the list sent to `n`, the detour included. */
  lemma NodeListHolds(rd: RoutingData, to: seq<Address>, n: Id)
    requires rd.self != NULL_ID && rd.entry != NULL_ID
    requires n in NodeLists(rd, to)
    ensures n != NULL_ID && n != rd.self
    ensures forall a :: a in NodeLists(rd, to)[n] <==>
              || (a in to && a.node == n)
              || (ForClient(to) && n == rd.entry && a == ClientAddress(rd.session))
    ensures NodeLists(rd, to)[n] != []
  {
    ForNodeHolds(to, n);
    if n in RemoteNodes(rd.self, to) {
      var a :| a in to && a.node == n;
      assert a in ForNode(to, n);
    }
  }

  /** Each forwarded list promises exactly what its node owns of the whole. */
  lemma ListOwns(rd: RoutingData, to: seq<Address>, body: nat, n: Id)
    requires rd.self != NULL_ID && rd.entry != NULL_ID
    requires n in NodeLists(rd, to)
    ensures Flat(rd.session, NodeLists(rd, to)[n], body) == OwnedBy(Flat(rd.session, to, body), rd.entry, {n})
  {
    NodeListHolds(rd, to, n);
    var list := NodeLists(rd, to)[n];
    if ForClient(to) && n == rd.entry {
      assert ClientAddress(rd.session) in list;
    }
  }

  lemma LocalOwns(rd: RoutingData, to: seq<Address>, body: nat)
    requires rd.self != NULL_ID && rd.entry != NULL_ID
    ensures HandedOver(rd, to, body) == OwnedBy(Flat(rd.session, to, body), rd.entry, {rd.self})
  {
  }

  lemma {:induction false} HopsOwe(rd: RoutingData, to: seq<Address>, body: nat, ids: set<Id>)
    requires rd.self != NULL_ID && rd.entry != NULL_ID && OneSession(to, rd.session)
    requires ids <= NodeLists(rd, to).Keys
    ensures Owed(Hops(ids, NodeLists(rd, to), body)) == multiset(OwnedBy(Flat(rd.session, to, body), rd.entry, ids))
  {
    var whole := Flat(rd.session, to, body);
    if ids == {} {
      assert OwnedBy(whole, rd.entry, {}) == {};
    } else {
      var n := Least(ids);
      NodeListHolds(rd, to, n);
      ListOwns(rd, to, body, n);
      HopsOwe(rd, to, body, ids - {n});
      assert OwnedBy(whole, rd.entry, ids) == OwnedBy(whole, rd.entry, {n}) + OwnedBy(whole, rd.entry, ids - {n});
      assert NodeLists(rd, to)[n][0] in NodeLists(rd, to)[n];
    }
  }

  /** Conservation at one node: handed over here plus owed by the forwarded lists is what the list promises. */
  lemma RoutingSplits(rd: RoutingData, to: seq<Address>, body: nat)
    requires rd.self != NULL_ID && rd.entry != NULL_ID && OneSession(to, rd.session)
    ensures multiset(Flat(rd.session, to, body))
         == multiset(HandedOver(rd, to, body)) + Owed(Forwarded(rd, to, body))
  {
    var whole := Flat(rd.session, to, body);
    var ids := NodeLists(rd, to).Keys;
    LocalOwns(rd, to, body);
    HopsOwe(rd, to, body, ids);
    forall d | d in whole ensures Owner(rd.entry, d) in ids + {rd.self} {
    }
    assert rd.self !in ids by {
      if rd.self in ids { NodeListHolds(rd, to, rd.self); }
    }
    assert whole == OwnedBy(whole, rd.entry, {rd.self}) + OwnedBy(whole, rd.entry, ids);
  }

  lemma OwedSplits(rd: RoutingData, to: seq<Address>, body: nat, ids: set<Id>)
    requires rd.self != NULL_ID && rd.entry != NULL_ID && OneSession(to, rd.session) && ids <= NodeLists(rd, to).Keys
    ensures var lists := NodeLists(rd, to);
            Owed(Hops(lists.Keys, lists, body))
            == Owed(Hops(ids, lists, body)) + Owed(Hops(lists.Keys - ids, lists, body))
  {
    var (all, whole) := (NodeLists(rd, to).Keys, Flat(rd.session, to, body));
    HopsOwe(rd, to, body, all);
    HopsOwe(rd, to, body, ids);
    HopsOwe(rd, to, body, all - ids);
    SplitMultiset(OwnedBy(whole, rd.entry, all), OwnedBy(whole, rd.entry, ids), OwnedBy(whole, rd.entry, all - ids));
  }

  lemma Regroup(
    a: multiset<Delivery>, a1: multiset<Delivery>, a2: multiset<Delivery>,
    b: multiset<Delivery>, b1: multiset<Delivery>, b2: multiset<Delivery>)
    requires a == a1 + a2 && b == b1 + b2
    ensures a + b == a1 + b1 + (a2 + b2)
  {
  }

  /** The same with what is lost: handed over and sent on and lost is what the list promises. */
  lemma RoutingSplitsHere(rd: RoutingData, to: seq<Address>, body: nat, means: Means)
    requires rd.self != NULL_ID && rd.entry != NULL_ID && OneSession(to, rd.session)
    ensures multiset(Flat(rd.session, to, body))
         == multiset(Found(rd, to, body, means.ipc)) + Owed(SentOn(rd, to, body, means.nodes))
          + LostAt(rd, to, body, means)
  {
    var lists := NodeLists(rd, to);
    var reached := Reached(lists.Keys, means.nodes);
    var (handed, found) := (HandedOver(rd, to, body), Found(rd, to, body, means.ipc));
    RoutingSplits(rd, to, body);
    OwedSplits(rd, to, body, reached);
    SplitMultiset(handed, found, handed - found);
    Regroup(multiset(handed), multiset(found), multiset(handed - found), Owed(Hops(lists.Keys, lists, body)),
            Owed(Hops(reached, lists, body)), Owed(Hops(lists.Keys - reached, lists, body)));
  }

  lemma SplitMultiset(s: set<Delivery>, a: set<Delivery>, b: set<Delivery>)
    requires s == a + b && a !! b
    ensures multiset(s) == multiset(a) + multiset(b)
  {
  }

  lemma {:induction false} OwedAppend(xs: seq<Hop>, ys: seq<Hop>)
    ensures Owed(xs + ys) == Owed(xs) + Owed(ys)
  {
    if xs == [] {
      assert xs + ys == ys;
    } else {
      assert (xs + ys)[1..] == xs[1..] + ys;
      OwedAppend(xs[1..], ys);
    }
  }

  lemma OwedRemove(hops: seq<Hop>, i: nat)
    requires i < |hops| && hops[i].envelope.to != []
    ensures Owed(hops) == Owed(hops[..i] + hops[i + 1..]) + Owes(hops[i].envelope)
  {
    assert hops == hops[..i] + ([hops[i]] + hops[i + 1..]);
    OwedAppend(hops[..i], [hops[i]] + hops[i + 1..]);
    OwedAppend(hops[..i], hops[i + 1..]);
    assert ([hops[i]] + hops[i + 1..])[1..] == hops[i + 1..];
  }

  lemma {:induction false} HopsFrom(ids: set<Id>, lists: map<Id, seq<Address>>, body: nat)
    requires ids <= lists.Keys
    ensures forall h :: h in Hops(ids, lists, body) ==> h.dst in ids && h.envelope == Envelope(lists[h.dst], body)
  {
    if ids != {} {
      HopsFrom(ids - {Least(ids)}, lists, body);
    }
  }

  lemma HopsAreFinal(entries: map<Id, Id>, rd: RoutingData, to: seq<Address>, body: nat, ids: set<Id>)
    requires rd.session in entries && rd == DataAt(entries, rd.self, rd.session)
    requires rd.self != NULL_ID && rd.entry != NULL_ID && OneSession(to, rd.session) && ids <= NodeLists(rd, to).Keys
    ensures forall h :: h in Hops(ids, NodeLists(rd, to), body) ==> h.dst != rd.self && Final(entries, h)
  {
    var lists := NodeLists(rd, to);
    HopsFrom(ids, lists, body);
    forall h | h in Hops(ids, lists, body) ensures h.dst != rd.self && Final(entries, h) {
      NodeListHolds(rd, to, h.dst);
      assert lists[h.dst][0] in lists[h.dst];
      var there := DataAt(entries, h.dst, rd.session);
      assert RemoteNodes(h.dst, lists[h.dst]) == {};
      assert NodeLists(there, lists[h.dst]) == map[];
    }
  }

  /** No list goes back to its sender, none is empty, and none leads past the node it is sent to. */
  lemma ForwardsAreFinal(entries: map<Id, Id>, rd: RoutingData, to: seq<Address>, body: nat)
    requires rd.session in entries && rd == DataAt(entries, rd.self, rd.session)
    requires rd.self != NULL_ID && rd.entry != NULL_ID && OneSession(to, rd.session)
    ensures forall h :: h in Forwarded(rd, to, body) ==> h.dst != rd.self && Final(entries, h)
  {
    HopsAreFinal(entries, rd, to, body, NodeLists(rd, to).Keys);
  }

  lemma RoutedAtKeeps(net: Net, rd: RoutingData, envelope: Envelope, means: Means)
    requires forall s :: s in net.entries ==> net.entries[s] != NULL_ID
    requires forall i :: 0 <= i < |net.hops| ==> Final(net.entries, net.hops[i])
    requires rd.self != NULL_ID && rd.session in net.entries && rd == DataAt(net.entries, rd.self, rd.session)
    requires OneSession(envelope.to, rd.session)
    requires net.promised
          == net.delivered + net.lost + Owed(net.hops) + multiset(Flat(rd.session, envelope.to, envelope.body))
    ensures NetInv(RoutedAt(net, rd, envelope, means))
  {
    var lists := NodeLists(rd, envelope.to);
    var more := SentOn(rd, envelope.to, envelope.body, means.nodes);
    RoutingSplitsHere(rd, envelope.to, envelope.body, means);
    OwedAppend(net.hops, more);
    HopsAreFinal(net.entries, rd, envelope.to, envelope.body, Reached(lists.Keys, means.nodes));
    var net' := RoutedAt(net, rd, envelope, means);
    forall i | 0 <= i < |net'.hops| ensures Final(net'.entries, net'.hops[i]) {
      if i >= |net.hops| { assert net'.hops[i] in more; }
    }
  }

  lemma InjectKeeps(net: Net, origin: Id, session: Id, envelope: Envelope, means: Means)
    requires NetInv(net) && origin != NULL_ID && session in net.entries && OneSession(envelope.to, session)
    ensures var asked := net.(promised := net.promised + multiset(Flat(session, envelope.to, envelope.body)));
            NetInv(RoutedAt(asked, DataAt(net.entries, origin, session), envelope, means))
  {
    var asked := net.(promised := net.promised + multiset(Flat(session, envelope.to, envelope.body)));
    RoutedAtKeeps(asked, DataAt(net.entries, origin, session), envelope, means);
  }

  lemma WithoutOwes(net: Net, i: nat)
    requires NetInv(net) && i < |net.hops|
    ensures Known(net, i) && Final(net.entries, net.hops[i])
    ensures forall j :: 0 <= j < |Without(net, i).hops| ==> Final(net.entries, Without(net, i).hops[j])
    ensures net.promised == net.delivered + net.lost + Owed(Without(net, i).hops) + Owes(net.hops[i].envelope)
  {
    WithoutIsFinal(net, i);
    OwedRemove(net.hops, i);
    Associate(net.delivered + net.lost, Owed(Without(net, i).hops), Owes(net.hops[i].envelope));
  }

  lemma WithoutIsFinal(net: Net, i: nat)
    requires (forall j :: 0 <= j < |net.hops| ==> Final(net.entries, net.hops[j])) && i < |net.hops|
    ensures Known(net, i) && Final(net.entries, net.hops[i])
    ensures forall j :: 0 <= j < |Without(net, i).hops| ==> Final(net.entries, Without(net, i).hops[j])
  {
    assert Final(net.entries, net.hops[i]);
    forall j | 0 <= j < |Without(net, i).hops| ensures Final(net.entries, Without(net, i).hops[j]) {
      assert Final(net.entries, net.hops[if j < i then j else j + 1]);
    }
  }

  lemma Associate(a: multiset<Delivery>, b: multiset<Delivery>, c: multiset<Delivery>)
    ensures a + (b + c) == a + b + c
  {
  }

  lemma ReceiveKeeps(net: Net, i: nat, means: Means)
    requires NetInv(net) && i < |net.hops|
    ensures Known(net, i) && NetInv(RoutedAt(Without(net, i), ReceiverData(net, i), net.hops[i].envelope, means))
    ensures Forwarded(ReceiverData(net, i), net.hops[i].envelope.to, net.hops[i].envelope.body) == []
  {
    WithoutOwes(net, i);
    RoutedAtKeeps(Without(net, i), ReceiverData(net, i), net.hops[i].envelope, means);
  }

  lemma DropKeeps(net: Net, i: nat)
    requires NetInv(net) && i < |net.hops|
    ensures NetInv(Without(net, i).(lost := net.lost + Owes(net.hops[i].envelope)))
  {
    WithoutOwes(net, i);
    Reorder(net.delivered, net.lost, Owed(Without(net, i).hops), Owes(net.hops[i].envelope));
  }

  lemma Reorder(a: multiset<Delivery>, b: multiset<Delivery>, c: multiset<Delivery>, d: multiset<Delivery>)
    ensures a + b + c + d == a + (b + d) + c
  {
  }

  lemma NetInvKept(net: Net, net': Net, step: NetStep)
    requires NetInv(net) && NetNext(net, net', step)
    ensures NetInv(net') && net'.entries == net.entries
    ensures !step.Inject? ==> |net'.hops| == |net.hops| - 1 && net'.promised == net.promised
  {
    match step
    case Inject(origin, session, envelope, means) => InjectKeeps(net, origin, session, envelope, means);
    case Receive(i, means) => ReceiveKeeps(net, i, means);
    case Drop(i) => DropKeeps(net, i);
  }

  /** A run of the session's nodes: any messages from any nodes, hops received in any order. */
  ghost predicate NetRun(run: seq<Net>, steps: seq<NetStep>) {
    && |run| == |steps| + 1 && NetInit(run[0])
    && forall i :: 0 <= i < |steps| ==> NetNext(run[i], run[i + 1], steps[i])
  }

  lemma InitKeeps(net: Net)
    requires NetInit(net)
    ensures NetInv(net)
  {
    assert net.hops == [] && Owed(net.hops) == multiset{};
  }

  lemma {:induction false} NetRunKeeps(run: seq<Net>, steps: seq<NetStep>, k: nat)
    requires NetRun(run, steps) && k < |run|
    ensures NetInv(run[k])
  {
    if k == 0 {
      InitKeeps(run[0]);
    } else {
      var before := k - 1;
      NetRunKeeps(run, steps, before);
      assert NetNext(run[before], run[before + 1], steps[before]);
      NetInvKept(run[before], run[k], steps[before]);
    }
  }

  /**
   Distributed routing is flat delivery: in every run what is delivered and what is lost are together no more
   than the injected address lists promise, and once nothing is in flight they are exactly that; so everything
   promised has then been delivered once if and only if nothing was lost.
   */
  lemma RoutingIsFlatDelivery(run: seq<Net>, steps: seq<NetStep>, k: nat)
    requires NetRun(run, steps) && k < |run|
    ensures run[k].delivered + run[k].lost <= run[k].promised
    ensures run[k].hops == [] ==> run[k].delivered + run[k].lost == run[k].promised
    ensures run[k].hops == [] ==> (run[k].delivered == run[k].promised <==> run[k].lost == multiset{})
  {
    NetRunKeeps(run, steps, k);
  }

  /** The routing node has endpoints for its computations, and reaches the nodes it sends to. */
  ghost predicate Equipped(rd: RoutingData, to: seq<Address>, means: Means) {
    LocalComputations(rd.self, to) <= means.ipc && NodeLists(rd, to).Keys <= means.nodes
  }

  ghost predicate LosesNothing(net: Net, step: NetStep) {
    match step
    case Inject(origin, session, envelope, means) =>
      session in net.entries ==> Equipped(DataAt(net.entries, origin, session), envelope.to, means)
    case Receive(i, means) => Known(net, i) ==> Equipped(ReceiverData(net, i), net.hops[i].envelope.to, means)
    case Drop(_) => false
  }

  lemma EquippedLosesNothing(rd: RoutingData, to: seq<Address>, body: nat, means: Means)
    requires Equipped(rd, to, means)
    ensures LostAt(rd, to, body, means) == multiset{}
  {
    var lists := NodeLists(rd, to);
    assert Reached(lists.Keys, means.nodes) == lists.Keys;
    assert HandedOver(rd, to, body) - Found(rd, to, body, means.ipc) == {};
    assert lists.Keys - lists.Keys == {};
  }

  /** With the endpoints, the addresses and the routing data that routing needs, nothing is lost. */
  lemma {:induction false} EquippedRunsLoseNothing(run: seq<Net>, steps: seq<NetStep>, k: nat)
    requires NetRun(run, steps) && k < |run| && forall i :: 0 <= i < |steps| ==> LosesNothing(run[i], steps[i])
    ensures run[k].lost == multiset{}
    ensures run[k].hops == [] ==> run[k].delivered == run[k].promised
  {
    if k == 0 {
      assert run[0].lost == multiset{};
    } else {
      var before := k - 1;
      EquippedRunsLoseNothing(run, steps, before);
      var (net, step) := (run[before], steps[before]);
      assert NetNext(net, run[before + 1], step) && LosesNothing(net, step);
      match step
      case Inject(origin, session, envelope, means) =>
        EquippedLosesNothing(DataAt(net.entries, origin, session), envelope.to, envelope.body, means);
      case Receive(i, means) =>
        EquippedLosesNothing(ReceiverData(net, i), net.hops[i].envelope.to, net.hops[i].envelope.body, means);
    }
    RoutingIsFlatDelivery(run, steps, k);
  }

  /** No envelope is forwarded twice: receiving never adds a hop, and whatever is in flight can be received. */
  lemma ForwardedOnce(run: seq<Net>, steps: seq<NetStep>, k: nat, i: nat)
    requires NetRun(run, steps) && k < |run| && i < |run[k].hops|
    ensures Known(run[k], i)
    ensures Forwarded(ReceiverData(run[k], i), run[k].hops[i].envelope.to, run[k].hops[i].envelope.body) == []
    ensures k < |steps| && !steps[k].Inject? ==> |run[k + 1].hops| == |run[k].hops| - 1
  {
    NetRunKeeps(run, steps, k);
    assert Final(run[k].entries, run[k].hops[i]);
    if k < |steps| {
      NetInvKept(run[k], run[k + 1], steps[k]);
    }
  }

  /** The reference itself: the multiplicities one address list stands for, duplicates and (node, null) included. */
  lemma FlatCounts(session: Id, to: seq<Address>, body: nat, d: Delivery)
    ensures multiset(Flat(session, to, body))[d] ==
            if d.ToComputation? then
              (if d.body == body && d.node != NULL_ID && d.computation != NULL_ID
                  && (exists a :: a in to && a.node == d.node && a.computation == d.computation) then 1 else 0)
            else
              (if d == ToClient(session, body) && ForClient(to) then 1 else 0)
  {
    var promised := Flat(session, to, body);
    assert d in promised <==> multiset(promised)[d] == 1;
  }
}
