/**
 The tables of tracked endpoints (PeerManager.cc), the once-only destruction flag (RemoteEndpoint.h) and the
 destruction of flagged endpoints (ThreadedNodeRouter.cc, destroyEndpoints).  Endpoints are compared by identity.
 */
module PeerManager {
  import opened Common

  datatype PeerType = PEER_NONE | PEER_CLIENT | PEER_NODE | PEER_IPC | PEER_LISTENER

  class RemoteEndpoint {
    var flagged: bool

    constructor ()
      ensures !flagged
    {
      flagged := false;
    }
  }

  type PeerTable = map<Id, RemoteEndpoint>
  type ListenerTable = map<Id, seq<RemoteEndpoint>>

  datatype Peers = Peers(clients: PeerTable, nodes: PeerTable, ipc: PeerTable, listeners: ListenerTable)

  /** An endpoint's place: a table, and its key there. */
  datatype Place = Place(kind: PeerType, id: Id)

  function Members(p: Peers, at: Place): set<RemoteEndpoint> {
    match at.kind
    case PEER_CLIENT => if at.id in p.clients then {p.clients[at.id]} else {}
    case PEER_NODE => if at.id in p.nodes then {p.nodes[at.id]} else {}
    case PEER_IPC => if at.id in p.ipc then {p.ipc[at.id]} else {}
    case PEER_LISTENER => if at.id in p.listeners then (set ep | ep in p.listeners[at.id]) else {}
    case PEER_NONE => {}
  }

  predicate Holds(p: Peers, at: Place, ep: RemoteEndpoint) {
    ep in Members(p, at)
  }

  ghost predicate Untracked(p: Peers, ep: RemoteEndpoint) {
    forall at :: !Holds(p, at, ep)
  }

  /** The type and id an endpoint is tracked under, or neither. */
  ghost predicate TrulyAt(p: Peers, ep: RemoteEndpoint, at: Place) {
    if at.kind == PEER_NONE then Untracked(p, ep) else Holds(p, at, ep)
  }

  ghost predicate Reported(p: Peers, queue: seq<RemoteEndpoint>, places: seq<Place>) {
    |places| <= |queue| && forall i :: 0 <= i < |places| ==> TrulyAt(p, queue[i], places[i])
  }

  lemma ReportedMore(
    p: Peers, done: seq<RemoteEndpoint>, places: seq<Place>, next: seq<RemoteEndpoint>, at: Place)
    requires Reported(p, done, places) && |places| == |done| && |next| == |done| + 1 && next[..|done|] == done
    requires TrulyAt(p, next[|done|], at)
    ensures Reported(p, next, places + [at])
  {
    assert forall i :: 0 <= i < |done| ==> next[i] == done[i];
  }

  predicate Distinct(eps: seq<RemoteEndpoint>) {
    forall i, j :: 0 <= i < j < |eps| ==> eps[i] != eps[j]
  }

  /** At most one key of at most one table; listener lists have no duplicates and are never empty. */
  ghost predicate Unique(p: Peers) {
    && (forall at, at2 :: at != at2 ==> Members(p, at) !! Members(p, at2))
    && (forall id :: id in p.listeners ==> p.listeners[id] != [] && Distinct(p.listeners[id]))
  }

  function Except(eps: seq<RemoteEndpoint>, gone: set<RemoteEndpoint>): seq<RemoteEndpoint> {
    if eps == [] then []
    else (if eps[0] in gone then [] else [eps[0]]) + Except(eps[1..], gone)
  }

  function TableExcept(t: PeerTable, gone: set<RemoteEndpoint>): PeerTable {
    map id | id in t && t[id] !in gone :: t[id]
  }

  function ListenersExcept(t: ListenerTable, gone: set<RemoteEndpoint>): ListenerTable {
    map id | id in t && Except(t[id], gone) != [] :: Except(t[id], gone)
  }

  /** The tables with every entry of `gone` untracked and every other entry as it was. */
  function PeersExcept(p: Peers, gone: set<RemoteEndpoint>): Peers {
    Peers(TableExcept(p.clients, gone), TableExcept(p.nodes, gone), TableExcept(p.ipc, gone),
          ListenersExcept(p.listeners, gone))
  }

  lemma {:induction false} ExceptHolds(eps: seq<RemoteEndpoint>, gone: set<RemoteEndpoint>)
    ensures forall ep :: ep in Except(eps, gone) <==> ep in eps && ep !in gone
    ensures Distinct(eps) ==> Distinct(Except(eps, gone))
  {
    if eps != [] {
      ExceptHolds(eps[1..], gone);
      assert eps == [eps[0]] + eps[1..];
    }
  }

  lemma {:induction false} ExceptNone(eps: seq<RemoteEndpoint>, gone: set<RemoteEndpoint>)
    requires forall ep :: ep in eps ==> ep !in gone
    ensures Except(eps, gone) == eps
  {
    if eps != [] {
      ExceptNone(eps[1..], gone);
    }
  }

  lemma {:induction false} ExceptTwice(eps: seq<RemoteEndpoint>, gone: set<RemoteEndpoint>, ep: RemoteEndpoint)
    ensures Except(Except(eps, gone), {ep}) == Except(eps, gone + {ep})
  {
    if eps != [] {
      ExceptTwice(eps[1..], gone, ep);
      var kept := Except(eps[1..], gone);
      if eps[0] in gone {
        assert Except(eps, gone) == kept;
      } else {
        assert Except(eps, gone)[1..] == kept;
      }
    }
  }

  lemma {:induction false} ExceptOneAt(eps: seq<RemoteEndpoint>, i: nat)
    requires i < |eps| && Distinct(eps)
    ensures Except(eps, {eps[i]}) == eps[..i] + eps[i + 1..]
  {
    if i == 0 {
      ExceptNone(eps[1..], {eps[0]});
    } else {
      ExceptOneAt(eps[1..], i - 1);
      assert eps[1..][..i - 1] == eps[1..i] && eps[1..][i..] == eps[i + 1..];
      assert eps[..i] == [eps[0]] + eps[1..i];
    }
  }

  lemma TableExceptTwice(t: PeerTable, gone: set<RemoteEndpoint>, ep: RemoteEndpoint)
    ensures TableExcept(TableExcept(t, gone), {ep}) == TableExcept(t, gone + {ep})
  {
  }

  lemma ListenersExceptTwice(t: ListenerTable, gone: set<RemoteEndpoint>, ep: RemoteEndpoint)
    ensures ListenersExcept(ListenersExcept(t, gone), {ep}) == ListenersExcept(t, gone + {ep})
  {
    forall id | id in t ensures Except(Except(t[id], gone), {ep}) == Except(t[id], gone + {ep}) {
      ExceptTwice(t[id], gone, ep);
    }
  }

  lemma PeersExceptTwice(p: Peers, gone: set<RemoteEndpoint>, ep: RemoteEndpoint)
    ensures PeersExcept(PeersExcept(p, gone), {ep}) == PeersExcept(p, gone + {ep})
  {
    TableExceptTwice(p.clients, gone, ep);
    TableExceptTwice(p.nodes, gone, ep);
    TableExceptTwice(p.ipc, gone, ep);
    ListenersExceptTwice(p.listeners, gone, ep);
  }

  lemma HeldAfter(p: Peers, gone: set<RemoteEndpoint>, at: Place, ep: RemoteEndpoint)
    ensures Holds(PeersExcept(p, gone), at, ep) <==> Holds(p, at, ep) && ep !in gone
  {
    if at.kind == PEER_LISTENER && at.id in p.listeners {
      ExceptHolds(p.listeners[at.id], gone);
    }
  }

  lemma PlaceBefore(p: Peers, gone: set<RemoteEndpoint>, ep: RemoteEndpoint, at: Place)
    requires ep !in gone && TrulyAt(PeersExcept(p, gone), ep, at)
    ensures TrulyAt(p, ep, at)
  {
    forall x ensures Holds(p, x, ep) ==> Holds(PeersExcept(p, gone), x, ep) { HeldAfter(p, gone, x, ep); }
    HeldAfter(p, gone, at, ep);
  }

  lemma UniqueExcept(p: Peers, gone: set<RemoteEndpoint>)
    requires Unique(p)
    ensures Unique(PeersExcept(p, gone))
  {
    forall at ensures Members(PeersExcept(p, gone), at) <= Members(p, at) {
      forall ep | ep in Members(PeersExcept(p, gone), at) ensures ep in Members(p, at) { HeldAfter(p, gone, at, ep); }
    }
    forall id | id in p.listeners ensures Distinct(Except(p.listeners[id], gone)) {
      ExceptHolds(p.listeners[id], gone);
    }
  }

  /** The search-and-erase loop over one table. */
  method EraseIfFound(haystack: PeerTable, needle: RemoteEndpoint) returns (found: bool, id: Id, rest: PeerTable)
    ensures found ==> id in haystack && haystack[id] == needle && rest == haystack - {id}
    ensures !found ==> rest == haystack && forall k :: k in haystack ==> haystack[k] != needle
  {
    found, id, rest := false, NULL_ID, haystack;
    var left := haystack.Keys;
    while left != {}
      invariant left <= haystack.Keys && forall k :: k in haystack && k !in left ==> haystack[k] != needle
      decreases left
    {
      var k :| k in left;
      if haystack[k] == needle {
        return true, k, haystack - {k};
      }
      left := left - {k};
    }
  }

  method IndexOf(eps: seq<RemoteEndpoint>, needle: RemoteEndpoint) returns (at: nat)
    ensures at <= |eps| && needle !in eps[..at] && (at < |eps| ==> eps[at] == needle)
  {
    at := 0;
    while at < |eps| && eps[at] != needle
      invariant at <= |eps| && needle !in eps[..at]
    {
      at := at + 1;
    }
  }

  method EraseListener(haystack: ListenerTable, needle: RemoteEndpoint)
    returns (found: bool, id: Id, rest: ListenerTable)
    requires forall k :: k in haystack ==> Distinct(haystack[k])
    ensures found ==> id in haystack && needle in haystack[id]
    ensures found ==> rest == if Except(haystack[id], {needle}) == [] then haystack - {id}
                              else haystack[id := Except(haystack[id], {needle})]
    ensures !found ==> rest == haystack && forall k :: k in haystack ==> needle !in haystack[k]
  {
    found, id, rest := false, NULL_ID, haystack;
    var left := haystack.Keys;
    while left != {}
      invariant left <= haystack.Keys && forall k :: k in haystack && k !in left ==> needle !in haystack[k]
      decreases left
    {
      var k :| k in left;
      var eps := haystack[k];
      var i := IndexOf(eps, needle);
      if i < |eps| {
        ExceptOneAt(eps, i);
        var shorter := eps[..i] + eps[i + 1..];
        rest := if shorter == [] then haystack - {k} else haystack[k := shorter];
        return true, k, rest;
      }
      assert eps[..i] == eps;
      left := left - {k};
    }
  }

  lemma TableWithout(t: PeerTable, ep: RemoteEndpoint, id: Id)
    requires id in t && t[id] == ep && forall k :: k in t && t[k] == ep ==> k == id
    ensures t - {id} == TableExcept(t, {ep})
  {
  }

  lemma TableUntouched(t: PeerTable, ep: RemoteEndpoint)
    requires forall k :: k in t ==> t[k] != ep
    ensures TableExcept(t, {ep}) == t
  {
  }

  lemma ListenersUntouched(t: ListenerTable, ep: RemoteEndpoint)
    requires forall k :: k in t ==> ep !in t[k] && t[k] != []
    ensures ListenersExcept(t, {ep}) == t
  {
    forall k | k in t ensures Except(t[k], {ep}) == t[k] { ExceptNone(t[k], {ep}); }
  }

  lemma ListenersWithout(t: ListenerTable, ep: RemoteEndpoint, id: Id)
    requires id in t && ep in t[id] && forall k :: k in t && k != id ==> ep !in t[k] && t[k] != []
    ensures ListenersExcept(t, {ep})
         == if Except(t[id], {ep}) == [] then t - {id} else t[id := Except(t[id], {ep})]
  {
    forall k | k in t && k != id ensures Except(t[k], {ep}) == t[k] { ExceptNone(t[k], {ep}); }
  }

  lemma Places(p: Peers, ep: RemoteEndpoint)
    ensures forall k :: k in p.clients && p.clients[k] == ep ==> Holds(p, Place(PEER_CLIENT, k), ep)
    ensures forall k :: k in p.nodes && p.nodes[k] == ep ==> Holds(p, Place(PEER_NODE, k), ep)
    ensures forall k :: k in p.ipc && p.ipc[k] == ep ==> Holds(p, Place(PEER_IPC, k), ep)
    ensures forall k :: k in p.listeners && ep in p.listeners[k] ==> Holds(p, Place(PEER_LISTENER, k), ep)
  {
  }

  lemma OnlyPlace(p: Peers, at: Place, ep: RemoteEndpoint)
    requires Unique(p) && Holds(p, at, ep)
    ensures forall k :: k in p.clients && p.clients[k] == ep ==> at == Place(PEER_CLIENT, k)
    ensures forall k :: k in p.nodes && p.nodes[k] == ep ==> at == Place(PEER_NODE, k)
    ensures forall k :: k in p.ipc && p.ipc[k] == ep ==> at == Place(PEER_IPC, k)
    ensures forall k :: k in p.listeners && ep in p.listeners[k] ==> at == Place(PEER_LISTENER, k)
  {
    Places(p, ep);
    forall x | Holds(p, x, ep) ensures x == at {
      assert ep in Members(p, x) && ep in Members(p, at);
    }
  }

  /** Removing an endpoint from the one table that holds it removes it from all of them. */
  lemma OneTableHolds(p: Peers, at: Place, ep: RemoteEndpoint)
    requires Unique(p) && Holds(p, at, ep)
    ensures at.kind == PEER_CLIENT ==> PeersExcept(p, {ep}) == p.(clients := p.clients - {at.id})
    ensures at.kind == PEER_NODE ==> PeersExcept(p, {ep}) == p.(nodes := p.nodes - {at.id})
    ensures at.kind == PEER_IPC ==> PeersExcept(p, {ep}) == p.(ipc := p.ipc - {at.id})
    ensures at.kind == PEER_LISTENER ==>
              PeersExcept(p, {ep}) == p.(listeners := ListenersExcept(p.listeners, {ep}))
  {
    OnlyPlace(p, at, ep);
    if at.kind != PEER_CLIENT { TableUntouched(p.clients, ep); } else { TableWithout(p.clients, ep, at.id); }
    if at.kind != PEER_NODE { TableUntouched(p.nodes, ep); } else { TableWithout(p.nodes, ep, at.id); }
    if at.kind != PEER_IPC { TableUntouched(p.ipc, ep); } else { TableWithout(p.ipc, ep, at.id); }
    if at.kind != PEER_LISTENER { ListenersUntouched(p.listeners, ep); }
  }

  lemma NoTableHolds(p: Peers, ep: RemoteEndpoint)
    requires Unique(p) && Untracked(p, ep)
    ensures PeersExcept(p, {ep}) == p
  {
    Places(p, ep);
    TableUntouched(p.clients, ep);
    TableUntouched(p.nodes, ep);
    TableUntouched(p.ipc, ep);
    ListenersUntouched(p.listeners, ep);
  }

  /** `toDelete` holds flagged endpoints not destroyed yet; `everQueued` all that were ever flagged, in order. */
  class ThreadedNodeRouter {
    var peers: Peers
    var toDelete: seq<RemoteEndpoint>
    ghost var everQueued: seq<RemoteEndpoint>

    ghost predicate Valid()
      reads this, everQueued
    {
      && Unique(peers) && Distinct(everQueued)
      && (forall ep :: ep in everQueued ==> ep.flagged)
      && |toDelete| <= |everQueued| && toDelete == everQueued[|everQueued| - |toDelete|..]
    }

    constructor ()
      ensures Valid() && peers == Peers(map[], map[], map[], map[]) && toDelete == everQueued == []
    {
      peers, toDelete, everQueued := Peers(map[], map[], map[], map[]), [], [];
    }

    /** An endpoint enters the destruction queue the first time it is flagged, and never again. */
    method FlagForDestruction(ep: RemoteEndpoint)
      requires Valid()
      modifies this`toDelete, this`everQueued, ep
      ensures Valid() && ep.flagged
      ensures old(ep.flagged) ==> toDelete == old(toDelete) && everQueued == old(everQueued)
      ensures !old(ep.flagged) ==> toDelete == old(toDelete) + [ep] && everQueued == old(everQueued) + [ep]
    {
      if !ep.flagged {
        toDelete := toDelete + [ep];
        everQueued := everQueued + [ep];
        ep.flagged := true;
      }
    }

    method TrackClient(id: Id, ep: RemoteEndpoint)
      requires Valid() && Untracked(peers, ep)
      modifies this`peers
      ensures Valid() && peers == old(peers).(clients := old(peers).clients[id := ep])
    {
      ghost var before := peers;
      peers := peers.(clients := peers.clients[id := ep]);
      UniqueMore(before, peers, Place(PEER_CLIENT, id), ep);
    }

    method TrackNode(id: Id, ep: RemoteEndpoint)
      requires Valid() && Untracked(peers, ep)
      modifies this`peers
      ensures Valid() && peers == old(peers).(nodes := old(peers).nodes[id := ep])
    {
      ghost var before := peers;
      peers := peers.(nodes := peers.nodes[id := ep]);
      UniqueMore(before, peers, Place(PEER_NODE, id), ep);
    }

    method TrackIpc(id: Id, ep: RemoteEndpoint)
      requires Valid() && Untracked(peers, ep)
      modifies this`peers
      ensures Valid() && peers == old(peers).(ipc := old(peers).ipc[id := ep])
    {
      ghost var before := peers;
      peers := peers.(ipc := peers.ipc[id := ep]);
      UniqueMore(before, peers, Place(PEER_IPC, id), ep);
    }

    method TrackListener(id: Id, ep: RemoteEndpoint)
      requires Valid() && Untracked(peers, ep)
      modifies this`peers
      ensures Valid()
      ensures var list := if id in old(peers).listeners then old(peers).listeners[id] else [];
              peers == old(peers).(listeners := old(peers).listeners[id := list + [ep]])
    {
      ghost var before := peers;
      assert !Holds(peers, Place(PEER_LISTENER, id), ep);
      var list := if id in peers.listeners then peers.listeners[id] else [];
      peers := peers.(listeners := peers.listeners[id := list + [ep]]);
      UniqueMore(before, peers, Place(PEER_LISTENER, id), ep);
    }

    /** The type and id under which `ep` was tracked. */
    method DestroyPeer(ep: RemoteEndpoint) returns (at: Place)
      requires Valid()
      modifies this`peers
      ensures Valid() && peers == PeersExcept(old(peers), {ep})
      ensures TrulyAt(old(peers), ep, at)
    {
      UniqueExcept(peers, {ep});
      var found, id, rest := EraseIfFound(peers.clients, ep);
      if found {
        OneTableHolds(peers, Place(PEER_CLIENT, id), ep);
        peers := peers.(clients := rest);
        return Place(PEER_CLIENT, id);
      }
      found, id, rest := EraseIfFound(peers.nodes, ep);
      if found {
        OneTableHolds(peers, Place(PEER_NODE, id), ep);
        peers := peers.(nodes := rest);
        return Place(PEER_NODE, id);
      }
      found, id, rest := EraseIfFound(peers.ipc, ep);
      if found {
        OneTableHolds(peers, Place(PEER_IPC, id), ep);
        peers := peers.(ipc := rest);
        return Place(PEER_IPC, id);
      }
      at := DestroyListener(ep);
    }

    /** The last table: an endpoint not in it either is in none. */
    method DestroyListener(ep: RemoteEndpoint) returns (at: Place)
      requires Valid() && forall x: Place :: x.kind != PEER_LISTENER ==> !Holds(peers, x, ep)
      modifies this`peers
      ensures Unique(peers) && peers == PeersExcept(old(peers), {ep})
      ensures TrulyAt(old(peers), ep, at)
    {
      UniqueExcept(peers, {ep});
      var found, id, rest := EraseListener(peers.listeners, ep);
      if found {
        OneTableHolds(peers, Place(PEER_LISTENER, id), ep);
        OnlyPlace(peers, Place(PEER_LISTENER, id), ep);
        ListenersWithout(peers.listeners, ep, id);
        peers := peers.(listeners := rest);
        return Place(PEER_LISTENER, id);
      }
      NoTableHolds(peers, ep);
      at := Place(PEER_NONE, NULL_ID);
    }

    method DestroyFront() returns (at: Place)
      requires Valid() && toDelete != []
      modifies this`peers, this`toDelete
      ensures Valid() && toDelete == old(toDelete)[1..] && everQueued == old(everQueued)
      ensures peers == PeersExcept(old(peers), {old(toDelete)[0]}) && TrulyAt(old(peers), old(toDelete)[0], at)
    {
      var ep := toDelete[0];
      toDelete := toDelete[1..];
      at := DestroyPeer(ep);
    }

    /** The queue so far: of everything queued since `first`, `done` is destroyed and the rest is waiting. */
    ghost predicate Queue(first: nat, done: seq<RemoteEndpoint>)
      reads this
    {
      first <= |everQueued| && everQueued[first..] == done + toDelete
    }

    /** Other threads flag endpoints while the lock on the queue is free. */
    method FlagAll(eps: seq<RemoteEndpoint>, ghost first: nat, ghost done: seq<RemoteEndpoint>)
      requires Valid() && Queue(first, done)
      modifies this`toDelete, this`everQueued, eps
      ensures Valid() && Queue(first, done) && old(everQueued) <= everQueued
    {
      for k := 0 to |eps|
        invariant Valid() && Queue(first, done) && old(everQueued) <= everQueued
      {
        FlagForDestruction(eps[k]);
      }
    }

    method FlagArrivals(
      arrivals: seq<seq<RemoteEndpoint>>, turn: nat, ghost first: nat, ghost done: seq<RemoteEndpoint>)
      requires Valid() && Queue(first, done)
      modifies this`toDelete, this`everQueued, Flagged(arrivals)
      ensures Valid() && Queue(first, done) && old(everQueued) <= everQueued
      ensures turn >= |arrivals| ==> toDelete == old(toDelete)
    {
      if turn < |arrivals| {
        assert forall ep :: ep in arrivals[turn] ==> arrivals[turn] in arrivals && ep in Flagged(arrivals);
        FlagAll(arrivals[turn], first, done);
      }
    }

    method DestroyNext(ghost p: Peers, ghost first: nat, ghost done: seq<RemoteEndpoint>, ghost places: seq<Place>)
      returns (at: Place)
      requires Valid() && Queue(first, done) && Destroyed(p, peers, done, places) && toDelete != []
      modifies this`peers, this`toDelete
      ensures Valid() && |toDelete| < |old(toDelete)| && everQueued == old(everQueued)
      ensures Queue(first, done + [old(toDelete)[0]])
      ensures Destroyed(p, peers, done + [old(toDelete)[0]], places + [at])
    {
      ghost var (before, ep) := (peers, toDelete[0]);
      assert done + toDelete == done + [ep] + toDelete[1..];
      DistinctPart(everQueued, first, |done| + 1, done + [ep]);
      at := DestroyFront();
      DestroyedMore(p, before, peers, done, places, ep, at);
    }

    /**
     Untracks exactly the queued endpoints, each under its true type and id, those included that other threads
     queue meanwhile: before the loop looks at the queue for the `i`th time they flag `arrivals[i]`.
     */
    method DestroyEndpoints(arrivals: seq<seq<RemoteEndpoint>>) returns (places: seq<Place>)
      requires Valid()
      modifies this`peers, this`toDelete, this`everQueued, Flagged(arrivals)
      ensures Valid() && toDelete == [] && old(everQueued) <= everQueued
      ensures var queue := old(toDelete) + everQueued[|old(everQueued)|..];
              && peers == PeersExcept(old(peers), SetOf(queue))
              && |places| == |queue| && Reported(old(peers), queue, places)
    {
      places := [];
      ghost var first: nat, done: seq<RemoteEndpoint> := |everQueued| - |toDelete|, [];
      PeersExceptNothing(peers);
      assert SetOf(done) == {};
      var turn := 0;
      while true
        invariant Valid() && turn >= 0 && old(everQueued) <= everQueued
        invariant Queue(first, done) && Destroyed(old(peers), peers, done, places)
        decreases if turn < |arrivals| then |arrivals| - turn else 0, |toDelete|
      {
        FlagArrivals(arrivals, turn, first, done);
        turn := turn + 1;
        if toDelete == [] { break; }
        ghost var next := done + [toDelete[0]];
        var at := DestroyNext(old(peers), first, done, places);
        done, places := next, places + [at];
      }
      assert done == old(toDelete) + everQueued[|old(everQueued)|..];
    }
  }

  function Flagged(arrivals: seq<seq<RemoteEndpoint>>): set<RemoteEndpoint> {
    set eps, ep | eps in arrivals && ep in eps :: ep
  }

  ghost function SetOf(eps: seq<RemoteEndpoint>): set<RemoteEndpoint> {
    set ep | ep in eps
  }

  /** Of the tables `p`, with `done` destroyed and reported, `now` is left. */
  ghost predicate Destroyed(p: Peers, now: Peers, done: seq<RemoteEndpoint>, places: seq<Place>) {
    now == PeersExcept(p, SetOf(done)) && |places| == |done| && Reported(p, done, places)
  }

  lemma DestroyedMore(
    p: Peers, before: Peers, now: Peers, done: seq<RemoteEndpoint>, places: seq<Place>, ep: RemoteEndpoint, at: Place)
    requires Destroyed(p, before, done, places) && Distinct(done + [ep])
    requires now == PeersExcept(before, {ep}) && TrulyAt(before, ep, at)
    ensures Destroyed(p, now, done + [ep], places + [at])
  {
    var next := done + [ep];
    assert next[..|done|] == done;
    OneMoreDestroyed(p, next, |done|, at);
    ReportedMore(p, done, places, next, at);
  }

  lemma DistinctPart(eps: seq<RemoteEndpoint>, first: nat, n: nat, part: seq<RemoteEndpoint>)
    requires Distinct(eps) && first + n <= |eps| && part == eps[first..][..n]
    ensures Distinct(part)
  {
  }

  lemma OneMoreDestroyed(p: Peers, queue: seq<RemoteEndpoint>, n: nat, at: Place)
    requires n + 1 == |queue| && Distinct(queue) && TrulyAt(PeersExcept(p, SetOf(queue[..n])), queue[n], at)
    ensures PeersExcept(PeersExcept(p, SetOf(queue[..n])), {queue[n]}) == PeersExcept(p, SetOf(queue))
    ensures TrulyAt(p, queue[n], at)
  {
    assert queue == queue[..n] + [queue[n]];
    assert SetOf(queue) == SetOf(queue[..n]) + {queue[n]};
    PlaceBefore(p, SetOf(queue[..n]), queue[n], at);
    PeersExceptTwice(p, SetOf(queue[..n]), queue[n]);
  }

  lemma PeersExceptNothing(p: Peers)
    requires Unique(p)
    ensures PeersExcept(p, {}) == p
  {
    forall id | id in p.listeners ensures Except(p.listeners[id], {}) == p.listeners[id] {
      ExceptNone(p.listeners[id], {});
    }
  }

  /** One more place for an endpoint that had none. */
  lemma UniqueMore(p: Peers, p': Peers, at: Place, ep: RemoteEndpoint)
    requires Unique(p) && Untracked(p, ep)
    requires forall x :: Members(p', x) <= Members(p, x) + if x == at then {ep} else {}
    requires forall id :: id in p'.listeners ==> p'.listeners[id] != [] && Distinct(p'.listeners[id])
    ensures Unique(p')
  {
    forall x ensures ep !in Members(p, x) { assert !Holds(p, x, ep); }
  }
}
