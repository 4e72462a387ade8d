/**
 The router's index of session routing data (RoutingTable.cc): a table of weak references and a table of
 strong ones, read and written by `serviceToRouterProc` (NodeRouter.cc).
 */
module RoutingTable {
  import opened Common

  type NodeInfo = string
  type Filter = string

  /** What an Initialize or Update message carries for a session. */
  datatype Routes = Routes(nodes: map<Id, NodeInfo>, entry: Id, filter: Filter)

  /** One session's routing data; only the entry node addresses messages of the client. */
  class SessionRoutingData {
    const session: Id
    const nodes: map<Id, NodeInfo>
    var addresser: Option<Filter>

    constructor (session: Id, self: Id, routes: Routes)
      ensures this.session == session && nodes == routes.nodes
      ensures addresser == if self == routes.entry then Some(routes.filter) else None
    {
      this.session := session;
      this.nodes := routes.nodes;
      addresser := if self == routes.entry then Some(routes.filter) else None;
    }

    method UpdateClientAddresser(filter: Filter)
      modifies this
      ensures addresser == if old(addresser).None? then None else Some(filter)
    {
      if addresser.Some? {
        addresser := Some(filter);
      }
    }
  }

  /** What `weak_ptr::lock` and the tables give for a session. */
  function Found<T(==)>(weak: map<Id, T>, strong: map<Id, T>, held: seq<T>, id: Id): Option<T> {
    if id in weak && (weak[id] in strong.Values || weak[id] in held) then Some(weak[id]) else None
  }

  function Get<T>(table: map<Id, T>, id: Id): Option<T> {
    if id in table then Some(table[id]) else None
  }

  /** `std::map::insert` keeps the entry it finds. */
  function Insert<T>(table: map<Id, T>, id: Id, value: T): map<Id, T> {
    if id in table then table else table[id := value]
  }

  datatype Entry = Entry(nodes: map<Id, NodeInfo>, addresser: Option<Filter>)

  /** What reaches the index: the service's messages, lookups, and references others take and give up. */
  datatype Request =
    | Initialize(id: Id, routes: Routes)
    | Update(id: Id, filter: Filter)
    | Delete(id: Id)
    | Lookup(id: Id)
    | Hold(id: Id)
    | Drop(k: nat)

  function Made(self: Id, routes: Routes): Entry {
    Entry(routes.nodes, if self == routes.entry then Some(routes.filter) else None)
  }

  /** The first Initialize wins until a Delete; an Update reaches the entry node's addresser only. */
  function After(self: Id, plain: map<Id, Entry>, r: Request): map<Id, Entry> {
    match r
    case Initialize(id, routes) => Insert(plain, id, Made(self, routes))
    case Update(id, filter) =>
      if id in plain && plain[id].addresser.Some? then plain[id := plain[id].(addresser := Some(filter))] else plain
    case Delete(id) => plain - {id}
    case Lookup(_) | Hold(_) | Drop(_) => plain
  }

  function Plain(self: Id, requests: seq<Request>): map<Id, Entry> {
    if requests == [] then map[]
    else After(self, Plain(self, requests[..|requests| - 1]), requests[|requests| - 1])
  }

  class RoutingTable {
    const self: Id
    var weak: map<Id, SessionRoutingData>
    var strong: map<Id, SessionRoutingData>
    /** The references others hold. */
    var held: seq<SessionRoutingData>

    constructor (self: Id)
      ensures Valid() && View() == map[] && this.self == self && held == [] && weak == map[]
    {
      this.self := self;
      weak, strong, held := map[], map[], [];
    }

    /** Same keys and same referents in both tables, each session's own. */
    ghost predicate Valid()
      reads this
    {
      && weak == strong
      && forall id :: id in strong ==> strong[id].session == id
    }

    ghost function View(): (plain: map<Id, Entry>)
      reads this, strong.Values
    {
      map id | id in strong :: Entry(strong[id].nodes, strong[id].addresser)
    }

    /** The session's data, if it is listed and someone still holds it. */
    method Find(id: Id) returns (data: Option<SessionRoutingData>)
      ensures data.Some? <==> id in weak && (weak[id] in strong.Values || weak[id] in held)
      ensures data.Some? ==> data.value == weak[id]
      ensures Valid() ==> data == Get(strong, id)
    {
      data := Found(weak, strong, held, id);
    }

    method Add(id: Id, data: SessionRoutingData)
      modifies this`weak, this`strong
      ensures weak == Insert(old(weak), id, data) && strong == Insert(old(strong), id, data)
    {
      weak := Insert(weak, id, data);
      strong := Insert(strong, id, data);
    }

    /** Nothing in the program calls it.  It keeps the session's lookup if and only if someone else holds the data. */
    method Release(id: Id)
      requires Valid() && id in strong
      modifies this`strong
      ensures weak == old(weak) && strong == old(strong) - {id} && weak[id] !in strong.Values
      ensures Found(weak, strong, held, id) == Get(old(strong), id) <==> old(strong[id]) in held
    {
      strong := strong - {id};
    }

    method Remove(id: Id)
      requires Valid()
      modifies this`weak, this`strong
      ensures Valid() && strong == old(strong) - {id} && View() == old(View()) - {id}
    {
      strong := strong - {id};
      if id in weak {
        weak := weak - {id};
      }
    }

    /** `putSessionRoutingData`: the data of an earlier Initialize is kept and returned, unless it has expired. */
    method Put(id: Id, routes: Routes) returns (data: SessionRoutingData)
      modifies this`weak, this`strong
      ensures old(Found(weak, strong, held, id).Some?) ==>
                id in weak && data == weak[id] && weak == old(weak) && strong == old(strong)
      ensures old(Found(weak, strong, held, id).None?) ==>
                fresh(data) && weak == Insert(old(weak), id, data) && strong == Insert(old(strong), id, data)
      ensures old(Valid()) ==> Valid() && id in strong && strong[id] == data
      ensures old(Valid()) ==> View() == old(Insert(View(), id, Made(self, routes)))
    {
      var known := Find(id);
      if known.Some? {
        return known.value;
      }
      data := new SessionRoutingData(id, self, routes);
      Add(id, data);
    }

    /** After a release with no holder left, a new Initialize is not seen: the expired reference stays listed. */
    method PutAfterRelease(id: Id, routes: Routes) returns (found: Option<SessionRoutingData>)
      requires Valid() && id in strong && strong[id] !in held
      modifies this`weak, this`strong
      ensures found == None && id in strong && fresh(strong[id])
    {
      Release(id);
      var _ := Put(id, routes);
      found := Find(id);
    }

    method UpdateFilter(id: Id, filter: Filter)
      requires Valid()
      modifies strong.Values
      ensures Valid() && View() == old(After(self, View(), Update(id, filter)))
      // the session's addresser takes the filter, if this is its entry node; no other session's changes
      ensures id in strong && old(strong[id].addresser).Some? ==> strong[id].addresser == Some(filter)
      ensures id in strong && old(strong[id].addresser).None? ==> strong[id].addresser == None
      ensures forall other :: other in strong && other != id ==> strong[other].addresser == old(strong[other].addresser)
    {
      var known := Find(id);
      if known.Some? {
        assert known.value in strong.Values;
        known.value.UpdateClientAddresser(filter);
      }
    }

    /** `findNodeInfo`: the sessions are searched in ascending order, the first that has the node answers. */
    method FindNodeInfo(node: Id) returns (info: Option<NodeInfo>)
      requires Valid()
      ensures info.None? ==> forall id :: id in strong ==> node !in strong[id].nodes
      ensures info.Some? ==> exists id :: First(strong, node, id) && info.value == strong[id].nodes[node]
    {
      var done: set<Id> := {};
      while done != weak.Keys
        invariant Prefix(done, weak.Keys)
        invariant forall id :: id in done ==> node !in weak[id].nodes
        decreases |weak.Keys - done|
      {
        var id := NextId(weak.Keys, done);
        var data := Find(id);
        if data.Some? && node in data.value.nodes {
          assert First(strong, node, id);
          return Some(data.value.nodes[node]);
        }
        assert weak.Keys - (done + {id}) < weak.Keys - done;
        done := done + {id};
      }
      info := None;
    }
  }

  ghost predicate First(table: map<Id, SessionRoutingData>, node: Id, id: Id) {
    && id in table && node in table[id].nodes
    && forall other :: other in table && other < id ==> node !in table[other].nodes
  }

  /** What a lookup answers. */
  function Answer(self: Id, requests: seq<Request>, k: nat): Option<Entry>
    requires k < |requests|
  {
    if requests[k].Lookup? then Get(Plain(self, requests[..k]), requests[k].id) else None
  }

  /** Any run answers every lookup as a plain map would, whatever is held in the meantime. */
  method Serve(self: Id, requests: seq<Request>) returns (answers: seq<Option<Entry>>)
    ensures |answers| == |requests|
    ensures forall k :: 0 <= k < |requests| ==> answers[k] == Answer(self, requests, k)
  {
    var table := new RoutingTable(self);
    answers := [];
    for k := 0 to |requests|
      invariant fresh(table) && fresh(table.strong.Values) && table.self == self && table.Valid()
      invariant table.View() == Plain(self, requests[..k]) && |answers| == k
      invariant forall j :: 0 <= j < k ==> answers[j] == Answer(self, requests, j)
    {
      assert requests[..k + 1][..k] == requests[..k];
      var answer := ServeOne(table, requests[k]);
      answers := answers + [answer];
    }
    assert requests[..|requests|] == requests;
  }

  method ServeOne(table: RoutingTable, r: Request) returns (answer: Option<Entry>)
    requires table.Valid()
    modifies table, table.strong.Values
    ensures table.Valid() && fresh(table.strong.Values - old(table.strong.Values))
    ensures table.View() == old(After(table.self, table.View(), r))
    ensures answer == if r.Lookup? then Get(old(table.View()), r.id) else None
  {
    answer := None;
    match r
    case Initialize(id, routes) => var _ := table.Put(id, routes);
    case Update(id, filter) => table.UpdateFilter(id, filter);
    case Delete(id) => table.Remove(id);
    case Lookup(id) =>
      var data := table.Find(id);
      answer := if data.Some? then Some(Entry(data.value.nodes, data.value.addresser)) else None;
    case Hold(id) =>
      var data := table.Find(id);
      if data.Some? { table.held := table.held + [data.value]; }
    case Drop(k) =>
      if k < |table.held| { table.held := table.held[..k] + table.held[k + 1..]; }
  }
}
