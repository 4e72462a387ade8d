/**
 The two channels of `Handshake`, and what the router holds, read off the steps taken: messages arrive in the
 order they were sent, and a session's routing data is there exactly from its Initialize to its Delete.
 */
module HandshakeChannels {
  import opened Common
  import L = SessionLifecycle
  import opened Handshake
  import opened HandshakeLimits

  /** What a step sends to the router. */
  function SentBy(s: State, step: Step): seq<ToRouter> {
    match step
    case CreateSendInitialize(t) =>
      if t in s.creators && s.creators[t].n < |s.entries| then [Initialize(s.entries[s.creators[t].n].id)] else []
    case Operate(n, inner) =>
      if n >= |s.entries| then []
      else if inner.Kick? then [KickClient(s.entries[n].id)]
      else if inner.Release? then [Delete(s.entries[n].id)]
      else []
    case ServiceHandles =>
      if s.toService != [] && s.toService[0].Connected? && !PassesForActive(s, s.toService[0].id) then
        [KickClient(s.toService[0].id)]
      else []
    case _ => []
  }

  function HandledBy(s: State, step: Step): seq<ToRouter> {
    if step.RouterHandles? && s.toRouter != [] then [s.toRouter[0]] else []
  }

  /** What a step sends to the service. */
  function ToldBy(s: State, step: Step): seq<ToService> {
    match step
    case RouterHandles =>
      if s.toRouter != [] && s.toRouter[0].Initialize? then [Acknowledge(s.toRouter[0].id)] else []
    case RouterNotifies => if s.notifying.Some? then [Connected(s.notifying.value)] else []
    case _ => []
  }

  function HeardBy(s: State, step: Step): seq<ToService> {
    if step.ServiceHandles? && s.toService != [] then [s.toService[0]] else []
  }

  function Sent(run: seq<State>, steps: seq<Step>, k: nat): seq<ToRouter>
    requires |run| == |steps| + 1 && k <= |steps|
  {
    if k == 0 then [] else Sent(run, steps, k - 1) + SentBy(run[k - 1], steps[k - 1])
  }

  function Handled(run: seq<State>, steps: seq<Step>, k: nat): seq<ToRouter>
    requires |run| == |steps| + 1 && k <= |steps|
  {
    if k == 0 then [] else Handled(run, steps, k - 1) + HandledBy(run[k - 1], steps[k - 1])
  }

  function Told(run: seq<State>, steps: seq<Step>, k: nat): seq<ToService>
    requires |run| == |steps| + 1 && k <= |steps|
  {
    if k == 0 then [] else Told(run, steps, k - 1) + ToldBy(run[k - 1], steps[k - 1])
  }

  function Heard(run: seq<State>, steps: seq<Step>, k: nat): seq<ToService>
    requires |run| == |steps| + 1 && k <= |steps|
  {
    if k == 0 then [] else Heard(run, steps, k - 1) + HeardBy(run[k - 1], steps[k - 1])
  }

  /** Any run, with no rule kept. */
  ghost predicate AnyRun(run: seq<State>, steps: seq<Step>) {
    && |run| == |steps| + 1 && Empty(run[0])
    && forall i :: 0 <= i < |steps| ==> Next(run[i], run[i + 1], steps[i])
  }

  lemma ToRouterKept(s: State, s': State, step: Step)
    requires Next(s, s', step)
    ensures HandledBy(s, step) + s'.toRouter == s.toRouter + SentBy(s, step)
  {
    if step.RouterHandles? { assert s.toRouter == [s.toRouter[0]] + s.toRouter[1..]; }
  }

  lemma ToServiceKept(s: State, s': State, step: Step)
    requires Next(s, s', step)
    ensures HeardBy(s, step) + s'.toService == s.toService + ToldBy(s, step)
  {
    if step.ServiceHandles? { assert s.toService == [s.toService[0]] + s.toService[1..]; }
  }

  lemma {:induction false} ToRouterIsFifo(run: seq<State>, steps: seq<Step>, k: nat)
    requires AnyRun(run, steps) && k < |run|
    ensures Sent(run, steps, k) == Handled(run, steps, k) + run[k].toRouter
  {
    if k > 0 {
      var j := k - 1;
      ToRouterIsFifo(run, steps, j);
      assert Next(run[j], run[j + 1], steps[j]);
      ToRouterKept(run[j], run[k], steps[j]);
      Passes(Handled(run, steps, j), run[j].toRouter, SentBy(run[j], steps[j]), HandledBy(run[j], steps[j]),
             run[k].toRouter);
    }
  }

  lemma {:induction false} ToServiceIsFifo(run: seq<State>, steps: seq<Step>, k: nat)
    requires AnyRun(run, steps) && k < |run|
    ensures Told(run, steps, k) == Heard(run, steps, k) + run[k].toService
  {
    if k > 0 {
      var j := k - 1;
      ToServiceIsFifo(run, steps, j);
      assert Next(run[j], run[j + 1], steps[j]);
      ToServiceKept(run[j], run[k], steps[j]);
      Passes(Heard(run, steps, j), run[j].toService, ToldBy(run[j], steps[j]), HeardBy(run[j], steps[j]),
             run[k].toService);
    }
  }

  /** What is put in at one end and taken out at the other. */
  lemma Passes<M>(taken: seq<M>, channel: seq<M>, more: seq<M>, first: seq<M>, rest: seq<M>)
    requires first + rest == channel + more
    ensures (taken + channel) + more == (taken + first) + rest
  {
    assert (taken + channel) + more == taken + (channel + more);
    assert (taken + first) + rest == taken + (first + rest);
  }

  /** Both channels lose nothing, add nothing and keep the order. */
  lemma ChannelsAreFifo(run: seq<State>, steps: seq<Step>, k: nat)
    requires AnyRun(run, steps) && k < |run|
    ensures Sent(run, steps, k) == Handled(run, steps, k) + run[k].toRouter
    ensures Told(run, steps, k) == Heard(run, steps, k) + run[k].toService
  {
    ToRouterIsFifo(run, steps, k);
    ToServiceIsFifo(run, steps, k);
  }

  /** After these messages a session has routing data: its last Initialize came after its last Delete. */
  predicate Stored(messages: seq<ToRouter>, id: Id) {
    if messages == [] then false
    else
      var last := messages[|messages| - 1];
      last == Initialize(id) || (last != Delete(id) && Stored(messages[..|messages| - 1], id))
  }

  lemma StoredMore(messages: seq<ToRouter>, m: ToRouter, id: Id)
    ensures Stored(messages + [m], id) <==> m == Initialize(id) || (m != Delete(id) && Stored(messages, id))
  {
    assert (messages + [m])[..|messages|] == messages;
  }

  lemma RoutingStep(s: State, s': State, step: Step, id: Id)
    requires Next(s, s', step)
    ensures HandledBy(s, step) == [] ==> (id in s'.routing <==> id in s.routing)
    ensures HandledBy(s, step) != [] ==>
              var m := s.toRouter[0];
              id in s'.routing <==> m == Initialize(id) || (m != Delete(id) && id in s.routing)
  {
  }

  /** The router holds a session's data iff, of the messages it has handled, the last for it is an Initialize. */
  lemma {:induction false} RoutingIs(run: seq<State>, steps: seq<Step>, k: nat, id: Id)
    requires AnyRun(run, steps) && k < |run|
    ensures id in run[k].routing <==> Stored(Handled(run, steps, k), id)
  {
    if k > 0 {
      var j := k - 1;
      RoutingIs(run, steps, j, id);
      assert Next(run[j], run[j + 1], steps[j]);
      RoutingStep(run[j], run[k], steps[j], id);
      if HandledBy(run[j], steps[j]) != [] {
        StoredMore(Handled(run, steps, j), run[j].toRouter[0], id);
      } else {
        assert Handled(run, steps, k) == Handled(run, steps, j);
      }
    }
  }

  /** What is remembered of the messages: Deletes sent, and acknowledgements heard. */
  lemma {:induction false} RemembersMessages(run: seq<State>, steps: seq<Step>, k: nat, id: Id)
    requires AnyRun(run, steps) && k < |run|
    ensures id in run[k].deleteSent <==> Delete(id) in Sent(run, steps, k)
    ensures id in run[k].acknowledged <==> Acknowledge(id) in Heard(run, steps, k)
  {
    if k > 0 {
      var j := k - 1;
      RemembersMessages(run, steps, j, id);
      assert Next(run[j], run[j + 1], steps[j]);
      RememberedStep(run[j], run[k], steps[j], id);
    }
  }

  lemma RememberedStep(s: State, s': State, step: Step, id: Id)
    requires Next(s, s', step)
    ensures id in s'.deleteSent <==> id in s.deleteSent || Delete(id) in SentBy(s, step)
    ensures id in s'.acknowledged <==> id in s.acknowledged || Acknowledge(id) in HeardBy(s, step)
  {
  }

  lemma {:induction false} StoredAfter(messages: seq<ToRouter>, id: Id)
    requires Stored(messages, id)
    ensures exists y :: InitializedAt(messages, id, y)
  {
    var last := |messages| - 1;
    if messages[last] != Initialize(id) {
      StoredAfter(messages[..last], id);
      var y :| InitializedAt(messages[..last], id, y);
      assert InitializedAt(messages, id, y);
    } else {
      assert InitializedAt(messages, id, last);
    }
  }

  predicate InitializedAt(messages: seq<ToRouter>, id: Id, y: int) {
    0 <= y < |messages| && messages[y] == Initialize(id) && forall x :: y < x < |messages| ==> messages[x] != Delete(id)
  }

  /** A session still in the routing table although its Delete was sent: the Delete is on its way, or was overtaken. */
  lemma DeletedButRouted(run: seq<State>, steps: seq<Step>, k: nat, id: Id)
    requires AnyRun(run, steps) && k < |run| && id in run[k].routing && id in run[k].deleteSent
    ensures var handled := Handled(run, steps, k);
            || Delete(id) in run[k].toRouter
            || exists x, y :: 0 <= x < y && InitializedAt(handled, id, y) && handled[x] == Delete(id)
  {
    ChannelsAreFifo(run, steps, k);
    RoutingIs(run, steps, k, id);
    RemembersMessages(run, steps, k, id);
    var handled := Handled(run, steps, k);
    StoredAfter(handled, id);
    var y :| InitializedAt(handled, id, y);
    if Delete(id) !in run[k].toRouter {
      assert Delete(id) in handled;
      var x :| 0 <= x < |handled| && handled[x] == Delete(id);
      assert x < y;
    }
  }

  /** Some step sent the id's Initialize, and none after it a Delete. */
  ghost predicate InitializedLast(run: seq<State>, steps: seq<Step>, k: nat, id: Id)
    requires |run| == |steps| + 1 && k <= |steps|
  {
    exists j :: SentLast(run, steps, k, id, j)
  }

  ghost predicate SentLast(run: seq<State>, steps: seq<Step>, k: nat, id: Id, j: int)
    requires |run| == |steps| + 1 && k <= |steps|
  {
    && 0 <= j < k && SentBy(run[j], steps[j]) == [Initialize(id)]
    && forall x :: j < x < k ==> SentBy(run[x], steps[x]) != [Delete(id)]
  }

  lemma StoredOne(messages: seq<ToRouter>, sent: seq<ToRouter>, id: Id)
    requires |sent| <= 1
    ensures Stored(messages + sent, id) <==>
            sent == [Initialize(id)] || (sent != [Delete(id)] && Stored(messages, id))
  {
    if sent == [] {
      assert messages + sent == messages;
    } else {
      assert sent == [sent[0]];
      StoredMore(messages, sent[0], id);
    }
  }

  lemma {:induction false} StoredIff(run: seq<State>, steps: seq<Step>, k: nat, id: Id)
    requires |run| == |steps| + 1 && k <= |steps|
    ensures Stored(Sent(run, steps, k), id) <==> InitializedLast(run, steps, k, id)
  {
    if k > 0 {
      StoredIff(run, steps, k - 1, id);
      LastSentMore(run, steps, k, id);
      StoredOne(Sent(run, steps, k - 1), SentBy(run[k - 1], steps[k - 1]), id);
    }
  }

  lemma LastSentMore(run: seq<State>, steps: seq<Step>, k: nat, id: Id)
    requires |run| == |steps| + 1 && 0 < k <= |steps|
    ensures var sent := SentBy(run[k - 1], steps[k - 1]);
            InitializedLast(run, steps, k, id) <==>
              sent == [Initialize(id)] || (sent != [Delete(id)] && InitializedLast(run, steps, k - 1, id))
  {
    var i := k - 1;
    var sent := SentBy(run[i], steps[i]);
    if sent == [Initialize(id)] {
      assert SentLast(run, steps, k, id, i);
    }
    if InitializedLast(run, steps, i, id) && sent != [Delete(id)] {
      var j :| SentLast(run, steps, i, id, j);
      assert SentLast(run, steps, k, id, j);
    }
    if InitializedLast(run, steps, k, id) {
      var j :| SentLast(run, steps, k, id, j);
      if j < i { assert SentLast(run, steps, i, id, j); }
    }
  }

  /** With nothing on its way to it, the router holds a session's data iff no Delete was sent after an Initialize. */
  lemma DrainedRoutingIff(run: seq<State>, steps: seq<Step>, k: nat, id: Id)
    requires AnyRun(run, steps) && k < |run| && run[k].toRouter == []
    ensures id in run[k].routing <==> InitializedLast(run, steps, k, id)
  {
    ChannelsAreFifo(run, steps, k);
    assert Sent(run, steps, k) == Handled(run, steps, k);
    RoutingIs(run, steps, k, id);
    StoredIff(run, steps, k, id);
  }

  /** A deleted session is forgotten once the channel has drained, when no Initialize was sent after its Delete. */
  lemma DeletedIsForgotten(run: seq<State>, steps: seq<Step>, k: nat, id: Id)
    requires AnyRun(run, steps) && k < |run| && run[k].toRouter == [] && id in run[k].deleteSent
    requires forall j :: 0 <= j < k && SentBy(run[j], steps[j]) == [Initialize(id)] ==> id !in run[j].deleteSent
    ensures id !in run[k].routing
  {
    DrainedRoutingIff(run, steps, k, id);
    if j :| SentLast(run, steps, k, id, j) {
      NoDeleteAfter(run, steps, j, k, id);
    }
  }

  lemma {:induction false} NoDeleteAfter(run: seq<State>, steps: seq<Step>, j: nat, k: nat, id: Id)
    requires AnyRun(run, steps) && j < k < |run| && SentLast(run, steps, k, id, j) && id !in run[j].deleteSent
    ensures id !in run[k].deleteSent
    decreases k
  {
    var i := k - 1;
    assert Next(run[i], run[i + 1], steps[i]);
    RememberedStep(run[i], run[k], steps[i], id);
    if j < i {
      assert SentLast(run, steps, i, id, j);
      NoDeleteAfter(run, steps, j, i, id);
    }
  }

  /** Object 0 is being deleted, its kick sent, while its creator has sent nothing. */
  function KickedEarly(id: Id): State {
    Inserting(id).(entries := [Entry(id, DeleteAt(DeleteBegun(L.NEW_SESSION), L.Kicked), false)],
                   toRouter := [KickClient(id)])
  }

  lemma ReachKickedEarly(id: Id)
    ensures Empty(Nothing()) && Reaches(AllRules, Nothing(), KickedEarly(id))
  {
    ReachInserting(AllRules, id);
    var s1 := Operated(Inserting(id), 0, L.BeginDelete(1), DeleteBegun(L.NEW_SESSION));
    ReachOperated(AllRules, Nothing(), Inserting(id), 0, L.BeginDelete(1), DeleteBegun(L.NEW_SESSION));
    ReachKick(AllRules, Nothing(), s1, 0, L.NEW_SESSION);
    var kicked := s1.entries[0].(session := DeleteAt(DeleteBegun(L.NEW_SESSION), L.Kicked));
    assert s1.(entries := s1.entries[0 := kicked], toRouter := s1.toRouter + [KickClient(id)]) == KickedEarly(id);
  }

  /** Its Delete is sent too. */
  function DeletedEarly(id: Id): State {
    Inserting(id).(entries := [Entry(id, DeleteAt(DeleteBegun(L.NEW_SESSION), L.Released), false)],
                   toRouter := [KickClient(id), Delete(id)], deleteSent := {id})
  }

  lemma ReachDeletedEarly(id: Id)
    ensures Empty(Nothing()) && Reaches(AllRules, Nothing(), DeletedEarly(id))
  {
    ReachKickedEarly(id);
    var released := DeleteAt(DeleteBegun(L.NEW_SESSION), L.Released);
    ReachOperated(AllRules, Nothing(), KickedEarly(id), 0, L.Release(L.OnThread), released);
    assert Operated(KickedEarly(id), 0, L.Release(L.OnThread), released) == DeletedEarly(id);
  }

  /** The router works off a kick that finds no client, a Delete and an Initialize. */
  lemma ReachStored(s0: State, s: State, id: Id)
    requires Reaches(AllRules, s0, s) && s.toRouter == [KickClient(id), Delete(id), Initialize(id)]
    requires s.kicking == None && id !in s.tracked && s.routing == {}
    ensures Reaches(AllRules, s0, s.(toRouter := [], toService := s.toService + [Acknowledge(id)], routing := {id}))
  {
    var s1 := s.(toRouter := [Delete(id), Initialize(id)]);
    Reach(AllRules, s0, s, s1, RouterHandles);
    var s2 := s1.(toRouter := [Initialize(id)]);
    Reach(AllRules, s0, s1, s2, RouterHandles);
    Reach(AllRules, s0, s2, s2.(toRouter := [], toService := s.toService + [Acknowledge(id)], routing := {id}),
          RouterHandles);
  }

  /** A delete accepted before the creation has sent its Initialize: the routing data comes after, and stays. */
  lemma EarlyDeleteLeavesRouting(id: Id) returns (s: State)
    ensures Empty(Nothing()) && Reaches(AllRules, Nothing(), s) && Drained(s)
    ensures |s.entries| == 1 && id in s.deleteSent && id in s.routing
  {
    ReachDeletedEarly(id);
    var s1 := DeletedEarly(id).(toRouter := [KickClient(id), Delete(id), Initialize(id)],
                                creators := map[0 := Awaiting(0)]);
    Reach(AllRules, Nothing(), DeletedEarly(id), s1, CreateSendInitialize(0));
    ReachStored(Nothing(), s1, id);
    var s2 := s1.(toRouter := [], toService := s1.toService + [Acknowledge(id)], routing := {id});
    s := s2.(toService := [], acknowledged := {id});
    Reach(AllRules, Nothing(), s2, s, ServiceHandles);
  }

  // ---------------------------------------------------------------------------------------------
  // Clients.

  predicate Flags(s: State, step: Step, c: nat) {
    step == ClientLeaves(c) || (step.RouterKicks? && s.kicking == Some(c))
  }

  /** A client is flagged if and only if it left or a kick found it. */
  lemma {:induction false} FlaggedIs(run: seq<State>, steps: seq<Step>, k: nat, c: nat)
    requires AnyRun(run, steps) && k < |run| && c < |run[k].clients|
    ensures run[k].clients[c].flagged <==>
              exists j :: 0 <= j < k && Flags(run[j], steps[j], c)
  {
    if k > 0 {
      var j := k - 1;
      assert Next(run[j], run[j + 1], steps[j]);
      if c < |run[j].clients| {
        FlaggedIs(run, steps, j, c);
      } else {
        NotThereBefore(run, steps, j, c);
      }
    }
  }

  lemma {:induction false} NotThereBefore(run: seq<State>, steps: seq<Step>, k: nat, c: nat)
    requires AnyRun(run, steps) && k < |run| && |run[k].clients| <= c
    ensures forall j :: 0 <= j < k ==> !Flags(run[j], steps[j], c)
  {
    if k > 0 {
      var j := k - 1;
      assert Next(run[j], run[j + 1], steps[j]);
      NotThereBefore(run, steps, j, c);
    }
  }

  /** The client last accepted under the id, and not untracked since. */
  function LastClient(run: seq<State>, steps: seq<Step>, k: nat, id: Id): Option<nat>
    requires |run| == |steps| + 1 && k <= |steps|
  {
    if k == 0 then None
    else if steps[k - 1] == RouterAccepts(id) then Some(|run[k - 1].clients|)
    else if steps[k - 1] == RouterUntracks(id) then None
    else LastClient(run, steps, k - 1, id)
  }

  function ClientAt(s: State, id: Id): Option<nat> {
    if id in s.tracked then Some(s.tracked[id]) else None
  }

  lemma TrackedStep(s: State, s': State, step: Step, id: Id)
    requires Next(s, s', step)
    ensures ClientAt(s', id)
         == if step == RouterAccepts(id) then Some(|s.clients|)
            else if step == RouterUntracks(id) then None
            else ClientAt(s, id)
  {
  }

  lemma {:induction false} TrackedIs(run: seq<State>, steps: seq<Step>, k: nat, id: Id)
    requires AnyRun(run, steps) && k < |run|
    ensures ClientAt(run[k], id) == LastClient(run, steps, k, id)
  {
    if k > 0 {
      var j := k - 1;
      TrackedIs(run, steps, j, id);
      assert Next(run[j], run[j + 1], steps[j]);
      TrackedStep(run[j], run[k], steps[j], id);
    }
  }

  /** The creation of an object of the id has failed. */
  predicate FailsCreate(s: State, step: Step, id: Id) {
    && (step.CreateTimesOut? || step.CreateRefused?) && step.t in s.creators
    && EntryAt(s, s.creators[step.t].n, id)
  }

  /** The object last inserted under the id, unless its creation has failed since. */
  function LastInserted(run: seq<State>, steps: seq<Step>, k: nat, id: Id): Option<nat>
    requires |run| == |steps| + 1 && k <= |steps|
  {
    if k == 0 then None
    else if steps[k - 1].CreateInsert? && steps[k - 1].id == id then Some(|run[k - 1].entries|)
    else if FailsCreate(run[k - 1], steps[k - 1], id) then None
    else LastInserted(run, steps, k - 1, id)
  }

  function ObjectAt(s: State, id: Id): Option<nat> {
    if id in s.sessions then Some(s.sessions[id]) else None
  }

  lemma TableStep(s: State, s': State, step: Step, id: Id)
    requires Next(s, s', step)
    ensures ObjectAt(s', id)
         == if step.CreateInsert? && step.id == id then Some(|s.entries|)
            else if FailsCreate(s, step, id) then None
            else ObjectAt(s, id)
  {
  }

  /** The session table holds the object last created under an id, as long as its creation has not failed. */
  lemma {:induction false} TableIs(run: seq<State>, steps: seq<Step>, k: nat, id: Id)
    requires AnyRun(run, steps) && k < |run|
    ensures ObjectAt(run[k], id) == LastInserted(run, steps, k, id)
  {
    if k > 0 {
      var j := k - 1;
      TableIs(run, steps, j, id);
      assert Next(run[j], run[j + 1], steps[j]);
      TableStep(run[j], run[k], steps[j], id);
    }
  }
}
