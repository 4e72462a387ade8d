/**
 Envelopes for a client that may not have connected yet (RouteMessage.cc, sendToLocalClient; PeerManager.cc,
 trackClient and stashEnvelope), on the entry node of one session, with any number of sending threads.
 */
module ClientStash {
  import opened Common

  datatype Envelope = Envelope(sender: nat, serial: nat)

  /** A sender between looking the client up and handing its envelope over. */
  datatype Sender = Found(client: nat, envelope: Envelope) | Missing(envelope: Envelope)

  /**
   `queues` holds, per client endpoint ever tracked, every envelope queued to it, sent or not; `tracked` is
   the client endpoint in the table, `pending` the stash.  `log` records the hand-overs in the order made.
   */
  datatype State = State(
    queues: seq<seq<Envelope>>, tracked: Option<nat>, pending: seq<Envelope>,
    senders: map<nat, Sender>, sent: map<nat, nat>, log: seq<Envelope>)

  datatype Step =
    | Lookup(t: nat)
    | HandOver(t: nat)
    | Track
    | Untrack
    | Clear

  function SentBy(s: State, t: nat): nat {
    if t in s.sent then s.sent[t] else 0
  }

  predicate Init(s: State) {
    s.queues == [] && s.tracked == None && s.pending == [] && s.senders == map[] && s.sent == map[] && s.log == []
  }

  function Queued(s: State, client: nat, envelope: Envelope): State
    requires client < |s.queues|
  {
    s.(queues := s.queues[client := s.queues[client] + [envelope]])
  }

  /** A sender that found the client queues to it; one that did not looks again under the lock, and stashes. */
  function HandedOver(s: State, sender: Sender): State
    requires sender.Found? ==> sender.client < |s.queues|
    requires s.tracked.Some? ==> s.tracked.value < |s.queues|
  {
    match sender
    case Found(client, envelope) => Queued(s, client, envelope)
    case Missing(envelope) =>
      if s.tracked.Some? then Queued(s, s.tracked.value, envelope) else s.(pending := s.pending + [envelope])
  }

  ghost predicate Next(s: State, s': State, step: Step) {
    match step
    case Lookup(t) =>
      && t !in s.senders
      && var envelope := Envelope(t, SentBy(s, t));
         var sender := if s.tracked.Some? then Found(s.tracked.value, envelope) else Missing(envelope);
         s' == s.(senders := s.senders[t := sender], sent := s.sent[t := SentBy(s, t) + 1])
    case HandOver(t) =>
      && t in s.senders
      && (s.senders[t].Found? ==> s.senders[t].client < |s.queues|)
      && (s.tracked.Some? ==> s.tracked.value < |s.queues|)
      && s' == HandedOver(s, s.senders[t]).(senders := s.senders - {t}, log := s.log + [s.senders[t].envelope])
    case Track =>
      // the stash is delivered, and kept
      s.tracked == None && s' == s.(queues := s.queues + [s.pending], tracked := Some(|s.queues|))
    case Untrack => s.tracked.Some? && s' == s.(tracked := None)
    // a kick that found no client clears the stash, whether or not one has come since
    case Clear => s' == s.(pending := [])
  }

  ghost predicate Run(run: seq<State>, steps: seq<Step>) {
    && |run| == |steps| + 1 && Init(run[0])
    && forall i :: 0 <= i < |steps| ==> Next(run[i], run[i + 1], steps[i])
  }

  /** No kick and no departure: the first client stays, and the stash is not cleared before it comes. */
  ghost predicate FirstClientRun(run: seq<State>, steps: seq<Step>) {
    Run(run, steps) && forall i :: 0 <= i < |steps| ==> !steps[i].Untrack? && !steps[i].Clear?
  }

  ghost predicate FirstClient(s: State) {
    && (s.tracked == None ==> s.queues == [] && s.pending == s.log)
    && (s.tracked.Some? ==> s.tracked == Some(0) && |s.queues| == 1 && s.queues[0] == s.log)
    && forall t :: t in s.senders && s.senders[t].Found? ==> s.tracked.Some? && s.senders[t].client == 0
  }

  /** The serial numbers sender `t` has handed over, in the order they appear. */
  function Serials(envelopes: seq<Envelope>, t: nat): seq<nat> {
    if envelopes == [] then []
    else
      var last := envelopes[|envelopes| - 1];
      Serials(envelopes[..|envelopes| - 1], t) + if last.sender == t then [last.serial] else []
  }

  function UpTo(n: nat): seq<nat> {
    seq(n, i => i)
  }

  /** Each sender's envelopes are logged once each and in order; the one in its hand is the next. */
  ghost predicate InOrder(s: State, t: nat) {
    if t in s.senders then
      && SentBy(s, t) > 0 && s.senders[t].envelope == Envelope(t, SentBy(s, t) - 1)
      && Serials(s.log, t) == UpTo(SentBy(s, t) - 1)
    else Serials(s.log, t) == UpTo(SentBy(s, t))
  }

  lemma FirstClientKept(s: State, s': State, step: Step)
    requires FirstClient(s) && Next(s, s', step) && !step.Untrack? && !step.Clear?
    ensures FirstClient(s')
  {
  }

  lemma InOrderKept(s: State, s': State, step: Step, t: nat)
    requires InOrder(s, t) && Next(s, s', step)
    requires step.HandOver? && step.t in s.senders ==> InOrder(s, step.t)
    ensures InOrder(s', t)
  {
    if step.HandOver? {
      assert s'.log[..|s.log|] == s.log;
      if step.t == t { assert UpTo(SentBy(s, t)) == UpTo(SentBy(s, t) - 1) + [SentBy(s, t) - 1]; }
    }
  }

  lemma {:induction false} OrderKept(run: seq<State>, steps: seq<Step>, k: nat)
    requires Run(run, steps) && k < |run|
    ensures forall t :: InOrder(run[k], t)
  {
    if k > 0 {
      OrderKept(run, steps, k - 1);
      forall t ensures InOrder(run[k], t) {
        InOrderKept(run[k - 1], run[k], steps[k - 1], t);
      }
    }
  }

  lemma {:induction false} FirstClientRunKeeps(run: seq<State>, steps: seq<Step>, k: nat)
    requires FirstClientRun(run, steps) && k < |run|
    ensures FirstClient(run[k])
  {
    if k > 0 {
      FirstClientRunKeeps(run, steps, k - 1);
      FirstClientKept(run[k - 1], run[k], steps[k - 1]);
    }
  }

  /**
   The first client's queue holds every envelope handed over so far exactly once, before and after it
   connected alike, each sender's envelopes in the order it sent them with only the one in hand missing.
   */
  lemma FirstClientGetsEverything(run: seq<State>, steps: seq<Step>, k: nat, t: nat)
    requires FirstClientRun(run, steps) && k < |run| && run[k].tracked.Some?
    ensures var s := run[k];
            && s.tracked == Some(0) && |s.queues| == 1
            && s.queues[0] == s.log
            && (t in s.senders && SentBy(s, t) > 0 ==> Serials(s.queues[0], t) == UpTo(SentBy(s, t) - 1))
            && (t !in s.senders || SentBy(s, t) == 0 ==> Serials(s.queues[0], t) == UpTo(SentBy(s, t)))
  {
    FirstClientRunKeeps(run, steps, k);
    OrderKept(run, steps, k);
    assert InOrder(run[k], t);
  }

  /** Until then everything waits in the stash, in the same order. */
  lemma StashHoldsEverything(run: seq<State>, steps: seq<Step>, k: nat)
    requires FirstClientRun(run, steps) && k < |run| && run[k].tracked == None
    ensures run[k].pending == run[k].log && run[k].queues == []
  {
    FirstClientRunKeeps(run, steps, k);
  }

  /** Every client, first or later, starts with the whole stash, which only clearing it takes away. */
  ghost predicate StashReplayed(s: State) {
    s.tracked.Some? ==> s.tracked.value < |s.queues| && s.pending <= s.queues[s.tracked.value]
  }

  lemma {:induction false} LaterClientsSeeTheStash(run: seq<State>, steps: seq<Step>, k: nat)
    requires Run(run, steps) && k < |run|
    ensures StashReplayed(run[k])
    ensures k > 0 && !steps[k - 1].Clear? ==> run[k - 1].pending <= run[k].pending
  {
    if k > 0 {
      LaterClientsSeeTheStash(run, steps, k - 1);
      assert Next(run[k - 1], run[k], steps[k - 1]);
    }
  }

  // ---------------------------------------------------------------------------------------------
  // Which envelopes two clients of the session both receive.

  lemma {:induction false} SerialsListed(envelopes: seq<Envelope>, e: Envelope)
    ensures e in envelopes ==> e.serial in Serials(envelopes, e.sender)
  {
    if envelopes != [] && e in envelopes {
      var last := |envelopes| - 1;
      if envelopes[last] != e {
        assert e in envelopes[..last];
        SerialsListed(envelopes[..last], e);
      }
    }
  }

  /** What was stashed or queued was handed over before. */
  ghost predicate Logged(s: State) {
    && (s.tracked.Some? ==> s.tracked.value < |s.queues|)
    && (forall e :: e in s.pending ==> e in s.log)
    && (forall a, e :: 0 <= a < |s.queues| && e in s.queues[a] ==> e in s.log)
  }

  lemma LoggedKept(s: State, s': State, step: Step)
    requires Logged(s) && Next(s, s', step)
    ensures Logged(s')
  {
    if step.HandOver? { assert forall e :: e in s.log ==> e in s'.log; }
  }

  lemma {:induction false} LoggedRun(run: seq<State>, steps: seq<Step>, k: nat)
    requires Run(run, steps) && k < |run|
    ensures Logged(run[k])
  {
    if k > 0 {
      LoggedRun(run, steps, k - 1);
      LoggedKept(run[k - 1], run[k], steps[k - 1]);
    }
  }

  /** The envelope in a sender's hand is nowhere yet. */
  lemma InHandIsNew(s: State, t: nat)
    requires Logged(s) && InOrder(s, t) && t in s.senders
    ensures s.senders[t].envelope !in s.pending
    ensures forall a :: 0 <= a < |s.queues| ==> s.senders[t].envelope !in s.queues[a]
  {
    SerialsListed(s.log, s.senders[t].envelope);
  }

  /**
   Client `c` was tracked with the stash `stash`.  What else it was sent is in no later client's queue, nor in
   the stash; and until a later client is tracked, or the stash cleared, the stash still holds what it had.
   */
  ghost predicate Apart(s: State, c: nat, stash: seq<Envelope>) {
    && c < |s.queues| && stash <= s.queues[c]
    && (forall e :: e in s.queues[c] && e !in stash ==> e !in s.pending)
    && (forall e, b :: c < b < |s.queues| && e in s.queues[b] && e in s.queues[c] ==> e in stash)
  }

  lemma HandOverApart(s: State, s': State, t: nat, c: nat, stash: seq<Envelope>)
    requires Apart(s, c, stash) && Logged(s) && InOrder(s, t) && Next(s, s', HandOver(t))
    ensures Apart(s', c, stash)
  {
    var sent := s.senders[t].envelope;
    InHandIsNew(s, t);
    assert sent !in stash;
    forall e, b | c < b < |s'.queues| && e in s'.queues[b] && e in s'.queues[c] ensures e in stash {
      if e != sent { assert e in s.queues[b] && e in s.queues[c]; }
    }
  }

  lemma ApartKept(s: State, s': State, step: Step, c: nat, stash: seq<Envelope>)
    requires Apart(s, c, stash) && Logged(s) && (forall t :: InOrder(s, t)) && Next(s, s', step)
    ensures Apart(s', c, stash)
  {
    if step.HandOver? { HandOverApart(s, s', step.t, c, stash); }
  }

  lemma {:induction false} ApartFrom(run: seq<State>, steps: seq<Step>, i: nat, k: nat)
    requires Run(run, steps) && i < k < |run| && steps[i].Track?
    ensures Apart(run[k], |run[i].queues|, run[i].pending)
    decreases k
  {
    var before := k - 1;
    assert Next(run[before], run[before + 1], steps[before]);
    if i < before {
      ApartFrom(run, steps, i, before);
      LoggedRun(run, steps, before);
      OrderKept(run, steps, before);
      ApartKept(run[before], run[k], steps[before], |run[i].queues|, run[i].pending);
    }
  }

  /** Queues are only added to, and the stash too unless it is cleared. */
  lemma {:induction false} NothingTaken(run: seq<State>, steps: seq<Step>, i: nat, k: nat)
    requires Run(run, steps) && i <= k < |run|
    ensures |run[i].queues| <= |run[k].queues|
    ensures forall a :: 0 <= a < |run[i].queues| ==> run[i].queues[a] <= run[k].queues[a]
    ensures (forall j :: i <= j < k ==> !steps[j].Clear?) ==> run[i].pending <= run[k].pending
    decreases k
  {
    if i < k {
      var before := k - 1;
      NothingTaken(run, steps, i, before);
      assert Next(run[before], run[before + 1], steps[before]);
    }
  }

  /** Neither stashed any more, nor queued to client `c` or a later one. */
  ghost predicate Cleared(s: State, e: Envelope, c: nat) {
    && e in s.log && e !in s.pending && c <= |s.queues|
    && forall b :: c <= b < |s.queues| ==> e !in s.queues[b]
  }

  lemma ClearedKept(s: State, s': State, step: Step, e: Envelope, c: nat)
    requires Cleared(s, e, c) && (forall t :: InOrder(s, t)) && Next(s, s', step)
    ensures Cleared(s', e, c)
  {
    if step.HandOver? {
      assert InOrder(s, step.t);
      SerialsListed(s.log, s.senders[step.t].envelope);
      assert s.senders[step.t].envelope != e;
    }
  }

  /** A clear makes the stash's envelopes unseen by every client tracked after it. */
  lemma {:induction false} ClearedFrom(run: seq<State>, steps: seq<Step>, x: nat, k: nat, e: Envelope)
    requires Run(run, steps) && x < k < |run| && steps[x].Clear? && e in run[x].log
    ensures Cleared(run[k], e, |run[x].queues|)
    decreases k
  {
    var before := k - 1;
    assert Next(run[before], run[before + 1], steps[before]);
    if x < before {
      ClearedFrom(run, steps, x, before, e);
      OrderKept(run, steps, before);
      ClearedKept(run[before], run[k], steps[before], e, |run[x].queues|);
    }
  }

  /** What was stashed was logged, and stays so. */
  lemma {:induction false} LogGrows(run: seq<State>, steps: seq<Step>, i: nat, k: nat)
    requires Run(run, steps) && i <= k < |run|
    ensures run[i].log <= run[k].log
    decreases k
  {
    if i < k {
      LogGrows(run, steps, i, k - 1);
      assert Next(run[k - 1], run[k - 1 + 1], steps[k - 1]);
    }
  }

  ghost predicate NoClear(steps: seq<Step>, i: nat, j: nat)
    requires j <= |steps|
  {
    forall x :: i < x < j ==> !steps[x].Clear?
  }

  /**
   Of two clients of a session, tracked one after the other, both receive an envelope if and only if it was in
   the stash when the first of them was tracked, and the stash was not cleared before the second was.
   */
  lemma BothReceiveIff(run: seq<State>, steps: seq<Step>, i: nat, j: nat, k: nat, e: Envelope)
    requires Run(run, steps) && i < j < k < |run| && steps[i].Track? && steps[j].Track?
    ensures var (c, d) := (|run[i].queues|, |run[j].queues|);
            && c < d < |run[k].queues|
            && (e in run[k].queues[c] && e in run[k].queues[d] <==> e in run[i].pending && NoClear(steps, i, j))
  {
    var (c, d) := (|run[i].queues|, |run[j].queues|);
    assert Next(run[i], run[i + 1], steps[i]) && Next(run[j], run[j + 1], steps[j]);
    NothingTaken(run, steps, i + 1, j);
    NothingTaken(run, steps, i + 1, k);
    NothingTaken(run, steps, j + 1, k);
    ApartFrom(run, steps, i, k);
    if e in run[i].pending {
      if NoClear(steps, i, j) {
        assert e in run[i + 1].queues[c] && run[i + 1].queues[c] <= run[k].queues[c];
        assert e in run[j + 1].queues[d] && run[j + 1].queues[d] <= run[k].queues[d];
      } else {
        NeverAfterClear(run, steps, i, j, k, e);
      }
    }
  }

  lemma NeverAfterClear(run: seq<State>, steps: seq<Step>, i: nat, j: nat, k: nat, e: Envelope)
    requires Run(run, steps) && i < j < k < |run| && e in run[i].pending && !NoClear(steps, i, j)
    ensures |run[j].queues| < |run[k].queues| ==> e !in run[k].queues[|run[j].queues|]
  {
    var x :| i < x < j && steps[x].Clear?;
    LoggedRun(run, steps, i);
    LogGrows(run, steps, i, x);
    NothingTaken(run, steps, x, j);
    ClearedFrom(run, steps, x, k, e);
  }

  /** Once a client has come and gone, the next is sent the same envelope again. */
  lemma SentTwice() returns (run: seq<State>, steps: seq<Step>)
    ensures Run(run, steps) && run[|steps|].log == [Envelope(0, 0)]
    ensures run[|steps|].queues == [[Envelope(0, 0)], [Envelope(0, 0)]]
  {
    var e := Envelope(0, 0);
    var s0 := State([], None, [], map[], map[], []);
    var s1 := s0.(senders := map[0 := Missing(e)], sent := map[0 := 1]);
    var s2 := s0.(pending := [e], sent := map[0 := 1], log := [e]);
    var s3 := s2.(queues := [[e]], tracked := Some(0));
    var s4 := s3.(tracked := None);
    var s5 := s4.(queues := [[e], [e]], tracked := Some(1));
    run, steps := [s0, s1, s2, s3, s4, s5], [Lookup(0), HandOver(0), Track, Untrack, Track];
    assert Next(s0, s1, Lookup(0));
    assert s1.senders - {0} == map[];
    assert Next(s1, s2, HandOver(0));
    assert Next(s2, s3, Track) && Next(s3, s4, Untrack) && Next(s4, s5, Track);
  }

  // ---------------------------------------------------------------------------------------------
  // Where every envelope goes, read off the steps taken.

  /** The step in which sender `t` last looked the client up before step `j`. */
  function LookedUp(steps: seq<Step>, t: nat, j: nat): (x: Option<nat>)
    requires j <= |steps|
    ensures x.Some? ==> x.value < j && steps[x.value] == Lookup(t)
  {
    if j == 0 then None else if steps[j - 1] == Lookup(t) then Some(j - 1) else LookedUp(steps, t, j - 1)
  }

  /** How often it has looked the client up: its envelopes are numbered by that. */
  function Lookups(steps: seq<Step>, t: nat, j: nat): nat
    requires j <= |steps|
  {
    if j == 0 then 0 else Lookups(steps, t, j - 1) + if steps[j - 1] == Lookup(t) then 1 else 0
  }

  /** The envelope a hand-over of sender `t` at step `j` is about. */
  function HandedEnvelope(steps: seq<Step>, t: nat, j: nat): Envelope
    requires j <= |steps|
  {
    Envelope(t, if Lookups(steps, t, j) > 0 then Lookups(steps, t, j) - 1 else 0)
  }

  /** The client it is for: the one there when the sender looked, else the one there now, else none. */
  function Addressee(run: seq<State>, steps: seq<Step>, t: nat, j: nat): Option<nat>
    requires |run| == |steps| + 1 && j <= |steps|
  {
    var x := LookedUp(steps, t, j);
    if x.Some? && run[x.value].tracked.Some? then run[x.value].tracked else run[j].tracked
  }

  /** What steps `i` up to `k` hand over to client `c`, in order. */
  function SentTo(run: seq<State>, steps: seq<Step>, c: nat, i: nat, k: nat): seq<Envelope>
    requires |run| == |steps| + 1 && i <= k <= |steps|
    decreases k
  {
    if k == i then []
    else
      var j := k - 1;
      SentTo(run, steps, c, i, j)
        + if steps[j].HandOver? && Addressee(run, steps, steps[j].t, j) == Some(c) then
            [HandedEnvelope(steps, steps[j].t, j)]
          else []
  }

  /** What the first `k` steps stash and do not clear. */
  function LeftInStash(run: seq<State>, steps: seq<Step>, k: nat): seq<Envelope>
    requires |run| == |steps| + 1 && k <= |steps|
  {
    if k == 0 then []
    else
      var (before, j) := (LeftInStash(run, steps, k - 1), k - 1);
      match steps[j]
      case Clear => []
      case HandOver(t) => if Addressee(run, steps, t, j) == None then before + [HandedEnvelope(steps, t, j)] else before
      case _ => before
  }

  /** The client last tracked and not untracked since. */
  function LastTracked(run: seq<State>, steps: seq<Step>, k: nat): Option<nat>
    requires |run| == |steps| + 1 && k <= |steps|
  {
    if k == 0 then None
    else
      match steps[k - 1]
      case Track => Some(|run[k - 1].queues|)
      case Untrack => None
      case _ => LastTracked(run, steps, k - 1)
  }

  lemma {:induction false} TrackedIs(run: seq<State>, steps: seq<Step>, k: nat)
    requires Run(run, steps) && k < |run|
    ensures run[k].tracked == LastTracked(run, steps, k)
  {
    if k > 0 {
      TrackedIs(run, steps, k - 1);
      assert Next(run[k - 1], run[k - 1 + 1], steps[k - 1]);
    }
  }

  /** What a sender holds is what it last looked up. */
  ghost predicate Holding(run: seq<State>, steps: seq<Step>, k: nat, t: nat)
    requires |run| == |steps| + 1 && k <= |steps|
  {
    && SentBy(run[k], t) == Lookups(steps, t, k)
    && (t in run[k].senders ==>
          var x := LookedUp(steps, t, k);
          && x.Some? && Lookups(steps, t, k) > 0
          && run[k].senders[t] == if run[x.value].tracked.Some?
                                  then Found(run[x.value].tracked.value, HandedEnvelope(steps, t, k))
                                  else Missing(HandedEnvelope(steps, t, k)))
  }

  lemma {:induction false} SendersHold(run: seq<State>, steps: seq<Step>, k: nat, t: nat)
    requires Run(run, steps) && k < |run|
    ensures Holding(run, steps, k, t)
  {
    if k > 0 {
      SendersHold(run, steps, k - 1, t);
      assert Next(run[k - 1], run[k - 1 + 1], steps[k - 1]);
    }
  }

  /** One hand-over, by the steps: it reaches its addressee's queue, or the stash, and nothing else. */
  lemma HandOverArrives(run: seq<State>, steps: seq<Step>, j: nat, t: nat)
    requires Run(run, steps) && j < |steps| && steps[j] == HandOver(t)
    ensures var (s, s', e) := (run[j], run[j + 1], HandedEnvelope(steps, t, j));
            && s'.log == s.log + [e] && s'.tracked == s.tracked
            && match Addressee(run, steps, t, j)
               case Some(c) =>
                 c < |s.queues| && s'.queues == s.queues[c := s.queues[c] + [e]] && s'.pending == s.pending
               case None => s'.queues == s.queues && s'.pending == s.pending + [e]
  {
    SendersHold(run, steps, j, t);
    assert Next(run[j], run[j + 1], steps[j]);
  }

  lemma QueueStep(run: seq<State>, steps: seq<Step>, j: nat, c: nat)
    requires Run(run, steps) && j < |steps| && c < |run[j].queues|
    ensures c < |run[j + 1].queues|
    ensures run[j + 1].queues[c]
         == run[j].queues[c]
          + if steps[j].HandOver? && Addressee(run, steps, steps[j].t, j) == Some(c) then
              [HandedEnvelope(steps, steps[j].t, j)]
            else []
  {
    assert Next(run[j], run[j + 1], steps[j]);
    if steps[j].HandOver? { HandOverArrives(run, steps, j, steps[j].t); }
  }

  /**
   Every client, first or later: its queue is the stash as it was when it was tracked, then what was handed
   over to it since, in order, by senders that found it and by senders that missed and found it after all.
   */
  lemma {:induction false} QueueIs(run: seq<State>, steps: seq<Step>, i: nat, k: nat)
    requires Run(run, steps) && i < k < |run| && steps[i].Track?
    ensures var c := |run[i].queues|;
            c < |run[k].queues| && run[k].queues[c] == run[i].pending + SentTo(run, steps, c, i + 1, k)
    decreases k
  {
    var (c, j) := (|run[i].queues|, k - 1);
    assert Next(run[j], run[j + 1], steps[j]);
    if i < j {
      QueueIs(run, steps, i, j);
      QueueStep(run, steps, j, c);
    }
  }

  /** The stash is what was handed over with no client to be found, since it was last cleared. */
  lemma {:induction false} StashIs(run: seq<State>, steps: seq<Step>, k: nat)
    requires Run(run, steps) && k < |run|
    ensures run[k].pending == LeftInStash(run, steps, k)
  {
    if k > 0 {
      var j := k - 1;
      StashIs(run, steps, j);
      assert Next(run[j], run[j + 1], steps[j]);
      if steps[j].HandOver? { HandOverArrives(run, steps, j, steps[j].t); }
    }
  }

  /** It was in the stash when that was cleared. */
  ghost predicate ClearedAway(run: seq<State>, steps: seq<Step>, k: nat, e: Envelope)
    requires |run| == |steps| + 1 && k <= |steps|
  {
    exists x :: 0 <= x < k && steps[x].Clear? && e in run[x].pending
  }

  ghost predicate InSomeQueue(s: State, e: Envelope) {
    exists c :: 0 <= c < |s.queues| && e in s.queues[c]
  }

  /** No hand-over is lost: every envelope is in some client's queue, in the stash, or was cleared with it. */
  lemma {:induction false} NothingVanishes(run: seq<State>, steps: seq<Step>, k: nat, e: Envelope)
    requires Run(run, steps) && k < |run| && e in run[k].log
    ensures InSomeQueue(run[k], e) || e in run[k].pending || ClearedAway(run, steps, k, e)
  {
    var j := k - 1;
    assert Next(run[j], run[j + 1], steps[j]);
    if steps[j].HandOver? { HandOverArrives(run, steps, j, steps[j].t); }
    if e in run[j].log {
      NothingVanishes(run, steps, j, e);
      if c :| 0 <= c < |run[j].queues| && e in run[j].queues[c] {
        QueueStep(run, steps, j, c);
        assert e in run[k].queues[c];
      } else if e in run[j].pending && steps[j].Clear? {
        assert ClearedAway(run, steps, k, e);
      }
    } else {
      var to := Addressee(run, steps, steps[j].t, j);
      if to.Some? { assert e in run[k].queues[to.value]; }
    }
  }
}
