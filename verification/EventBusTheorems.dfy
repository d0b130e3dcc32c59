/** Which queues the bus keeps, and what they hold. */
module EventBusTheorems {
  import opened Options
  import opened EventBusModel

  function Doomed(gc: Collector): set<nat> { if gc.Emptied? then Ids(gc.ids) else {} }

  /** Handles and ids fit together. */
  predicate HandlesOk(s: State) {
    && (forall h: nat :: h in s.ids ==> h < s.subscriptions)
    && (forall h :: h in s.live ==> h in s.ids && s.ids[h] in s.owner && s.owner[s.ids[h]] == h)
    && (forall id :: id in s.chamber ==> id in s.owner && s.owner[id] in s.ids && s.ids[s.owner[id]] == id)
  }

  /** The chamber holds exactly the queues of live handles, of ids in `dead_ids`, of the
      collector's clone, and of missed ids; these are disjoint. */
  predicate QueuesOk(s: State) {
    && s.chamber.Keys == LiveIds(s) + Ids(s.dead) + Doomed(s.gc) + s.missed
    && LiveIds(s) !! Ids(s.dead) !! Doomed(s.gc) !! s.missed
    && (forall i, j :: 0 <= i < j < |s.dead| ==> s.dead[i] != s.dead[j])
    && (s.gc.Cloned? ==> s.gc.ids <= s.dead)
    && !s.panicked
  }

  /** What handle `h` was delivered, then what is queued for it, are the events sent since
      it subscribed. */
  predicate Complete(s: State, h: nat)
    requires h in s.ids && s.ids[h] in s.chamber
  {
    && h in s.since && s.since[h] <= |s.log| && h in s.delivered
    && s.delivered[h] + s.chamber[s.ids[h]] == s.log[s.since[h]..]
  }

  predicate EventsOk(s: State)
    requires HandlesOk(s)
  {
    forall id :: id in s.chamber ==> Complete(s, s.owner[id])
  }

  predicate Inv(s: State) { HandlesOk(s) && QueuesOk(s) && EventsOk(s) }

  lemma SubscribeLive(s: State)
    requires HandlesOk(s) && StepSubscribe(s).Some?
    ensures LiveIds(StepSubscribe(s).value) == LiveIds(s) + {s.count}
  {
    var s' := StepSubscribe(s).value;
    assert s'.ids[s.subscriptions] == s.count;
    forall id | id in LiveIds(s) ensures id in LiveIds(s') {
      var h :| h in s.live && h in s.ids && s.ids[h] == id;
      assert h in s'.live && s'.ids[h] == id;
    }
  }

  lemma SubscribeHandles(s: State)
    requires HandlesOk(s) && Reusable(s) && StepSubscribe(s).Some?
    ensures HandlesOk(StepSubscribe(s).value)
  {
    assert forall h :: h in s.live ==> s.ids[h] in LiveIds(s);
  }

  lemma SubscribeQueues(s: State)
    requires Inv(s) && Reusable(s) && StepSubscribe(s).Some?
    ensures HandlesOk(StepSubscribe(s).value) && QueuesOk(StepSubscribe(s).value)
  {
    SubscribeHandles(s);
    SubscribeLive(s);
  }

  lemma PushId(dead: seq<nat>, id: nat)
    ensures Ids(dead + [id]) == Ids(dead) + {id}
  {
    assert (dead + [id])[|dead|] == id;
    assert forall i :: 0 <= i < |dead| ==> (dead + [id])[i] == dead[i];
  }

  lemma DropQueues(s: State, h: nat)
    requires Inv(s) && Step(s, Drop(h)).Some?
    ensures HandlesOk(Step(s, Drop(h)).value) && QueuesOk(Step(s, Drop(h)).value)
  {
    var s' := Step(s, Drop(h)).value;
    PushId(s.dead, s.ids[h]);
    forall id ensures id in LiveIds(s') <==> id in LiveIds(s) && id != s.ids[h] {
      if id in LiveIds(s) && id != s.ids[h] {
        var k :| k in s.live && k in s.ids && s.ids[k] == id;
        assert k in s'.live;
      }
    }
    assert s.ids[h] in LiveIds(s);
  }

  lemma ClearQueues(s: State)
    requires QueuesOk(s) && s.gc.Cloned?
    ensures QueuesOk(Step(s, ClearDead).value)
  {
    var n := |s.gc.ids|;
    var extra := s.dead[n..];
    assert forall i :: 0 <= i < n ==> s.gc.ids[i] == s.dead[i];
    assert forall i :: 0 <= i < |extra| ==> extra[i] == s.dead[n + i];
    assert Ids(s.dead) == Ids(s.gc.ids) + Ids(extra) by {
      forall id | id in Ids(s.dead) ensures id in Ids(s.gc.ids) + Ids(extra) {
        var i :| 0 <= i < |s.dead| && s.dead[i] == id;
        if i < n { assert s.gc.ids[i] == id; } else { assert extra[i - n] == id; }
      }
    }
    assert LiveIds(Step(s, ClearDead).value) == LiveIds(s);
  }

  lemma OtherQueues(s: State, a: Action)
    requires Inv(s) && Step(s, a).Some? && (a.Send? || a.Poll? || a.CloneDead? || a.RemoveQueues?)
    ensures HandlesOk(Step(s, a).value) && QueuesOk(Step(s, a).value)
  {
    assert LiveIds(Step(s, a).value) == LiveIds(s);
    if a.Poll? {
      assert s.ids[a.handle] in LiveIds(s);
    }
  }

  lemma StepQueues(s: State, a: Action)
    requires Inv(s) && Step(s, a).Some? && (a.Subscribe? ==> Reusable(s))
    ensures HandlesOk(Step(s, a).value) && QueuesOk(Step(s, a).value)
  {
    match a
    case Subscribe => SubscribeQueues(s);
    case Drop(h) => DropQueues(s, h);
    case ClearDead => ClearQueues(s);
    case _ => OtherQueues(s, a);
  }

  lemma SubscribeEvents(s: State)
    requires Inv(s) && Reusable(s) && StepSubscribe(s).Some?
    ensures HandlesOk(StepSubscribe(s).value) && EventsOk(StepSubscribe(s).value)
  {
    SubscribeQueues(s);
    var s' := StepSubscribe(s).value;
    forall id | id in s'.chamber ensures Complete(s', s'.owner[id]) {
      if id != s.count {
        assert Complete(s, s.owner[id]);
      }
    }
  }

  lemma SendEvents(s: State, e: Event)
    requires Inv(s) && Step(s, Send(e)).Some?
    ensures HandlesOk(Step(s, Send(e)).value) && EventsOk(Step(s, Send(e)).value)
  {
    var s' := Step(s, Send(e)).value;
    forall id | id in s'.chamber ensures Complete(s', s'.owner[id]) {
      var h := s.owner[id];
      assert Complete(s, h);
      assert s'.log[s.since[h]..] == s.log[s.since[h]..] + [e];
    }
  }

  lemma PollEvents(s: State, h: nat)
    requires Inv(s) && StepPoll(s, h).Some?
    ensures HandlesOk(StepPoll(s, h).value) && EventsOk(StepPoll(s, h).value)
  {
    var s' := StepPoll(s, h).value;
    var id := s.ids[h];
    assert id in LiveIds(s);
    assert Complete(s, h);
    if s.chamber[id] != [] {
      assert s.chamber[id] == [s.chamber[id][0]] + s.chamber[id][1..];
    }
    forall k | k in s'.chamber ensures Complete(s', s'.owner[k]) {
      assert Complete(s, s.owner[k]);
      assert k != id ==> s.owner[k] != h;
    }
  }

  lemma StepEvents(s: State, a: Action)
    requires Inv(s) && Step(s, a).Some? && (a.Subscribe? ==> Reusable(s)) && HandlesOk(Step(s, a).value)
    ensures EventsOk(Step(s, a).value)
  {
    match a
    case Subscribe => SubscribeEvents(s);
    case Send(e) => SendEvents(s, e);
    case Poll(h) => PollEvents(s, h);
    case _ =>
      var s' := Step(s, a).value;
      forall id | id in s'.chamber ensures Complete(s', s'.owner[id]) {
        assert Complete(s, s.owner[id]);
      }
  }

  lemma StepInv(s: State, a: Action)
    requires Inv(s) && Step(s, a).Some? && (a.Subscribe? ==> Reusable(s))
    ensures Inv(Step(s, a).value)
  {
    StepQueues(s, a);
    StepEvents(s, a);
  }

  lemma {:induction false} RunInv(s: State, actions: seq<Action>)
    requires Inv(s) && FreshRun(s, actions)
    ensures Run(s, actions).Some? && Inv(Run(s, actions).value)
    decreases |actions|
  {
    if actions != [] {
      StepInv(s, actions[0]);
      RunInv(Step(s, actions[0]).value, actions[1..]);
    }
  }

  /** In every run, of any length, in which ids are reused only after collection: a live
      handle always has its queue, so its poll never panics; and the chamber holds
      exactly the queues of live handles, dropped ids, ids being collected, and ids
      pushed between a clone and its clear. */
  lemma ChamberIsExact(actions: seq<Action>, s: State)
    requires Run(NEW, actions) == Some(s) && FreshRun(NEW, actions)
    ensures !s.panicked && LiveIds(s) <= s.chamber.Keys
    ensures s.chamber.Keys == LiveIds(s) + Ids(s.dead) + Doomed(s.gc) + s.missed
    ensures LiveIds(s) !! Ids(s.dead) !! Doomed(s.gc) !! s.missed
  {
    RunInv(NEW, actions);
  }

  /** In every such run, for every handle, until its queue is collected or its id used
      again, and for a live handle always: delivered events followed by the queue are
      exactly the events sent since it subscribed, in order. */
  lemma EveryEventOnce(actions: seq<Action>, s: State, h: nat)
    requires Run(NEW, actions) == Some(s) && FreshRun(NEW, actions) && h in s.ids
    ensures h in s.live ==> s.ids[h] in s.chamber && s.ids[h] in s.owner && s.owner[s.ids[h]] == h
    ensures s.ids[h] in s.chamber && s.ids[h] in s.owner && s.owner[s.ids[h]] == h ==> Complete(s, h)
  {
    RunInv(NEW, actions);
    if h in s.live {
      assert s.ids[h] in LiveIds(s);
    }
  }

  /** Handle `h` is live, and nobody is collecting. */
  predicate Listening(s: State, h: nat) { s.gc.Resting? && h in s.live && h in s.ids && s.ids[h] in s.chamber }

  /** One poll takes the first event of the queue, if there is one. */
  lemma PollTakes(s: State, h: nat)
    requires Inv(s) && Listening(s, h)
    ensures var t := Step(s, Poll(h));
            && t.Some? && Inv(t.value) && Listening(t.value, h) && t.value.ids == s.ids
            && t.value.log == s.log && t.value.since == s.since
            && t.value.chamber[s.ids[h]] == (var q := s.chamber[s.ids[h]]; if q == [] then [] else q[1..])
  {
    StepInv(s, Poll(h));
  }

  predicate PollsOnly(actions: seq<Action>, h: nat) { forall i :: 0 <= i < |actions| ==> actions[i] == Poll(h) }

  lemma {:induction false} PollsTakeAll(s: State, h: nat, polls: seq<Action>)
    requires Inv(s) && Listening(s, h) && PollsOnly(polls, h)
    ensures var t := Run(s, polls);
            && t.Some? && Inv(t.value) && Listening(t.value, h) && t.value.ids == s.ids
            && t.value.log == s.log && t.value.since == s.since
            && (|polls| >= |s.chamber[s.ids[h]]| ==> t.value.chamber[s.ids[h]] == [])
    decreases |polls|
  {
    if polls != [] {
      PollTakes(s, h);
      PollsTakeAll(Step(s, Poll(h)).value, h, polls[1..]);
    }
  }

  /** A live handle that is polled often enough, with nobody sending meanwhile, has been
      delivered every event sent since it subscribed, in order. */
  lemma PollsDeliverEverything(actions: seq<Action>, s: State, h: nat, polls: seq<Action>)
    requires Run(NEW, actions) == Some(s) && FreshRun(NEW, actions)
    requires h in s.live && s.gc.Resting? && PollsOnly(polls, h)
    ensures h in s.ids && s.ids[h] in s.chamber && h in s.since && s.since[h] <= |s.log|
    ensures |polls| >= |s.chamber[s.ids[h]]| ==>
              var t := Run(s, polls);
              t.Some? && h in t.value.delivered && t.value.delivered[h] == s.log[s.since[h]..]
  {
    RunInv(NEW, actions);
    EveryEventOnce(actions, s, h);
    PollsTakeAll(s, h, polls);
    if |polls| >= |s.chamber[s.ids[h]]| {
      var t := Run(s, polls).value;
      assert s.ids[h] in LiveIds(t) && Complete(t, h);
      assert t.delivered[h] + [] == t.delivered[h];
    }
  }

  // ---------- fewer than 2^32 subscriptions ----------

  predicate Counted(s: State) { s.subscriptions <= LIMIT && s.count == s.subscriptions % LIMIT }

  /** Before the ids wrap around, a handle's number is its id. */
  predicate Numbered(s: State) {
    && Counted(s)
    && (forall h: nat :: h in s.ids ==> s.ids[h] == h < s.subscriptions)
    && (forall i :: 0 <= i < |s.dead| ==> s.dead[i] < s.subscriptions)
    && (forall id :: id in s.missed ==> id < s.subscriptions)
  }

  lemma CountedStep(s: State, a: Action)
    requires Counted(s) && Step(s, a).Some? && Step(s, a).value.subscriptions <= LIMIT
    ensures Counted(Step(s, a).value) && s.subscriptions <= Step(s, a).value.subscriptions
    ensures a.Subscribe? ==> s.count == s.subscriptions
  {
  }

  lemma NumberedStep(s: State, a: Action)
    requires Numbered(s) && Step(s, a).Some? && Step(s, a).value.subscriptions <= LIMIT
    ensures Numbered(Step(s, a).value)
    ensures a.Subscribe? ==> Reusable(s)
  {
    CountedStep(s, a);
  }

  lemma {:induction false} NumberedIsFresh(s: State, actions: seq<Action>)
    requires Numbered(s) && Run(s, actions).Some? && Run(s, actions).value.subscriptions <= LIMIT
    ensures FreshRun(s, actions) && Numbered(Run(s, actions).value)
    decreases |actions|
  {
    if actions != [] {
      SubscriptionsGrow(Step(s, actions[0]).value, actions[1..]);
      NumberedStep(s, actions[0]);
      NumberedIsFresh(Step(s, actions[0]).value, actions[1..]);
    }
  }

  lemma StepGrows(s: State, a: Action)
    requires Step(s, a).Some?
    ensures s.subscriptions <= Step(s, a).value.subscriptions
  {
  }

  lemma {:induction false} SubscriptionsGrow(s: State, actions: seq<Action>)
    requires Run(s, actions).Some?
    ensures s.subscriptions <= Run(s, actions).value.subscriptions
    decreases |actions|
  {
    if actions != [] {
      StepGrows(s, actions[0]);
      SubscriptionsGrow(Step(s, actions[0]).value, actions[1..]);
    }
  }

  /** Up to 2^32 subscriptions no id is used twice, so all of this holds. */
  lemma FewSubscriptionsAreFresh(actions: seq<Action>, s: State)
    requires Run(NEW, actions) == Some(s) && s.subscriptions <= LIMIT
    ensures FreshRun(NEW, actions) && !s.panicked && LiveIds(s) <= s.chamber.Keys
    ensures forall h :: h in s.live ==> h in s.ids && s.ids[h] in s.chamber && Complete(s, h)
  {
    NumberedIsFresh(NEW, actions);
    RunInv(NEW, actions);
    forall h | h in s.live
      ensures h in s.ids && s.ids[h] in s.chamber && Complete(s, h)
    {
      EveryEventOnce(actions, s, h);
    }
  }

  // ---------- reuse of an id ----------

  lemma {:induction false} RunConcat(s: State, xs: seq<Action>, ys: seq<Action>)
    requires Run(s, xs).Some?
    ensures Run(s, xs + ys) == Run(Run(s, xs).value, ys)
    decreases |xs|
  {
    if xs == [] {
      assert xs + ys == ys;
    } else {
      assert (xs + ys)[1..] == xs[1..] + ys;
      RunConcat(Step(s, xs[0]).value, xs[1..], ys);
    }
  }

  lemma RunSnoc(s: State, actions: seq<Action>, a: Action)
    requires Run(s, actions).Some?
    ensures Run(s, actions + [a]) == Step(Run(s, actions).value, a)
  {
    assert [a][1..] == [];
    RunConcat(s, actions, [a]);
  }

  /** A fresh run that ends in the panic of a poll. */
  predicate Panics(s: State, actions: seq<Action>) {
    FreshRun(s, actions) && Run(s, actions).Some? && Run(s, actions).value.panicked
  }

  /** A round of the collector removes the queue of every dropped id, whoever uses the
      id by now, and the next poll of a handle with that id panics. */
  lemma CollectedThenPolled(s: State, h: nat)
    requires s.gc.Resting? && Holds(s, h) && s.ids[h] in Ids(s.dead)
    ensures Panics(s, [CloneDead, ClearDead, RemoveQueues, Poll(h)])
  {
    var s1 := Step(s, CloneDead).value;
    var s2 := Step(s1, ClearDead).value;
    var s3 := Step(s2, RemoveQueues).value;
    var s4 := Step(s3, Poll(h)).value;
    assert [CloneDead, ClearDead, RemoveQueues, Poll(h)][1..] == [ClearDead, RemoveQueues, Poll(h)];
    assert [ClearDead, RemoveQueues, Poll(h)][1..] == [RemoveQueues, Poll(h)];
    assert [RemoveQueues, Poll(h)][1..] == [Poll(h)] && [Poll(h)][1..] == [];
    assert Run(s3, [Poll(h)]) == Some(s4) && FreshRun(s3, [Poll(h)]);
    assert Run(s2, [RemoveQueues, Poll(h)]) == Some(s4) && FreshRun(s2, [RemoveQueues, Poll(h)]);
    assert Run(s1, [ClearDead, RemoveQueues, Poll(h)]) == Some(s4) && FreshRun(s1, [ClearDead, RemoveQueues, Poll(h)]);
  }

  /** A subscription under an id that is not reusable: a run without further
      subscriptions ends in the panic. */
  lemma ReusePanics(s: State) returns (more: seq<Action>)
    requires StepSubscribe(s).Some? && !Reusable(s) && forall h: nat :: h in s.ids ==> h < s.subscriptions
    ensures Panics(StepSubscribe(s).value, more)
  {
    var s1 := StepSubscribe(s).value;
    var h := s.subscriptions;
    if s.count in Ids(s.dead) {
      CollectedThenPolled(s1, h);
      more := [CloneDead, ClearDead, RemoveQueues, Poll(h)];
    } else {
      var k :| k in s.live && k in s.ids && s.ids[k] == s.count;
      var s2 := Step(s1, Drop(k)).value;
      PushId(s1.dead, s.count);
      CollectedThenPolled(s2, h);
      more := [Drop(k)] + [CloneDead, ClearDead, RemoveQueues, Poll(h)];
      assert more[1..] == [CloneDead, ClearDead, RemoveQueues, Poll(h)];
    }
  }

  lemma NoPanic(s: State, actions: seq<Action>)
    requires Inv(s)
    ensures !Panics(s, actions)
  {
    if FreshRun(s, actions) {
      RunInv(s, actions);
    }
  }

  /** The exact guard of a subscription: the bus stays free of panics in all fresh
      continuations if and only if the id is neither a live handle's nor a dropped one's
      that has not been collected. */
  lemma ReuseIsExact(actions: seq<Action>, s: State)
    requires Run(NEW, actions) == Some(s) && FreshRun(NEW, actions) && StepSubscribe(s).Some?
    ensures (forall more :: !Panics(StepSubscribe(s).value, more)) <==> Reusable(s)
  {
    RunInv(NEW, actions);
    var s1 := StepSubscribe(s).value;
    if Reusable(s) {
      StepInv(s, Subscribe);
      forall more ensures !Panics(s1, more) {
        NoPanic(s1, more);
      }
    } else {
      var more := ReusePanics(s);
      assert Panics(s1, more);
    }
  }

  // ---------- the leak ----------

  /** The queue is still there, with every event sent in between at its end. */
  predicate Grown(s: State, t: State, id: nat) {
    && id in s.missed && id in t.missed && id in s.chamber && id in t.chamber && s.log <= t.log
    && t.chamber[id] == s.chamber[id] + t.log[|s.log|..]
  }

  lemma GrownTwice(s: State, t: State, u: State, id: nat)
    requires Grown(s, t, id) && Grown(t, u, id)
    ensures Grown(s, u, id)
  {
    assert u.log[|s.log|..] == t.log[|s.log|..] + u.log[|t.log|..];
  }

  lemma MissedStays(s: State, a: Action, id: nat)
    requires Inv(s) && Step(s, a).Some? && id in s.missed && (a.Subscribe? ==> s.count != id)
    ensures Grown(s, Step(s, a).value, id)
  {
    var s' := Step(s, a).value;
    if a.Poll? {
      assert s.ids[a.handle] in LiveIds(s);
    }
    if a.Send? {
      assert s'.log[|s.log|..] == [a.event];
    } else {
      assert s.log == s'.log && s'.log[|s.log|..] == [];
      assert s.chamber[id] + [] == s.chamber[id];
    }
  }

  /** No subscription gets this id. */
  predicate NotReused(s: State, actions: seq<Action>, id: nat)
    decreases |actions|
  {
    actions == [] ||
    ((actions[0].Subscribe? ==> s.count != id) && Step(s, actions[0]).Some?
     && NotReused(Step(s, actions[0]).value, actions[1..], id))
  }

  /** A missed id leaks: until the id is used again its queue is never removed, and keeps
      every later event. */
  lemma {:induction false} MissedUntilReused(s: State, actions: seq<Action>, id: nat)
    requires Inv(s) && FreshRun(s, actions) && NotReused(s, actions, id) && id in s.missed
    ensures Run(s, actions).Some? && Grown(s, Run(s, actions).value, id)
    decreases |actions|
  {
    if actions == [] {
      assert s.log[|s.log|..] == [] && s.chamber[id] + [] == s.chamber[id];
    } else {
      var s1 := Step(s, actions[0]).value;
      StepInv(s, actions[0]);
      MissedStays(s, actions[0], id);
      MissedUntilReused(s1, actions[1..], id);
      GrownTwice(s, s1, Run(s, actions).value, id);
    }
  }

  lemma {:induction false} CountedIsNotReused(s: State, actions: seq<Action>, id: nat)
    requires Counted(s) && Run(s, actions).Some? && Run(s, actions).value.subscriptions <= LIMIT && id < s.subscriptions
    ensures NotReused(s, actions, id)
    decreases |actions|
  {
    if actions != [] {
      SubscriptionsGrow(Step(s, actions[0]).value, actions[1..]);
      CountedStep(s, actions[0]);
      CountedIsNotReused(Step(s, actions[0]).value, actions[1..], id);
    }
  }

  /** Up to 2^32 subscriptions it leaks for good. */
  lemma MissedForever(before: seq<Action>, s: State, actions: seq<Action>, id: nat)
    requires Run(NEW, before) == Some(s) && Run(s, actions).Some? && id in s.missed
    requires Run(s, actions).value.subscriptions <= LIMIT
    ensures Grown(s, Run(s, actions).value, id)
  {
    SubscriptionsGrow(s, actions);
    NumberedIsFresh(NEW, before);
    RunInv(NEW, before);
    NumberedIsFresh(s, actions);
    CountedIsNotReused(s, actions, id);
    MissedUntilReused(s, actions, id);
  }

  lemma Extend(actions: seq<Action>, s: State, a: Action) returns (more: seq<Action>, next: State)
    requires Run(NEW, actions) == Some(s) && Step(s, a).Some?
    ensures Run(NEW, more) == Some(next) && Step(s, a) == Some(next)
  {
    RunSnoc(NEW, actions, a);
    more, next := actions + [a], Step(s, a).value;
  }

  /** Dropping a handle between the clone and the clear leaks its queue. */
  lemma DropDuringCollectionLeaks() returns (actions: seq<Action>, s: State)
    ensures Run(NEW, actions) == Some(s) && s.gc.Resting? && s.live == {} && s.dead == []
    ensures s.missed == {0} && 0 in s.chamber
  {
    actions, s := Extend([], NEW, Subscribe);
    actions, s := Extend(actions, s, CloneDead);
    actions, s := Extend(actions, s, Drop(0));
    assert s.dead[0..] == [0] && Ids([0]) == {0} by { assert [0][0] == 0; }
    actions, s := Extend(actions, s, ClearDead);
    actions, s := Extend(actions, s, RemoveQueues);
  }

  // ---------- the ids do wrap around ----------

  /** One subscriber, one event sent to it, then `n - 1` more subscribers. */
  lemma {:induction false} ManySubscribers(n: nat) returns (actions: seq<Action>, s: State)
    requires 1 <= n <= LIMIT
    ensures Run(NEW, actions) == Some(s) && s.gc.Resting? && s.subscriptions == n && s.count == n % LIMIT
    ensures 0 in s.live && 0 in s.ids && s.ids[0] == 0 && 0 in s.chamber && s.chamber[0] == [7]
    ensures 0 in s.delivered && s.delivered[0] == []
  {
    if n == 1 {
      var s1 := Step(NEW, Subscribe).value;
      s := Step(s1, Send(7)).value;
      actions := [Subscribe, Send(7)];
      assert actions[1..] == [Send(7)];
      assert Run(s1, [Send(7)]) == Some(s);
    } else {
      var before, s0 := ManySubscribers(n - 1);
      RunSnoc(NEW, before, Subscribe);
      actions, s := before + [Subscribe], Step(s0, Subscribe).value;
    }
  }

  /** One subscription more than 2^32, with the first handle still live: its queue is
      replaced and its undelivered event is lost. */
  lemma WrapAroundLosesEvents() returns (actions: seq<Action>, s: State)
    ensures Run(NEW, actions) == Some(s) && s.subscriptions == LIMIT + 1
    ensures 0 in s.live && 0 in s.ids && s.ids[0] == 0 && 0 in s.chamber && s.chamber[0] == []
    ensures 0 in s.delivered && s.delivered[0] == []
  {
    var before, s0 := ManySubscribers(LIMIT);
    RunSnoc(NEW, before, Subscribe);
    actions, s := before + [Subscribe], Step(s0, Subscribe).value;
  }
}
