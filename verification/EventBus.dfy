/** The event bus as the source writes it: a map of queues and a list of dead ids,
    updated in place. Ghost fields record the history, so that every method is a step,
    or a run, of the state machine. */
module EventBus {
  import opened Options
  import opened EventBusModel
  import EventBusTheorems

  class Bus {
    var chamber: map<nat, seq<Event>>
    var count: nat
    var dead: seq<nat>
    ghost var subscriptions: nat
    ghost var ids: map<nat, nat>
    ghost var live: set<nat>
    ghost var owner: map<nat, nat>
    ghost var log: seq<Event>
    ghost var since: map<nat, nat>
    ghost var delivered: map<nat, seq<Event>>
    ghost var missed: set<nat>

    ghost function View(gc: Collector): State
      reads this
    {
      State(chamber, count, dead, gc, false, subscriptions, ids, live, owner, log, since, delivered, missed)
    }

    constructor ()
      ensures View(Resting) == NEW
    {
      chamber, count, dead := map[], 0, [];
      subscriptions, ids, live, owner := 0, map[], {}, map[];
      log, since, delivered, missed := [], map[], map[], {};
    }

    method Subscribe() returns (id: nat, ghost handle: nat)
      modifies this
      ensures id == old(count) && handle == old(subscriptions)
      ensures Step(old(View(Resting)), Action.Subscribe) == Some(View(Resting))
    {
      id, handle := count, subscriptions;
      ghost var next := StepSubscribe(View(Resting)).value;
      count := (count + 1) % LIMIT;
      chamber := chamber[id := []];
      subscriptions, ids, live := next.subscriptions, next.ids, next.live;
      owner, since, delivered, missed := next.owner, next.since, next.delivered, next.missed;
    }

    /** Called when a handle is dropped, at any moment of a collection. */
    method Unsubscribe(id: nat, ghost handle: nat, ghost gc: Collector)
      requires handle in live && handle in ids && ids[handle] == id
      modifies this
      ensures Step(old(View(gc)), Drop(handle)) == Some(View(gc))
      ensures chamber == old(chamber) && dead == old(dead) + [id] && live == old(live) - {handle}
      ensures missed == old(missed) && ids == old(ids)
    {
      dead := dead + [id];
      live := live - {handle};
    }

    /** `ok` is false where the source unwraps a missing queue. */
    method Poll(id: nat, ghost handle: nat) returns (ok: bool, event: Option<Event>)
      requires handle in live && handle in ids && ids[handle] == id && handle in delivered
      modifies this
      ensures if ok then Step(old(View(Resting)), Action.Poll(handle)) == Some(View(Resting))
              else Step(old(View(Resting)), Action.Poll(handle)).value.panicked
      ensures ok <==> id in old(chamber)
      ensures ok && old(chamber)[id] != [] ==>
                event == Some(old(chamber)[id][0]) && chamber == old(chamber)[id := old(chamber)[id][1..]]
      ensures !ok || old(chamber)[id] == [] ==> event.None? && chamber == old(chamber)
      ensures ok ==> handle in delivered
                     && delivered[handle] == old(delivered)[handle] + if event.Some? then [event.value] else []
    {
      event := None;
      ok := id in chamber;
      if ok && chamber[id] != [] {
        event := Some(chamber[id][0]);
        delivered := delivered[handle := delivered[handle] + [chamber[id][0]]];
        chamber := chamber[id := chamber[id][1..]];
      }
    }

    /** Every queue gets the event, whatever the order in which the map is walked. */
    method Send(event: Event)
      modifies this
      ensures Step(old(View(Resting)), Action.Send(event)) == Some(View(Resting))
    {
      var left := chamber.Keys;
      while left != {}
        invariant left <= chamber.Keys == old(chamber).Keys
        invariant forall id :: id in chamber ==>
                    chamber[id] == if id in left then old(chamber)[id] else old(chamber)[id] + [event]
        invariant View(Resting).(chamber := old(chamber)) == old(View(Resting))
        decreases left
      {
        var id :| id in left;
        chamber := chamber[id := chamber[id] + [event]];
        left := left - {id};
      }
      assert chamber == Push(old(chamber), event);
      log := log + [event];
    }

    /** The loop that removes the queues of the cloned ids. */
    method RemoveQueues(clone: seq<nat>)
      modifies this`chamber
      ensures chamber == old(chamber) - Ids(clone)
    {
      assert Ids(clone[..0]) == {};
      for i := 0 to |clone|
        invariant chamber == old(chamber) - Ids(clone[..i])
      {
        assert Ids(clone[..i + 1]) == Ids(clone[..i]) + {clone[i]} by {
          assert clone[..i + 1][i] == clone[i];
          assert forall k :: 0 <= k < i ==> clone[..i + 1][k] == clone[..i][k];
        }
        chamber := chamber - {clone[i]};
      }
      assert clone[..|clone|] == clone;
    }

    /** Different live handles with these ids. */
    ghost predicate Droppable(dropped: seq<nat>, handles: seq<nat>)
      reads this
    {
      && |handles| == |dropped|
      && (forall i :: 0 <= i < |handles| ==> handles[i] in live && handles[i] in ids && ids[handles[i]] == dropped[i])
      && (forall i, j :: 0 <= i < j < |handles| ==> handles[i] != handles[j])
    }

    /** Handles are dropped while the collector is between its two locks of `dead_ids`. */
    method DropMeanwhile(dropped: seq<nat>, ghost handles: seq<nat>, ghost start: State, ghost before: seq<Action>)
      returns (ghost trace: seq<Action>)
      requires Droppable(dropped, handles)
      requires Run(start, before) == Some(View(Cloned(dead)))
      modifies this
      ensures Run(start, trace) == Some(View(Cloned(old(dead))))
      ensures dead == old(dead) + dropped && chamber == old(chamber) && missed == old(missed)
    {
      ghost var clone := dead;
      trace := before;
      for i := 0 to |dropped|
        invariant dead == clone + dropped[..i] && chamber == old(chamber) && missed == old(missed) && ids == old(ids)
        invariant forall j :: i <= j < |handles| ==> handles[j] in live
        invariant Run(start, trace) == Some(View(Cloned(clone)))
      {
        EventBusTheorems.RunSnoc(start, trace, Drop(handles[i]));
        trace := trace + [Drop(handles[i])];
        Unsubscribe(dropped[i], handles[i], Cloned(clone));
      }
      assert dropped[..|dropped|] == dropped;
    }

    /** One round of the collector; the handles with the ids `dropped` are dropped between
        its two locks of `dead_ids`. These ids are cleared without having been cloned. */
    method Collect(dropped: seq<nat>, ghost handles: seq<nat>) returns (ghost trace: seq<Action>)
      requires Droppable(dropped, handles)
      modifies this
      ensures Run(old(View(Resting)), trace) == Some(View(Resting))
      ensures chamber == old(chamber) - Ids(old(dead)) && dead == [] && missed == old(missed) + Ids(dropped)
    {
      var clone := dead;
      ghost var start := View(Resting);
      EventBusTheorems.RunSnoc(start, [], CloneDead);
      trace := DropMeanwhile(dropped, handles, start, [] + [CloneDead]);
      trace := ClearAndRemove(clone, dropped, start, trace);
    }

    /** Clear `dead_ids`, then remove the queues of the cloned ids. */
    method ClearAndRemove(clone: seq<nat>, ghost dropped: seq<nat>, ghost start: State, ghost before: seq<Action>)
      returns (ghost trace: seq<Action>)
      requires dead == clone + dropped && Run(start, before) == Some(View(Cloned(clone)))
      modifies this`chamber, this`dead, this`missed
      ensures Run(start, trace) == Some(View(Resting))
      ensures chamber == old(chamber) - Ids(clone) && dead == [] && missed == old(missed) + Ids(dropped)
    {
      assert dead[|clone|..] == dropped;
      EventBusTheorems.RunSnoc(start, before, ClearDead);
      dead := [];
      missed := missed + Ids(dropped);
      EventBusTheorems.RunSnoc(start, before + [ClearDead], Action.RemoveQueues);
      RemoveQueues(clone);
      trace := before + [ClearDead] + [Action.RemoveQueues];
    }
  }
}
