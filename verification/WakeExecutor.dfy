/** The wake-driven executor as the source writes it: `poll` empties the polling
    queue in a loop, `run` alternates it with `recv`. The ids that other threads
    send are input: `during[i]` arrive during the i-th poll, `later` while the
    executor sleeps in `recv`. Every run of this code is a run of the state machine. */
module WakeExecutor {
  import opened Options
  import opened Indicator
  import opened Futures
  import opened WakeModel
  import opened WakeTheorems

  function Total(during: seq<seq<nat>>): nat
    decreases |during|
  {
    if during == [] then 0 else |during[0]| + Total(during[1..])
  }

  /** All the ids of these lists, one list after the other. */
  function Flat(lists: seq<seq<nat>>): seq<nat>
    decreases |lists|
  {
    if lists == [] then [] else Flat(lists[..|lists| - 1]) + lists[|lists| - 1]
  }

  lemma FlatSnoc(lists: seq<seq<nat>>, n: nat)
    requires n < |lists|
    ensures Flat(lists[..n + 1]) == Flat(lists[..n]) + lists[n]
  {
    assert lists[..n + 1][..n] == lists[..n];
  }

  /** Some of these lists, and then some of the rest. */
  lemma {:induction false} FlatSplit(lists: seq<seq<nat>>, n: nat, m: nat)
    requires n + m <= |lists|
    ensures Flat(lists[..n]) + Flat(lists[n..][..m]) == Flat(lists[..n + m])
    decreases m
  {
    if m == 0 {
      assert lists[..n + m] == lists[..n];
    } else {
      FlatSplit(lists, n, m - 1);
      FlatSnoc(lists, n + m - 1);
      FlatSnoc(lists[n..], m - 1);
      assert lists[n..][m - 1] == lists[n + m - 1];
    }
  }

  function Min(a: nat, b: nat): nat { if a < b then a else b }

  /** `trace` is `before` with so many polls made since, these ids sent before the executor
      slept in `recv`, and those while it did. */
  ghost predicate Extends(before: seq<Action>, trace: seq<Action>, polls: nat, sent: seq<nat>, late: seq<nat>) {
    && Polls(trace) == Polls(before) + polls
    && Arrived(trace, false) == Arrived(before, false) + sent && Arrived(trace, true) == Arrived(before, true) + late
  }

  lemma ExtendsOn(a: seq<Action>, b: seq<Action>, c: seq<Action>, m: nat, xs: seq<nat>, us: seq<nat>,
                  n: nat, ys: seq<nat>, vs: seq<nat>)
    requires Extends(a, b, m, xs, us) && Extends(b, c, n, ys, vs)
    ensures Extends(a, c, m + n, xs + ys, us + vs)
  {
    assert Arrived(a, false) + xs + ys == Arrived(a, false) + (xs + ys);
    assert Arrived(a, true) + us + vs == Arrived(a, true) + (us + vs);
  }

  lemma ExtendsOne(before: seq<Action>, a: Action)
    requires !a.Wake?
    ensures Extends(before, before + [a], if a.PollReturns? then 1 else 0, [], [])
    ensures Asleep(before + [a]) == a.Check?
  {
    WakesSnoc(before, a);
  }

  lemma ExtendsWake(before: seq<Action>, trace: seq<Action>, ids: seq<nat>, id: nat)
    requires Extends(before, trace, 0, if Asleep(before) then [] else ids, if Asleep(before) then ids else [])
    requires Asleep(trace) == Asleep(before)
    ensures Extends(before, trace + [Wake(id)], 0, if Asleep(before) then [] else ids + [id],
                    if Asleep(before) then ids + [id] else [])
    ensures Asleep(trace + [Wake(id)]) == Asleep(before)
  {
    WakesSnoc(trace, Wake(id));
  }

  /** A poll: the task is taken, ids arrive, and it returns. */
  lemma PollExtends(before: seq<Action>, popped: seq<Action>, arrived: seq<Action>, trace: seq<Action>, ids: seq<nat>)
    requires Extends(before, popped, 0, [], []) && Extends(popped, arrived, 0, ids, [])
    requires Extends(arrived, trace, 1, [], [])
    ensures Extends(before, trace, 1, ids, [])
  {
    assert Arrived(before, false) + [] + ids + [] == Arrived(before, false) + ids;
  }

  /** One step more of a run, which is not a wake. */
  lemma Proceed(f: Outcomes, start: State, before: seq<Action>, a: Action, s: State, t: State, trace: seq<Action>)
    requires WakeModel.Run(f, start, before) == Some(s) && Step(f, s, a) == Some(t) && !a.Wake?
    requires trace == before + [a]
    ensures WakeModel.Run(f, start, trace) == Some(t)
    ensures Extends(before, trace, if a.PollReturns? then 1 else 0, [], []) && Asleep(trace) == a.Check?
  {
    RunSnoc(f, start, before, a);
    ExtendsOne(before, a);
  }

  lemma ExtendsNone(trace: seq<Action>)
    ensures Extends(trace, trace, 0, [], [])
  {
  }

  function Occurrences(ids: seq<nat>, id: nat): nat { multiset(ids)[id] }

  lemma OneMoreWake(ids: seq<nat>, last: nat, id: nat)
    ensures Occurrences(ids + [last], id) == Occurrences(ids, id) + One(last == id)
  {
  }

  /** The ids sent so far are those of one list of `during` for each poll, and while the
      executor slept the first `slept` of `later`. */
  ghost predicate Delivered(trace: seq<Action>, during: seq<seq<nat>>, later: seq<nat>, slept: nat) {
    && Arrived(trace, false) == Flat(during[..Min(Polls(trace), |during|)])
    && slept <= |later| && Arrived(trace, true) == later[..slept]
  }

  /** The same, and what is still to come. */
  ghost predicate Fed(trace: seq<Action>, during: seq<seq<nat>>, rest: seq<seq<nat>>,
                      later: seq<nat>, coming: seq<nat>, slept: nat) {
    && Delivered(trace, during, later, slept)
    && rest == during[Min(Polls(trace), |during|)..] && coming == later[slept..]
  }

  lemma FedStart(trace: seq<Action>, during: seq<seq<nat>>, later: seq<nat>)
    requires Extends([], trace, 0, [], [])
    ensures Fed(trace, during, during, later, later, 0)
  {
  }

  /** One turn of `run`: polls, and then perhaps an id received. */
  lemma FedTurn(before: seq<Action>, trace: seq<Action>, during: seq<seq<nat>>, rest: seq<seq<nat>>,
                later: seq<nat>, coming: seq<nat>, slept: nat, polls: nat, sent: seq<nat>, got: seq<nat>)
    requires Fed(before, during, rest, later, coming, slept)
    requires sent == Flat(rest[..Min(polls, |rest|)]) && got <= coming && Extends(before, trace, polls, sent, got)
    ensures Fed(trace, during, rest[Min(polls, |rest|)..], later, coming[|got|..], slept + |got|)
    ensures later[..slept + |got|] == later[..slept] + got
  {
    FlatSplit(during, Min(Polls(before), |during|), Min(polls, |rest|));
    assert later[..slept + |got|] == later[..slept] + got;
  }

  /** What `run` has been sent and has polled; between two turns nothing else is known. */
  ghost predicate Progress(e: Executor, trace: seq<Action>, during: seq<seq<nat>>, rest: seq<seq<nat>>,
                           later: seq<nat>, coming: seq<nat>, slept: nat)
    reads e
  {
    && Fed(trace, during, rest, later, coming, slept)
    && e.Handles() && e.PolledSince(later[..slept]) && AllSendable(rest, e.count) && Sendable(coming, e.count)
  }

  /** Ids already given out: the only ones a waker can send. */
  ghost predicate Sendable(ids: seq<nat>, count: nat) { forall i :: 0 <= i < |ids| ==> ids[i] < count }

  ghost predicate AllSendable(lists: seq<seq<nat>>, count: nat) {
    forall i :: 0 <= i < |lists| ==> Sendable(lists[i], count)
  }

  class Executor {
    var count: nat
    var polling: seq<Task>
    var waiting: map<nat, Task>
    var channel: seq<nat>
    var outputs: map<nat, seq<int>>
    ghost var woken: set<nat>
    const outcome: Outcomes

    constructor (outcome: Outcomes)
      ensures this.outcome == outcome && View(NotRunning) == NEW
    {
      this.outcome := outcome;
      count, polling, waiting, channel, outputs := 0, [], map[], [], map[];
      woken := {};
    }

    ghost function View(place: Place): State
      reads this
    {
      State(count, polling, waiting, channel, outputs, place, woken)
    }

    /** Every task held is an unfinished one with a handle; those waiting have been polled. */
    ghost predicate Handles()
      reads this
    {
      && (forall id :: id in outputs ==> id < count)
      && (forall i :: 0 <= i < |polling| ==> polling[i].id in outputs && PendingSoFar(outcome, polling[i]))
      && (forall id :: id in waiting ==>
            && waiting[id].id == id && id in outputs && waiting[id].polls > 0
            && PendingSoFar(outcome, waiting[id]))
    }

    /** Each id among `slept` has led to a poll of its task, or to its requeueing. */
    ghost predicate PolledSince(slept: seq<nat>)
      reads this
    {
      && (forall i :: 0 <= i < |polling| ==> polling[i].polls >= Occurrences(slept, polling[i].id))
      && (forall id :: id in waiting ==> waiting[id].polls > Occurrences(slept, id))
    }

    method SpawnRcv() returns (id: nat)
      requires Handles()
      modifies this
      ensures Handles() && id == old(count)
      ensures Some(View(NotRunning)) == StepSpawn(old(View(NotRunning)))
      ensures polling == old(polling) + [Task(id, 0)] && outputs == old(outputs)[id := []] && count == id + 1
    {
      id := count;
      count := count + 1;
      polling := polling + [Task(id, 0)];
      outputs := outputs[id := []];
    }

    /** Wakers on other threads send their ids. */
    method Arrive(ids: seq<nat>, ghost start: State, ghost before: seq<Action>, ghost place: Place)
      returns (ghost trace: seq<Action>)
      requires Sendable(ids, count) && WakeModel.Run(outcome, start, before) == Some(View(place))
      modifies this`channel, this`woken
      ensures channel == old(channel) + ids
      ensures WakeModel.Run(outcome, start, trace) == Some(View(place))
      ensures Extends(before, trace, 0, if Asleep(before) then [] else ids, if Asleep(before) then ids else [])
    {
      trace := before;
      for i := 0 to |ids|
        invariant channel == old(channel) + ids[..i]
        invariant WakeModel.Run(outcome, start, trace) == Some(View(place))
        invariant Asleep(trace) == Asleep(before)
        invariant Extends(before, trace, 0, if Asleep(before) then [] else ids[..i],
                          if Asleep(before) then ids[..i] else [])
      {
        ExtendsWake(before, trace, ids[..i], ids[i]);
        assert ids[..i + 1] == ids[..i] + [ids[i]];
        channel := channel + [ids[i]];
        woken := woken + {ids[i]};
        RunSnoc(outcome, start, trace, Wake(ids[i]));
        trace := trace + [Wake(ids[i])];
      }
      assert ids[..|ids|] == ids;
    }

    /** Poll one task's future: a result goes to its handle, a pending task waits. */
    method PollFuture(task: Task)
      requires Handles() && task.id in outputs && PendingSoFar(outcome, task)
      modifies this`outputs, this`waiting
      ensures Handles() && Some(View(Popping)) == StepPollReturns(outcome, old(View(InPoll(task))))
      ensures forall id :: id in waiting && id != task.id ==> id in old(waiting) && waiting[id] == old(waiting)[id]
      ensures task.id in waiting ==> waiting[task.id].polls > task.polls || waiting == old(waiting)
    {
      match outcome(task.id, task.polls)
      case Some(v) => outputs := outputs[task.id := outputs[task.id] + [v]];
      case None => waiting := waiting[task.id := Task(task.id, task.polls + 1)];
    }

    /** A received id makes its task pollable again, if it is waiting. */
    method MoveWaiting(id: nat, ghost slept: seq<nat>, ghost now: seq<nat>)
      requires Handles() && polling == [] && PolledSince(slept) && (now == slept || now == slept + [id])
      modifies this`polling, this`waiting
      ensures Handles() && PolledSince(now)
      ensures Some(View(Popping)) == StepRequeue(old(View(Received(id))))
    {
      forall other {
        OneMoreWake(slept, id, other);
      }
      if id in waiting {
        polling := polling + [waiting[id]];
        waiting := waiting - {id};
      }
    }

    /** Take the first task off the queue. */
    method PopTask(ghost start: State, ghost before: seq<Action>) returns (task: Task, ghost trace: seq<Action>)
      requires polling != [] && WakeModel.Run(outcome, start, before) == Some(View(Popping))
      modifies this`polling, this`woken
      ensures task == old(polling)[0] && polling == old(polling)[1..]
      ensures WakeModel.Run(outcome, start, trace) == Some(View(InPoll(task)))
      ensures Extends(before, trace, 0, [], []) && !Asleep(trace)
    {
      ghost var s := View(Popping);
      task := polling[0];
      polling := polling[1..];
      woken := woken - {task.id};
      trace := before + [Pop];
      Proceed(outcome, start, before, Pop, s, View(InPoll(task)), trace);
    }

    /** One turn of the loop in `poll`; `ids` arrive while the future is polled. */
    method PollFirst(ids: seq<nat>, ghost start: State, ghost before: seq<Action>, ghost slept: seq<nat>)
      returns (ghost trace: seq<Action>)
      requires Handles() && PolledSince(slept) && Sendable(ids, count) && polling != []
      requires WakeModel.Run(outcome, start, before) == Some(View(Popping))
      modifies this
      ensures Handles() && PolledSince(slept) && count == old(count) && polling == old(polling)[1..]
      ensures channel == old(channel) + ids
      ensures WakeModel.Run(outcome, start, trace) == Some(View(Popping))
      ensures Extends(before, trace, 1, ids, [])
    {
      var task;
      task, trace := PopTask(start, before);
      ghost var popped := trace;
      trace := Arrive(ids, start, trace, InPoll(task));
      ghost var arrived := trace;
      ghost var s := View(InPoll(task));
      PollFuture(task);
      trace := trace + [PollReturns];
      Proceed(outcome, start, arrived, PollReturns, s, View(Popping), trace);
      PollExtends(before, popped, arrived, trace, ids);
    }

    /** `poll`: until the queue is empty, poll its first task once. */
    method Poll(during: seq<seq<nat>>, ghost start: State, ghost before: seq<Action>, ghost slept: seq<nat>)
      returns (rest: seq<seq<nat>>, ghost n: nat, ghost polls: nat, ghost trace: seq<Action>)
      requires Handles() && PolledSince(slept) && AllSendable(during, count)
      requires WakeModel.Run(outcome, start, before) == Some(View(Popping))
      modifies this
      ensures Handles() && PolledSince(slept) && count == old(count) && polling == []
      ensures |channel| + Total(rest) == |old(channel)| + Total(during)
      ensures WakeModel.Run(outcome, start, trace) == Some(View(Checking))
      ensures n == Min(polls, |during|) && rest == during[n..]
      ensures Extends(before, trace, polls, Flat(during[..n]), [])
    {
      rest, n, polls, trace := during, 0, 0, before;
      while polling != []
        invariant Handles() && PolledSince(slept) && count == old(count)
        invariant |channel| + Total(rest) == |old(channel)| + Total(during)
        invariant WakeModel.Run(outcome, start, trace) == Some(View(Popping))
        invariant n == Min(polls, |during|) && rest == during[n..]
        invariant Extends(before, trace, polls, Flat(during[..n]), [])
        decreases |polling|
      {
        ghost var mid, sent := trace, Flat(during[..n]);
        var ids := if rest == [] then [] else rest[0];
        trace := PollFirst(ids, start, trace, slept);
        if rest != [] {
          FlatSnoc(during, n);
          rest, n := rest[1..], n + 1;
        }
        ExtendsOn(before, mid, trace, polls, sent, [], 1, ids, []);
        polls := polls + 1;
      }
      ghost var emptied := trace;
      trace := trace + [Pop];
      Proceed(outcome, start, emptied, Pop, View(Popping), View(Checking), trace);
      ExtendsOn(before, emptied, trace, polls, Flat(during[..n]), [], 0, [], []);
    }

    /** `recv` and what follows it in the loop of `run`. */
    method TakeWake(ghost start: State, ghost before: seq<Action>, ghost slept: seq<nat>, ghost now: seq<nat>)
      returns (ghost trace: seq<Action>)
      requires Handles() && polling == [] && channel != []
      requires PolledSince(slept) && (now == slept || now == slept + [channel[0]])
      requires WakeModel.Run(outcome, start, before) == Some(View(Receiving))
      modifies this`channel, this`polling, this`waiting
      ensures Handles() && PolledSince(now) && channel == old(channel)[1..]
      ensures WakeModel.Run(outcome, start, trace) == Some(View(Popping))
      ensures Extends(before, trace, 0, [], [])
    {
      ghost var s := View(Receiving);
      var id := channel[0];
      channel := channel[1..];
      ghost var received := before + [Recv];
      Proceed(outcome, start, before, Recv, s, View(Received(id)), received);
      s := View(Received(id));
      MoveWaiting(id, slept, now);
      trace := received + [Requeue];
      Proceed(outcome, start, received, Requeue, s, View(Popping), trace);
      ExtendsOn(before, received, trace, 0, [], [], 0, [], []);
    }

    /** `recv`, which sleeps until the next id arrives if there is none. */
    method Receive(coming: seq<nat>, ghost start: State, ghost before: seq<Action>, ghost slept: seq<nat>)
      returns (left: seq<nat>, ghost trace: seq<Action>, ghost got: seq<nat>)
      requires Handles() && polling == [] && (channel != [] || coming != [])
      requires PolledSince(slept) && Sendable(coming, count)
      requires WakeModel.Run(outcome, start, before) == Some(View(Receiving)) && Asleep(before)
      modifies this
      ensures Handles() && PolledSince(slept + got) && count == old(count)
      ensures got == (if old(channel) == [] then [coming[0]] else []) && left == coming[|got|..]
      ensures channel == (old(channel) + got)[1..] && Extends(before, trace, 0, [], got)
      ensures WakeModel.Run(outcome, start, trace) == Some(View(Popping))
    {
      left, trace, got := coming, before, [];
      ExtendsNone(before);
      if channel == [] {
        got := [coming[0]];
        trace := Arrive([coming[0]], start, trace, Receiving);
        left := coming[1..];
      }
      ghost var mid := trace;
      assert slept + [] == slept;
      trace := TakeWake(start, trace, slept, slept + got);
      ExtendsOn(before, mid, trace, 0, [], got, 0, [], []);
    }

    /** `poll`, and the look at what is left. */
    method PollAndCheck(during: seq<seq<nat>>, ghost start: State, ghost before: seq<Action>, ghost slept: seq<nat>)
      returns (rest: seq<seq<nat>>, ghost n: nat, ghost polls: nat, ghost trace: seq<Action>)
      requires Handles() && PolledSince(slept) && AllSendable(during, count)
      requires WakeModel.Run(outcome, start, before) == Some(View(Popping))
      modifies this
      ensures Handles() && PolledSince(slept) && count == old(count) && polling == []
      ensures |channel| + Total(rest) == |old(channel)| + Total(during)
      ensures WakeModel.Run(outcome, start, trace) == Some(View(if waiting == map[] then Finished else Receiving))
      ensures n == Min(polls, |during|) && rest == during[n..] && Asleep(trace)
      ensures Extends(before, trace, polls, Flat(during[..n]), [])
    {
      rest, n, polls, trace := Poll(during, start, before, slept);
      ghost var polled := trace;
      trace := trace + [Check];
      Proceed(outcome, start, polled, Check, View(Checking),
              View(if waiting == map[] then Finished else Receiving), trace);
      ExtendsOn(before, polled, trace, polls, Flat(during[..n]), [], 0, [], []);
    }

    /** One turn of the loop in `run`; it stops when nothing is left or no id is to come. */
    method Turn(during: seq<seq<nat>>, coming: seq<nat>, ghost start: State, ghost before: seq<Action>,
                ghost slept: seq<nat>)
      returns (stop: bool, rest: seq<seq<nat>>, left: seq<nat>, ghost polls: nat, ghost got: seq<nat>,
               ghost trace: seq<Action>)
      requires Handles() && PolledSince(slept) && AllSendable(during, count) && Sendable(coming, count)
      requires WakeModel.Run(outcome, start, before) == Some(View(Popping))
      modifies this
      ensures Handles() && PolledSince(slept + got) && count == old(count)
      ensures rest == during[Min(polls, |during|)..] && got <= coming && left == coming[|got|..]
      ensures Extends(before, trace, polls, Flat(during[..Min(polls, |during|)]), got)
      ensures stop ==> polling == [] && (waiting == map[] || (channel == [] && left == []))
      ensures !stop ==> |channel| + Total(rest) + |left| < |old(channel)| + Total(during) + |coming|
      ensures WakeModel.Run(outcome, start, trace) == Some(View(Standing(stop)))
    {
      ghost var n;
      rest, n, polls, trace := PollAndCheck(during, start, before, slept);
      left, got := coming, [];
      stop := (polling == [] && waiting == map[]) || (channel == [] && coming == []);
      if stop {
        assert slept + got == slept;
      } else {
        ghost var checked := trace;
        left, trace, got := Receive(coming, start, trace, slept);
        ExtendsOn(before, checked, trace, polls, Flat(during[..n]), [], 0, [], got);
      }
    }

    /** Where `run` is after a turn. */
    ghost function Standing(stop: bool): Place
      reads this
    {
      if !stop then Popping else if waiting == map[] then Finished else Receiving
    }

    /** The turn within the whole run. */
    method NextTurn(rest: seq<seq<nat>>, coming: seq<nat>, ghost start: State, ghost before: seq<Action>,
                    ghost during: seq<seq<nat>>, ghost later: seq<nat>, ghost slept: nat)
      returns (stop: bool, rest': seq<seq<nat>>, coming': seq<nat>, ghost slept': nat, ghost trace: seq<Action>)
      requires Progress(this, before, during, rest, later, coming, slept)
      requires WakeModel.Run(outcome, start, before) == Some(View(Popping))
      modifies this
      ensures Progress(this, trace, during, rest', later, coming', slept') && count == old(count)
      ensures stop ==> polling == [] && (waiting == map[] || (channel == [] && coming' == []))
      ensures !stop ==> |channel| + Total(rest') + |coming'| < |old(channel)| + Total(rest) + |coming|
      ensures WakeModel.Run(outcome, start, trace) == Some(View(Standing(stop)))
    {
      ghost var polls, got;
      stop, rest', coming', polls, got, trace := Turn(rest, coming, start, before, later[..slept]);
      FedTurn(before, trace, during, rest, later, coming, slept, polls, Flat(rest[..Min(polls, |rest|)]), got);
      slept' := slept + |got|;
    }

    /** `run`: returns true when nothing is left, false when it is left in `recv`
        with no wake to come. Then everything that could arrive has, and has been
        received. It returns true if `later` holds a wake for each pending poll. */
    method Run(during: seq<seq<nat>>, later: seq<nat>)
      returns (finished: bool, ghost trace: seq<Action>, ghost slept: nat)
      requires Handles() && AllSendable(during, count) && Sendable(later, count)
      modifies this
      ensures WakeModel.Run(outcome, old(View(NotRunning)), trace)
           == Some(View(if finished then Finished else Receiving))
      ensures count == old(count) && polling == [] && (finished <==> waiting == map[])
      ensures Delivered(trace, during, later, slept)
      ensures !finished ==> channel == [] && slept == |later|
      ensures Receives(outcome, old(View(NotRunning)), trace) + channel == old(channel) + Wakes(trace)
      ensures AllReadyWithin(later) ==> finished
    {
      ghost var start := View(NotRunning);
      ghost var first := [] + [StartRun];
      Proceed(outcome, start, [], StartRun, start, View(Popping), first);
      FedStart(first, during, later);
      slept, trace := Loop(during, later, start, first);
      finished := waiting == map[];
      WakesReceivedInOrder(outcome, start, trace);
    }

    /** The loop of `run`, from its beginning to its end. */
    method Loop(during: seq<seq<nat>>, later: seq<nat>, ghost start: State, ghost first: seq<Action>)
      returns (ghost slept: nat, ghost trace: seq<Action>)
      requires Progress(this, first, during, during, later, later, 0)
      requires WakeModel.Run(outcome, start, first) == Some(View(Popping))
      modifies this
      ensures count == old(count) && polling == []
      ensures Delivered(trace, during, later, slept) && (waiting != map[] ==> channel == [] && slept == |later|)
      ensures AllReadyWithin(later) ==> waiting == map[]
      ensures WakeModel.Run(outcome, start, trace) == Some(View(Standing(true)))
    {
      var stop, rest, coming := false, during, later;
      slept, trace := 0, first;
      while !stop
        invariant Progress(this, trace, during, rest, later, coming, slept) && count == old(count)
        invariant stop ==> polling == [] && (waiting == map[] || (channel == [] && coming == []))
        invariant WakeModel.Run(outcome, start, trace) == Some(View(Standing(stop)))
        decreases !stop, |channel| + Total(rest) + |coming|
      {
        stop, rest, coming, slept, trace := NextTurn(rest, coming, start, trace, during, later, slept);
      }
      if waiting != map[] {
        assert later[..slept] == later;
        StillPending(later);
      }
    }

    /** The future of `id` is ready after at most as many pending polls as it has wakes. */
    ghost predicate ReadyWithin(id: nat, wakes: seq<nat>) {
      exists n: nat :: n <= Occurrences(wakes, id) && outcome(id, n).Some?
    }

    ghost predicate AllReadyWithin(wakes: seq<nat>)
      reads this
    {
      forall id :: 0 <= id < count ==> ReadyWithin(id, wakes)
    }

    /** A task that still waits after so many wakes does not become ready within them. */
    lemma StillPending(later: seq<nat>)
      requires Handles() && PolledSince(later) && waiting != map[]
      ensures !AllReadyWithin(later)
    {
      var id :| id in waiting;
      assert !ReadyWithin(id, later);
    }
  }
}
