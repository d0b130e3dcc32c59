/** The round-robin executor: `poll` polls the first task of the queue once and puts
    it back if it is pending. Draining it follows the closed form, and gives every
    handle the same result as the wake-driven executor. */
module RoundRobin {
  import opened Options
  import opened Futures
  import opened RoundRobinSpec
  import WakeModel
  import WakeTheorems

  ghost predicate Terminates(f: Outcomes, t: Task) {
    exists n: nat, v: int :: n >= t.polls && FinishesAt(f, t.id, n, v)
  }

  /** How many more polls a terminating task needs. */
  ghost function Need(f: Outcomes, t: Task): (k: nat)
    requires Terminates(f, t)
    ensures k > 0 && f(t.id, t.polls + k - 1).Some? && PendingSoFar(f, Task(t.id, t.polls + k - 1))
  {
    var n: nat, v: int :| n >= t.polls && FinishesAt(f, t.id, n, v);
    n - t.polls + 1
  }

  lemma NeedUnique(f: Outcomes, t: Task, k: nat)
    requires Terminates(f, t) && k > 0
    requires f(t.id, t.polls + k - 1).Some? && PendingSoFar(f, Task(t.id, t.polls + k - 1))
    ensures k == Need(f, t)
  {
    var a: nat := t.polls + Need(f, t) - 1;
    var b: nat := t.polls + k - 1;
    assert a < b ==> f(t.id, a).None?;
    assert b < a ==> f(t.id, b).None?;
  }

  /** A pending poll uses up one of the polls needed. */
  lemma PendingPoll(f: Outcomes, t: Task)
    requires Terminates(f, t) && f(t.id, t.polls).None?
    ensures var next := Task(t.id, t.polls + 1);
            Terminates(f, next) && Need(f, next) == Need(f, t) - 1
  {
    var k := Need(f, t);
    var next := Task(t.id, t.polls + 1);
    assert FinishesAt(f, t.id, t.polls + k - 1, f(t.id, t.polls + k - 1).value);
    assert next.polls + (k - 1) - 1 == t.polls + k - 1;
    NeedUnique(f, next, k - 1);
  }

  lemma ReadyPoll(f: Outcomes, t: Task)
    requires Terminates(f, t) && PendingSoFar(f, t) && f(t.id, t.polls).Some?
    ensures Need(f, t) == 1 && Result(f, t.id, f(t.id, t.polls).value)
  {
    NeedUnique(f, t, 1);
    assert FinishesAt(f, t.id, t.polls, f(t.id, t.polls).value);
  }

  ghost predicate AllTerminate(f: Outcomes, q: seq<Task>) {
    forall i :: 0 <= i < |q| ==> Terminates(f, q[i])
  }

  ghost function Jobs(f: Outcomes, q: seq<Task>): (jobs: seq<Job>)
    requires AllTerminate(f, q)
    ensures |jobs| == |q| && Live(jobs)
    ensures forall i :: 0 <= i < |q| ==> jobs[i] == Job(q[i].id, Need(f, q[i]))
  {
    seq(|q|, i requires 0 <= i < |q| => Job(q[i].id, Need(f, q[i])))
  }

  // ---------- one call of poll, as a function ----------

  datatype Queue = Queue(polling: seq<Task>, outputs: map<nat, seq<int>>, count: nat)

  predicate Holds(q: seq<Task>, id: nat) { exists i :: 0 <= i < |q| && q[i].id == id }

  /** Each unfinished handle has one queued task and no value; each finished handle
      has one value, the result of its future. */
  ghost predicate QueueOk(f: Outcomes, s: Queue) {
    && (forall id: nat :: id in s.outputs <==> id < s.count)
    && (forall i :: 0 <= i < |s.polling| ==> PendingSoFar(f, s.polling[i]) && s.polling[i].id < s.count)
    && (forall i, j :: 0 <= i < j < |s.polling| ==> s.polling[i].id != s.polling[j].id)
    && (forall id :: id in s.outputs ==> HandleOk(f, s, id))
  }

  ghost predicate HandleOk(f: Outcomes, s: Queue, id: nat)
    requires id in s.outputs
  {
    if Holds(s.polling, id) then s.outputs[id] == []
    else |s.outputs[id]| == 1 && Result(f, id, s.outputs[id][0])
  }

  function SpawnQueue(s: Queue): Queue {
    Queue(s.polling + [Task(s.count, 0)], s.outputs[s.count := []], s.count + 1)
  }

  function PollQueue(f: Outcomes, s: Queue): Queue {
    if s.polling == [] then s
    else
      var t := s.polling[0];
      match f(t.id, t.polls)
      case Some(v) =>
        var received := if t.id in s.outputs then s.outputs[t.id] else [];
        s.(polling := s.polling[1..], outputs := s.outputs[t.id := received + [v]])
      case None => s.(polling := s.polling[1..] + [Task(t.id, t.polls + 1)])
  }

  lemma {:induction false} SpawnOk(f: Outcomes, s: Queue)
    requires QueueOk(f, s)
    ensures QueueOk(f, SpawnQueue(s))
  {
    var s' := SpawnQueue(s);
    assert s'.polling[|s.polling|].id == s.count;
    forall id | id in s'.outputs
      ensures HandleOk(f, s', id)
    {
      if id != s.count && Holds(s.polling, id) {
        var i :| 0 <= i < |s.polling| && s.polling[i].id == id;
        assert s'.polling[i].id == id;
      }
    }
  }

  /** The handles of the other tasks are as before. */
  lemma OthersOk(f: Outcomes, s: Queue, id: nat)
    requires QueueOk(f, s) && s.polling != [] && id in s.outputs && id != s.polling[0].id
    ensures id in PollQueue(f, s).outputs && HandleOk(f, PollQueue(f, s), id)
  {
    var s' := PollQueue(f, s);
    assert HandleOk(f, s, id);
    if Holds(s.polling, id) {
      var i :| 0 <= i < |s.polling| && s.polling[i].id == id;
      assert s'.polling[i - 1].id == id;
    }
  }

  lemma PolledOk(f: Outcomes, s: Queue)
    requires QueueOk(f, s) && s.polling != []
    ensures s.polling[0].id in PollQueue(f, s).outputs && HandleOk(f, PollQueue(f, s), s.polling[0].id)
  {
    var t := s.polling[0];
    var s' := PollQueue(f, s);
    assert Holds(s.polling, t.id) && HandleOk(f, s, t.id);
    if f(t.id, t.polls).Some? {
      assert FinishesAt(f, t.id, t.polls, f(t.id, t.polls).value);
    } else {
      assert s'.polling[|s'.polling| - 1].id == t.id;
    }
  }

  lemma PollOk(f: Outcomes, s: Queue)
    requires QueueOk(f, s) && s.polling != []
    ensures QueueOk(f, PollQueue(f, s))
  {
    var s' := PollQueue(f, s);
    PolledOk(f, s);
    forall id | id in s'.outputs
      ensures HandleOk(f, s', id)
    {
      if id != s.polling[0].id {
        OthersOk(f, s, id);
      }
    }
  }

  lemma JobsOfTail(f: Outcomes, q: seq<Task>)
    requires q != [] && AllTerminate(f, q)
    ensures AllTerminate(f, q[1..]) && Jobs(f, q[1..]) == Jobs(f, q)[1..]
  {
    forall i | 0 <= i < |q[1..]| ensures Terminates(f, q[1..][i]) { assert Terminates(f, q[i + 1]); }
  }

  lemma JobsPush(f: Outcomes, q: seq<Task>, t: Task)
    requires AllTerminate(f, q) && Terminates(f, t)
    ensures AllTerminate(f, q + [t]) && Jobs(f, q + [t]) == Jobs(f, q) + [Job(t.id, Need(f, t))]
  {
  }

  /** The first task's poll is its last exactly when it needs one more. */
  lemma HeadPoll(f: Outcomes, q: seq<Task>)
    requires q != [] && AllTerminate(f, q) && PendingSoFar(f, q[0])
    ensures f(q[0].id, q[0].polls).Some? <==> Jobs(f, q)[0].need == 1
    ensures f(q[0].id, q[0].polls).None? ==>
              var next := Task(q[0].id, q[0].polls + 1);
              Terminates(f, next) && Need(f, next) == Jobs(f, q)[0].need - 1
  {
    assert Terminates(f, q[0]);
    if f(q[0].id, q[0].polls).Some? {
      ReadyPoll(f, q[0]);
    } else {
      PendingPoll(f, q[0]);
    }
  }

  lemma PollReadyJobs(f: Outcomes, q: seq<Task>)
    requires q != [] && AllTerminate(f, q) && PendingSoFar(f, q[0]) && f(q[0].id, q[0].polls).Some?
    ensures AllTerminate(f, q[1..]) && Jobs(f, q)[0].need == 1 && Jobs(f, q[1..]) == PollJobs(Jobs(f, q))
  {
    JobsOfTail(f, q);
    HeadPoll(f, q);
  }

  lemma PollPendingJobs(f: Outcomes, q: seq<Task>, next: Task)
    requires q != [] && AllTerminate(f, q) && PendingSoFar(f, q[0]) && f(q[0].id, q[0].polls).None?
    requires next == Task(q[0].id, q[0].polls + 1)
    ensures AllTerminate(f, q[1..] + [next]) && Jobs(f, q)[0].need != 1
    ensures Jobs(f, q[1..] + [next]) == PollJobs(Jobs(f, q))
  {
    JobsOfTail(f, q);
    HeadPoll(f, q);
    JobsPush(f, q[1..], next);
  }

  /** What one call leaves in the queue. */
  function Polled(f: Outcomes, q: seq<Task>): seq<Task>
    requires q != []
  {
    if f(q[0].id, q[0].polls).Some? then q[1..] else q[1..] + [Task(q[0].id, q[0].polls + 1)]
  }

  lemma PolledJobs(f: Outcomes, q: seq<Task>)
    requires AllTerminate(f, q) && q != [] && PendingSoFar(f, q[0])
    ensures AllTerminate(f, Polled(f, q)) && Jobs(f, Polled(f, q)) == PollJobs(Jobs(f, q))
    ensures f(q[0].id, q[0].polls).Some? <==> Jobs(f, q)[0].need == 1
  {
    if f(q[0].id, q[0].polls).Some? {
      PollReadyJobs(f, q);
    } else {
      PollPendingJobs(f, q, Task(q[0].id, q[0].polls + 1));
    }
  }

  /** One call of `poll` is one step of the abstract queue. */
  lemma PollIsPollJobs(f: Outcomes, s: Queue)
    requires AllTerminate(f, s.polling) && s.polling != [] && PendingSoFar(f, s.polling[0])
    ensures AllTerminate(f, PollQueue(f, s).polling)
    ensures Jobs(f, PollQueue(f, s).polling) == PollJobs(Jobs(f, s.polling))
    ensures f(s.polling[0].id, s.polling[0].polls).Some? <==> Jobs(f, s.polling)[0].need == 1
  {
    assert PollQueue(f, s).polling == Polled(f, s.polling);
    PolledJobs(f, s.polling);
  }

  lemma AllDelivered(f: Outcomes, s: Queue)
    requires QueueOk(f, s) && s.polling == []
    ensures forall id: nat :: id < s.count ==>
              id in s.outputs && |s.outputs[id]| == 1 && Result(f, id, s.outputs[id][0])
  {
    forall id: nat | id < s.count
      ensures id in s.outputs && |s.outputs[id]| == 1 && Result(f, id, s.outputs[id][0])
    {
      assert HandleOk(f, s, id);
    }
  }

  /** `left` is what the queued tasks still need. */
  ghost predicate Counts(f: Outcomes, q: seq<Task>, left: seq<Job>) {
    AllTerminate(f, q) && left == Jobs(f, q)
  }

  lemma FirstIsPending(f: Outcomes, s: Queue)
    requires QueueOk(f, s) && s.polling != []
    ensures PendingSoFar(f, s.polling[0])
  {
  }

  function NewTasks(first: nat, n: nat): (tasks: seq<Task>)
    ensures |tasks| == n && forall i :: 0 <= i < n ==> tasks[i] == Task(first + i, 0)
  {
    seq(n, i requires 0 <= i < n => Task(first + i, 0))
  }

  class Executor {
    var polling: seq<Task>
    var outputs: map<nat, seq<int>>   // what each handle has received
    var count: nat                    // tasks spawned; numbers the handles
    const outcome: Outcomes

    ghost function View(): Queue
      reads this
    {
      Queue(polling, outputs, count)
    }

    ghost predicate Valid()
      reads this
    {
      QueueOk(outcome, View())
    }

    constructor (outcome: Outcomes)
      ensures Valid() && this.outcome == outcome && View() == Queue([], map[], 0)
    {
      this.outcome := outcome;
      polling, outputs, count := [], map[], 0;
    }

    method Spawn() returns (id: nat)
      requires Valid()
      modifies this
      ensures Valid() && id == old(count) && View() == SpawnQueue(old(View()))
      ensures polling == old(polling) + [Task(id, 0)] && outputs == old(outputs)[id := []] && count == id + 1
    {
      SpawnOk(outcome, View());
      id := count;
      polling := polling + [Task(id, 0)];
      outputs := outputs[id := []];
      count := count + 1;
    }

    /** `n` spawns: the handles are numbered in order, and so are the tasks in the queue. */
    method SpawnAll(n: nat)
      requires Valid()
      modifies this
      ensures Valid() && count == old(count) + n && polling == old(polling) + NewTasks(old(count), n)
    {
      for i := 0 to n
        invariant Valid() && count == old(count) + i && polling == old(polling) + NewTasks(old(count), i)
      {
        var _ := Spawn();
      }
    }

    method Poll() returns (finished: Option<nat>)
      requires Valid()
      modifies this`polling, this`outputs
      ensures Valid() && View() == PollQueue(outcome, old(View()))
      ensures finished == if old(polling) == [] then None else
                          var t := old(polling)[0];
                          if outcome(t.id, t.polls).Some? then Some(t.id) else None
    {
      finished := None;
      if polling == [] {
        return;
      }
      PollOk(outcome, View());
      var task := polling[0];
      polling := polling[1..];
      match outcome(task.id, task.polls)
      case Some(v) =>
        outputs := outputs[task.id := outputs[task.id] + [v]];
        finished := Some(task.id);
      case None =>
        polling := polling + [Task(task.id, task.polls + 1)];
    }

    /** Polls until the queue is empty: the tasks finish on exactly the calls of the
        closed form, and every handle then has its result. */
    method Drain() returns (calls: nat, log: seq<(nat, nat)>)
      requires Valid() && AllTerminate(outcome, polling)
      modifies this`polling, this`outputs
      ensures Valid() && polling == []
      ensures calls == Total(Jobs(outcome, old(polling)))
      ensures log == Log(Jobs(outcome, old(polling)), 0)
      ensures forall id: nat :: id < count ==>
                id in outputs && |outputs[id]| == 1 && Result(outcome, id, outputs[id][0])
    {
      calls, log := 0, [];
      ghost var jobs := Jobs(outcome, polling);
      ghost var left := jobs;
      while polling != []
        invariant Valid() && Counts(outcome, polling, left) && count == old(count)
        invariant OnSchedule(jobs, left, calls, log)
        decreases Total(left)
      {
        FirstIsPending(outcome, View());
        PollIsPollJobs(outcome, View());
        PollJobsSmaller(left);
        ScheduleStep(jobs, left, calls, log);
        var finished := Poll();
        calls := calls + 1;
        if finished.Some? {
          log := log + [(finished.value, calls)];
        }
        left := PollJobs(left);
      }
      AllDelivered(outcome, View());
    }
  }

  // ---------- both executors deliver the same ----------

  datatype Call = SpawnCall | PollCall

  /** Any interleaving of spawns and polls, from a new executor. */
  function After(f: Outcomes, calls: seq<Call>): Queue
    decreases |calls|
  {
    if calls == [] then Queue([], map[], 0)
    else
      var before := After(f, calls[..|calls| - 1]);
      if calls[|calls| - 1].SpawnCall? then SpawnQueue(before) else PollQueue(f, before)
  }

  lemma {:induction false} AfterOk(f: Outcomes, calls: seq<Call>)
    ensures QueueOk(f, After(f, calls))
    decreases |calls|
  {
    if calls != [] {
      var before := After(f, calls[..|calls| - 1]);
      AfterOk(f, calls[..|calls| - 1]);
      if calls[|calls| - 1].SpawnCall? {
        SpawnOk(f, before);
      } else if before.polling != [] {
        PollOk(f, before);
      }
    }
  }

  /** After `n` spawns and no poll, handle number `i` is at position `i` of the queue. */
  lemma {:induction false} SpawnedInOrder(f: Outcomes, calls: seq<Call>)
    requires PollCall !in calls
    ensures var s := After(f, calls);
            && s.count == |calls| && |s.polling| == |calls|
            && forall i :: 0 <= i < |calls| ==> s.polling[i] == Task(i, 0)
    decreases |calls|
  {
    if calls != [] {
      var n := |calls| - 1;
      assert calls[n] in calls;
      SpawnedInOrder(f, calls[..n]);
    }
  }

  /** What the handles of a new executor need after `n` spawns, by their numbers. */
  ghost function NewJobs(f: Outcomes, n: nat): (jobs: seq<Job>)
    requires AllTerminate(f, NewTasks(0, n))
    ensures |jobs| == n && Live(jobs) && forall p :: 0 <= p < n ==> jobs[p].id == p
  {
    Jobs(f, NewTasks(0, n))
  }

  /** Every handle has received one value, its future's result. */
  ghost predicate Delivered(f: Outcomes, n: nat, outputs: map<nat, seq<int>>) {
    forall id: nat :: id < n ==> id in outputs && |outputs[id]| == 1 && Result(f, id, outputs[id][0])
  }

  /** A new executor, `n` spawns, and polls until nothing is queued: each handle finishes on
      the call of the closed form; a handle finishes before another if and only if its
      future needs fewer polls, or as many and it was spawned before; and each has its result. */
  method SpawnAndDrain(f: Outcomes, n: nat)
    returns (calls: nat, log: seq<(nat, nat)>, outputs: map<nat, seq<int>>)
    requires AllTerminate(f, NewTasks(0, n))
    ensures log == Log(NewJobs(f, n), 0) && calls == Total(NewJobs(f, n))
    ensures OnTime(NewJobs(f, n), log) && SortedByNeed(NewJobs(f, n)) && Delivered(f, n, outputs)
  {
    var executor := new Executor(f);
    executor.SpawnAll(n);
    assert executor.polling == NewTasks(0, n);
    LogOnTime(NewJobs(f, n));
    AlwaysSortedByNeed(NewJobs(f, n));
    calls, log := executor.Drain();
    outputs := executor.outputs;
  }

  /** Given the same futures, the wake-driven executor, whatever wakes it gets, and the
      round-robin executor, whatever the interleaving of spawns and polls, deliver the
      same one value to every handle. */
  lemma ExecutorsAgree(f: Outcomes, actions: seq<WakeModel.Action>, s: WakeModel.State, calls: seq<Call>, id: nat)
    requires WakeModel.Run(f, WakeModel.NEW, actions) == Some(s) && s.place.Finished? && id < s.count
    requires After(f, calls).polling == [] && id < After(f, calls).count
    ensures id in s.outputs && id in After(f, calls).outputs
    ensures |s.outputs[id]| == 1 && s.outputs[id] == After(f, calls).outputs[id]
  {
    var q := After(f, calls);
    AfterOk(f, calls);
    AllDelivered(f, q);
    WakeTheorems.EveryHandleGetsItsResult(f, actions, s, id);
    ResultUnique(f, id, q.outputs[id][0], s.outputs[id][0]);
  }

  // ---------- the concrete future of the source ----------

  class CountingFuture {
    var count: int

    constructor (count: int)
      ensures this.count == count
    {
      this.count := count;
    }

    method Poll() returns (r: Option<int>)
      modifies this
      ensures count == old(count) + 1
      ensures r == if count == 4 then Some(count) else None
    {
      count := count + 1;
      if count == 4 {
        r := Some(count);
      } else {
        r := None;
      }
    }
  }

  /** A counting future that starts at zero: `n` polls ago its count was zero. */
  function Counting(id: nat, n: nat): Option<int> { if n + 1 == 4 then Some(4) else None }

  /** Polling a new counting future again and again answers as `Counting` says. */
  method PollCounting(id: nat, n: nat) returns (last: Option<int>)
    ensures last == Counting(id, n)
  {
    var future := new CountingFuture(0);
    last := future.Poll();
    for i := 0 to n
      invariant fresh(future) && future.count == i + 1 && last == Counting(id, i)
    {
      last := future.Poll();
    }
  }

  lemma CountingNeedsFour(t: Task)
    requires t.polls == 0
    ensures Terminates(Counting, t) && Need(Counting, t) == 4 && Result(Counting, t.id, 4)
  {
    assert FinishesAt(Counting, t.id, 3, 4);
    NeedUnique(Counting, t, 4);
  }

  lemma CountingJobs(q: seq<Task>)
    requires forall i :: 0 <= i < |q| ==> q[i].polls == 0
    ensures AllTerminate(Counting, q) && AllNeed(Jobs(Counting, q), 4)
  {
    forall i | 0 <= i < |q|
      ensures Terminates(Counting, q[i]) && Need(Counting, q[i]) == 4
    {
      CountingNeedsFour(q[i]);
    }
  }

  /** Counting futures finish on their fourth poll with the value 4; `n` of them, polled
      round robin, finish in spawn order on the calls 3n + 1 to 4n. */
  lemma {:induction false} CountingFutures(q: seq<Task>, p: nat)
    requires p < |q| && forall i :: 0 <= i < |q| ==> q[i].polls == 0
    ensures AllTerminate(Counting, q) && Result(Counting, q[p].id, 4)
    ensures (q[p].id, 3 * |q| + p + 1) in Log(Jobs(Counting, q), 0)
  {
    CountingNeedsFour(q[p]);
    CountingJobs(q);
    CountingLog(Jobs(Counting, q), p);
  }

  lemma CountingNewJobs(n: nat)
    ensures AllTerminate(Counting, NewTasks(0, n)) && AllNeed(NewJobs(Counting, n), 4)
    ensures Total(NewJobs(Counting, n)) == 4 * n
  {
    CountingJobs(NewTasks(0, n));
    TotalEqual(NewJobs(Counting, n), 4);
  }

  lemma CountingEntry(n: nat, p: nat, log: seq<(nat, nat)>)
    requires AllTerminate(Counting, NewTasks(0, n)) && AllNeed(NewJobs(Counting, n), 4) && p < n
    requires log == Log(NewJobs(Counting, n), 0)
    ensures p < |log| && log[p] == (p, 3 * n + p + 1)
  {
    CountingLogEntry(NewJobs(Counting, n), p);
  }

  lemma CountingResult(n: nat, outputs: map<nat, seq<int>>, p: nat)
    requires Delivered(Counting, n, outputs) && p < n
    ensures p in outputs && outputs[p] == [4]
  {
    CountingNeedsFour(Task(p, 0));
    ResultUnique(Counting, p, outputs[p][0], 4);
  }

  /** `n` counting futures, spawned one after the other and drained: handle number `p` is the
      one that finishes on call 3n + p + 1, with the value 4. */
  method DrainCounting(n: nat) returns (calls: nat, log: seq<(nat, nat)>, outputs: map<nat, seq<int>>)
    ensures calls == 4 * n && |log| == n
    ensures forall p: nat :: p < n ==> log[p] == (p, 3 * n + p + 1) && p in outputs && outputs[p] == [4]
  {
    CountingNewJobs(n);
    calls, log, outputs := SpawnAndDrain(Counting, n);
    forall p: nat | p < n
      ensures log[p] == (p, 3 * n + p + 1) && p in outputs && outputs[p] == [4]
    {
      CountingEntry(n, p, log);
      CountingResult(n, outputs, p);
    }
  }
}
