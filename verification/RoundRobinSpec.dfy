/** When round-robin polling finishes each task, in closed form. */
module RoundRobinSpec {

  /** A queued task and the number of polls it still needs. */
  datatype Job = Job(id: nat, need: nat)

  predicate Live(q: seq<Job>) { forall i :: 0 <= i < |q| ==> q[i].need > 0 }

  function Min(a: nat, b: nat): nat { if a < b then a else b }

  /** The queue after one call of `poll`. */
  function PollJobs(q: seq<Job>): seq<Job>
    requires q != [] && Live(q)
  {
    if q[0].need == 1 then q[1..] else q[1..] + [Job(q[0].id, q[0].need - 1)]
  }

  function Total(q: seq<Job>): nat
    decreases |q|
  {
    if q == [] then 0 else q[0].need + Total(q[1..])
  }

  /** The sum of min(need, cap) over a queue. */
  function Capped(q: seq<Job>, cap: nat): nat
    decreases |q|
  {
    if q == [] then 0 else Min(q[0].need, cap) + Capped(q[1..], cap)
  }

  /** The call on which the task at position `p` finishes. */
  function FinishCall(q: seq<Job>, p: nat): nat
    requires p < |q| && Live(q)
  {
    Capped(q[..p + 1], q[p].need) + Capped(q[p + 1..], q[p].need - 1)
  }

  lemma {:induction false} TotalPush(q: seq<Job>, j: Job)
    ensures Total(q + [j]) == Total(q) + j.need
    decreases |q|
  {
    if q == [] {
      assert [j][1..] == [];
    } else {
      assert (q + [j])[1..] == q[1..] + [j];
      TotalPush(q[1..], j);
    }
  }

  lemma {:induction false} CappedConcat(a: seq<Job>, b: seq<Job>, cap: nat)
    ensures Capped(a + b, cap) == Capped(a, cap) + Capped(b, cap)
    decreases |a|
  {
    if a == [] {
      assert a + b == b;
    } else {
      assert (a + b)[1..] == a[1..] + b;
      CappedConcat(a[1..], b, cap);
    }
  }

  lemma CappedOne(j: Job, cap: nat)
    ensures Capped([j], cap) == Min(j.need, cap)
  {
    assert [j][1..] == [];
  }

  /** Every task polled to the end: which task finishes on which call. */
  function Log(q: seq<Job>, calls: nat): seq<(nat, nat)>
    requires Live(q)
    decreases Total(q)
  {
    if q == [] then []
    else
      TotalPush(q[1..], Job(q[0].id, q[0].need - 1));
      (if q[0].need == 1 then [(q[0].id, calls + 1)] else []) + Log(PollJobs(q), calls + 1)
  }

  lemma {:induction false} CappedZero(q: seq<Job>)
    ensures Capped(q, 0) == 0
    decreases |q|
  {
    if q != [] {
      CappedZero(q[1..]);
    }
  }

  /** One call brings every other task one call closer to its end. */
  lemma OneCallCloser(q: seq<Job>, p: nat)
    requires 0 < p < |q| && Live(q)
    ensures FinishCall(q, p) == FinishCall(PollJobs(q), p - 1) + 1
  {
    var k := q[p].need;
    var rest := PollJobs(q);
    assert q[..p + 1] == [q[0]] + q[1..p + 1];
    CappedOne(q[0], k);
    CappedConcat([q[0]], q[1..p + 1], k);
    assert rest[..p] == q[1..p + 1];
    if q[0].need == 1 {
      assert rest[p..] == q[p + 1..];
    } else {
      var back := Job(q[0].id, q[0].need - 1);
      assert rest[p..] == q[p + 1..] + [back];
      CappedConcat(q[p + 1..], [back], k - 1);
      CappedOne(back, k - 1);
    }
  }

  /** An unfinished head goes to the back, one call closer to its end. */
  lemma HeadGoesRound(q: seq<Job>)
    requires q != [] && Live(q)
    ensures q[0].need == 1 ==> FinishCall(q, 0) == 1
    ensures q[0].need > 1 ==> FinishCall(q, 0) == FinishCall(PollJobs(q), |q| - 1) + 1
  {
    var k := q[0].need;
    assert q[..1] == [q[0]];
    CappedOne(q[0], k);
    if k == 1 {
      CappedZero(q[1..]);
    } else {
      var back := Job(q[0].id, k - 1);
      var rest := PollJobs(q);
      assert rest[..|q|] == q[1..] + [back] && rest[|q|..] == [];
      CappedConcat(q[1..], [back], k - 1);
      CappedOne(back, k - 1);
    }
  }

  lemma PollJobsSmaller(q: seq<Job>)
    requires q != [] && Live(q)
    ensures Live(PollJobs(q)) && Total(PollJobs(q)) == Total(q) - 1
  {
    TotalPush(q[1..], Job(q[0].id, q[0].need - 1));
  }

  lemma LogUnfold(q: seq<Job>, calls: nat)
    requires q != [] && Live(q)
    ensures Live(PollJobs(q))
    ensures Log(q, calls) == (if q[0].need == 1 then [(q[0].id, calls + 1)] else []) + Log(PollJobs(q), calls + 1)
    ensures forall e :: e in Log(PollJobs(q), calls + 1) ==> e in Log(q, calls)
  {
    PollJobsSmaller(q);
  }

  /** Task `p` finishes on exactly the call the closed form gives, counted from now. */
  lemma {:induction false} FinishesOnTime(q: seq<Job>, calls: nat, p: nat)
    requires Live(q) && p < |q|
    ensures (q[p].id, calls + FinishCall(q, p)) in Log(q, calls)
    decreases Total(q)
  {
    PollJobsSmaller(q);
    LogUnfold(q, calls);
    if p > 0 {
      OneCallCloser(q, p);
      FinishesOnTime(PollJobs(q), calls + 1, p - 1);
    } else {
      HeadGoesRound(q);
      if q[0].need > 1 {
        FinishesOnTime(PollJobs(q), calls + 1, |q| - 1);
      }
    }
  }

  /** One entry per task, and the calls in the log go up from `calls` to the total
      need: the queue is empty after exactly that many calls, and no sooner. */
  lemma {:induction false} LogShape(q: seq<Job>, calls: nat)
    requires Live(q)
    ensures |Log(q, calls)| == |q|
    ensures forall i :: 0 <= i < |q| ==> calls < Log(q, calls)[i].1 <= calls + Total(q)
    ensures forall i, j :: 0 <= i < j < |q| ==> Log(q, calls)[i].1 < Log(q, calls)[j].1
    ensures q != [] ==> Log(q, calls)[|q| - 1].1 == calls + Total(q)
    decreases Total(q)
  {
    if q != [] {
      PollJobsSmaller(q);
      LogUnfold(q, calls);
      LogShape(PollJobs(q), calls + 1);
    }
  }

  /** After `calls` calls, with `left` still queued, `log` is the part of the whole
      log written so far. */
  ghost predicate OnSchedule(jobs: seq<Job>, left: seq<Job>, calls: nat, log: seq<(nat, nat)>) {
    Live(jobs) && Live(left) && calls + Total(left) == Total(jobs) && log + Log(left, calls) == Log(jobs, 0)
  }

  lemma ScheduleStep(jobs: seq<Job>, left: seq<Job>, calls: nat, log: seq<(nat, nat)>)
    requires OnSchedule(jobs, left, calls, log) && left != []
    ensures OnSchedule(jobs, PollJobs(left), calls + 1,
                       if left[0].need == 1 then log + [(left[0].id, calls + 1)] else log)
  {
    PollJobsSmaller(left);
    LogUnfold(left, calls);
    var rest := Log(PollJobs(left), calls + 1);
    if left[0].need == 1 {
      assert log + ([(left[0].id, calls + 1)] + rest) == (log + [(left[0].id, calls + 1)]) + rest;
    } else {
      assert [] + rest == rest;
    }
  }

  // ---------- completion order ----------

  lemma {:induction false} CappedMonotone(q: seq<Job>, a: nat, b: nat)
    requires a <= b
    ensures Capped(q, a) <= Capped(q, b)
    decreases |q|
  {
    if q != [] {
      CappedMonotone(q[1..], a, b);
    }
  }

  lemma {:induction false} CappedStrict(q: seq<Job>, a: nat, b: nat)
    requires a < b && q != [] && q[|q| - 1].need > a
    ensures Capped(q, a) < Capped(q, b)
    decreases |q|
  {
    if |q| > 1 {
      assert q[1..][|q| - 2] == q[|q| - 1];
      CappedStrict(q[1..], a, b);
    }
  }

  /** Cutting a prefix or a suffix in two. */
  lemma CappedSplit(q: seq<Job>, i: nat, j: nat, cap: nat)
    requires i <= j <= |q|
    ensures Capped(q[..j], cap) == Capped(q[..i], cap) + Capped(q[i..j], cap)
    ensures Capped(q[i..], cap) == Capped(q[i..j], cap) + Capped(q[j..], cap)
  {
    assert q[..j] == q[..i] + q[i..j] && q[i..] == q[i..j] + q[j..];
    CappedConcat(q[..i], q[i..j], cap);
    CappedConcat(q[i..j], q[j..], cap);
  }

  /** The earlier and the later task's finishing calls, over the queue cut after each. */
  lemma EarlierParts(q: seq<Job>, i: nat, j: nat)
    requires Live(q) && i < j < |q|
    ensures FinishCall(q, i) == Capped(q[..i + 1], q[i].need) + Capped(q[i + 1..j + 1], q[i].need - 1)
                                + Capped(q[j + 1..], q[i].need - 1)
  {
    CappedSplit(q, i + 1, j + 1, q[i].need - 1);
  }

  lemma LaterParts(q: seq<Job>, i: nat, j: nat)
    requires Live(q) && i < j < |q|
    ensures FinishCall(q, j) == Capped(q[..i + 1], q[j].need) + Capped(q[i + 1..j + 1], q[j].need)
                                + Capped(q[j + 1..], q[j].need - 1)
  {
    CappedSplit(q, i + 1, j + 1, q[j].need);
  }

  /** With as many polls needed, the earlier task finishes first. */
  lemma {:induction false} EarlierFirst(q: seq<Job>, i: nat, j: nat)
    requires Live(q) && i < j < |q| && q[i].need <= q[j].need
    ensures FinishCall(q, i) < FinishCall(q, j)
  {
    var a, b := q[i].need, q[j].need;
    var between := q[i + 1..j + 1];
    EarlierParts(q, i, j);
    LaterParts(q, i, j);
    CappedMonotone(q[..i + 1], a, b);
    CappedMonotone(q[j + 1..], a - 1, b - 1);
    assert between[|between| - 1] == q[j];
    CappedStrict(between, a - 1, b);
  }

  /** The later task finishes first when it needs fewer polls. */
  lemma {:induction false} FewerFirst(q: seq<Job>, i: nat, j: nat)
    requires Live(q) && i < j < |q| && q[j].need < q[i].need
    ensures FinishCall(q, j) < FinishCall(q, i)
  {
    var a, b := q[i].need, q[j].need;
    EarlierParts(q, i, j);
    LaterParts(q, i, j);
    CappedStrict(q[..i + 1], b, a);
    CappedMonotone(q[i + 1..j + 1], b, a - 1);
    CappedMonotone(q[j + 1..], b - 1, a - 1);
  }

  /** Completion order is spawn order stably sorted by the number of polls needed. */
  lemma StableByNeed(q: seq<Job>, i: nat, j: nat)
    requires Live(q) && i < |q| && j < |q| && i != j
    ensures FinishCall(q, i) < FinishCall(q, j) <==>
            q[i].need < q[j].need || (q[i].need == q[j].need && i < j)
  {
    if i < j {
      if q[i].need <= q[j].need {
        EarlierFirst(q, i, j);
      } else {
        FewerFirst(q, i, j);
      }
    } else {
      if q[j].need <= q[i].need {
        EarlierFirst(q, j, i);
      } else {
        FewerFirst(q, j, i);
      }
    }
  }

  lemma {:induction false} InLog(q: seq<Job>, p: nat, entry: (nat, nat))
    requires Live(q) && p < |q| && entry == (q[p].id, FinishCall(q, p))
    ensures entry in Log(q, 0)
  {
    FinishesOnTime(q, 0, p);
  }

  /** Each job's entry in the log is its call of the closed form. */
  ghost predicate OnTime(q: seq<Job>, log: seq<(nat, nat)>)
    requires Live(q)
  {
    |log| == |q| && forall p :: 0 <= p < |q| ==> (q[p].id, FinishCall(q, p)) in log
  }

  lemma {:induction false} LogOnTime(q: seq<Job>)
    requires Live(q)
    ensures OnTime(q, Log(q, 0))
  {
    LogShape(q, 0);
    forall p | 0 <= p < |q|
      ensures (q[p].id, FinishCall(q, p)) in Log(q, 0)
    {
      InLog(q, p, (q[p].id, FinishCall(q, p)));
    }
  }

  /** One job ends before another exactly if it needs fewer polls, or as many and is before it. */
  ghost predicate SortedByNeed(q: seq<Job>)
    requires Live(q)
  {
    forall i, j :: 0 <= i < |q| && 0 <= j < |q| && i != j ==>
      (FinishCall(q, i) < FinishCall(q, j) <==> q[i].need < q[j].need || (q[i].need == q[j].need && i < j))
  }

  lemma {:induction false} AlwaysSortedByNeed(q: seq<Job>)
    requires Live(q)
    ensures SortedByNeed(q)
  {
    forall i, j | 0 <= i < |q| && 0 <= j < |q| && i != j
      ensures FinishCall(q, i) < FinishCall(q, j) <==>
              q[i].need < q[j].need || (q[i].need == q[j].need && i < j)
    {
      StableByNeed(q, i, j);
    }
  }

  predicate AllNeed(q: seq<Job>, need: nat) { forall i :: 0 <= i < |q| ==> q[i].need == need }

  lemma {:induction false} CappedEqual(q: seq<Job>, need: nat, cap: nat)
    requires AllNeed(q, need)
    ensures Capped(q, cap) == |q| * Min(need, cap)
    decreases |q|
  {
    if q != [] {
      CappedEqual(q[1..], need, cap);
      var n := |q| - 1;
      assert (n + 1) * Min(need, cap) == n * Min(need, cap) + Min(need, cap);
    }
  }

  /** `n` counting futures, which need four polls each: number `p` is done on call 3n + p + 1. */
  lemma {:induction false} CountingFuturesFinish(q: seq<Job>, p: nat)
    requires p < |q| && AllNeed(q, 4)
    ensures FinishCall(q, p) == 3 * |q| + p + 1
  {
    CappedEqual(q[..p + 1], 4, 4);
    CappedEqual(q[p + 1..], 4, 3);
  }

  lemma {:induction false} CountingLog(q: seq<Job>, p: nat)
    requires p < |q| && AllNeed(q, 4)
    ensures (q[p].id, 3 * |q| + p + 1) in Log(q, 0)
  {
    CountingFuturesFinish(q, p);
    InLog(q, p, (q[p].id, 3 * |q| + p + 1));
  }

  lemma {:induction false} TotalEqual(q: seq<Job>, need: nat)
    requires AllNeed(q, need)
    ensures Total(q) == |q| * need
    decreases |q|
  {
    if q != [] {
      TotalEqual(q[1..], need);
      var n := |q| - 1;
      assert (n + 1) * need == n * need + need;
    }
  }

  /** Calls in a log go up by at least one from entry to entry. */
  lemma {:induction false} LogSpread(q: seq<Job>, i: nat)
    requires Live(q) && i < |Log(q, 0)|
    ensures |Log(q, 0)| == |q| && Log(q, 0)[i].1 + (|q| - 1 - i) <= Total(q)
    decreases |q| - i
  {
    LogShape(q, 0);
    if i + 1 < |q| {
      LogSpread(q, i + 1);
    }
  }

  /** Position `p` is entry `p` of the log, so the whole log is known. */
  lemma {:induction false} CountingLogEntry(q: seq<Job>, p: nat)
    requires p < |q| && AllNeed(q, 4)
    ensures p < |Log(q, 0)| && Log(q, 0)[p] == (q[p].id, 3 * |q| + p + 1)
    decreases |q| - p
  {
    var log := Log(q, 0);
    CountingLog(q, p);
    LogShape(q, 0);
    TotalEqual(q, 4);
    var k :| 0 <= k < |log| && log[k] == (q[p].id, 3 * |q| + p + 1);
    LogSpread(q, k);
    if p + 1 < |q| {
      CountingLogEntry(q, p + 1);
    }
  }
}
