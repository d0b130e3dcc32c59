/** Futures that share no state: what a poll returns depends only on the task and on
    how often it has been polled. A future that also reads the clock or a socket is,
    in any one run, such a future. */
module Futures {
  import opened Options

  /** `f(id, n)`: the outcome of task `id`'s poll after `n` earlier ones; None is Pending. */
  type Outcomes = (nat, nat) -> Option<int>

  datatype Task = Task(id: nat, polls: nat)

  /** All the polls made so far were pending. */
  predicate PendingSoFar(f: Outcomes, t: Task) { forall n: nat :: n < t.polls ==> f(t.id, n).None? }

  /** Polling task `id` alone, again and again, ends with `v` on poll number `n + 1`. */
  predicate FinishesAt(f: Outcomes, id: nat, n: nat, v: int) {
    PendingSoFar(f, Task(id, n)) && f(id, n) == Some(v)
  }

  ghost predicate Result(f: Outcomes, id: nat, v: int) {
    exists n: nat :: FinishesAt(f, id, n, v)
  }

  lemma ResultUnique(f: Outcomes, id: nat, v: int, w: int)
    requires Result(f, id, v) && Result(f, id, w)
    ensures v == w
  {
    var n: nat :| FinishesAt(f, id, n, v);
    var m: nat :| FinishesAt(f, id, m, w);
    assert n < m ==> f(id, n).None?;
    assert m < n ==> f(id, m).None?;
  }
}
