/** The epoll selector (`IOSelector`): its waker table, its request queue, its
    eventfd counter and the part of the kernel those calls touch.

    A registration in the kernel's interest list is keyed by the pair of a
    descriptor number and the open file behind it, and outlives the descriptor
    as long as another descriptor refers to the same file. */
module EpollIo {
  import opened Options

  /** A request for the selector thread (`IOOps`). */
  datatype Op = Add(fd: nat, task: nat) | Remove(fd: nat)

  datatype Io = Io(
    wakers: map<nat, nat>,           // descriptor -> task to wake
    queue: seq<Op>,                  // requests, oldest first
    counter: nat,                    // value of the eventfd
    table: map<nat, nat>,            // open descriptor -> open file
    interest: map<(nat, nat), bool>) // (descriptor, file) -> armed?

  /** Registers `fd` one-shot and stores its waker; None is a panic, either of
      `epoll_ctl` (the descriptor is closed) or of the assertion that the
      descriptor has no waker yet. An entry that exists is re-armed. */
  function AddEvent(io: Io, fd: nat, task: nat): Option<Io> {
    if fd !in io.table || fd in io.wakers then None
    else Some(io.(interest := io.interest[(fd, io.table[fd]) := true], wakers := io.wakers[fd := task]))
  }

  /** Forgets `fd`; a failing `epoll_ctl` is ignored. */
  function RmEvent(io: Io, fd: nat): Io {
    var interest := if fd in io.table then io.interest - {(fd, io.table[fd])} else io.interest;
    io.(interest := interest, wakers := io.wakers - {fd})
  }

  /** Takes the oldest request off the queue and carries it out. */
  function PerformHead(io: Io): Option<Io>
    requires io.queue != []
  {
    var rest := io.(queue := io.queue[1..]);
    match io.queue[0]
    case Add(fd, task) => AddEvent(rest, fd, task)
    case Remove(fd) => Some(RmEvent(rest, fd))
  }

  /** Carries out every request in order. */
  function PerformAll(io: Io): Option<Io>
    decreases |io.queue|
  {
    if io.queue == [] then Some(io)
    else
      var next := PerformHead(io);
      if next.None? then None else PerformAll(next.value)
  }

  /** No request from position `i` up to `j` is about descriptor `fd`. */
  ghost predicate Untouched(queue: seq<Op>, fd: nat, i: nat, j: nat) {
    forall k :: i <= k < j && k < |queue| ==> queue[k].fd != fd
  }

  /** After the first `n` requests `fd` has a waker: the last request for it was an ADD. */
  ghost predicate WakerAfter(io: Io, n: nat, fd: nat) {
    || (fd in io.wakers && Untouched(io.queue, fd, 0, n))
    || (exists i :: 0 <= i < n && i < |io.queue| && io.queue[i].Add? && io.queue[i].fd == fd
         && Untouched(io.queue, fd, i + 1, n))
  }

  /** An ADD panics: its descriptor is closed or has a waker already. */
  ghost predicate Panics(io: Io, n: nat) {
    && n < |io.queue| && io.queue[n].Add?
    && (io.queue[n].fd !in io.table || WakerAfter(io, n, io.queue[n].fd))
  }

  /** The same, counted from the second request. */
  lemma WakerStays(io: Io, n: nat, fd: nat)
    requires io.queue != [] && PerformHead(io).Some? && WakerAfter(io, n + 1, fd)
    ensures WakerAfter(PerformHead(io).value, n, fd)
  {
    var rest := PerformHead(io).value;
    assert forall k :: 0 <= k < |rest.queue| ==> rest.queue[k] == io.queue[k + 1];
    if !(fd in io.wakers && Untouched(io.queue, fd, 0, n + 1)) {
      var i :| 0 <= i < n + 1 && i < |io.queue| && io.queue[i].Add? && io.queue[i].fd == fd
               && Untouched(io.queue, fd, i + 1, n + 1);
      assert i > 0 ==> rest.queue[i - 1].Add? && Untouched(rest.queue, fd, i, n);
    }
  }

  lemma WakerWas(io: Io, n: nat, fd: nat)
    requires io.queue != [] && PerformHead(io).Some? && WakerAfter(PerformHead(io).value, n, fd)
    ensures WakerAfter(io, n + 1, fd)
  {
    var rest := PerformHead(io).value;
    assert forall k :: 0 <= k < |rest.queue| ==> rest.queue[k] == io.queue[k + 1];
    if fd in rest.wakers && Untouched(rest.queue, fd, 0, n) {
      assert Untouched(io.queue, fd, 1, n + 1);
    } else {
      var i :| 0 <= i < n && i < |rest.queue| && rest.queue[i].Add? && rest.queue[i].fd == fd
               && Untouched(rest.queue, fd, i + 1, n);
      assert io.queue[i + 1].Add? && Untouched(io.queue, fd, i + 2, n + 1);
    }
  }

  lemma PanicsLater(io: Io, n: nat)
    requires io.queue != [] && PerformHead(io).Some?
    ensures Panics(io, n + 1) <==> Panics(PerformHead(io).value, n)
    ensures !Panics(io, 0)
  {
    var rest := PerformHead(io).value;
    if n < |rest.queue| {
      if WakerAfter(io, n + 1, rest.queue[n].fd) {
        WakerStays(io, n, rest.queue[n].fd);
      }
      if WakerAfter(rest, n, rest.queue[n].fd) {
        WakerWas(io, n, rest.queue[n].fd);
      }
    }
  }

  /** Carrying out the requests panics if and only if one of them does. */
  lemma {:induction false} PerformAllFails(io: Io)
    ensures PerformAll(io).None? <==> exists n: nat :: Panics(io, n)
    decreases |io.queue|
  {
    if io.queue != [] {
      if PerformHead(io).None? {
        assert Panics(io, 0);
      } else {
        var rest := PerformHead(io).value;
        PerformAllFails(rest);
        forall n: nat
          ensures Panics(io, n + 1) <==> Panics(rest, n)
        {
          PanicsLater(io, n);
        }
        if n: nat :| Panics(io, n) {
          PanicsLater(io, n);
          assert Panics(rest, n - 1);
        }
      }
    }
  }

  /** The last request for a descriptor decides: after an ADD its waker is that task and it
      is armed, after a REMOVE it has neither waker nor entry. */
  lemma {:induction false} LastRequestDecides(io: Io, i: nat)
    requires PerformAll(io).Some? && i < |io.queue| && Untouched(io.queue, io.queue[i].fd, i + 1, |io.queue|)
    ensures var done := PerformAll(io).value;
            var fd := io.queue[i].fd;
            match io.queue[i]
            case Add(_, task) =>
              && fd in done.wakers && done.wakers[fd] == task
              && fd in io.table && (fd, io.table[fd]) in done.interest && done.interest[(fd, io.table[fd])]
            case Remove(_) =>
              fd !in done.wakers && (fd in io.table ==> (fd, io.table[fd]) !in done.interest)
    decreases |io.queue|
  {
    var rest := PerformHead(io).value;
    if i == 0 {
      var fd := io.queue[0].fd;
      UnaskedStays(rest, fd, if fd in io.table then io.table[fd] else 0);
    } else {
      LastRequestDecides(rest, i - 1);
    }
  }

  /** Descriptors without a request keep their waker and their entries; nothing is opened
      or closed, and the eventfd is left alone. */
  lemma {:induction false} UnaskedStays(io: Io, fd: nat, file: nat)
    requires PerformAll(io).Some? && Untouched(io.queue, fd, 0, |io.queue|)
    ensures var done := PerformAll(io).value;
            && done.queue == [] && done.table == io.table && done.counter == io.counter
            && (fd in done.wakers <==> fd in io.wakers)
            && (fd in io.wakers ==> done.wakers[fd] == io.wakers[fd])
            && ((fd, file) in done.interest <==> (fd, file) in io.interest)
            && ((fd, file) in io.interest ==> done.interest[(fd, file)] == io.interest[(fd, file)])
    decreases |io.queue|
  {
    if io.queue != [] {
      UnaskedStays(PerformHead(io).value, fd, file);
    }
  }

  function PushRequest(io: Io, op: Op): Io { io.(queue := io.queue + [op]) }

  function WriteEventfd(io: Io): Io { io.(counter := io.counter + 1) }

  /** How one event of a batch ends: it is handled, the thread panics, or the
      thread blocks reading a zero eventfd. */
  datatype Outcome = Handled(io: Io, woken: Option<nat>) | Panic | Stuck

  function HandleEvent(io: Io, event: nat, data: nat): Outcome {
    if data == event then
      match PerformAll(io)
      case None => Panic
      case Some(drained) => if drained.counter == 0 then Stuck else Handled(drained.(counter := 0), None)
    else if data !in io.wakers then Panic
    else Handled(io.(wakers := io.wakers - {data}), Some(io.wakers[data]))
  }

  /** How a batch ends: the final state and the tasks sent to the executor. */
  datatype Batch = Finished(io: Io, woken: seq<nat>) | Failed

  function HandleBatch(io: Io, event: nat, events: seq<nat>): Batch
    decreases |events|
  {
    if events == [] then Finished(io, [])
    else
      match HandleEvent(io, event, events[0])
      case Panic => Failed
      case Stuck => Failed
      case Handled(next, woken) =>
        match HandleBatch(next, event, events[1..])
        case Failed => Failed
        case Finished(last, more) => Finished(last, (if woken.Some? then [woken.value] else []) + more)
  }

  /** Handling a longer batch is handling the first part, then one more event. */
  lemma {:induction false} HandleBatchSnoc(io: Io, event: nat, events: seq<nat>, data: nat)
    ensures HandleBatch(io, event, events + [data])
         == match HandleBatch(io, event, events)
            case Failed => Failed
            case Finished(mid, woken) =>
              match HandleEvent(mid, event, data)
              case Panic => Failed
              case Stuck => Failed
              case Handled(last, w) => Finished(last, woken + if w.Some? then [w.value] else [])
    decreases |events|
  {
    if events == [] {
      assert [data][1..] == [];
    } else {
      assert (events + [data])[1..] == events[1..] + [data];
      match HandleEvent(io, event, events[0])
      case Panic =>
      case Stuck =>
      case Handled(next, woken) => HandleBatchSnoc(next, event, events[1..], data);
    }
  }

  /** Once a batch has failed, no later event can repair it. */
  lemma {:induction false} FailureSticks(io: Io, event: nat, done: seq<nat>, rest: seq<nat>)
    requires HandleBatch(io, event, done).Failed?
    ensures HandleBatch(io, event, done + rest).Failed?
    decreases |rest|
  {
    if rest == [] {
      assert done + rest == done;
    } else {
      HandleBatchSnoc(io, event, done, rest[0]);
      assert done + [rest[0]] + rest[1..] == done + rest;
      FailureSticks(io, event, done + [rest[0]], rest[1..]);
    }
  }
}
