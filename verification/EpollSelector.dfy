/** `IOSelector` as the source writes it: fields updated in place, one loop over a
    batch of events and one over the request queue. */
module EpollSelector {
  import opened Options
  import opened EpollIo

  class IOSelector {
    var wakers: map<nat, nat>
    var queue: seq<Op>
    var counter: nat
    var table: map<nat, nat>
    var interest: map<(nat, nat), bool>
    const event: nat

    ghost function View(): Io
      reads this
    {
      Io(wakers, queue, counter, table, interest)
    }

    constructor (event: nat, file: nat)
      ensures this.event == event
      ensures View() == Io(map[], [], 0, map[event := file], map[(event, file) := true])
    {
      this.event := event;
      wakers, queue, counter := map[], [], 0;
      table := map[event := file];
      interest := map[(event, file) := true];
    }

    method AddEvent(fd: nat, task: nat) returns (ok: bool)
      modifies this`interest, this`wakers
      ensures ok == EpollIo.AddEvent(old(View()), fd, task).Some?
      ensures ok ==> Some(View()) == EpollIo.AddEvent(old(View()), fd, task)
      ensures ok == (fd in table && fd !in old(wakers))
      ensures ok ==> fd in wakers && wakers[fd] == task && (fd, table[fd]) in interest && interest[(fd, table[fd])]
    {
      if fd !in table {
        return false;                      // epoll_ctl fails: the descriptor is closed
      }
      var entry := (fd, table[fd]);
      interest := interest[entry := true]; // EPOLL_CTL_ADD, or EPOLL_CTL_MOD on EEXIST
      if fd in wakers {
        return false;                      // the assertion fails
      }
      wakers := wakers[fd := task];
      ok := true;
    }

    method RmEvent(fd: nat)
      modifies this`interest, this`wakers
      ensures View() == EpollIo.RmEvent(old(View()), fd)
      ensures fd !in wakers && (fd in table ==> (fd, table[fd]) !in interest)
    {
      if fd in table {
        interest := interest - {(fd, table[fd])};
      }
      wakers := wakers - {fd};
    }

    /** The branch of the eventfd: perform every queued request, then clear it. */
    method DrainQueue() returns (ok: bool)
      modifies this`wakers, this`queue, this`counter, this`interest
      ensures ok == EpollIo.HandleEvent(old(View()), event, event).Handled?
      ensures ok ==> Handled(View(), None) == EpollIo.HandleEvent(old(View()), event, event)
    {
      while queue != []
        invariant PerformAll(View()) == PerformAll(old(View()))
        decreases |queue|
      {
        var op := queue[0];
        queue := queue[1..];
        match op
        case Add(fd, task) =>
          var added := AddEvent(fd, task);
          if !added {
            return false;
          }
        case Remove(fd) => RmEvent(fd);
      }
      if counter == 0 {
        return false;                      // read() would block
      }
      counter := 0;
      ok := true;
    }

    /** The body of the selector's loop for one batch returned by epoll_wait. */
    method Select(events: seq<nat>) returns (ok: bool, woken: seq<nat>)
      modifies this`wakers, this`queue, this`counter, this`interest
      ensures ok == HandleBatch(old(View()), event, events).Finished?
      ensures ok ==> Finished(View(), woken) == HandleBatch(old(View()), event, events)
    {
      ok, woken := true, [];
      for n := 0 to |events|
        invariant ok
        invariant Finished(View(), woken) == HandleBatch(old(View()), event, events[..n])
      {
        HandleBatchSnoc(old(View()), event, events[..n], events[n]);
        assert events[..n] + [events[n]] == events[..n + 1];
        assert events[..n + 1] + events[n + 1..] == events;
        var data := events[n];
        if data == event {
          ok := DrainQueue();
          if !ok {
            FailureSticks(old(View()), event, events[..n + 1], events[n + 1..]);
            return;
          }
        } else if data !in wakers {
          FailureSticks(old(View()), event, events[..n + 1], events[n + 1..]);
          return false, woken;             // unwrap of a missing waker
        } else {
          woken := woken + [wakers[data]];
          wakers := wakers - {data};
        }
      }
      assert events[..|events|] == events;
    }

    method Register(fd: nat, task: nat)
      modifies this`queue, this`counter
      ensures View() == WriteEventfd(PushRequest(old(View()), Add(fd, task)))
    {
      queue := queue + [Add(fd, task)];
      counter := counter + 1;
    }

    method Unregister(fd: nat)
      modifies this`queue, this`counter
      ensures View() == WriteEventfd(PushRequest(old(View()), Remove(fd)))
    {
      queue := queue + [Remove(fd)];
      counter := counter + 1;
    }
  }
}
