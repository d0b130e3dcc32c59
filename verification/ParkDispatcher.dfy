/** The two loops of the server as the source writes them. */
module ParkDispatcher {
  import opened Options
  import opened ParkModel
  import opened ParkTheorems

  /** Every third element from position `from`: what one worker is dealt. */
  function Dealt(streams: seq<Conn>, from: nat): seq<Conn>
    decreases |streams|
  {
    if streams == [] then []
    else
      var rest := Dealt(streams[1..], if from == 0 then WORKERS - 1 else from - 1);
      if from == 0 then [streams[0]] + rest else rest
  }

  /** How far worker `w` is ahead of the dispatcher's index. */
  function Ahead(w: nat, index: nat): nat
    requires w < WORKERS && index < WORKERS
  {
    if index <= w then w - index else w + WORKERS - index
  }

  lemma NextIsModular(start: nat, n: nat)
    ensures Next((start + n) % WORKERS) == (start + n + 1) % WORKERS
  {
  }

  lemma {:induction false} DealtSnoc(streams: seq<Conn>, c: Conn, w: nat, index: nat)
    requires w < WORKERS && index < WORKERS
    ensures Dealt(streams + [c], Ahead(w, index))
         == Dealt(streams, Ahead(w, index)) + if (index + |streams|) % WORKERS == w then [c] else []
    decreases |streams|
  {
    if streams == [] {
      assert [c][1..] == [];
    } else {
      assert (streams + [c])[1..] == streams[1..] + [c];
      DealtSnoc(streams[1..], c, w, Next(index));
      assert (Next(index) + |streams[1..]|) % WORKERS == (index + |streams|) % WORKERS;
      assert Ahead(w, Next(index)) == if Ahead(w, index) == 0 then WORKERS - 1 else Ahead(w, index) - 1;
    }
  }

  /** The tasks of a worker that is about to poll: a connection just received is the last. */
  function Queued(w: Worker): seq<Conn> { if w.chan == [] then w.tasks else w.tasks + [w.chan[0]] }

  /** `executor.poll()` with these tasks: the first is polled; if it is not ready it goes to
      the back, and no task is lost. */
  ghost predicate PolledOnce(was: Worker, tasks: seq<Conn>, ready: bool, now: Worker) {
    && multiset(tasks) + multiset(was.finished) == multiset(now.tasks) + multiset(now.finished)
    && now.polled == (if tasks == [] then was.polled else was.polled + [tasks[0]])
    && now.finished == (if ready && tasks != [] then was.finished + [tasks[0]] else was.finished)
    && now.tasks == (if tasks == [] then [] else if ready then tasks[1..] else tasks[1..] + [tasks[0]])
  }

  method PollExecutor(me: Worker, ready: bool) returns (now: Worker)
    ensures now == Poll(me, ready) && PolledOnce(me, me.tasks, ready, now)
  {
    now := me.(place := Top);
    if me.tasks != [] {
      var task := me.tasks[0];
      assert me.tasks == [task] + me.tasks[1..];
      now := now.(tasks := me.tasks[1..], polled := me.polled + [task]);
      if ready {
        now := now.(finished := me.finished + [task]);
      } else {
        now := now.(tasks := now.tasks + [task]);
      }
    }
  }

  class Server {
    var workers: seq<Worker>
    var index: nat

    ghost predicate Ok()
      reads this
    {
      |workers| == WORKERS && index < WORKERS
    }

    ghost function View(): State
      reads this
    {
      State(workers, index, Accepting)
    }

    constructor ()
      ensures Ok() && View() == START
    {
      workers := [IDLE, IDLE, IDLE];
      index := 0;
    }

    /** The accepting thread handles one connection without being interrupted. */
    method Dispatch(c: Conn)
      requires Ok()
      modifies this
      ensures Ok()
      ensures index == Next(old(index))
      ensures |workers| == WORKERS
      ensures forall w :: 0 <= w < WORKERS && w != old(index) ==> workers[w] == old(workers)[w]
      ensures var was := Check(SendTo(old(workers)[old(index)], c));
              workers[old(index)] == if was.flag then was.(flag := false, token := true) else was
      ensures Some(View()) == Run(old(View()), if old(workers)[old(index)].flag
                                               then [Send(c), CheckFlag, ClearFlag, Unpark]
                                               else [Send(c), CheckFlag])
    {
      ghost var before := View();
      workers := workers[index := SendTo(workers[index], c)];
      ghost var sent := View().(dispatch := Sent);
      assert Step(before, Send(c)) == Some(sent);
      workers := workers[index := Check(workers[index])];
      var target := workers[index];
      if target.flag {
        workers := workers[index := workers[index].(flag := false)];
        workers := workers[index := workers[index].(token := true)];
      }
      index := index + 1;
      if index == WORKERS {
        index := 0;
      }
      assert [CheckFlag][1..] == [] && [Unpark][1..] == [];
      assert [Send(c), CheckFlag][1..] == [CheckFlag];
      assert [Send(c), CheckFlag, ClearFlag, Unpark][1..] == [CheckFlag, ClearFlag, Unpark];
      assert [CheckFlag, ClearFlag, Unpark][1..] == [ClearFlag, Unpark] && [ClearFlag, Unpark][1..] == [Unpark];
    }

    /** The accept loop deals the connections round: each worker is sent every third
        one, in order, and no other. */
    method Accept(streams: seq<Conn>)
      requires Ok()
      modifies this
      ensures Ok() && index == (old(index) + |streams|) % WORKERS
      ensures forall w :: 0 <= w < WORKERS ==>
                workers[w].sent == old(workers)[w].sent + Dealt(streams, Ahead(w, old(index)))
    {
      for n := 0 to |streams|
        invariant Ok() && index == (old(index) + n) % WORKERS
        invariant forall w :: 0 <= w < WORKERS ==>
                    workers[w].sent == old(workers)[w].sent + Dealt(streams[..n], Ahead(w, old(index)))
      {
        assert streams[..n + 1] == streams[..n] + [streams[n]];
        forall w | 0 <= w < WORKERS
          ensures Dealt(streams[..n + 1], Ahead(w, old(index)))
               == Dealt(streams[..n], Ahead(w, old(index))) + if index == w then [streams[n]] else []
        {
          DealtSnoc(streams[..n], streams[n], w, old(index));
        }
        NextIsModular(old(index), n);
        ghost var before := workers;
        Dispatch(streams[n]);
        assert forall w :: 0 <= w < WORKERS ==>
          workers[w].sent == before[w].sent + if (old(index) + n) % WORKERS == w then [streams[n]] else [];
      }
      assert streams[..|streams|] == streams;
    }

    /** One iteration of worker `w`'s loop; `blocked` when it is left in park(). */
    method Iterate(w: nat, ready: bool) returns (blocked: bool)
      requires Ok() && w < WORKERS && workers[w].place.Top?
      modifies this`workers
      ensures Ok() && forall v :: 0 <= v < WORKERS && v != w ==> workers[v] == old(workers)[v]
      ensures var was := old(workers)[w];
              blocked == (was.chan == [] && was.tasks == [] && !was.token)
      ensures var was := old(workers)[w];
              var got := ReceiveOrSleep(was);
              workers[w] == if !got.place.GoingToSleep? then Poll(got, ready)
                            else if blocked then Store(got)
                            else Poll(Store(got).(token := false, place := Polling), ready)
      ensures PolledOnce(old(workers)[w], Queued(old(workers)[w]), ready, workers[w])
    {
      blocked := false;
      var me := workers[w];
      if me.chan != [] {
        me := me.(chan := me.chan[1..], tasks := me.tasks + [me.chan[0]], served := me.served + [me.chan[0]]);
      } else if me.tasks == [] {
        me := me.(mark := |me.sent|);
        me := me.(flag := true, stored := me.checked, place := Parking);
        if !me.token {
          workers := workers[w := me];
          return true;
        }
        me := me.(token := false);
      }
      me := PollExecutor(me.(place := Polling), ready);
      workers := workers[w := me];
    }
  }
}
