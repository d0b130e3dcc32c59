/** The bodies of the two actors as the source writes them, run on a list of messages. */
module KeyValueActors {
  import opened Options
  import opened KeyValueModel
  import opened KeyValueLog
  import opened KeyValueMachine
  import opened KeyValueDriving

  /** The requests were answered one by one, in order, from a table that started as `t`
      and is now `now`. */
  ghost predicate Answered(t: Table, requests: seq<Request>, acks: seq<Ack>, now: Table) {
    && |acks| == |requests| && (forall i :: 0 <= i < |requests| ==> acks[i].request == requests[i])
    && AnswersFrom(t, acks) && now == TableAfter(t, acks)
  }

  lemma LastChangeOfRequests(t: Table, requests: seq<Request>, acks: seq<Ack>, k: Key, value: Option<Value>)
    requires |acks| == |requests| && forall i :: 0 <= i < |requests| ==> acks[i].request == requests[i]
    ensures LastChange(t, acks, AckedChange, k, value) <==> LastChange(t, requests, ChangeOf, k, value)
  {
    assert forall i :: 0 <= i < |acks| ==> AckedChange(acks[i]) == ChangeOf(requests[i]);
    assert forall n :: 0 <= n ==> (Unchanged(acks, AckedChange, k, n) <==> Unchanged(requests, ChangeOf, k, n));
  }

  /** The answer to the request at position `i`: a Get finds what the last Set or Delete of
      its key before it left, and the table's entry if there is none. */
  ghost predicate AnsweredByLastWrite(t: Table, requests: seq<Request>, i: nat, answer: Option<Value>)
    requires i < |requests|
  {
    match requests[i]
    case Get(k) => LastChange(t, requests[..i], ChangeOf, k, answer)
    case _ => answer.None?
  }

  /** Answers of one table, said without the table. */
  lemma AnsweredByLastWrites(t: Table, requests: seq<Request>, acks: seq<Ack>, now: Table)
    requires Answered(t, requests, acks, now)
    ensures forall i :: 0 <= i < |requests| ==> AnsweredByLastWrite(t, requests, i, acks[i].answer)
    ensures forall k :: LastChange(t, requests, ChangeOf, k, Lookup(now, k))
  {
    AnswersFromIff(t, acks);
    forall i | 0 <= i < |requests|
      ensures AnsweredByLastWrite(t, requests, i, acks[i].answer)
    {
      assert AnswersLastChange(t, acks, i);
      if requests[i].Get? {
        LastChangeOfRequests(t, requests[..i], acks[..i], requests[i].key, acks[i].answer);
      }
    }
    forall k
      ensures LastChange(t, requests, ChangeOf, k, Lookup(now, k))
    {
      TableAfterLastChange(t, acks, k);
      LastChangeOfRequests(t, requests, acks, k, Lookup(now, k));
    }
  }

  /** The two tables agree on every key but this one. */
  ghost predicate SameBut(t: Table, u: Table, key: Key) {
    forall k :: k != key ==> (k in t <==> k in u) && (k in t ==> t[k] == u[k])
  }

  lemma AnswerOne(t: Table, requests: seq<Request>, acks: seq<Ack>, now: Table, r: Request, ack: Ack)
    requires Answered(t, requests, acks, now) && ack.request == r && ack.answer == Answer(now, r)
    ensures Answered(t, requests + [r], acks + [ack], Effect(now, r))
  {
    AckPush(t, acks, ack);
  }

  function TableAt(t: Table, requests: seq<Request>): Table
    decreases |requests|
  {
    if requests == [] then t else Effect(TableAt(t, requests[..|requests| - 1]), requests[|requests| - 1])
  }

  function RepliesTo(side: nat, t: Table, requests: seq<Request>): seq<Ack>
    decreases |requests|
  {
    if requests == [] then []
    else
      var before, r := requests[..|requests| - 1], requests[|requests| - 1];
      RepliesTo(side, t, before) + [Ack(side, r, Answer(TableAt(t, before), r))]
  }

  lemma OneMore(side: nat, t: Table, requests: seq<Request>, r: Request)
    ensures TableAt(t, requests + [r]) == Effect(TableAt(t, requests), r)
    ensures RepliesTo(side, t, requests + [r])
         == RepliesTo(side, t, requests) + [Ack(side, r, Answer(TableAt(t, requests), r))]
    ensures WritesOf(requests + [r])
         == if ToLog(r).Some? then WritesOf(requests) + [ToLog(r).value] else WritesOf(requests)
  {
    assert (requests + [r])[..|requests|] == requests;
  }

  lemma {:induction false} RepliesAnswer(side: nat, t: Table, requests: seq<Request>)
    ensures Answered(t, requests, RepliesTo(side, t, requests), TableAt(t, requests))
    decreases |requests|
  {
    if requests != [] {
      var before, r := requests[..|requests| - 1], requests[|requests| - 1];
      assert requests == before + [r];
      OneMore(side, t, before, r);
      RepliesAnswer(side, t, before);
      var now := TableAt(t, before);
      AnswerOne(t, before, RepliesTo(side, t, before), now, r, Ack(side, r, Answer(now, r)));
    }
  }

  /** What one turn of an actor's loop is in the machine. */
  function HandleSteps(g: nat, r: Request): seq<Action> {
    if ToLog(r).Some? then [Take(g), Forward(g)] else [Take(g)]
  }

  lemma ActorTurn(s: State, g: nat, r: Request) returns (s': State)
    requires g < |s.sides| && s.sides[g].actor.Serving? && s.sides[g].inbox != [] && s.sides[g].inbox[0] == r
    requires |s.sides[g].log| < CAPACITY
    ensures Reaches(s, HandleSteps(g, r), s') && g < |s'.sides|
    ensures s'.acks == s.acks + [Ack(g, r, Answer(s.sides[g].table, r))]
    ensures var side, side' := s.sides[g], s'.sides[g];
            && side'.actor.Serving? && side'.inbox == side.inbox[1..] && side'.table == Effect(side.table, r)
            && side'.sent == if ToLog(r).Some? then side.sent + [ToLog(r).value] else side.sent
  {
    var s1 := Step(s, Take(g)).value;
    ReachOne(s, Take(g));
    if ToLog(r).Some? {
      s' := Step(s1, Forward(g)).value;
      ReachOne(s1, Forward(g));
      ReachThen(s, [Take(g)], s1, [Forward(g)], s');
      assert [Take(g)] + [Forward(g)] == HandleSteps(g, r);
    } else {
      s' := s1;
    }
  }

  /** A run goes on until the writer has caught up with its actor. */
  lemma CatchUp(initial: File, before: seq<Action>, s: State, steps: seq<Action>, s1: State, g: nat)
    returns (more: seq<Action>, s': State)
    requires Run(Start(initial), before) == Some(s) && Reaches(s, steps, s1)
    requires g < |s1.sides| && s1.sides[g].actor.Serving?
    ensures Reaches(s, more, s') && Silently(s1, s', g) && SameActor(s1.sides[g], s'.sides[g])
    ensures s'.sides[g].log == []
  {
    StartInv(initial);
    RunInv(Start(initial), before, initial);
    RunInv(s, steps, initial);
    assert SideOk(s1, g);
    var drain;
    drain, s' := Drain(s1, g);
    ReachThen(s, steps, s1, drain, s');
    more := steps + drain;
  }

  class KeyValueActor {
    var table: Table
    var log: seq<LogMessage>   // sent to the writer
    const side: nat

    constructor (side: nat, table: Table)
      ensures this.side == side && this.table == table && log == []
    {
      this.side, this.table, log := side, table, [];
    }

    /** The state of this actor in the machine. */
    ghost predicate Mirrors(s: State)
      reads this
    {
      side < |s.sides| && s.sides[side].actor.Serving? && s.sides[side].table == table && s.sides[side].sent == log
    }

    /** One message of the actor's loop: log a write first, then answer. In the machine
        these are the actor's own steps. */
    method Handle(r: Request, ghost s: State) returns (ack: Ack, ghost s': State)
      requires Mirrors(s) && s.sides[side].inbox != [] && s.sides[side].inbox[0] == r && |s.sides[side].log| < CAPACITY
      modifies this
      ensures Reaches(s, HandleSteps(side, r), s')
      ensures Mirrors(s') && s'.acks == s.acks + [ack] && s'.sides[side].inbox == s.sides[side].inbox[1..]
      ensures table == Effect(old(table), r) && SameBut(old(table), table, r.key)
      ensures match r
              case Get(k) => table == old(table)
              case Set(k, v) => k in table && table[k] == v
              case Delete(k) => k !in table
      ensures log == if ToLog(r).Some? then old(log) + [ToLog(r).value] else old(log)
      ensures ack == Ack(side, r, Answer(old(table), r))
    {
      s' := ActorTurn(s, side, r);
      var m := ToLog(r);
      if m.Some? {
        log := log + [m.value];
      }
      match r {
        case Get(k) =>
          ack := Ack(side, r, Lookup(table, k));
        case Delete(k) =>
          table := table - {k};
          ack := Ack(side, r, None);
        case Set(k, v) =>
          table := table[k := v];
          ack := Ack(side, r, None);
      }
    }

    /** The same, later in a run, once the writer has made room. */
    method HandleLater(r: Request, ghost initial: File, ghost before: seq<Action>, ghost s: State,
                       ghost steps: seq<Action>, ghost s1: State)
      returns (ack: Ack, ghost more: seq<Action>, ghost s': State)
      requires Run(Start(initial), before) == Some(s) && Reaches(s, steps, s1)
      requires Mirrors(s1) && s1.sides[side].inbox != [] && s1.sides[side].inbox[0] == r
      modifies this
      ensures table == Effect(old(table), r) && SameBut(old(table), table, r.key)
      ensures match r
              case Get(k) => table == old(table)
              case Set(k, v) => k in table && table[k] == v
              case Delete(k) => k !in table
      ensures log == if ToLog(r).Some? then old(log) + [ToLog(r).value] else old(log)
      ensures ack == Ack(side, r, Answer(old(table), r))
      ensures Reaches(s, more, s') && Mirrors(s') && s'.acks == s1.acks + [ack]
      ensures s'.sides[side].inbox == s1.sides[side].inbox[1..]
    {
      ghost var drained;
      more, drained := CatchUp(initial, before, s, steps, s1, side);
      ack, s' := Handle(r, drained);
      ReachThen(s, more, drained, HandleSteps(side, r), s');
      more := more + HandleSteps(side, r);
    }

    /** The loop over everything received: each request is answered once, in order,
        from a table that changes with every write, and exactly the writes are logged.
        With the writer catching up in between, this is a run of the machine. */
    method Serve(inbox: seq<Request>, ghost initial: File, ghost before: seq<Action>, ghost s: State)
      returns (answered: seq<Ack>, ghost steps: seq<Action>, ghost s': State)
      requires Run(Start(initial), before) == Some(s) && Mirrors(s) && s.sides[side].inbox == inbox
      modifies this
      ensures Answered(old(table), inbox, answered, table)
      ensures forall i :: 0 <= i < |inbox| ==> AnsweredByLastWrite(old(table), inbox, i, answered[i].answer)
      ensures forall k :: LastChange(old(table), inbox, ChangeOf, k, Lookup(table, k))
      ensures log == old(log) + WritesOf(inbox)
      ensures Reaches(s, steps, s') && Mirrors(s') && s'.acks == s.acks + answered
    {
      answered, steps, s' := [], [], s;
      for n := 0 to |inbox|
        invariant answered == RepliesTo(side, old(table), inbox[..n]) && table == TableAt(old(table), inbox[..n])
        invariant log == old(log) + WritesOf(inbox[..n])
        invariant Reaches(s, steps, s') && Mirrors(s') && s'.acks == s.acks + answered
        invariant s'.sides[side].inbox == inbox[n..]
      {
        assert inbox[..n + 1] == inbox[..n] + [inbox[n]];
        OneMore(side, old(table), inbox[..n], inbox[n]);
        assert inbox[n..][1..] == inbox[n + 1..];
        var ack;
        ack, steps, s' := HandleLater(inbox[n], initial, before, s, steps, s');
        Assoc(s.acks, answered, [ack]);
        answered := answered + [ack];
      }
      assert inbox[..|inbox|] == inbox;
      RepliesAnswer(side, old(table), inbox);
      AnsweredByLastWrites(old(table), inbox, answered, table);
    }
  }

  /** One turn of a writer's loop in the machine. */
  lemma WriterTurn(s: State, g: nat) returns (s': State)
    requires g < |s.sides| && s.sides[g].writer.Receiving? && s.sides[g].log != []
    ensures Reaches(s, [ReceiveLog(g), Truncate(g), Write(g, None)], s') && g < |s'.sides|
    ensures var side := s'.sides[g];
            && side.writer.Receiving? && side.log == s.sides[g].log[1..]
            && side.copy == Apply(s.sides[g].copy, s.sides[g].log[0]) && s'.file == Holds(side.copy)
  {
    var s1 := Step(s, ReceiveLog(g)).value;
    var s2 := Step(s1, Truncate(g)).value;
    s' := Step(s2, Write(g, None)).value;
    ReachOne(s, ReceiveLog(g));
    ReachOne(s1, Truncate(g));
    ReachOne(s2, Write(g, None));
    ReachThen(s1, [Truncate(g)], s2, [Write(g, None)], s');
    ReachThen(s, [ReceiveLog(g)], s1, [Truncate(g)] + [Write(g, None)], s');
    assert [ReceiveLog(g)] + ([Truncate(g)] + [Write(g, None)]) == [ReceiveLog(g), Truncate(g), Write(g, None)];
  }

  class WriterActor {
    var table: Table
    var file: File

    /** The state of the writer of side `g` in the machine. */
    ghost predicate Mirrors(s: State, g: nat)
      reads this
    {
      g < |s.sides| && s.sides[g].writer.Receiving? && s.sides[g].copy == table && s.file == file
    }

    /** `load_map`, then `File::create`. */
    constructor (stored: File, ghost s: State, ghost g: nat)
      requires g < |s.sides| && s.sides[g].writer.Loading? && s.file == stored
      ensures table == (if stored.Holds? then stored.table else map[]) && file == Torn
      ensures Run(s, [LoadFile(g), CreateFile(g)]).Some? && Mirrors(Run(s, [LoadFile(g), CreateFile(g)]).value, g)
    {
      table := if stored.Holds? then stored.table else map[];
      file := Torn;
      new;
      ghost var s1 := Step(s, LoadFile(g)).value;
      assert [CreateFile(g)][1..] == [] && [LoadFile(g), CreateFile(g)][1..] == [CreateFile(g)];
      assert Run(s1, [CreateFile(g)]) == Step(s1, CreateFile(g));
    }

    /** One message of the writer's loop, and the machine's steps for it. */
    method Handle(m: LogMessage, ghost s: State, ghost g: nat) returns (reply: Option<Table>, ghost s': State)
      requires Mirrors(s, g) && s.sides[g].log != [] && s.sides[g].log[0] == m
      modifies this
      ensures table == Apply(old(table), m) && file == Holds(table)
      ensures match m
              case LogSet(k, v) => k in table && table[k] == v && SameBut(old(table), table, k)
              case LogDelete(k) => k !in table && SameBut(old(table), table, k)
              case LogGet => table == old(table)
      ensures reply == if m.LogGet? then Some(old(table)) else None
      ensures Reaches(s, [ReceiveLog(g), Truncate(g), Write(g, None)], s')
      ensures Mirrors(s', g) && s'.sides[g].log == s.sides[g].log[1..]
    {
      s' := WriterTurn(s, g);
      reply := None;
      match m {
        case LogSet(k, v) => table := table[k := v];
        case LogDelete(k) => table := table - {k};
        case LogGet => reply := Some(table);
      }
      file := Torn;            // set_len(0)
      file := Holds(table);    // write_all, flush
    }

    /** The writer's loop: the file always holds the map after at least one message. */
    method Drain(log: seq<LogMessage>, ghost s: State, ghost g: nat) returns (ghost steps: seq<Action>, ghost s': State)
      requires Mirrors(s, g) && s.sides[g].log == log
      modifies this
      ensures table == ApplyAll(old(table), log)
      ensures forall k :: LastChange(old(table), log, LoggedChange, k, Lookup(table, k))
      ensures file == if log == [] then old(file) else Holds(table)
      ensures Reaches(s, steps, s') && Mirrors(s', g) && s'.sides[g].log == []
    {
      steps, s' := [], s;
      for n := 0 to |log|
        invariant table == ApplyAll(old(table), log[..n])
        invariant file == if n == 0 then old(file) else Holds(table)
        invariant Reaches(s, steps, s') && Mirrors(s', g) && s'.sides[g].log == log[n..]
      {
        ApplyAllPush(old(table), log[..n], log[n]);
        assert log[..n] + [log[n]] == log[..n + 1];
        var reply;
        ghost var next;
        reply, next := Handle(log[n], s', g);
        ReachThen(s, steps, s', [ReceiveLog(g), Truncate(g), Write(g, None)], next);
        steps, s' := steps + [ReceiveLog(g), Truncate(g), Write(g, None)], next;
      }
      assert log[..|log|] == log;
      forall k
        ensures LastChange(old(table), log, LoggedChange, k, Lookup(table, k))
      {
        ApplyAllLastChange(old(table), log, k);
      }
    }
  }

  // ---------- the router ----------

  /** `RoutingMessage`; a heartbeat goes to the heartbeat actor and changes nothing here. */
  datatype RoutingMessage = KeyValue(request: Request) | Heartbeat | Reset

  /** The requests among some messages, in order. */
  function Requests(messages: seq<RoutingMessage>): seq<Request>
    decreases |messages|
  {
    if messages == [] then []
    else
      var before, last := messages[..|messages| - 1], messages[|messages| - 1];
      Requests(before) + if last.KeyValue? then [last.request] else []
  }

  function Resets(messages: seq<RoutingMessage>): nat
    decreases |messages|
  {
    if messages == [] then 0
    else Resets(messages[..|messages| - 1]) + if messages[|messages| - 1].Reset? then 1 else 0
  }

  function Joined(inboxes: seq<seq<Request>>): seq<Request>
    decreases |inboxes|
  {
    if inboxes == [] then [] else Joined(inboxes[..|inboxes| - 1]) + inboxes[|inboxes| - 1]
  }

  /** A longer last inbox. */
  lemma JoinedPush(inboxes: seq<seq<Request>>, r: Request)
    requires inboxes != []
    ensures var n := |inboxes| - 1;
            Joined(inboxes[n := inboxes[n] + [r]]) == Joined(inboxes) + [r]
  {
    var n := |inboxes| - 1;
    assert inboxes[n := inboxes[n] + [r]][..n] == inboxes[..n];
    assert Joined(inboxes[..n]) + (inboxes[n] + [r]) == Joined(inboxes[..n]) + inboxes[n] + [r];
  }

  lemma JoinedNew(inboxes: seq<seq<Request>>)
    ensures Joined(inboxes + [[]]) == Joined(inboxes)
  {
    assert (inboxes + [[]])[..|inboxes|] == inboxes;
  }

  function RouterSteps(m: RoutingMessage): seq<Action> {
    match m
    case KeyValue(r) => [Route(r)]
    case Heartbeat => []
    case Reset => [Action.Reset]
  }

  /** What the router's turn does to the sides. */
  lemma RouterTurn(m: RoutingMessage, s: State) returns (s': State)
    requires s.sides != [] && (m.KeyValue? ==> |s.sides[|s.sides| - 1].inbox| < CAPACITY)
    ensures Run(s, RouterSteps(m)) == Some(s')
    ensures match m
            case KeyValue(r) =>
              SameButLast(s, s') && s'.sides[|s.sides| - 1].routed == s.sides[|s.sides| - 1].routed + [r]
            case Heartbeat => s' == s
            case Reset =>
              && |s'.sides| == |s.sides| + 1 && s'.sides[|s.sides|].routed == []
              && forall i :: 0 <= i < |s.sides| ==> s'.sides[i].routed == s.sides[i].routed
  {
    match m
    case KeyValue(r) =>
      assert [Route(r)][1..] == [];
      s' := Step(s, Route(r)).value;
    case Heartbeat => s' := s;
    case Reset =>
      assert [Action.Reset][1..] == [];
      s' := Step(s, Action.Reset).value;
  }

  predicate SameButLast(s: State, s': State) {
    |s'.sides| == |s.sides| && forall i :: 0 <= i < |s.sides| - 1 ==> s'.sides[i].routed == s.sides[i].routed
  }

  /** A run goes on until the newest actor's channel has room. */
  lemma RoomAfter(initial: File, steps: seq<Action>, s: State) returns (more: seq<Action>, s': State)
    requires Run(Start(initial), steps) == Some(s)
    ensures Run(Start(initial), more) == Some(s') && SameRouted(s, s')
    ensures s'.sides != [] && |s'.sides[|s'.sides| - 1].inbox| < CAPACITY
  {
    StartInv(initial);
    RunInv(Start(initial), steps, initial);
    var work;
    work, s' := MakeRoom(s, initial);
    RunConcat(Start(initial), steps, work);
    more := steps + work;
  }

  class Router {
    var inboxes: seq<seq<Request>>   // what each actor was sent, oldest actor first

    /** The sides of the machine were routed what the router sent. */
    ghost predicate Mirrors(s: State)
      reads this
    {
      |inboxes| == |s.sides| && forall i :: 0 <= i < |inboxes| ==> s.sides[i].routed == inboxes[i]
    }

    constructor (ghost initial: File)
      ensures inboxes == [[]] && Mirrors(Start(initial))
    {
      inboxes := [[]];
    }

    /** A request goes to the newest actor; a Reset of either kind replaces that actor. */
    method Handle(m: RoutingMessage, ghost s: State) returns (ghost s': State)
      requires inboxes != [] && Mirrors(s)
      requires m.KeyValue? ==> |s.sides[|s.sides| - 1].inbox| < CAPACITY
      modifies this
      ensures inboxes == match m
                         case KeyValue(r) => old(inboxes)[|old(inboxes)| - 1 := old(inboxes)[|old(inboxes)| - 1] + [r]]
                         case Heartbeat => old(inboxes)
                         case Reset => old(inboxes) + [[]]
      ensures Mirrors(s') && Run(s, RouterSteps(m)) == Some(s')
    {
      s' := RouterTurn(m, s);
      match m
      case KeyValue(r) =>
        var n := |inboxes| - 1;
        inboxes := inboxes[n := inboxes[n] + [r]];
      case Heartbeat =>
      case Reset => inboxes := inboxes + [[]];
    }

    /** The router's loop: one actor more per Reset, and every request is sent to exactly
        one actor, so that the inboxes, oldest first, are the requests in router order.
        With the actors making room in between, this is a run of the machine. */
    method Serve(messages: seq<RoutingMessage>, ghost initial: File) returns (ghost steps: seq<Action>, ghost s: State)
      requires inboxes == [[]]
      modifies this
      ensures |inboxes| == 1 + Resets(messages)
      ensures Joined(inboxes) == Requests(messages)
      ensures Run(Start(initial), steps) == Some(s) && Mirrors(s)
    {
      steps, s := [], Start(initial);
      for n := 0 to |messages|
        invariant |inboxes| == 1 + Resets(messages[..n])
        invariant Joined(inboxes) == Requests(messages[..n])
        invariant Run(Start(initial), steps) == Some(s) && Mirrors(s)
      {
        assert messages[..n + 1][..n] == messages[..n];
        if messages[n].KeyValue? {
          JoinedPush(inboxes, messages[n].request);
        } else if messages[n].Reset? {
          JoinedNew(inboxes);
        }
        steps, s := RoomAfter(initial, steps, s);
        ghost var routed := s;
        s := Handle(messages[n], routed);
        RunConcat(Start(initial), steps, RouterSteps(messages[n]));
        steps := steps + RouterSteps(messages[n]);
      }
      assert messages[..|messages|] == messages;
    }
  }

  /** Replaying the logged writes gives the table that answered the requests, so a
      writer that drains the log holds the actor's table. */
  lemma {:induction false} ReplayIsTable(t: Table, acks: seq<Ack>, requests: seq<Request>)
    requires |acks| == |requests| && forall i :: 0 <= i < |acks| ==> acks[i].request == requests[i]
    ensures ApplyAll(t, WritesOf(requests)) == TableAfter(t, acks)
    decreases |acks|
  {
    if acks != [] {
      var n := |acks| - 1;
      ReplayIsTable(t, acks[..n], requests[..n]);
      assert requests == requests[..n] + [requests[n]];
      var m := ToLog(requests[n]);
      if m.Some? {
        ApplyAllPush(t, WritesOf(requests[..n]), m.value);
      }
    }
  }
}
