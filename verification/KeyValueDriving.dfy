/** Runs that bring a side to the point where it answers its next request. They load no
    file and leave every other side alone. */
module KeyValueDriving {
  import opened Options
  import opened KeyValueModel
  import opened KeyValueMachine
  import opened KeyValueLog

  predicate NoLoad(actions: seq<Action>) { forall i :: 0 <= i < |actions| ==> !actions[i].LoadFile? }

  ghost predicate Reaches(s: State, actions: seq<Action>, s': State) {
    NoLoad(actions) && Run(s, actions) == Some(s')
  }

  lemma {:induction false} RunConcat(s: State, xs: seq<Action>, ys: seq<Action>)
    requires Run(s, xs).Some?
    ensures Run(s, xs + ys) == Run(Run(s, xs).value, ys)
    decreases |xs|
  {
    if xs == [] {
      assert xs + ys == ys;
    } else {
      assert (xs + ys)[1..] == xs[1..] + ys;
      RunConcat(Step(s, xs[0]).value, xs[1..], ys);
    }
  }

  lemma ReachThen(s: State, xs: seq<Action>, s1: State, ys: seq<Action>, s2: State)
    requires Reaches(s, xs, s1) && Reaches(s1, ys, s2)
    ensures Reaches(s, xs + ys, s2)
  {
    RunConcat(s, xs, ys);
  }

  lemma ReachOne(s: State, a: Action)
    requires Step(s, a).Some? && !a.LoadFile?
    ensures Reaches(s, [a], Step(s, a).value)
  {
    assert [a][1..] == [];
  }

  lemma {:induction false} RunInv(s: State, actions: seq<Action>, initial: File)
    requires Inv(s, initial) && Run(s, actions).Some?
    ensures Inv(Run(s, actions).value, initial)
    decreases |actions|
  {
    if actions != [] {
      StepInv(s, actions[0], initial);
      RunInv(Step(s, actions[0]).value, actions[1..], initial);
    }
  }

  /** The table from which a side gives its next answer. */
  function TableOf(side: Side): Table { ApplyAll(side.start, side.sent) }

  /** Only side `g` moved. */
  predicate Beside(s: State, s': State, g: nat) {
    |s'.sides| == |s.sides| && forall h :: 0 <= h < |s.sides| && h != g ==> s'.sides[h] == s.sides[h]
  }

  /** Only side `g` moved, and it answered nothing. */
  predicate Silently(s: State, s': State, g: nat) {
    && Beside(s, s', g) && s'.acks == s.acks && g < |s.sides|
    && var side, side' := s.sides[g], s'.sides[g];
       && Pending(side') == Pending(side) && side'.start == side.start && side'.sent == side.sent
       && side'.routed == side.routed && side'.aborted == side.aborted
  }

  // ---------- the writer empties its channel ----------

  function WriterSteps(side: Side): nat {
    3 * |side.log| + match side.writer
                     case Creating => 1
                     case Updated => 2
                     case Truncated => 1
                     case Receiving => 0
                     case Absent => 0
                     case Loading => 0
  }

  predicate Idle(side: Side) { side.writer.Receiving? && side.log == [] }

  /** What the writer does next. */
  function WriterAction(side: Side, g: nat): Action {
    match side.writer
    case Creating => CreateFile(g)
    case Updated => Truncate(g)
    case Truncated => Write(g, None)
    case Receiving => ReceiveLog(g)
    case Absent => ReceiveLog(g)
    case Loading => ReceiveLog(g)
  }

  /** The writer's steps do not touch the actor. */
  predicate SameActor(side: Side, side': Side) {
    side'.actor == side.actor && side'.inbox == side.inbox && side'.table == side.table && side'.asked == side.asked
  }

  lemma FileMoves(s: State, g: nat)
    requires g < |s.sides|
    requires s.sides[g].writer.Creating? || s.sides[g].writer.Updated? || s.sides[g].writer.Truncated?
    ensures var next := Step(s, WriterAction(s.sides[g], g));
            && next.Some? && Silently(s, next.value, g) && HasCopy(next.value.sides[g])
            && SameActor(s.sides[g], next.value.sides[g])
            && WriterSteps(next.value.sides[g]) < WriterSteps(s.sides[g])
  {
    assert |Step(s, WriterAction(s.sides[g], g)).value.sides[g].log| == |s.sides[g].log|;
  }

  /** What receiving a message does to the writer's side. */
  lemma LogMovesSide(s: State, g: nat)
    requires g < |s.sides| && s.sides[g].writer.Receiving? && s.sides[g].log != []
    ensures StepReceiveLog(s, g).Some? && |StepReceiveLog(s, g).value.sides| == |s.sides|
    ensures var side, side' := s.sides[g], StepReceiveLog(s, g).value.sides[g];
            && side'.writer.Updated? && side'.log == side.log[1..] && SameActor(side, side')
            && side'.start == side.start && side'.sent == side.sent && side'.routed == side.routed
            && side'.aborted == side.aborted
  {
  }

  lemma LogMoves(s: State, g: nat)
    requires g < |s.sides| && s.sides[g].writer.Receiving? && s.sides[g].log != []
    ensures var next := StepReceiveLog(s, g);
            && next.Some? && Silently(s, next.value, g) && HasCopy(next.value.sides[g])
            && SameActor(s.sides[g], next.value.sides[g])
            && WriterSteps(next.value.sides[g]) < WriterSteps(s.sides[g])
  {
    LogMovesSide(s, g);
    assert Pending(StepReceiveLog(s, g).value.sides[g]) == Pending(s.sides[g]);
  }

  lemma WriterMoves(s: State, g: nat)
    requires g < |s.sides| && HasCopy(s.sides[g]) && !Idle(s.sides[g])
    ensures var next := Step(s, WriterAction(s.sides[g], g));
            && next.Some? && Silently(s, next.value, g) && HasCopy(next.value.sides[g])
            && SameActor(s.sides[g], next.value.sides[g])
            && WriterSteps(next.value.sides[g]) < WriterSteps(s.sides[g])
  {
    if s.sides[g].writer.Receiving? {
      LogMoves(s, g);
    } else {
      FileMoves(s, g);
    }
  }

  lemma {:induction false} Drain(s: State, g: nat) returns (actions: seq<Action>, s': State)
    requires g < |s.sides| && HasCopy(s.sides[g])
    ensures Reaches(s, actions, s') && Silently(s, s', g) && Idle(s'.sides[g]) && SameActor(s.sides[g], s'.sides[g])
    decreases WriterSteps(s.sides[g])
  {
    if Idle(s.sides[g]) {
      actions, s' := [], s;
    } else {
      var a := WriterAction(s.sides[g], g);
      WriterMoves(s, g);
      ReachOne(s, a);
      var s1 := Step(s, a).value;
      var rest, last := Drain(s1, g);
      ReachThen(s, [a], s1, rest, last);
      actions, s' := [a] + rest, last;
    }
  }

  // ---------- the actor serves ----------

  /** In the loop, with an idle writer. */
  predicate Ready(side: Side) { Running(side) && Idle(side) }

  predicate Live(side: Side) { HasCopy(side) && !side.actor.Stopped? }

  /** The table arrives. */
  lemma Serve(s: State, g: nat, initial: File) returns (actions: seq<Action>, s': State)
    requires Inv(s, initial) && g < |s.sides| && HasCopy(s.sides[g]) && s.sides[g].actor.Awaiting?
    ensures Reaches(s, actions, s') && Silently(s, s', g) && Ready(s'.sides[g])
  {
    var drain, s1 := Drain(s, g);
    RunInv(s, drain, initial);
    assert SideOk(s1, g);
    ReachOne(s1, ReceiveTable(g));
    s' := Step(s1, ReceiveTable(g)).value;
    ReachThen(s, drain, s1, [ReceiveTable(g)], s');
    actions := drain + [ReceiveTable(g)];
  }

  lemma MakeReady(s: State, g: nat, initial: File) returns (actions: seq<Action>, s': State)
    requires Inv(s, initial) && g < |s.sides| && Live(s.sides[g])
    ensures Reaches(s, actions, s') && Silently(s, s', g) && Ready(s'.sides[g])
  {
    assert SideOk(s, g);
    match s.sides[g].actor
    case Opening =>
      var s1 := Step(s, SendGet(g)).value;
      ReachOne(s, SendGet(g));
      StepInv(s, SendGet(g), initial);
      var rest, last := Serve(s1, g, initial);
      ReachThen(s, [SendGet(g)], s1, rest, last);
      actions, s' := [SendGet(g)] + rest, last;
    case Awaiting => actions, s' := Serve(s, g, initial);
    case Serving => actions, s' := Drain(s, g);
    case Forwarding(_) => actions, s' := Drain(s, g);
  }

  // ---------- the actor answers ----------

  /** Side `g` answered its first pending request. */
  predicate AnsweredFirst(s: State, s': State, g: nat) {
    && Beside(s, s', g) && g < |s.sides| && Pending(s.sides[g]) != []
    && var side, side', r := s.sides[g], s'.sides[g], Pending(s.sides[g])[0];
       && s'.acks == s.acks + [Ack(g, r, Answer(TableOf(side), r))]
       && Pending(side') == Pending(side)[1..] && TableOf(side') == Effect(TableOf(side), r)
       && side'.start == side.start && side'.routed == side.routed && side'.aborted == side.aborted
  }

  lemma GetAnswers(s: State, g: nat, initial: File)
    requires Inv(s, initial) && g < |s.sides| && s.sides[g].actor.Serving? && s.sides[g].inbox != []
    requires ToLog(s.sides[g].inbox[0]).None?
    ensures StepTake(s, g).Some? && AnsweredFirst(s, StepTake(s, g).value, g)
  {
    assert SideOk(s, g);
  }

  lemma WriteAnswers(s: State, g: nat, initial: File)
    requires Inv(s, initial) && g < |s.sides| && s.sides[g].actor.Forwarding? && |s.sides[g].log| < CAPACITY
    ensures StepForward(s, g).Some? && AnsweredFirst(s, StepForward(s, g).value, g)
  {
    var side := s.sides[g];
    assert SideOk(s, g);
    ApplyAllPush(side.start, side.sent, ToLog(side.actor.request).value);
  }

  lemma ForwardAndDrain(s: State, g: nat, initial: File) returns (actions: seq<Action>, s': State)
    requires Inv(s, initial) && g < |s.sides| && s.sides[g].actor.Forwarding? && Idle(s.sides[g])
    ensures Reaches(s, actions, s') && AnsweredFirst(s, s', g) && Ready(s'.sides[g])
  {
    WriteAnswers(s, g, initial);
    ReachOne(s, Forward(g));
    var s1 := Step(s, Forward(g)).value;
    var rest, last := Drain(s1, g);
    ReachThen(s, [Forward(g)], s1, rest, last);
    actions, s' := [Forward(g)] + rest, last;
  }

  lemma AnswerNext(s: State, g: nat, initial: File) returns (actions: seq<Action>, s': State)
    requires Inv(s, initial) && g < |s.sides| && Ready(s.sides[g]) && Pending(s.sides[g]) != []
    ensures Reaches(s, actions, s') && AnsweredFirst(s, s', g) && Ready(s'.sides[g])
  {
    if s.sides[g].actor.Forwarding? {
      actions, s' := ForwardAndDrain(s, g, initial);
    } else {
      ReachOne(s, Take(g));
      if ToLog(s.sides[g].inbox[0]).None? {
        GetAnswers(s, g, initial);
        actions, s' := [Take(g)], Step(s, Take(g)).value;
      } else {
        StepInv(s, Take(g), initial);
        var s1 := Step(s, Take(g)).value;
        assert Pending(s1.sides[g]) == Pending(s.sides[g]);
        var rest, last := ForwardAndDrain(s1, g, initial);
        ReachThen(s, [Take(g)], s1, rest, last);
        actions, s' := [Take(g)] + rest, last;
      }
    }
  }

  /** The newest actor, with nothing to do, is sent a request and answers it. */
  lemma AskNewest(s: State, r: Request, initial: File) returns (actions: seq<Action>, s': State)
    requires Inv(s, initial)
    requires var g := |s.sides| - 1; Ready(s.sides[g]) && Pending(s.sides[g]) == []
    ensures var g := |s.sides| - 1;
            && Reaches(s, actions, s') && Beside(s, s', g) && Ready(s'.sides[g]) && Pending(s'.sides[g]) == []
            && s'.acks == s.acks + [Ack(g, r, Answer(TableOf(s.sides[g]), r))]
            && TableOf(s'.sides[g]) == Effect(TableOf(s.sides[g]), r)
  {
    var g := |s.sides| - 1;
    var s1 := Step(s, Route(r)).value;
    ReachOne(s, Route(r));
    StepInv(s, Route(r), initial);
    assert Pending(s1.sides[g]) == [r];
    var rest, last := AnswerNext(s1, g, initial);
    ReachThen(s, [Route(r)], s1, rest, last);
    actions, s' := [Route(r)] + rest, last;
  }

  /** A side answers everything it has been sent; the others wait. */
  lemma {:induction false} AnswerAll(s: State, g: nat, initial: File) returns (actions: seq<Action>, s': State)
    requires Inv(s, initial) && g < |s.sides| && Ready(s.sides[g])
    ensures Reaches(s, actions, s') && Beside(s, s', g) && Ready(s'.sides[g]) && Pending(s'.sides[g]) == []
    ensures s'.sides[g].routed == s.sides[g].routed
    decreases |Pending(s.sides[g])|
  {
    if Pending(s.sides[g]) == [] {
      actions, s' := [], s;
    } else {
      var first, s1 := AnswerNext(s, g, initial);
      RunInv(s, first, initial);
      var rest, last := AnswerAll(s1, g, initial);
      ReachThen(s, first, s1, rest, last);
      actions, s' := first + rest, last;
    }
  }

  // ---------- the router finds room ----------

  predicate SameRouted(s: State, s': State) {
    |s'.sides| == |s.sides| && forall h :: 0 <= h < |s.sides| ==> s'.sides[h].routed == s.sides[h].routed
  }

  /** A side that has not loaded the file starts its writer, which loads it. */
  lemma StartUp(s: State, g: nat, initial: File) returns (actions: seq<Action>, s': State)
    requires Inv(s, initial) && g < |s.sides| && !s.sides[g].actor.Stopped? && !HasCopy(s.sides[g])
    ensures Run(s, actions) == Some(s') && SameRouted(s, s') && Live(s'.sides[g])
  {
    assert SideOk(s, g);
    assert [LoadFile(g)][1..] == [] && [Spawn(g), LoadFile(g)][1..] == [LoadFile(g)];
    if s.sides[g].writer.Absent? {
      actions := [Spawn(g), LoadFile(g)];
      var s1 := Step(s, Spawn(g)).value;
      s' := Step(s1, LoadFile(g)).value;
      assert Run(s1, [LoadFile(g)]) == Some(s');
    } else {
      actions, s' := [LoadFile(g)], Step(s, LoadFile(g)).value;
    }
  }

  /** A live actor works off its channel. */
  lemma WorkOff(s: State, g: nat, initial: File) returns (actions: seq<Action>, s': State)
    requires Inv(s, initial) && g < |s.sides| && Live(s.sides[g])
    ensures Reaches(s, actions, s') && SameRouted(s, s') && s'.sides[g].inbox == []
  {
    var wake, s1 := MakeReady(s, g, initial);
    RunInv(s, wake, initial);
    var work, s2 := AnswerAll(s1, g, initial);
    ReachThen(s, wake, s1, work, s2);
    actions, s' := wake + work, s2;
  }

  /** The newest actor starts up, if it has not, and works off its channel. */
  lemma MakeRoom(s: State, initial: File) returns (actions: seq<Action>, s': State)
    requires Inv(s, initial)
    ensures Run(s, actions) == Some(s') && SameRouted(s, s')
    ensures |s'.sides[|s'.sides| - 1].inbox| < CAPACITY
  {
    var g := |s.sides| - 1;
    assert SideOk(s, g);
    if HasCopy(s.sides[g]) {
      actions, s' := WorkOff(s, g, initial);
    } else {
      var boot, s1 := StartUp(s, g, initial);
      RunInv(s, boot, initial);
      var work;
      work, s' := WorkOff(s1, g, initial);
      RunConcat(s, boot, work);
      actions := boot + work;
    }
  }
}
