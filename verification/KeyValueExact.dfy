/** Exactly when the answers of the key-value store stay those of one table. */
module KeyValueExact {
  import opened Options
  import opened KeyValueModel
  import opened KeyValueMachine
  import opened KeyValueLog
  import opened KeyValueDriving

  /** Two tables answer the requests alike and, if there are `more` to come, are then equal. */
  predicate Agree(a: Table, b: Table, requests: seq<Request>, more: bool)
    decreases |requests|
  {
    if requests == [] then more ==> a == b
    else
      && Answer(a, requests[0]) == Answer(b, requests[0])
      && Agree(Effect(a, requests[0]), Effect(b, requests[0]), requests[1..], more)
  }

  lemma {:induction false} AgreePush(a: Table, b: Table, requests: seq<Request>, r: Request)
    requires Agree(a, b, requests, true)
    ensures Agree(a, b, requests + [r], true)
    decreases |requests|
  {
    if requests == [] {
      assert [r][1..] == [];
    } else {
      assert (requests + [r])[1..] == requests[1..] + [r];
      AgreePush(Effect(a, requests[0]), Effect(b, requests[0]), requests[1..], r);
    }
  }

  lemma {:induction false} AgreeLess(a: Table, b: Table, requests: seq<Request>)
    requires Agree(a, b, requests, true)
    ensures Agree(a, b, requests, false)
    decreases |requests|
  {
    if requests != [] {
      AgreeLess(Effect(a, requests[0]), Effect(b, requests[0]), requests[1..]);
    }
  }

  lemma {:induction false} AgreeSelf(a: Table, requests: seq<Request>, more: bool)
    ensures Agree(a, a, requests, more)
    decreases |requests|
  {
    if requests != [] {
      AgreeSelf(Effect(a, requests[0]), requests[1..], more);
    }
  }

  predicate Newest(s: State, g: nat) { g == |s.sides| - 1 }

  /** The side can still give an answer without loading the file: it has a table, has not
      stopped, and has a request or is the one the router sends to. */
  predicate MayAnswer(s: State, g: nat)
    requires g < |s.sides|
  {
    Live(s.sides[g]) && (Newest(s, g) || Pending(s.sides[g]) != [])
  }

  ghost predicate Alone(s: State, g: nat) {
    forall h: nat :: h < |s.sides| && h != g ==> !MayAnswer(s, h)
  }

  /** Given the answers so far, side `g` will answer what one table would. */
  predicate Fits(t: Table, s: State, g: nat)
    requires g < |s.sides|
  {
    Agree(TableAfter(t, s.acks), TableOf(s.sides[g]), Pending(s.sides[g]), Newest(s, g))
  }

  /** The answers so far are those of one table, and at most one side may still answer,
      which fits. */
  ghost predicate Sound(t: Table, s: State) {
    AnswersFrom(t, s.acks) &&
    forall g: nat {:trigger MayAnswer(s, g)} :: g < |s.sides| && MayAnswer(s, g) ==> Alone(s, g) && Fits(t, s, g)
  }

  // ---------- soundness is kept ----------

  /** A step of one side that answers nothing. */
  lemma SilentSound(t: Table, s: State, s': State, g: nat)
    requires Sound(t, s) && Beside(s, s', g) && s'.acks == s.acks && g < |s.sides|
    requires MayAnswer(s', g) ==>
               && MayAnswer(s, g) && TableOf(s'.sides[g]) == TableOf(s.sides[g])
               && Pending(s'.sides[g]) == Pending(s.sides[g])
    ensures Sound(t, s')
  {
    forall h: nat | h < |s'.sides| && MayAnswer(s', h)
      ensures Alone(s', h) && Fits(t, s', h)
    {
      assert MayAnswer(s, h);
      forall k: nat | k < |s'.sides| && k != h ensures !MayAnswer(s', k) {
        assert !MayAnswer(s, k);
      }
    }
  }

  lemma RouteSound(t: Table, s: State, r: Request)
    requires Sound(t, s) && StepRoute(s, r).Some?
    ensures Sound(t, StepRoute(s, r).value)
  {
    var s' := StepRoute(s, r).value;
    var n := |s.sides| - 1;
    if Live(s.sides[n]) {
      assert MayAnswer(s, n);
      assert Pending(s'.sides[n]) == Pending(s.sides[n]) + [r];
      AgreePush(TableAfter(t, s.acks), TableOf(s.sides[n]), Pending(s.sides[n]), r);
      forall h: nat | h < |s'.sides| && h != n ensures !MayAnswer(s', h) {
        assert !MayAnswer(s, h);
      }
    } else {
      SilentSound(t, s, s', n);
    }
  }

  lemma ResetSound(t: Table, s: State)
    requires Sound(t, s) && StepReset(s).Some?
    ensures Sound(t, StepReset(s).value)
  {
    var s' := StepReset(s).value;
    var n := |s.sides| - 1;
    forall h: nat | h < |s'.sides| && MayAnswer(s', h)
      ensures Alone(s', h) && Fits(t, s', h)
    {
      assert h <= n && MayAnswer(s, h);
      if h == n {
        AgreeLess(TableAfter(t, s.acks), TableOf(s.sides[n]), Pending(s.sides[n]));
      }
      forall k: nat | k < |s'.sides| && k != h ensures !MayAnswer(s', k) {
        assert k <= n ==> !MayAnswer(s, k);
      }
    }
  }

  /** The one side that may answer gives its next answer. */
  lemma AnswerSound(t: Table, s: State, s': State, g: nat)
    requires Sound(t, s) && AnsweredFirst(s, s', g) && Live(s.sides[g])
    ensures Sound(t, s')
  {
    var r := Pending(s.sides[g])[0];
    assert MayAnswer(s, g);
    AckPush(t, s.acks, Ack(g, r, Answer(TableOf(s.sides[g]), r)));
    forall h: nat | h < |s'.sides| && h != g ensures !MayAnswer(s', h) {
      assert !MayAnswer(s, h);
    }
  }

  lemma TakeSound(t: Table, s: State, g: nat, initial: File)
    requires Inv(s, initial) && Sound(t, s) && StepTake(s, g).Some?
    ensures Sound(t, StepTake(s, g).value)
  {
    assert SideOk(s, g);
    var s' := StepTake(s, g).value;
    if ToLog(s.sides[g].inbox[0]).None? {
      GetAnswers(s, g, initial);
      AnswerSound(t, s, s', g);
    } else {
      assert Pending(s'.sides[g]) == Pending(s.sides[g]);
      SilentSound(t, s, s', g);
    }
  }

  lemma ForwardSound(t: Table, s: State, g: nat, initial: File)
    requires Inv(s, initial) && Sound(t, s) && StepForward(s, g).Some?
    ensures Sound(t, StepForward(s, g).value)
  {
    assert SideOk(s, g);
    WriteAnswers(s, g, initial);
    AnswerSound(t, s, StepForward(s, g).value, g);
  }

  /** What a load must find: either the side will answer nothing, or no other side may,
      and the file's table fits the answers so far. */
  ghost predicate GoodLoad(t: Table, s: State, g: nat)
    requires g < |s.sides|
  {
    var side := s.sides[g];
    side.actor.Stopped? || (!Newest(s, g) && Pending(side) == []) ||
    (Alone(s, g) && Agree(TableAfter(t, s.acks), Load(s.file), Pending(side), Newest(s, g)))
  }

  lemma LoadSound(t: Table, s: State, g: nat, initial: File)
    requires Inv(s, initial) && Sound(t, s) && StepLoad(s, g).Some? && GoodLoad(t, s, g)
    ensures Sound(t, StepLoad(s, g).value)
  {
    var s' := StepLoad(s, g).value;
    assert SideOk(s, g);
    assert TableOf(s'.sides[g]) == Load(s.file);
    forall h: nat | h < |s'.sides| && MayAnswer(s', h)
      ensures Alone(s', h) && Fits(t, s', h)
    {
      if h != g {
        assert MayAnswer(s, h);
      }
      forall k: nat | k < |s'.sides| && k != h ensures !MayAnswer(s', k) {
        assert k != g ==> (MayAnswer(s', k) <==> MayAnswer(s, k));
      }
    }
  }

  lemma StartUpSound(t: Table, s: State, a: Action, initial: File)
    requires Inv(s, initial) && Sound(t, s) && Step(s, a).Some? && (a.Spawn? || a.SendGet? || a.ReceiveTable?)
    ensures Sound(t, Step(s, a).value)
  {
    assert SideOk(s, a.g);
    SilentSound(t, s, Step(s, a).value, a.g);
  }

  lemma FileSound(t: Table, s: State, a: Action)
    requires Sound(t, s) && Step(s, a).Some? && (a.CreateFile? || a.Truncate? || a.Mix? || a.Write?)
    ensures Sound(t, Step(s, a).value)
  {
    SilentSound(t, s, Step(s, a).value, a.g);
  }

  lemma ReceiveLogSound(t: Table, s: State, g: nat)
    requires Sound(t, s) && StepReceiveLog(s, g).Some?
    ensures Sound(t, StepReceiveLog(s, g).value)
  {
    SilentSound(t, s, StepReceiveLog(s, g).value, g);
  }

  ghost predicate Good(t: Table, s: State, a: Action) {
    a.LoadFile? && a.g < |s.sides| ==> GoodLoad(t, s, a.g)
  }

  lemma StepSound(t: Table, s: State, a: Action, initial: File)
    requires Inv(s, initial) && Sound(t, s) && Step(s, a).Some? && Good(t, s, a)
    ensures Sound(t, Step(s, a).value)
  {
    match a
    case Route(r) => RouteSound(t, s, r);
    case Reset => ResetSound(t, s);
    case Take(g) => TakeSound(t, s, g, initial);
    case Forward(g) => ForwardSound(t, s, g, initial);
    case Stop(g) => SilentSound(t, s, Step(s, a).value, g);
    case LoadFile(g) => LoadSound(t, s, g, initial);
    case ReceiveLog(g) => ReceiveLogSound(t, s, g);
    case _ =>
      if a.Spawn? || a.SendGet? || a.ReceiveTable? {
        StartUpSound(t, s, a, initial);
      } else {
        FileSound(t, s, a);
      }
  }

  ghost predicate GoodRun(t: Table, s: State, actions: seq<Action>)
    decreases |actions|
  {
    actions == [] ||
    (Good(t, s, actions[0]) && Step(s, actions[0]).Some? && GoodRun(t, Step(s, actions[0]).value, actions[1..]))
  }

  lemma {:induction false} GoodRunSound(t: Table, s: State, actions: seq<Action>, initial: File)
    requires Inv(s, initial) && Sound(t, s) && GoodRun(t, s, actions)
    ensures Run(s, actions).Some? && Inv(Run(s, actions).value, initial) && Sound(t, Run(s, actions).value)
    decreases |actions|
  {
    if actions != [] {
      StepInv(s, actions[0], initial);
      StepSound(t, s, actions[0], initial);
      GoodRunSound(t, Step(s, actions[0]).value, actions[1..], initial);
    }
  }

  lemma {:induction false} NoLoadIsGood(t: Table, s: State, actions: seq<Action>)
    requires NoLoad(actions) && Run(s, actions).Some?
    ensures GoodRun(t, s, actions)
    decreases |actions|
  {
    if actions != [] {
      NoLoadIsGood(t, Step(s, actions[0]).value, actions[1..]);
    }
  }

  // ---------- and nothing less will do ----------

  /** Until a file is loaded again, every answer is that of the one table. */
  ghost predicate AnswersKept(t: Table, s: State) {
    forall actions {:trigger Run(s, actions)} ::
      NoLoad(actions) && Run(s, actions).Some? ==> AnswersFrom(t, Run(s, actions).value.acks)
  }

  lemma SoundIsKept(t: Table, s: State, initial: File)
    requires Inv(s, initial) && Sound(t, s)
    ensures AnswersKept(t, s)
  {
    forall actions | NoLoad(actions) && Run(s, actions).Some?
      ensures AnswersFrom(t, Run(s, actions).value.acks)
    {
      NoLoadIsGood(t, s, actions);
      GoodRunSound(t, s, actions, initial);
    }
  }

  /** What is kept from a state on is kept from every later one. */
  lemma KeptLater(t: Table, s: State, actions: seq<Action>, s': State)
    requires AnswersKept(t, s) && Reaches(s, actions, s')
    ensures AnswersKept(t, s') && AnswersFrom(t, s'.acks)
  {
    forall more | NoLoad(more) && Run(s', more).Some?
      ensures AnswersFrom(t, Run(s', more).value.acks)
    {
      RunConcat(s, actions, more);
      assert Run(s, actions + more) == Run(s', more);
    }
    assert Run(s', []).Some?;
  }

  /** An answer that keeps to the one table. */
  lemma LastAnswer(t: Table, acks: seq<Ack>, a: Ack)
    requires AnswersFrom(t, acks + [a])
    ensures a.answer == Answer(TableAfter(t, acks), a.request)
    ensures TableAfter(t, acks + [a]) == Effect(TableAfter(t, acks), a.request)
  {
    assert (acks + [a])[..|acks|] == acks && (acks + [a])[|acks|] == a;
  }

  lemma SameTables(a: Table, b: Table)
    requires forall k :: Lookup(a, k) == Lookup(b, k)
    ensures a == b
  {
    forall k ensures k in a <==> k in b {
      assert Lookup(a, k) == Lookup(b, k);
    }
    forall k | k in a ensures a[k] == b[k] {
      assert Lookup(a, k) == Lookup(b, k);
    }
  }

  /** A newest side with nothing to do is asked for one key. */
  lemma AskedForKey(t: Table, s: State, k: Key, initial: File)
    requires Inv(s, initial) && AnswersKept(t, s)
    requires var g := |s.sides| - 1; Ready(s.sides[g]) && Pending(s.sides[g]) == []
    ensures Lookup(TableAfter(t, s.acks), k) == Lookup(TableOf(s.sides[|s.sides| - 1]), k)
  {
    var g := |s.sides| - 1;
    var actions, s' := AskNewest(s, Get(k), initial);
    KeptLater(t, s, actions, s');
    LastAnswer(t, s.acks, Ack(g, Get(k), Answer(TableOf(s.sides[g]), Get(k))));
  }

  /** If the answers are kept, a side ready to answer fits. */
  lemma {:induction false} KeptFits(t: Table, s: State, g: nat, initial: File)
    requires Inv(s, initial) && AnswersKept(t, s) && g < |s.sides| && Ready(s.sides[g])
    ensures Fits(t, s, g)
    decreases |Pending(s.sides[g])|
  {
    var now, table := TableAfter(t, s.acks), TableOf(s.sides[g]);
    if Pending(s.sides[g]) == [] {
      if Newest(s, g) {
        forall k ensures Lookup(now, k) == Lookup(table, k) {
          AskedForKey(t, s, k, initial);
        }
        SameTables(now, table);
      }
    } else {
      var actions, s' := AnswerNext(s, g, initial);
      RunInv(s, actions, initial);
      KeptLater(t, s, actions, s');
      KeptFits(t, s', g, initial);
      var r := Pending(s.sides[g])[0];
      LastAnswer(t, s.acks, Ack(g, r, Answer(table, r)));
    }
  }

  lemma KeptMeansFits(t: Table, s: State, g: nat, initial: File)
    requires Inv(s, initial) && AnswersKept(t, s) && g < |s.sides| && Live(s.sides[g])
    ensures Fits(t, s, g)
  {
    var actions, s' := MakeReady(s, g, initial);
    RunInv(s, actions, initial);
    KeptLater(t, s, actions, s');
    KeptFits(t, s', g, initial);
  }

  /** A value that the key does not have in the table and that the request does not set. */
  function OtherValue(table: Table, r: Request): Value {
    if r.Set? then r.value + [0] else if r.key in table then table[r.key] + [0] else []
  }

  lemma OtherIsOther(table: Table, r: Request)
    ensures r.Set? ==> OtherValue(table, r) != r.value
    ensures r.Get? ==> Lookup(table, r.key) != Some(OtherValue(table, r))
  {
    assert r.Set? ==> |OtherValue(table, r)| == |r.value| + 1;
    assert r.Get? && r.key in table ==> |OtherValue(table, r)| == |table[r.key]| + 1;
  }

  /** A request answered as by `before` does not leave there the value it does not have. */
  lemma Overrides(before: Table, table: Table, r: Request)
    requires Lookup(before, r.key) == Some(OtherValue(table, r)) && Answer(table, r) == Answer(before, r)
    ensures Lookup(Effect(before, r), r.key) != Some(OtherValue(table, r))
  {
    OtherIsOther(table, r);
  }

  /** An older side's answer takes back what the newest side has set. */
  lemma OtherOverrides(t: Table, s: State, h: nat, initial: File) returns (s': State)
    requires Inv(s, initial) && AnswersKept(t, s) && h < |s.sides| && Ready(s.sides[h]) && Pending(s.sides[h]) != []
    requires var r := Pending(s.sides[h])[0];
             Lookup(TableAfter(t, s.acks), r.key) == Some(OtherValue(TableOf(s.sides[h]), r))
    ensures Inv(s', initial) && AnswersKept(t, s') && Beside(s, s', h)
    ensures var r := Pending(s.sides[h])[0];
            Lookup(TableAfter(t, s'.acks), r.key) != Some(OtherValue(TableOf(s.sides[h]), r))
  {
    var r, table := Pending(s.sides[h])[0], TableOf(s.sides[h]);
    var actions;
    actions, s' := AnswerNext(s, h, initial);
    RunInv(s, actions, initial);
    KeptLater(t, s, actions, s');
    LastAnswer(t, s.acks, Ack(h, r, Answer(table, r)));
    Overrides(TableAfter(t, s.acks), table, r);
  }

  /** The newest side, with nothing to do, sets a key. */
  lemma NewestSets(t: Table, s: State, k: Key, v: Value, initial: File) returns (s': State)
    requires Inv(s, initial) && AnswersKept(t, s)
    requires var n := |s.sides| - 1; Ready(s.sides[n]) && Pending(s.sides[n]) == []
    ensures var n := |s.sides| - 1;
            && Beside(s, s', n) && Ready(s'.sides[n]) && Pending(s'.sides[n]) == []
            && Lookup(TableOf(s'.sides[n]), k) == Some(v)
    ensures Inv(s', initial) && AnswersKept(t, s') && Lookup(TableAfter(t, s'.acks), k) == Some(v)
  {
    var actions;
    actions, s' := AskNewest(s, Set(k, v), initial);
    RunInv(s, actions, initial);
    KeptLater(t, s, actions, s');
    LastAnswer(t, s.acks, Ack(|s.sides| - 1, Set(k, v), None));
  }

  /** Two sides ready to answer contradict each other: the newest side sets the key of
      the other's next request, the other answers, and the newest is asked for the key. */
  lemma TwoContradict(t: Table, s: State, h: nat, initial: File)
    requires Inv(s, initial)
    requires var n := |s.sides| - 1;
             h < n && Ready(s.sides[n]) && Pending(s.sides[n]) == [] && Ready(s.sides[h]) && Pending(s.sides[h]) != []
    ensures !AnswersKept(t, s)
  {
    if AnswersKept(t, s) {
      var r := Pending(s.sides[h])[0];
      var s1 := NewestSets(t, s, r.key, OtherValue(TableOf(s.sides[h]), r), initial);
      var s2 := OtherOverrides(t, s1, h, initial);
      AskedForKey(t, s2, r.key, initial);
    }
  }

  lemma KeptMeansAlone(t: Table, s: State, h: nat, initial: File)
    requires Inv(s, initial) && AnswersKept(t, s) && h < |s.sides| - 1
    requires HasCopy(s.sides[|s.sides| - 1])
    ensures !MayAnswer(s, h)
  {
    if MayAnswer(s, h) {
      var n := |s.sides| - 1;
      assert SideOk(s, n);
      var as1, s1 := MakeReady(s, n, initial);
      RunInv(s, as1, initial);
      KeptLater(t, s, as1, s1);
      var as2, s2 := AnswerAll(s1, n, initial);
      RunInv(s1, as2, initial);
      KeptLater(t, s1, as2, s2);
      var as3, s3 := MakeReady(s2, h, initial);
      RunInv(s2, as3, initial);
      KeptLater(t, s2, as3, s3);
      TwoContradict(t, s3, h, initial);
    }
  }

  lemma KeptIsSound(t: Table, s: State, initial: File)
    requires Inv(s, initial) && AnswersKept(t, s)
    requires HasCopy(s.sides[|s.sides| - 1]) ||
             forall g: nat, h: nat :: g < |s.sides| && h < |s.sides| && MayAnswer(s, g) && MayAnswer(s, h) ==> g == h
    ensures Sound(t, s)
  {
    KeptLater(t, s, [], s);
    var n := |s.sides| - 1;
    if HasCopy(s.sides[n]) {
      forall h: nat | h < n ensures !MayAnswer(s, h) {
        KeptMeansAlone(t, s, h, initial);
      }
    }
    forall g: nat | g < |s.sides| && MayAnswer(s, g)
      ensures Alone(s, g) && Fits(t, s, g)
    {
      KeptMeansFits(t, s, g, initial);
    }
  }

  /** The exact condition, in every reachable state whose newest side has its table (or
      in which at most one side may answer at all): until a file is loaded again all
      answers in all continuations are those of one table, if and only if they are so far
      and the only side that may still answer fits. */
  lemma ExactlySound(t: Table, initial: File, before: seq<Action>, s: State)
    requires Run(Start(initial), before) == Some(s)
    requires (s.sides != [] && HasCopy(s.sides[|s.sides| - 1])) ||
             forall g: nat, h: nat :: g < |s.sides| && h < |s.sides| && MayAnswer(s, g) && MayAnswer(s, h) ==> g == h
    ensures AnswersKept(t, s) <==> Sound(t, s)
  {
    StartInv(initial);
    RunInv(Start(initial), before, initial);
    if Sound(t, s) {
      SoundIsKept(t, s, initial);
    }
    if AnswersKept(t, s) {
      KeptIsSound(t, s, initial);
    }
  }

  /** The newest side after its load. */
  lemma LoadedSide(s: State, g: nat, initial: File)
    requires Inv(s, initial) && g == |s.sides| - 1 && StepLoad(s, g).Some?
    ensures var s' := StepLoad(s, g).value;
            && MayAnswer(s', g) && TableOf(s'.sides[g]) == Load(s.file) && Pending(s'.sides[g]) == s.sides[g].inbox
            && (Alone(s', g) <==> Alone(s, g))
  {
    var s' := StepLoad(s, g).value;
    assert SideOk(s, g);
    assert forall h: nat :: h < g ==> MayAnswer(s', h) == MayAnswer(s, h);
  }

  /** The exact condition at a load of the file by the side the router sends to, whatever
      has happened before and whatever is still queued: no older side may answer any more,
      and the table in the file answers the queued requests like the acknowledged one and
      is equal to it afterwards. With nothing queued: the file holds the acknowledged table. */
  lemma LoadIsExact(t: Table, initial: File, before: seq<Action>, s: State, g: nat)
    requires Run(Start(initial), before) == Some(s) && AnswersFrom(t, s.acks)
    requires g == |s.sides| - 1 && s.sides[g].writer.Loading?
    ensures AnswersKept(t, StepLoad(s, g).value) <==>
              Alone(s, g) && Agree(TableAfter(t, s.acks), Load(s.file), s.sides[g].inbox, true)
    ensures s.sides[g].inbox == [] && (forall h :: 0 <= h < g ==> s.sides[h].actor.Stopped?) ==>
              (AnswersKept(t, StepLoad(s, g).value) <==> Load(s.file) == TableAfter(t, s.acks))
  {
    StartInv(initial);
    RunInv(Start(initial), before, initial);
    StepInv(s, LoadFile(g), initial);
    LoadedSide(s, g, initial);
    var s' := StepLoad(s, g).value;
    if AnswersKept(t, s') {
      KeptIsSound(t, s', initial);
    }
    if Alone(s, g) && Agree(TableAfter(t, s.acks), Load(s.file), s.sides[g].inbox, true) {
      assert Sound(t, s');
      SoundIsKept(t, s', initial);
    }
  }

  /** Over any number of Resets, if every load is good then all answers are those of one
      table, and at most one actor may answer, from that table. */
  lemma GoodLoadsRefineOneTable(initial: File, actions: seq<Action>)
    requires GoodRun(Load(initial), Start(initial), actions)
    ensures Run(Start(initial), actions).Some? && Sound(Load(initial), Run(Start(initial), actions).value)
  {
    StartInv(initial);
    assert AnswersFrom(Load(initial), []);
    GoodRunSound(Load(initial), Start(initial), actions, initial);
  }
}
