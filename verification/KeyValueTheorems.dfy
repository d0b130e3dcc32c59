/** The main results about the key-value store. */
module KeyValueTheorems {
  import opened Options
  import opened KeyValueModel
  import opened KeyValueMachine
  import opened KeyValueLog
  import opened KeyValueDriving

  /** In every run, for every side: the writes ever sent to its writer are its
      answered writes in order; the actor's map is the writer's map with the queued
      messages applied; requests are answered in the order they were routed, and
      what is not answered is pending or was dropped with the actor. */
  lemma LogReplicates(initial: File, actions: seq<Action>, s: State, g: nat)
    requires Run(Start(initial), actions) == Some(s) && g < |s.sides|
    ensures s.sides[g].sent == WritesOf(AnsweredBy(s.acks, g))
    ensures Running(s.sides[g]) ==> s.sides[g].table == ApplyAll(s.sides[g].copy, s.sides[g].log)
    ensures s.sides[g].routed == AnsweredBy(s.acks, g) + Pending(s.sides[g]) + s.sides[g].dropped
    ensures s.sides[g].dropped != [] ==> s.sides[g].actor.Stopped? && Pending(s.sides[g]) == []
  {
    StartInv(initial);
    RunInv(Start(initial), actions, initial);
    var side := s.sides[g];
    assert SideOk(s, g);
    if Running(side) {
      assert side.log == side.sent[side.done..];
      assert side.sent == side.sent[..side.done] + side.sent[side.done..];
      ApplyAllConcat(side.start, side.sent[..side.done], side.sent[side.done..]);
    }
  }

  /** The encoding of the table its last writer loaded with a prefix of that writer's
      writes applied; before any write, what it was at the start. */
  predicate HoldsAPrefix(s: State, initial: File) {
    if s.owner < 0 then s.file == initial
    else
      && s.owner < |s.sides| && s.kept <= |s.sides[s.owner].sent|
      && s.file == Holds(ApplyAll(s.sides[s.owner].start, s.sides[s.owner].sent[..s.kept]))
  }

  /** In every run the file is empty or half written, or overlapping rewrites have left it,
      or it holds a prefix of its last writer's writes. */
  lemma FileIsAPrefix(initial: File, actions: seq<Action>, s: State)
    requires Run(Start(initial), actions) == Some(s)
    ensures s.file.Torn? || s.mixed || HoldsAPrefix(s, initial)
  {
    StartInv(initial);
    RunInv(Start(initial), actions, initial);
  }

  /** Such a file holds, under each key, what the last of the writes kept in it left. */
  lemma PrefixByLastWrite(s: State, initial: File, k: Key)
    requires HoldsAPrefix(s, initial) && s.owner >= 0
    ensures var side := s.sides[s.owner];
            && s.file.Holds?
            && LastChange(side.start, side.sent[..s.kept], LoggedChange, k, Lookup(s.file.table, k))
  {
    ApplyAllLastChange(s.sides[s.owner].start, s.sides[s.owner].sent[..s.kept], k);
  }

  /** No writer writes while or after another has touched the file it emptied. */
  predicate ExclusiveRun(s: State, actions: seq<Action>)
    decreases |actions|
  {
    actions == [] ||
    ((actions[0].Write? ==> actions[0].g < |s.sides| && !Overlapped(s, actions[0].g)) && !actions[0].Mix?
     && Step(s, actions[0]).Some? && ExclusiveRun(Step(s, actions[0]).value, actions[1..]))
  }

  lemma {:induction false} ExclusiveIsNotMixed(s: State, actions: seq<Action>)
    requires ExclusiveRun(s, actions) && !s.mixed
    ensures Run(s, actions).Some? && !Run(s, actions).value.mixed
    decreases |actions|
  {
    if actions != [] {
      ExclusiveIsNotMixed(Step(s, actions[0]).value, actions[1..]);
    }
  }

  /** If writers do not overlap, a file that is not torn holds a prefix. */
  lemma ExclusiveFileIsAPrefix(initial: File, actions: seq<Action>)
    requires ExclusiveRun(Start(initial), actions)
    ensures var s := Run(Start(initial), actions);
            s.Some? && (s.value.file.Torn? || HoldsAPrefix(s.value, initial))
  {
    ExclusiveIsNotMixed(Start(initial), actions);
    FileIsAPrefix(initial, actions, Run(Start(initial), actions).value);
  }

  // ---------- orderly recovery ----------

  /** The writer's file, once the newest loaded side is known. */
  predicate FileFollows(side: Side, file: File, touches: nat) {
    match side.writer
    case Creating => Load(file) == side.copy
    case Receiving => file == if side.answered then Holds(side.copy) else Torn
    case Truncated => file.Torn? && side.seen == touches
    case Updated => true
    case Absent => true
    case Loading => true
  }

  /** Older sides are quiet, newer sides have not loaded; the side in between serves
      the one table that all answers agree with. */
  ghost predicate Recovered(s: State, initial: File) {
    && AnswersFrom(Load(initial), s.acks)
    && -1 <= s.loaded < |s.sides|
    && (forall h: nat :: h < |s.sides| && h < s.loaded ==> Quiet(s.sides[h]))
    && (forall h: nat :: h < |s.sides| && h > s.loaded ==> !HasCopy(s.sides[h]))
    && (forall i :: 0 <= i < |s.acks| ==> s.acks[i].side <= s.loaded)
    && (forall i, j :: 0 <= i < j < |s.acks| ==> s.acks[i].side <= s.acks[j].side)
    && (if s.loaded < 0 then s.file == initial && s.acks == []
        else
          HasCopy(s.sides[s.loaded]) && FileFollows(s.sides[s.loaded], s.file, s.touches)
          && TableAfter(Load(initial), s.acks) == ApplyAll(s.sides[s.loaded].start, s.sides[s.loaded].sent))
  }

  /** A step of side `g` that answers nothing and does not touch file or log. */
  lemma SameTable(s: State, s': State, g: nat, initial: File)
    requires Inv(s, initial) && Recovered(s, initial) && g < |s.sides|
    requires |s'.sides| == |s.sides| && s' == SetSide(s, g, s'.sides[g])
    requires g < s.loaded ==> Quiet(s'.sides[g])
    requires g > s.loaded ==> !HasCopy(s'.sides[g])
    requires g == s.loaded ==> HasCopy(s'.sides[g]) && FileFollows(s'.sides[g], s.file, s.touches)
                               && s'.sides[g].start == s.sides[g].start && s'.sides[g].sent == s.sides[g].sent
    ensures Recovered(s', initial)
  {
  }

  /** The loaded side answers one request from the one table. */
  lemma AckFollows(s: State, s': State, g: nat, ack: Ack, initial: File)
    requires Recovered(s, initial) && g == s.loaded && ack.side == g
    requires |s'.sides| == |s.sides| && s' == SetSide(s, g, s'.sides[g]).(acks := s.acks + [ack])
    requires HasCopy(s'.sides[g]) && FileFollows(s'.sides[g], s.file, s.touches)
    requires ack.answer == Answer(TableAfter(Load(initial), s.acks), ack.request)
    requires ApplyAll(s'.sides[g].start, s'.sides[g].sent) == Effect(TableAfter(Load(initial), s.acks), ack.request)
    ensures Recovered(s', initial)
  {
    AckPush(Load(initial), s.acks, ack);
  }

  lemma AckRecovered(s: State, a: Action, initial: File)
    requires Inv(s, initial) && Recovered(s, initial) && Step(s, a).Some?
    requires a.Take? || a.Forward?
    ensures Recovered(Step(s, a).value, initial)
  {
    var g := a.g;
    var side := s.sides[g];
    assert SideOk(s, g);
    var s' := Step(s, a).value;
    assert g == s.loaded;
    if a.Forward? {
      var r := side.actor.request;
      ApplyAllPush(side.start, side.sent, ToLog(r).value);
      AckFollows(s, s', g, Ack(g, r, Answer(side.table, r)), initial);
    } else if ToLog(side.inbox[0]).None? {
      var r := side.inbox[0];
      AckFollows(s, s', g, Ack(g, r, Answer(side.table, r)), initial);
    } else {
      SameTable(s, s', g, initial);
    }
  }

  lemma LoadRecovered(s: State, g: nat, initial: File)
    requires Inv(s, initial) && Recovered(s, initial) && StepLoad(s, g).Some?
    requires forall h :: 0 <= h < g ==> Quiet(s.sides[h])
    ensures Recovered(StepLoad(s, g).value, initial)
  {
    assert SideOk(s, g);
    assert s.sides[g].sent == [];
    if s.loaded >= 0 {
      var last := s.sides[s.loaded];
      assert SideOk(s, s.loaded);
      if g > s.loaded {
        assert last.sent[last.done..] == [];
        assert last.sent[..last.done] == last.sent;
      }
    }
  }

  lemma ActorRecovered(s: State, a: Action, initial: File)
    requires Inv(s, initial) && Recovered(s, initial) && Step(s, a).Some?
    requires a.Spawn? || a.SendGet? || a.ReceiveTable? || a.Stop?
    ensures Recovered(Step(s, a).value, initial)
  {
    assert SideOk(s, a.g);
    SameTable(s, Step(s, a).value, a.g, initial);
  }

  lemma ReceiveLogRecovered(s: State, g: nat, initial: File)
    requires Inv(s, initial) && Recovered(s, initial) && StepReceiveLog(s, g).Some?
    ensures Recovered(StepReceiveLog(s, g).value, initial)
  {
    assert SideOk(s, g);
    SameTable(s, StepReceiveLog(s, g).value, g, initial);
  }

  /** The loaded writer replaces the file. */
  lemma FileReplaced(s: State, s': State, initial: File)
    requires Recovered(s, initial) && 0 <= s.loaded < |s.sides| && |s'.sides| == |s.sides|
    requires s' == SetSide(s, s.loaded, s'.sides[s.loaded]).(file := s'.file, owner := s'.owner, kept := s'.kept,
                                                                      touches := s'.touches, mixed := s'.mixed)
    requires HasCopy(s'.sides[s.loaded]) && FileFollows(s'.sides[s.loaded], s'.file, s'.touches)
    requires s'.sides[s.loaded].start == s.sides[s.loaded].start && s'.sides[s.loaded].sent == s.sides[s.loaded].sent
    ensures Recovered(s', initial)
  {
  }

  /** Only the writer that loaded last writes the file. */
  lemma EmptiedRecovered(s: State, a: Action, initial: File)
    requires Inv(s, initial) && Recovered(s, initial) && Step(s, a).Some? && (a.CreateFile? || a.Truncate?)
    ensures Recovered(Step(s, a).value, initial)
  {
    assert SideOk(s, a.g);
    assert a.g == s.loaded;
    FileReplaced(s, Step(s, a).value, initial);
  }

  /** No other writer has touched the file it is about to write. */
  lemma LoadedIsExclusive(s: State, g: nat, initial: File)
    requires Inv(s, initial) && Recovered(s, initial) && g < |s.sides| && s.sides[g].writer.Truncated?
    ensures g == s.loaded && !Overlapped(s, g)
  {
    assert SideOk(s, g);
    assert g == s.loaded;
    assert forall h: nat :: h < |s.sides| && h > g ==> !HasCopy(s.sides[h]);
  }

  lemma WrittenRecovered(s: State, a: Action, initial: File)
    requires Inv(s, initial) && Recovered(s, initial) && Step(s, a).Some? && (a.Mix? || a.Write?)
    ensures Recovered(Step(s, a).value, initial)
  {
    assert SideOk(s, a.g);
    LoadedIsExclusive(s, a.g, initial);
    FileReplaced(s, Step(s, a).value, initial);
  }

  lemma ResetRecovered(s: State, initial: File)
    requires Inv(s, initial) && Recovered(s, initial) && StepReset(s).Some?
    ensures Recovered(StepReset(s).value, initial)
  {
  }

  lemma StepRecovered(s: State, a: Action, initial: File)
    requires Inv(s, initial) && Recovered(s, initial) && Step(s, a).Some? && Orderly(s, a)
    ensures Recovered(Step(s, a).value, initial)
  {
    match a
    case Route(r) => SameTable(s, Step(s, a).value, |s.sides| - 1, initial);
    case Reset => ResetRecovered(s, initial);
    case Spawn(_) => ActorRecovered(s, a, initial);
    case SendGet(_) => ActorRecovered(s, a, initial);
    case ReceiveTable(_) => ActorRecovered(s, a, initial);
    case Stop(_) => ActorRecovered(s, a, initial);
    case ReceiveLog(g) => ReceiveLogRecovered(s, g, initial);
    case Take(_) => AckRecovered(s, a, initial);
    case Forward(_) => AckRecovered(s, a, initial);
    case LoadFile(g) => LoadRecovered(s, g, initial);
    case CreateFile(_) => EmptiedRecovered(s, a, initial);
    case Truncate(_) => EmptiedRecovered(s, a, initial);
    case Mix(_, _) => WrittenRecovered(s, a, initial);
    case Write(_, _) => WrittenRecovered(s, a, initial);
  }

  /** Everything answered by the first `n` sides, side after side. */
  function AnsweredUpTo(acks: seq<Ack>, n: nat): seq<Request> {
    if n == 0 then [] else AnsweredUpTo(acks, n - 1) + AnsweredBy(acks, n - 1)
  }

  function RequestsOf(acks: seq<Ack>): seq<Request> {
    seq(|acks|, i requires 0 <= i < |acks| => acks[i].request)
  }

  lemma {:induction false} UpToPush(acks: seq<Ack>, a: Ack, n: nat)
    requires forall i :: 0 <= i < |acks| ==> acks[i].side <= a.side
    ensures AnsweredUpTo(acks + [a], n)
         == if a.side < n then AnsweredUpTo(acks, n) + [a.request] else AnsweredUpTo(acks, n)
  {
    if n > 0 {
      UpToPush(acks, a, n - 1);
      AnsweredPush(acks, a, n - 1);
      if a.side < n - 1 {
        NoneAnswered(acks, n - 1);
        assert AnsweredUpTo(acks, n) == AnsweredUpTo(acks, n - 1);
      } else if a.side == n - 1 {
        Assoc(AnsweredUpTo(acks, n - 1), AnsweredBy(acks, n - 1), [a.request]);
      }
    }
  }

  lemma {:induction false} UpToEmpty(n: nat)
    ensures AnsweredUpTo([], n) == []
  {
    if n > 0 {
      UpToEmpty(n - 1);
    }
  }

  lemma {:induction false} SideBySide(acks: seq<Ack>, n: nat)
    requires forall i :: 0 <= i < |acks| ==> acks[i].side < n
    requires forall i, j :: 0 <= i < j < |acks| ==> acks[i].side <= acks[j].side
    ensures RequestsOf(acks) == AnsweredUpTo(acks, n)
    decreases |acks|
  {
    if acks == [] {
      UpToEmpty(n);
    } else {
      var before, last := acks[..|acks| - 1], acks[|acks| - 1];
      assert acks == before + [last];
      SideBySide(before, n);
      UpToPush(before, last, n);
      assert RequestsOf(acks) == RequestsOf(before) + [last.request];
    }
  }

  // ---------- acknowledged loads ----------

  /** A load by an actor that may still answer finds the older actors stopped and the
      acknowledged table in the file. */
  predicate Acknowledged(t: Table, s: State, a: Action) {
    a.LoadFile? && a.g < |s.sides| && !s.sides[a.g].actor.Stopped? ==>
      && (forall h :: 0 <= h < a.g ==> s.sides[h].actor.Stopped?)
      && Load(s.file) == TableAfter(t, s.acks)
  }

  predicate AcknowledgedRun(t: Table, s: State, actions: seq<Action>)
    decreases |actions|
  {
    actions == [] ||
    (Acknowledged(t, s, actions[0]) && Step(s, actions[0]).Some?
     && AcknowledgedRun(t, Step(s, actions[0]).value, actions[1..]))
  }

  /** The answers are those of one table, older actors first; a side with a table serves
      that table, and everything older has stopped. */
  ghost predicate OneServes(t: Table, s: State) {
    && AnswersFrom(t, s.acks)
    && (forall g: nat :: g < |s.sides| && Live(s.sides[g]) ==>
          TableOf(s.sides[g]) == TableAfter(t, s.acks) && forall h :: 0 <= h < g ==> s.sides[h].actor.Stopped?)
    && (forall i, h :: 0 <= i < |s.acks| && 0 <= h < |s.sides| && h < s.acks[i].side ==> s.sides[h].actor.Stopped?)
    && (forall i, j :: 0 <= i < j < |s.acks| ==> s.acks[i].side <= s.acks[j].side)
  }

  lemma SilentServes(t: Table, s: State, s': State, g: nat)
    requires OneServes(t, s) && Beside(s, s', g) && s'.acks == s.acks && g < |s.sides|
    requires s.sides[g].actor.Stopped? ==> s'.sides[g].actor.Stopped?
    requires Live(s'.sides[g]) ==> Live(s.sides[g]) && TableOf(s'.sides[g]) == TableOf(s.sides[g])
    ensures OneServes(t, s')
  {
  }

  lemma AnswerServes(t: Table, s: State, s': State, g: nat)
    requires OneServes(t, s) && AnsweredFirst(s, s', g) && Live(s.sides[g])
    requires forall i :: 0 <= i < |s.acks| ==> s.acks[i].side < |s.sides|
    ensures OneServes(t, s')
  {
    var r := Pending(s.sides[g])[0];
    AckPush(t, s.acks, Ack(g, r, Answer(TableOf(s.sides[g]), r)));
    assert forall i :: 0 <= i < |s.acks| ==> s.acks[i].side <= g;
  }

  lemma AckServes(t: Table, s: State, a: Action, initial: File)
    requires Inv(s, initial) && OneServes(t, s) && Step(s, a).Some? && (a.Take? || a.Forward?)
    ensures OneServes(t, Step(s, a).value)
  {
    var s' := Step(s, a).value;
    assert SideOk(s, a.g);
    if a.Forward? {
      WriteAnswers(s, a.g, initial);
      AnswerServes(t, s, s', a.g);
    } else if ToLog(s.sides[a.g].inbox[0]).None? {
      GetAnswers(s, a.g, initial);
      AnswerServes(t, s, s', a.g);
    } else {
      SilentServes(t, s, s', a.g);
    }
  }

  lemma LoadServes(t: Table, s: State, g: nat, initial: File)
    requires Inv(s, initial) && OneServes(t, s) && StepLoad(s, g).Some? && Acknowledged(t, s, LoadFile(g))
    ensures OneServes(t, StepLoad(s, g).value)
  {
    assert SideOk(s, g);
    assert TableOf(StepLoad(s, g).value.sides[g]) == Load(s.file);
  }

  lemma ActorServes(t: Table, s: State, a: Action, initial: File)
    requires Inv(s, initial) && OneServes(t, s) && Step(s, a).Some?
    requires a.Spawn? || a.SendGet? || a.ReceiveTable? || a.Stop?
    ensures OneServes(t, Step(s, a).value)
  {
    assert SideOk(s, a.g);
    SilentServes(t, s, Step(s, a).value, a.g);
  }

  lemma WriterServes(t: Table, s: State, a: Action)
    requires OneServes(t, s) && Step(s, a).Some? && (a.CreateFile? || a.Truncate? || a.Mix? || a.Write?)
    ensures OneServes(t, Step(s, a).value)
  {
    SilentServes(t, s, Step(s, a).value, a.g);
  }

  lemma ReceiveLogServes(t: Table, s: State, g: nat)
    requires OneServes(t, s) && StepReceiveLog(s, g).Some?
    ensures OneServes(t, StepReceiveLog(s, g).value)
  {
    SilentServes(t, s, StepReceiveLog(s, g).value, g);
  }

  lemma RouteServes(t: Table, s: State, r: Request)
    requires OneServes(t, s) && StepRoute(s, r).Some?
    ensures OneServes(t, StepRoute(s, r).value)
  {
    SilentServes(t, s, StepRoute(s, r).value, |s.sides| - 1);
  }

  lemma ResetServes(t: Table, s: State)
    requires OneServes(t, s) && StepReset(s).Some?
    requires forall i :: 0 <= i < |s.acks| ==> s.acks[i].side < |s.sides|
    ensures OneServes(t, StepReset(s).value)
  {
  }

  lemma StepServes(t: Table, s: State, a: Action, initial: File)
    requires Inv(s, initial) && OneServes(t, s) && Step(s, a).Some? && Acknowledged(t, s, a)
    ensures OneServes(t, Step(s, a).value)
  {
    match a
    case Route(r) => RouteServes(t, s, r);
    case Reset => ResetServes(t, s);
    case Take(_) => AckServes(t, s, a, initial);
    case Forward(_) => AckServes(t, s, a, initial);
    case LoadFile(g) => LoadServes(t, s, g, initial);
    case ReceiveLog(g) => ReceiveLogServes(t, s, g);
    case _ =>
      if a.CreateFile? || a.Truncate? || a.Mix? || a.Write? {
        WriterServes(t, s, a);
      } else {
        ActorServes(t, s, a, initial);
      }
  }

  lemma {:induction false} RunServes(t: Table, s: State, actions: seq<Action>, initial: File)
    requires Inv(s, initial) && OneServes(t, s) && AcknowledgedRun(t, s, actions)
    ensures Run(s, actions).Some? && Inv(Run(s, actions).value, initial) && OneServes(t, Run(s, actions).value)
    decreases |actions|
  {
    if actions != [] {
      StepInv(s, actions[0], initial);
      StepServes(t, s, actions[0], initial);
      RunServes(t, Step(s, actions[0]).value, actions[1..], initial);
    }
  }

  /** All answers are those of one table, started from the file; requests take effect side
      after side, so in router order; and the serving actor holds that table. */
  ghost predicate RefinesOneTable(initial: File, s: State) {
    && AnswersFrom(Load(initial), s.acks)
    && RequestsOf(s.acks) == AnsweredUpTo(s.acks, |s.sides|)
    && (forall g :: 0 <= g < |s.sides| && Running(s.sides[g]) ==> s.sides[g].table == TableAfter(Load(initial), s.acks))
  }

  /** Over any number of Resets: if every load finds the older actors stopped and the
      acknowledged table in the file, the store refines one table. */
  lemma ResetsRefineOneTable(initial: File, actions: seq<Action>)
    requires AcknowledgedRun(Load(initial), Start(initial), actions)
    ensures Run(Start(initial), actions).Some? && RefinesOneTable(initial, Run(Start(initial), actions).value)
  {
    var t := Load(initial);
    StartInv(initial);
    RunServes(t, Start(initial), actions, initial);
    var s := Run(Start(initial), actions).value;
    SideBySide(s.acks, |s.sides|);
    forall g | 0 <= g < |s.sides| && Running(s.sides[g])
      ensures s.sides[g].table == TableAfter(t, s.acks)
    {
      assert SideOk(s, g);
    }
  }

  /** What the file holds at the start: a text that cannot be read counts as no entry. */
  function Stored(initial: File): Table {
    match initial
    case Holds(table) => table
    case Torn => map[]
    case Missing => map[]
  }

  /** In such a run every Get, whichever actor answers it, finds what the last acknowledged
      Set or Delete of its key left, and the stored entry if there is none; and under each
      key the serving actor holds what the last acknowledged write of it left. */
  lemma RefinedByLastWrite(initial: File, s: State)
    requires RefinesOneTable(initial, s)
    ensures forall i :: 0 <= i < |s.acks| ==> AnswersLastChange(Stored(initial), s.acks, i)
    ensures forall g, k :: 0 <= g < |s.sides| && Running(s.sides[g]) ==>
              LastChange(Stored(initial), s.acks, AckedChange, k, Lookup(s.sides[g].table, k))
  {
    assert Load(initial) == Stored(initial);
    AnswersFromIff(Stored(initial), s.acks);
    forall g, k | 0 <= g < |s.sides| && Running(s.sides[g])
      ensures LastChange(Stored(initial), s.acks, AckedChange, k, Lookup(s.sides[g].table, k))
    {
      TableAfterLastChange(Stored(initial), s.acks, k);
    }
  }

  /** A writer that loads when every older side is quiet finds the acknowledged table. */
  lemma QuietLoad(s: State, g: nat, initial: File)
    requires Inv(s, initial) && Recovered(s, initial) && StepLoad(s, g).Some?
    requires forall h :: 0 <= h < g ==> Quiet(s.sides[h])
    ensures Acknowledged(Load(initial), s, LoadFile(g))
  {
    if s.loaded >= 0 {
      var last := s.sides[s.loaded];
      assert SideOk(s, s.loaded);
      assert g > s.loaded;
      assert last.sent[last.done..] == [];
      assert last.sent[..last.done] == last.sent;
    }
  }

  lemma {:induction false} OrderlyIsAcknowledged(s: State, actions: seq<Action>, initial: File)
    requires Inv(s, initial) && Recovered(s, initial) && OrderlyRun(s, actions)
    ensures AcknowledgedRun(Load(initial), s, actions)
    decreases |actions|
  {
    if actions != [] {
      if actions[0].LoadFile? {
        QuietLoad(s, actions[0].g, initial);
      }
      StepInv(s, actions[0], initial);
      StepRecovered(s, actions[0], initial);
      OrderlyIsAcknowledged(Step(s, actions[0]).value, actions[1..], initial);
    }
  }

  /** It does so if each writer loads the file only when every older side is quiet: its
      actor has stopped and its writer has answered the opening Get and caught up. */
  lemma QuietResetsRefineOneTable(initial: File, actions: seq<Action>)
    requires OrderlyRun(Start(initial), actions)
    ensures Run(Start(initial), actions).Some? && RefinesOneTable(initial, Run(Start(initial), actions).value)
  {
    StartInv(initial);
    assert Recovered(Start(initial), initial);
    OrderlyIsAcknowledged(Start(initial), actions, initial);
    ResetsRefineOneTable(initial, actions);
  }

  // ---------- without it answers go wrong ----------

  lemma Extend(s0: State, actions: seq<Action>, s: State, a: Action) returns (more: seq<Action>, next: State)
    requires Run(s0, actions) == Some(s) && Step(s, a).Some?
    ensures more == actions + [a] && Run(s0, more) == Some(next) && Step(s, a) == Some(next)
  {
    RunConcat(s0, actions, [a]);
    assert [a][1..] == [];
    more, next := actions + [a], Step(s, a).value;
  }

  /** The state once side `g` has started up from the file it found. */
  function Booted(s: State, g: nat): State
    requires g < |s.sides|
  {
    var t := Load(s.file);
    s.(sides := s.sides[g := FRESH.(actor := Serving, table := t, writer := Receiving, copy := t, start := t,
                                    asked := true, answered := true, seen := s.touches + 2)],
       file := Holds(t), owner := g, kept := 0, loaded := g, touches := s.touches + 3, mixed := false)
  }

  lemma BootWriter(s0: State, before: seq<Action>, s: State, g: nat) returns (actions: seq<Action>, last: State)
    requires Run(s0, before) == Some(s) && g < |s.sides| && s.sides[g] == FRESH
    ensures Run(s0, actions) == Some(last)
    ensures last == s.(sides := s.sides[g := FRESH.(actor := Awaiting, writer := Receiving, log := [LogGet],
                                                    copy := Load(s.file), start := Load(s.file), asked := true)],
                       file := Torn, loaded := g, touches := s.touches + 1, mixed := false)
  {
    actions, last := Extend(s0, before, s, Spawn(g));
    actions, last := Extend(s0, actions, last, SendGet(g));
    actions, last := Extend(s0, actions, last, LoadFile(g));
    actions, last := Extend(s0, actions, last, CreateFile(g));
    assert last.sides[g] == FRESH.(actor := Awaiting, writer := Receiving, log := [LogGet],
                                   copy := Load(s.file), start := Load(s.file), asked := true);
  }

  lemma Boot(s0: State, before: seq<Action>, s: State, g: nat) returns (actions: seq<Action>, last: State)
    requires Run(s0, before) == Some(s) && g < |s.sides| && s.sides[g] == FRESH
    ensures Run(s0, actions) == Some(last) && last == Booted(s, g)
  {
    actions, last := BootWriter(s0, before, s, g);
    actions, last := Extend(s0, actions, last, ReceiveLog(g));
    actions, last := Extend(s0, actions, last, Truncate(g));
    actions, last := Extend(s0, actions, last, Write(g, None));
    actions, last := Extend(s0, actions, last, ReceiveTable(g));
    assert last.sides[g] == Booted(s, g).sides[g];
    assert last.sides == Booted(s, g).sides;
  }

  /** Side 0 answers a Set, the writer still has it queued, and a Reset arrives. */
  lemma SetThenReset(k: Key, v: Value) returns (actions: seq<Action>, s: State)
    ensures Run(Start(Missing), actions) == Some(s)
    ensures |s.sides| == 2 && s.sides[1] == FRESH && s.file == Holds(map[])
    ensures s.acks == [Ack(0, Set(k, v), None)] && s.sides[0].writer.Receiving? && s.sides[0].log != []
  {
    var s0 := Start(Missing);
    actions, s := Boot(s0, [], s0, 0);
    actions, s := Extend(s0, actions, s, Route(Set(k, v)));
    actions, s := Extend(s0, actions, s, Take(0));
    actions, s := Extend(s0, actions, s, Forward(0));
    actions, s := Extend(s0, actions, s, Reset);
    actions, s := Extend(s0, actions, s, Stop(0));
  }

  lemma LostWrite(k: Key, v: Value)
    ensures !AnswersFrom(map[], [Ack(0, Set(k, v), None), Ack(1, Get(k), None)])
  {
    var acks := [Ack(0, Set(k, v), None), Ack(1, Get(k), None)];
    assert acks[..1] == [acks[0]] && acks[..1][..0] == [];
    assert TableAfter(map[], acks[..1]) == map[k := v];
    assert acks[1].answer != Answer(TableAfter(map[], acks[..1]), acks[1].request);
  }

  /** A Set that was answered but is still in the old writer's channel when the new
      writer loads the file is lost: a later Get does not see it. */
  lemma UndrainedResetLosesWrite(k: Key, v: Value) returns (actions: seq<Action>, s: State)
    ensures Run(Start(Missing), actions) == Some(s)
    ensures s.acks == [Ack(0, Set(k, v), None), Ack(1, Get(k), None)]
    ensures !AnswersFrom(Load(Missing), s.acks)
  {
    var s0 := Start(Missing);
    actions, s := SetThenReset(k, v);
    actions, s := Boot(s0, actions, s, 1);
    actions, s := Extend(s0, actions, s, Route(Get(k)));
    actions, s := Extend(s0, actions, s, Take(1));
    LostWrite(k, v);
  }

  /** A Reset before the opening Get is answered can lose the stored table: the file
      is empty from its creation to the first message. */
  lemma UnansweredGetLosesFile(k: Key, v: Value) returns (actions: seq<Action>, s: State)
    ensures Run(Start(Holds(map[k := v])), actions) == Some(s)
    ensures s.acks == [Ack(1, Get(k), None)]
    ensures !AnswersFrom(map[k := v], s.acks)
  {
    var s0 := Start(Holds(map[k := v]));
    actions, s := Extend(s0, [], s0, Spawn(0));
    actions, s := Extend(s0, actions, s, SendGet(0));
    actions, s := Extend(s0, actions, s, LoadFile(0));
    actions, s := Extend(s0, actions, s, CreateFile(0));
    actions, s := Extend(s0, actions, s, Reset);
    actions, s := Extend(s0, actions, s, Stop(0));
    actions, s := Boot(s0, actions, s, 1);
    actions, s := Extend(s0, actions, s, Route(Get(k)));
    actions, s := Extend(s0, actions, s, Take(1));
    assert s.acks[..0] == [];
    assert s.acks[0].answer != Answer(TableAfter(map[k := v], s.acks[..0]), s.acks[0].request);
  }

  /** Quiet is more than is needed: the old writer may still have a Delete of an absent key
      queued when the new writer loads the acknowledged table. */
  lemma QuietIsNotNeeded(k: Key) returns (actions: seq<Action>, s: State)
    ensures Run(Start(Missing), actions) == Some(s) && Step(s, LoadFile(1)).Some?
    ensures !Orderly(s, LoadFile(1)) && Acknowledged(Load(Missing), s, LoadFile(1))
  {
    var s0 := Start(Missing);
    actions, s := Boot(s0, [], s0, 0);
    actions, s := Extend(s0, actions, s, Route(Delete(k)));
    actions, s := Extend(s0, actions, s, Take(0));
    actions, s := Extend(s0, actions, s, Forward(0));
    actions, s := Extend(s0, actions, s, Reset);
    actions, s := Extend(s0, actions, s, Stop(0));
    actions, s := Extend(s0, actions, s, Spawn(1));
    assert s.acks == [Ack(0, Delete(k), None)] && s.acks[..0] == [];
    assert !Quiet(s.sides[0]);
    var none: Table := map[];
    assert none - {k} == none;
  }

  /** A writer with a message empties the file. */
  lemma EmptyFile(s0: State, before: seq<Action>, s: State, g: nat) returns (actions: seq<Action>, last: State)
    requires Run(s0, before) == Some(s) && g < |s.sides| && s.sides[g].writer.Receiving? && s.sides[g].log != []
    ensures Run(s0, actions) == Some(last) && Beside(s, last, g) && last.sides[g].writer.Truncated?
  {
    actions, last := Extend(s0, before, s, ReceiveLog(g));
    actions, last := Extend(s0, actions, last, Truncate(g));
  }

  /** Side 1 has loaded and emptied the file, and side 0 empties it once more. */
  lemma TwoWriters(k: Key, v: Value) returns (actions: seq<Action>, s: State)
    ensures Run(Start(Missing), actions) == Some(s) && |s.sides| == 2
    ensures s.sides[0].writer.Truncated? && s.sides[1].writer.Truncated?
  {
    actions, s := SetThenReset(k, v);
    actions, s := BootWriter(Start(Missing), actions, s, 1);
    actions, s := EmptyFile(Start(Missing), actions, s, 1);
    actions, s := EmptyFile(Start(Missing), actions, s, 0);
  }

  /** Two writers at work on the file may leave it with a table that neither has. */
  lemma OverlapLeavesAnything(k: Key, v: Value, t: Table) returns (actions: seq<Action>, s: State)
    ensures Run(Start(Missing), actions) == Some(s) && s.file == Holds(t)
  {
    actions, s := TwoWriters(k, v);
    assert s.sides[0].writer.Truncated? && 0 != 1;
    actions, s := Extend(Start(Missing), actions, s, Write(1, Some(Holds(t))));
  }
}
