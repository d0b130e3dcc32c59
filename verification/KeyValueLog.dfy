/** Log replication: what holds in every run, orderly or not. */
module KeyValueLog {
  import opened Options
  import opened KeyValueModel
  import opened KeyValueMachine

  /** The requests a side has answered, in order. */
  function AnsweredBy(acks: seq<Ack>, g: nat): seq<Request>
    decreases |acks|
  {
    if acks == [] then []
    else
      var before := AnsweredBy(acks[..|acks| - 1], g);
      var last := acks[|acks| - 1];
      if last.side == g then before + [last.request] else before
  }

  /** The log messages of the writes among some requests. */
  function WritesOf(rs: seq<Request>): seq<LogMessage>
    decreases |rs|
  {
    if rs == [] then []
    else
      var before := WritesOf(rs[..|rs| - 1]);
      var m := ToLog(rs[|rs| - 1]);
      if m.Some? then before + [m.value] else before
  }

  lemma AnsweredPush(acks: seq<Ack>, a: Ack, g: nat)
    ensures AnsweredBy(acks + [a], g) == if a.side == g then AnsweredBy(acks, g) + [a.request] else AnsweredBy(acks, g)
  {
    assert (acks + [a])[..|acks|] == acks;
  }

  lemma WritesPush(rs: seq<Request>, r: Request)
    ensures WritesOf(rs + [r]) == if ToLog(r).Some? then WritesOf(rs) + [ToLog(r).value] else WritesOf(rs)
  {
    assert (rs + [r])[..|rs|] == rs;
  }

  /** The writer has read its file and has a map. */
  predicate HasCopy(side: Side) { !side.writer.Absent? && !side.writer.Loading? }

  predicate Running(side: Side) { side.actor.Serving? || side.actor.Forwarding? }

  /** How the phases of an actor and its writer fit together. */
  predicate PhasesOk(side: Side) {
    && (side.writer.Absent? ==> side.actor.Starting? || side.actor.Stopped?)
    && (side.actor.Starting? ==> side.writer.Absent?)
    && (side.actor.Starting? || side.actor.Opening? ==> !side.asked)
    && (side.writer.Absent? ==> !side.asked)
    && (side.actor.Awaiting? || Running(side) ==> side.asked)
    && (Running(side) ==> side.answered)
    && (side.answered ==> side.asked && HasCopy(side) && !side.writer.Creating?)
    && (side.writer.Updated? || side.writer.Truncated? ==> side.answered)
    && (!side.answered ==> side.sent == [])
    && (side.actor.Awaiting? ==> side.sent == [])
    && (side.reply.Some? ==> side.actor.Awaiting? && side.answered && side.reply.value == side.start)
    && (side.actor.Awaiting? && side.answered ==> side.reply.Some?)
    && (side.actor.Forwarding? ==> ToLog(side.actor.request).Some?)
    && (side.actor.Stopped? ==> side.aborted)
    && (if side.actor.Stopped? then Pending(side) == [] else side.dropped == [])
  }

  /** The writer's channel holds the opening Get, until it is handled, and then the
      writes not yet applied; both maps follow the log. */
  predicate LogOk(side: Side) {
    && side.done <= |side.sent|
    && side.log == (if side.asked && !side.answered then [LogGet] else []) + side.sent[side.done..]
    && (HasCopy(side) ==> side.copy == ApplyAll(side.start, side.sent[..side.done]))
    && (Running(side) ==> side.table == ApplyAll(side.start, side.sent))
    && (forall i :: 0 <= i < |side.sent| ==> !side.sent[i].LogGet?)
  }

  /** A side's writes are its answered writes; its requests are answered in order,
      the rest is pending or, once it has stopped, dropped. */
  predicate AcksOk(side: Side, answered: seq<Request>) {
    && side.sent == WritesOf(answered)
    && side.routed == answered + Pending(side) + side.dropped
  }

  predicate SideOk(s: State, g: nat)
    requires g < |s.sides|
  {
    PhasesOk(s.sides[g]) && LogOk(s.sides[g]) && AcksOk(s.sides[g], AnsweredBy(s.acks, g))
  }

  /** Unless overlapping rewrites have left it, a readable file holds the table its last
      writer loaded, with a prefix of that side's writes applied; before any write it
      holds what it held at the start. */
  predicate FileOk(s: State, initial: File) {
    if s.owner < 0 then s.mixed || s.file == initial || s.file.Torn?
    else
      && s.owner < |s.sides| && s.kept <= |s.sides[s.owner].sent|
      && HasCopy(s.sides[s.owner])
      && (s.mixed || s.file.Torn? || s.file == Holds(ApplyAll(s.sides[s.owner].start, s.sides[s.owner].sent[..s.kept])))
  }

  ghost predicate Inv(s: State, initial: File) {
    && s.sides != [] && !s.sides[|s.sides| - 1].aborted
    && (forall g: nat :: g < |s.sides| ==> SideOk(s, g))
    && (forall i :: 0 <= i < |s.acks| ==> s.acks[i].side < |s.sides|)
    && FileOk(s, initial)
  }

  lemma {:induction false} NoneAnswered(acks: seq<Ack>, g: nat)
    requires forall i :: 0 <= i < |acks| ==> acks[i].side < g
    ensures AnsweredBy(acks, g) == []
    decreases |acks|
  {
    if acks != [] {
      NoneAnswered(acks[..|acks| - 1], g);
    }
  }

  /** A step that changes one side, answers nothing and leaves the file alone. */
  lemma OneSide(s: State, g: nat, side: Side, initial: File)
    requires Inv(s, initial) && g < |s.sides|
    requires PhasesOk(side) && LogOk(side) && AcksOk(side, AnsweredBy(s.acks, g))
    requires HasCopy(s.sides[g]) ==> HasCopy(side) && side.start == s.sides[g].start
    requires s.sides[g].sent <= side.sent && side.aborted == s.sides[g].aborted
    ensures Inv(SetSide(s, g, side), initial)
  {
    var s' := SetSide(s, g, side);
    forall h: nat | h < |s'.sides|
      ensures SideOk(s', h)
    {
      assert SideOk(s, h);
    }
    if s.owner == g {
      assert side.sent[..s.kept] == s.sides[g].sent[..s.kept];
    }
  }

  lemma RouteInv(s: State, r: Request, initial: File)
    requires Inv(s, initial) && StepRoute(s, r).Some?
    ensures Inv(StepRoute(s, r).value, initial)
  {
    var g := |s.sides| - 1;
    var side := s.sides[g];
    assert SideOk(s, g);
    var side' := side.(inbox := side.inbox + [r], routed := side.routed + [r]);
    assert Pending(side') == Pending(side) + [r];
    OneSide(s, g, side', initial);
  }

  lemma ResetInv(s: State, initial: File)
    requires Inv(s, initial) && StepReset(s).Some?
    ensures Inv(StepReset(s).value, initial)
  {
    var s' := StepReset(s).value;
    NoneAnswered(s.acks, |s.sides|);
    forall h: nat | h < |s'.sides|
      ensures SideOk(s', h)
    {
      if h < |s.sides| {
        assert SideOk(s, h);
      }
    }
  }

  lemma SpawnInv(s: State, g: nat, initial: File)
    requires Inv(s, initial) && StepSpawn(s, g).Some?
    ensures Inv(StepSpawn(s, g).value, initial)
  {
    assert SideOk(s, g);
    OneSide(s, g, s.sides[g].(actor := Opening, writer := Loading), initial);
  }

  lemma SendGetInv(s: State, g: nat, initial: File)
    requires Inv(s, initial) && StepSendGet(s, g).Some?
    ensures Inv(StepSendGet(s, g).value, initial)
  {
    assert SideOk(s, g);
    OneSide(s, g, s.sides[g].(actor := Awaiting, log := s.sides[g].log + [LogGet], asked := true), initial);
  }

  lemma ReceiveTableInv(s: State, g: nat, initial: File)
    requires Inv(s, initial) && StepReceiveTable(s, g).Some?
    ensures Inv(StepReceiveTable(s, g).value, initial)
  {
    assert SideOk(s, g);
    OneSide(s, g, s.sides[g].(actor := Serving, table := s.sides[g].reply.value, reply := None), initial);
  }

  /** A step of side `g` that answers one request. */
  lemma OneAck(s: State, g: nat, side: Side, a: Ack, initial: File)
    requires Inv(s, initial) && g < |s.sides| && a.side == g
    requires PhasesOk(side) && LogOk(side) && AcksOk(side, AnsweredBy(s.acks, g) + [a.request])
    requires HasCopy(s.sides[g]) ==> HasCopy(side) && side.start == s.sides[g].start
    requires s.sides[g].sent <= side.sent && side.aborted == s.sides[g].aborted
    ensures Inv(SetSide(s, g, side).(acks := s.acks + [a]), initial)
  {
    var s' := SetSide(s, g, side).(acks := s.acks + [a]);
    forall h: nat | h < |s'.sides|
      ensures SideOk(s', h)
    {
      AnsweredPush(s.acks, a, h);
      if h != g {
        assert SideOk(s, h);
        assert AnsweredBy(s'.acks, h) == AnsweredBy(s.acks, h);
      }
    }
    if s.owner == g {
      assert side.sent[..s.kept] == s.sides[g].sent[..s.kept];
    }
  }

  lemma TakeGet(s: State, g: nat, initial: File)
    requires Inv(s, initial) && StepTake(s, g).Some? && ToLog(s.sides[g].inbox[0]).None?
    ensures Inv(StepTake(s, g).value, initial)
  {
    var side := s.sides[g];
    var r := side.inbox[0];
    assert SideOk(s, g);
    var rest := side.(inbox := side.inbox[1..]);
    assert Pending(side) == [r] + Pending(rest);
    AnswerFirst(AnsweredBy(s.acks, g), r, Pending(rest), side.dropped);
    WritesPush(AnsweredBy(s.acks, g), r);
    OneAck(s, g, rest, Ack(g, r, Answer(side.table, r)), initial);
  }

  lemma TakeWrite(s: State, g: nat, initial: File)
    requires Inv(s, initial) && StepTake(s, g).Some? && ToLog(s.sides[g].inbox[0]).Some?
    ensures Inv(StepTake(s, g).value, initial)
  {
    var side := s.sides[g];
    assert SideOk(s, g);
    var next := side.(inbox := side.inbox[1..], actor := Forwarding(side.inbox[0]));
    assert Pending(next) == Pending(side);
    OneSide(s, g, next, initial);
  }

  /** Answering the first pending request moves it, in order, to the answered ones. */
  lemma AnswerFirst(answered: seq<Request>, r: Request, pending: seq<Request>, dropped: seq<Request>)
    ensures answered + ([r] + pending) + dropped == (answered + [r]) + pending + dropped
  {
  }

  /** The actor logs a write, applies it and answers. */
  lemma ForwardedLog(side: Side, m: LogMessage, side': Side)
    requires PhasesOk(side) && LogOk(side) && side.actor.Forwarding? && ToLog(side.actor.request) == Some(m)
    requires side' == side.(actor := Serving, log := side.log + [m], sent := side.sent + [m],
                            table := Apply(side.table, m))
    ensures PhasesOk(side') && LogOk(side')
  {
    ApplyAllPush(side.start, side.sent, m);
    assert side'.sent[side.done..] == side.sent[side.done..] + [m];
    assert side'.sent[..side.done] == side.sent[..side.done];
  }

  lemma ForwardedAcks(side: Side, answered: seq<Request>, r: Request, side': Side)
    requires AcksOk(side, answered) && side.actor == Forwarding(r) && ToLog(r).Some?
    requires side'.actor.Serving? && side'.inbox == side.inbox && side'.sent == side.sent + [ToLog(r).value]
    requires side'.routed == side.routed && side'.dropped == side.dropped
    ensures AcksOk(side', answered + [r])
  {
    assert Pending(side) == [r] + Pending(side');
    AnswerFirst(answered, r, Pending(side'), side.dropped);
    WritesPush(answered, r);
  }

  lemma ForwardInv(s: State, g: nat, initial: File)
    requires Inv(s, initial) && StepForward(s, g).Some?
    ensures Inv(StepForward(s, g).value, initial)
  {
    var side := s.sides[g];
    var r := side.actor.request;
    var m := ToLog(r).value;
    var side' := side.(actor := Serving, log := side.log + [m], sent := side.sent + [m], table := Apply(side.table, m));
    assert SideOk(s, g);
    ForwardedLog(side, m, side');
    ForwardedAcks(side, AnsweredBy(s.acks, g), r, side');
    OneAck(s, g, side', Ack(g, r, Answer(side.table, r)), initial);
  }

  lemma StopInv(s: State, g: nat, initial: File)
    requires Inv(s, initial) && StepStop(s, g).Some?
    ensures Inv(StepStop(s, g).value, initial)
  {
    var side := s.sides[g];
    assert SideOk(s, g);
    OneSide(s, g, side.(actor := Stopped, inbox := [], reply := None, dropped := Pending(side)), initial);
  }

  lemma LoadInv(s: State, g: nat, initial: File)
    requires Inv(s, initial) && StepLoad(s, g).Some?
    ensures Inv(StepLoad(s, g).value, initial)
  {
    var side := s.sides[g].(writer := Creating, copy := Load(s.file), start := Load(s.file));
    assert SideOk(s, g);
    assert s.sides[g].sent[..s.sides[g].done] == [];
    OneSide(s, g, side, initial);
    assert forall h: nat :: h < |s.sides| ==> SideOk(SetSide(s, g, side), h);
    var s' := StepLoad(s, g).value;
    forall h: nat | h < |s'.sides| ensures SideOk(s', h) {
      assert SideOk(SetSide(s, g, side), h);
    }
  }

  /** A writer step that replaces the file. */
  lemma NewFile(s: State, g: nat, side: Side, s': State, initial: File)
    requires Inv(s, initial) && g < |s.sides|
    requires PhasesOk(side) && LogOk(side) && AcksOk(side, AnsweredBy(s.acks, g))
    requires HasCopy(s.sides[g]) && HasCopy(side) && side.start == s.sides[g].start
    requires side.sent == s.sides[g].sent && side.aborted == s.sides[g].aborted && side.done == s.sides[g].done
    requires s' == SetSide(s, g, side).(file := s'.file, owner := s'.owner, kept := s'.kept, touches := s'.touches,
                                        mixed := s'.mixed)
    requires || ((s'.mixed || s'.file.Torn?) && s'.owner == s.owner && s'.kept == s.kept)
             || ((s'.mixed || s'.file == Holds(side.copy)) && s'.owner == g && s'.kept == side.done)
    ensures Inv(s', initial)
  {
    OneSide(s, g, side, initial);
    forall h: nat | h < |s.sides|
      ensures SideOk(s', h)
    {
      assert SideOk(SetSide(s, g, side), h);
    }
  }

  /** The writer answers the opening Get, the first message of its channel. */
  lemma OpeningGet(side: Side, side': Side)
    requires PhasesOk(side) && LogOk(side) && side.writer.Receiving? && side.log != [] && side.log[0].LogGet?
    requires var reply := if side.actor.Stopped? then None else Some(side.copy);
             side' == side.(writer := Updated, log := side.log[1..], reply := reply, answered := true)
    ensures side.copy == side.start && PhasesOk(side') && LogOk(side')
  {
    assert !side.answered && side.sent == [];
    assert side'.log == side'.sent[side'.done..];
  }

  lemma OpeningGetInv(s: State, g: nat, initial: File)
    requires Inv(s, initial) && StepReceiveLog(s, g).Some? && s.sides[g].log[0].LogGet?
    ensures Inv(StepReceiveLog(s, g).value, initial)
  {
    var side := s.sides[g];
    assert SideOk(s, g);
    var reply := if side.actor.Stopped? then None else Some(side.copy);
    var side' := side.(writer := Updated, log := side.log[1..], reply := reply, answered := true);
    OpeningGet(side, side');
    OneSide(s, g, side', initial);
  }

  /** The writer applies the next logged write to its map. */
  lemma LoggedWrite(side: Side, m: LogMessage, side': Side)
    requires PhasesOk(side) && LogOk(side) && side.writer.Receiving? && side.log != [] && side.log[0] == m && !m.LogGet?
    requires side' == side.(writer := Updated, log := side.log[1..], copy := Apply(side.copy, m), done := side.done + 1)
    ensures PhasesOk(side') && LogOk(side')
  {
    assert !(side.asked && !side.answered);
    assert side.log == side.sent[side.done..];
    assert m == side.sent[side.done];
    assert side.sent[..side.done + 1] == side.sent[..side.done] + [m];
    ApplyAllPush(side.start, side.sent[..side.done], m);
    assert side'.log == side'.sent[side'.done..];
  }

  lemma LoggedWriteInv(s: State, g: nat, initial: File)
    requires Inv(s, initial) && StepReceiveLog(s, g).Some? && !s.sides[g].log[0].LogGet?
    ensures Inv(StepReceiveLog(s, g).value, initial)
  {
    var side := s.sides[g];
    var m := side.log[0];
    assert SideOk(s, g);
    var side' := side.(writer := Updated, log := side.log[1..], copy := Apply(side.copy, m), done := side.done + 1);
    LoggedWrite(side, m, side');
    OneSide(s, g, side', initial);
  }

  lemma ReceiveLogInv(s: State, g: nat, initial: File)
    requires Inv(s, initial) && StepReceiveLog(s, g).Some?
    ensures Inv(StepReceiveLog(s, g).value, initial)
  {
    if s.sides[g].log[0].LogGet? {
      OpeningGetInv(s, g, initial);
    } else {
      LoggedWriteInv(s, g, initial);
    }
  }

  /** The writer moves on; everything else about its side stays. */
  lemma WriterMovesOn(s: State, g: nat, next: Side, initial: File)
    requires Inv(s, initial) && g < |s.sides|
    requires s.sides[g].writer.Creating? || s.sides[g].writer.Updated? || s.sides[g].writer.Truncated?
    requires next == s.sides[g].(writer := next.writer, seen := next.seen)
    requires next.writer.Receiving? || (next.writer.Truncated? && !s.sides[g].writer.Creating?)
    ensures PhasesOk(next) && LogOk(next) && AcksOk(next, AnsweredBy(s.acks, g)) && HasCopy(next) && HasCopy(s.sides[g])
  {
    assert SideOk(s, g);
    assert Pending(next) == Pending(s.sides[g]);
  }

  lemma CreateInv(s: State, g: nat, initial: File)
    requires Inv(s, initial) && StepCreate(s, g).Some?
    ensures Inv(StepCreate(s, g).value, initial)
  {
    var next := s.sides[g].(writer := Receiving);
    WriterMovesOn(s, g, next, initial);
    NewFile(s, g, next, StepCreate(s, g).value, initial);
  }

  lemma TruncateInv(s: State, g: nat, initial: File)
    requires Inv(s, initial) && StepTruncate(s, g).Some?
    ensures Inv(StepTruncate(s, g).value, initial)
  {
    var next := s.sides[g].(writer := Truncated, seen := s.touches + 1);
    WriterMovesOn(s, g, next, initial);
    NewFile(s, g, next, StepTruncate(s, g).value, initial);
  }

  lemma MixInv(s: State, g: nat, content: File, initial: File)
    requires Inv(s, initial) && StepMix(s, g, content).Some?
    ensures Inv(StepMix(s, g, content).value, initial)
  {
    WriterMovesOn(s, g, s.sides[g], initial);
    assert s.sides[g := s.sides[g]] == s.sides;
    NewFile(s, g, s.sides[g], StepMix(s, g, content).value, initial);
  }

  lemma WriteInv(s: State, g: nat, left: Option<File>, initial: File)
    requires Inv(s, initial) && StepWrite(s, g, left).Some?
    ensures Inv(StepWrite(s, g, left).value, initial)
  {
    var next := s.sides[g].(writer := Receiving);
    WriterMovesOn(s, g, next, initial);
    NewFile(s, g, next, StepWrite(s, g, left).value, initial);
  }

  lemma StepInv(s: State, a: Action, initial: File)
    requires Inv(s, initial) && Step(s, a).Some?
    ensures Inv(Step(s, a).value, initial)
  {
    match a
    case Route(r) => RouteInv(s, r, initial);
    case Reset => ResetInv(s, initial);
    case Spawn(g) => SpawnInv(s, g, initial);
    case SendGet(g) => SendGetInv(s, g, initial);
    case ReceiveTable(g) => ReceiveTableInv(s, g, initial);
    case Take(g) =>
      if ToLog(s.sides[g].inbox[0]).None? {
        TakeGet(s, g, initial);
      } else {
        TakeWrite(s, g, initial);
      }
    case Forward(g) => ForwardInv(s, g, initial);
    case Stop(g) => StopInv(s, g, initial);
    case LoadFile(g) => LoadInv(s, g, initial);
    case CreateFile(g) => CreateInv(s, g, initial);
    case ReceiveLog(g) => ReceiveLogInv(s, g, initial);
    case Truncate(g) => TruncateInv(s, g, initial);
    case Mix(g, content) => MixInv(s, g, content, initial);
    case Write(g, left) => WriteInv(s, g, left, initial);
  }

  lemma StartInv(initial: File)
    ensures Inv(Start(initial), initial)
  {
    assert forall g: nat :: g < 1 ==> SideOk(Start(initial), g);
  }
}
