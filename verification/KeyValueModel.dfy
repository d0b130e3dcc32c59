/** Data of the key-value store: requests, the messages of the write log, the file. */
module KeyValueModel {
  import opened Options

  type Key = string
  type Value = seq<nat>
  type Table = map<Key, Value>

  datatype Request = Get(key: Key) | Set(key: Key, value: Value) | Delete(key: Key)

  datatype LogMessage = LogSet(key: Key, value: Value) | LogDelete(key: Key) | LogGet

  /** The data file: absent, empty or half written, or the encoding of a table. */
  datatype File = Missing | Torn | Holds(table: Table)

  /** `from_key_value_message`: only writes are logged. */
  function ToLog(r: Request): Option<LogMessage> {
    match r
    case Get(_) => None
    case Delete(k) => Some(LogDelete(k))
    case Set(k, v) => Some(LogSet(k, v))
  }

  function Apply(t: Table, m: LogMessage): Table {
    match m
    case LogSet(k, v) => t[k := v]
    case LogDelete(k) => t - {k}
    case LogGet => t
  }

  function ApplyAll(t: Table, log: seq<LogMessage>): Table
    decreases |log|
  {
    if log == [] then t else ApplyAll(Apply(t, log[0]), log[1..])
  }

  function Lookup(t: Table, k: Key): Option<Value> { if k in t then Some(t[k]) else None }

  /** `load_map`: an unreadable file counts as an empty table. */
  function Load(f: File): Table { if f.Holds? then f.table else map[] }

  /** The effect of a request on a table that answers it. */
  function Effect(t: Table, r: Request): Table {
    match ToLog(r)
    case None => t
    case Some(m) => Apply(t, m)
  }

  function Answer(t: Table, r: Request): Option<Value> {
    match r
    case Get(k) => Lookup(t, k)
    case Set(_, _) => None
    case Delete(_) => None
  }

  /** An answered request, the actor that answered it, and what it answered. */
  datatype Ack = Ack(side: nat, request: Request, answer: Option<Value>)

  /** The table after the answered requests, executed one after the other. */
  function TableAfter(t: Table, acks: seq<Ack>): Table
    decreases |acks|
  {
    if acks == [] then t else Effect(TableAfter(t, acks[..|acks| - 1]), acks[|acks| - 1].request)
  }

  /** Every answer is the one a single table would have given at that point. */
  ghost predicate AnswersFrom(t: Table, acks: seq<Ack>) {
    forall i :: 0 <= i < |acks| ==> acks[i].answer == Answer(TableAfter(t, acks[..i]), acks[i].request)
  }

  // ---------- the last write of a key decides ----------

  /** What a write does: `key` holds `value` from then on, or nothing. */
  datatype Change = Change(key: Key, value: Option<Value>)

  function ChangeOf(r: Request): Option<Change> {
    match r
    case Get(_) => None
    case Set(k, v) => Some(Change(k, Some(v)))
    case Delete(k) => Some(Change(k, None))
  }

  function LoggedChange(m: LogMessage): Option<Change> {
    match m
    case LogSet(k, v) => Some(Change(k, Some(v)))
    case LogDelete(k) => Some(Change(k, None))
    case LogGet => None
  }

  predicate Entry(t: Table, k: Key, value: Option<Value>) {
    if k in t then value == Some(t[k]) else value.None?
  }

  /** After these messages `k` holds what the last change of `k` among them put there,
      or the entry of `t` if there is no such change. */
  ghost predicate LastChange<M>(t: Table, messages: seq<M>, what: M -> Option<Change>, k: Key, value: Option<Value>) {
    || (Entry(t, k, value) && Unchanged(messages, what, k, 0))
    || exists i :: 0 <= i < |messages| && what(messages[i]) == Some(Change(k, value))
         && Unchanged(messages, what, k, i + 1)
  }

  /** No message from position `i` on changes `k`. */
  ghost predicate Unchanged<M>(messages: seq<M>, what: M -> Option<Change>, k: Key, i: nat) {
    forall j :: i <= j < |messages| ==> what(messages[j]).Some? ==> what(messages[j]).value.key != k
  }

  /** There is only one such value. */
  lemma LastChangeUnique<M>(t: Table, messages: seq<M>, what: M -> Option<Change>, k: Key,
                            value: Option<Value>, other: Option<Value>)
    requires LastChange(t, messages, what, k, value) && LastChange(t, messages, what, k, other)
    ensures value == other
  {
  }

  /** `after` is `before` with one message carried out: its key changes, nothing else does. */
  ghost predicate OneChange(before: Table, change: Option<Change>, after: Table) {
    forall k :: if change.Some? && change.value.key == k then Entry(after, k, change.value.value)
                else Entry(after, k, Lookup(before, k))
  }

  lemma LastChangePush<M>(t: Table, messages: seq<M>, what: M -> Option<Change>, m: M, k: Key,
                          before: Table, after: Table)
    requires LastChange(t, messages, what, k, Lookup(before, k)) && OneChange(before, what(m), after)
    ensures LastChange(t, messages + [m], what, k, Lookup(after, k))
  {
    var value, more := Lookup(before, k), messages + [m];
    assert Entry(after, k, Lookup(after, k)) && more[|messages|] == m;
    assert forall j :: 0 <= j < |messages| ==> more[j] == messages[j];
    if what(m).Some? && what(m).value.key == k {
      assert Unchanged(more, what, k, |messages| + 1);
    } else if Entry(t, k, value) && Unchanged(messages, what, k, 0) {
      assert Unchanged(more, what, k, 0);
    } else {
      var i :| 0 <= i < |messages| && what(messages[i]) == Some(Change(k, value))
               && Unchanged(messages, what, k, i + 1);
      assert what(more[i]) == Some(Change(k, value)) && Unchanged(more, what, k, i + 1);
    }
  }

  lemma {:induction false} ApplyAllLastChange(t: Table, log: seq<LogMessage>, k: Key)
    ensures LastChange(t, log, LoggedChange, k, Lookup(ApplyAll(t, log), k))
    decreases |log|
  {
    if log == [] {
      assert Unchanged(log, LoggedChange, k, 0);
    } else {
      var n := |log| - 1;
      ApplyAllLastChange(t, log[..n], k);
      ApplyAllPush(t, log[..n], log[n]);
      assert log == log[..n] + [log[n]];
      LastChangePush(t, log[..n], LoggedChange, log[n], k, ApplyAll(t, log[..n]), ApplyAll(t, log));
    }
  }

  function AckedChange(a: Ack): Option<Change> { ChangeOf(a.request) }

  lemma {:induction false} TableAfterLastChange(t: Table, acks: seq<Ack>, k: Key)
    ensures LastChange(t, acks, AckedChange, k, Lookup(TableAfter(t, acks), k))
    decreases |acks|
  {
    if acks == [] {
      assert Unchanged(acks, AckedChange, k, 0);
    } else {
      var n := |acks| - 1;
      TableAfterLastChange(t, acks[..n], k);
      assert acks == acks[..n] + [acks[n]];
      LastChangePush(t, acks[..n], AckedChange, acks[n], k, TableAfter(t, acks[..n]), TableAfter(t, acks));
    }
  }

  /** A Get is answered with what the last write of its key before it left; a write with nothing. */
  ghost predicate AnswersLastChange(t: Table, acks: seq<Ack>, i: nat)
    requires i < |acks|
  {
    match acks[i].request
    case Get(k) => LastChange(t, acks[..i], AckedChange, k, acks[i].answer)
    case _ => acks[i].answer.None?
  }

  /** Answers are those of one table if and only if each Get is answered by the last write
      of its key before it. */
  lemma AnswersFromIff(t: Table, acks: seq<Ack>)
    ensures AnswersFrom(t, acks) <==> forall i :: 0 <= i < |acks| ==> AnswersLastChange(t, acks, i)
  {
    forall i | 0 <= i < |acks|
      ensures AnswersLastChange(t, acks, i) <==> acks[i].answer == Answer(TableAfter(t, acks[..i]), acks[i].request)
    {
      if acks[i].request.Get? {
        var k := acks[i].request.key;
        var now := Lookup(TableAfter(t, acks[..i]), k);
        TableAfterLastChange(t, acks[..i], k);
        if AnswersLastChange(t, acks, i) {
          LastChangeUnique(t, acks[..i], AckedChange, k, acks[i].answer, now);
        }
      }
    }
  }

  lemma {:induction false} ApplyAllConcat(t: Table, a: seq<LogMessage>, b: seq<LogMessage>)
    ensures ApplyAll(t, a + b) == ApplyAll(ApplyAll(t, a), b)
    decreases |a|
  {
    if a == [] {
      assert a + b == b;
    } else {
      assert (a + b)[1..] == a[1..] + b;
      ApplyAllConcat(Apply(t, a[0]), a[1..], b);
    }
  }

  lemma ApplyAllPush(t: Table, a: seq<LogMessage>, m: LogMessage)
    ensures ApplyAll(t, a + [m]) == Apply(ApplyAll(t, a), m)
  {
    ApplyAllConcat(t, a, [m]);
    assert [m][1..] == [];
  }

  lemma AckPush(t: Table, acks: seq<Ack>, a: Ack)
    requires AnswersFrom(t, acks) && a.answer == Answer(TableAfter(t, acks), a.request)
    ensures AnswersFrom(t, acks + [a]) && TableAfter(t, acks + [a]) == Effect(TableAfter(t, acks), a.request)
  {
    var more := acks + [a];
    assert more[..|acks|] == acks;
    forall i | 0 <= i < |more|
      ensures more[i].answer == Answer(TableAfter(t, more[..i]), more[i].request)
    {
      assert i < |acks| ==> more[..i] == acks[..i];
    }
  }

  lemma Assoc<T>(p: seq<T>, q: seq<T>, r: seq<T>)
    ensures p + (q + r) == (p + q) + r
  {
  }
}
