/**
 What the key-value store answers, by the calls before: each entry is what was written last under its label, key and
 version, or the list that was built up there since, whatever happened to other entries.
 */
module StoreHistory {
  import opened Basics
  import opened FlatStore

  /** The store after the calls, from the empty one. */
  function StoreAfter(j: Json, calls: seq<Call>): Values {
    if calls == [] then map[] else Flat(j, StoreAfter(j, calls[..|calls| - 1]), calls[|calls| - 1]).0
  }

  /** What is kept in an entry: nothing, a value as it was written, or a list. */
  datatype Kept = Nothing | Value(text: Bytes) | Listed(items: seq<Bytes>)

  predicate At(c: Call, l: Label, key: Bytes, v: Version) {
    c.kind == l && c.key == key && c.version == v
  }

  /** The list that is read from an entry, if one can be. */
  function AsList(j: Json, kept: Kept): Option<seq<Bytes>> {
    match kept
    case Nothing => Some([])
    case Value(text) => j.parseList(text)
    case Listed(items) => Some(items)
  }

  /** What the calls have left in an entry. */
  function KeptAt(j: Json, calls: seq<Call>, l: Label, key: Bytes, v: Version): Kept {
    if calls == [] then Nothing
    else
      var before, last := KeptAt(j, calls[..|calls| - 1], l, key, v), calls[|calls| - 1];
      if At(last, l, key, v) then KeptBy(j, before, last.op) else before
  }

  function KeptBy(j: Json, before: Kept, op: Op): Kept {
    match op
    case Write(x) => Value(x)
    case Delete => Nothing
    case Append(x) => var list := AsList(j, before); if list.None? then before else Listed(list.value + [x])
    case RemoveItem(x) =>
      var list := AsList(j, before);
      if list.None? then before
      else if x !in list.value then Listed(list.value)
      else var i := FirstAt(list.value, x); Listed(list.value[..i] + list.value[i + 1..])
    case _ => before
  }

  /** The position of the first occurrence. */
  function FirstAt(list: seq<Bytes>, x: Bytes): (i: nat)
    requires x in list
    ensures i < |list| && list[i] == x && x !in list[..i]
  {
    if list[0] == x then 0
    else
      assert list[..1 + FirstAt(list[1..], x)] == [list[0]] + list[1..][..FirstAt(list[1..], x)];
      1 + FirstAt(list[1..], x)
  }

  lemma {:induction false} WithoutFirstAt(list: seq<Bytes>, x: Bytes)
    ensures WithoutFirst(list, x)
            == if x in list then list[..FirstAt(list, x)] + list[FirstAt(list, x) + 1..] else list
  {
    if list != [] && list[0] != x {
      var rest := list[1..];
      WithoutFirstAt(rest, x);
      assert list == [list[0]] + rest;
      if x in rest {
        OneFurther(list, rest, FirstAt(rest, x));
      }
    }
  }

  lemma OneFurther(list: seq<Bytes>, rest: seq<Bytes>, i: nat)
    requires list != [] && rest == list[1..] && i < |rest|
    ensures [list[0]] + (rest[..i] + rest[i + 1..]) == list[..i + 1] + list[i + 2..]
  {
  }

  function TextOf(j: Json, kept: Kept): Option<Bytes> {
    match kept
    case Nothing => None
    case Value(text) => Some(text)
    case Listed(items) => Some(j.list(items))
  }

  lemma CellKept(j: Json, before: Kept, op: Op)
    requires j.Lawful()
    ensures OnCell(j, TextOf(j, before), op).0 == TextOf(j, KeptBy(j, before, op))
  {
    var list := AsList(j, before);
    assert j.parseList(ListText(TextOf(j, before))) == list;
    if op.RemoveItem? && list.Some? {
      WithoutFirstAt(list.value, op.value);
    }
  }

  lemma OwnEntry(j: Json, values: Values, c: Call)
    ensures Lookup(Flat(j, values, c).0, c.Place()) == OnCell(j, Lookup(values, c.Place()), c.op).0
  {
  }

  /** Every entry of the store is what the calls for it have left there. */
  lemma {:induction false} StoreTells(j: Json, calls: seq<Call>, l: Label, key: Bytes, v: Version)
    requires j.Lawful()
    ensures Lookup(StoreAfter(j, calls), StorageKey(l, key, v)) == TextOf(j, KeptAt(j, calls, l, key, v))
    decreases |calls|
  {
    if calls != [] {
      var front, last := calls[..|calls| - 1], calls[|calls| - 1];
      StoreTells(j, front, l, key, v);
      if At(last, l, key, v) {
        OwnEntry(j, StoreAfter(j, front), last);
        CellKept(j, KeptAt(j, front, l, key, v), last.op);
      } else {
        OthersUnchanged(j, StoreAfter(j, front), last, l, key, v);
      }
    }
  }

  // ---------------------------------------------------------------- answers

  /** The items, each decoded; an error if one cannot be. */
  ghost predicate Decoded(j: Json, items: seq<Bytes>, answer: Answer) {
    if forall i | 0 <= i < |items| :: j.parseValue(items[i]).Some? then
      && answer.Items? && |answer.list| == |items|
      && forall i | 0 <= i < |items| :: j.parseValue(items[i]) == Some(answer.list[i])
    else answer == Failed
  }

  /** The answer to an operation on an entry. */
  ghost predicate Answered(j: Json, kept: Kept, op: Op, answer: Answer) {
    match op
    case Write(_) => answer == Done
    case Delete => answer == Done
    case Append(_) => answer == if AsList(j, kept).Some? then Done else Failed
    case RemoveItem(_) => answer == if AsList(j, kept).Some? then Done else Failed
    case Read =>
      if kept.Nothing? then answer == Found(None)
      else
        var value := j.parseValue(TextOf(j, kept).value);
        answer == if value.Some? then Found(value) else Failed
    case ReadList =>
      if AsList(j, kept).None? then answer == Panicked else Decoded(j, AsList(j, kept).value, answer)
  }

  lemma {:induction false} ParseAllDecodes(j: Json, items: seq<Bytes>)
    ensures var all := ParseAll(j, items);
            Decoded(j, items, if all.None? then Failed else Items(all.value))
  {
    if items != [] {
      ParseAllDecodes(j, items[1..]);
      var first, all := j.parseValue(items[0]), ParseAll(j, items);
      if all.Some? {
        forall i | 0 <= i < |items| ensures j.parseValue(items[i]) == Some(all.value[i]) {
          assert i > 0 ==> items[i] == items[1..][i - 1];
        }
      } else if first.Some? {
        var i :| 0 <= i < |items[1..]| && j.parseValue(items[1..][i]).None?;
        assert items[i + 1] == items[1..][i];
      }
    }
  }

  lemma CellAnswers(j: Json, kept: Kept, op: Op)
    requires j.Lawful()
    ensures Answered(j, kept, op, OnCell(j, TextOf(j, kept), op).1)
  {
    var list := AsList(j, kept);
    assert j.parseList(ListText(TextOf(j, kept))) == list;
    if op.ReadList? && list.Some? {
      ParseAllDecodes(j, list.value);
    }
  }

  /** Over every sequence of calls each one is answered by what the calls before have left in its entry. */
  lemma AnsweredByHistory(j: Json, calls: seq<Call>, c: Call)
    requires j.Lawful()
    ensures Answered(j, KeptAt(j, calls, c.kind, c.key, c.version), c.op, Flat(j, StoreAfter(j, calls), c).1)
  {
    StoreTells(j, calls, c.kind, c.key, c.version);
    CellAnswers(j, KeptAt(j, calls, c.kind, c.key, c.version), c.op);
  }

  // ---------------------------------------------------------------- values

  /** What was written last in an entry and not deleted since. */
  function LastWritten(calls: seq<Call>, l: Label, key: Bytes, v: Version): Option<Bytes> {
    if calls == [] then None
    else
      var last := calls[|calls| - 1];
      if At(last, l, key, v) && last.op.Write? then Some(last.op.value)
      else if At(last, l, key, v) && last.op.Delete? then None
      else LastWritten(calls[..|calls| - 1], l, key, v)
  }

  lemma {:induction false} KeptIsLastWritten(j: Json, calls: seq<Call>, l: Label, key: Bytes, v: Version)
    requires forall c | c in calls && At(c, l, key, v) :: !c.op.Append? && !c.op.RemoveItem?
    ensures var written := LastWritten(calls, l, key, v);
            KeptAt(j, calls, l, key, v) == if written.None? then Nothing else Value(written.value)
    decreases |calls|
  {
    if calls != [] {
      assert calls[|calls| - 1] in calls && forall c | c in calls[..|calls| - 1] :: c in calls;
      KeptIsLastWritten(j, calls[..|calls| - 1], l, key, v);
    }
  }

  /** An entry that is not used as a list is read as it was written last; absent and undecodable are told apart. */
  lemma ReadsLastWritten(j: Json, calls: seq<Call>, l: Label, key: Bytes, v: Version)
    requires j.Lawful() && forall c | c in calls && At(c, l, key, v) :: !c.op.Append? && !c.op.RemoveItem?
    ensures var written, answer := LastWritten(calls, l, key, v),
            Flat(j, StoreAfter(j, calls), Call(l, key, v, Read)).1;
            && (answer == Found(None) <==> written.None?)
            && (answer == Failed <==> written.Some? && j.parseValue(written.value).None?)
            && (written.Some? && j.parseValue(written.value).Some? ==> answer == Found(j.parseValue(written.value)))
  {
    AnsweredByHistory(j, calls, Call(l, key, v, Read));
    KeptIsLastWritten(j, calls, l, key, v);
  }
}
