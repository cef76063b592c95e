/**
 The key-value store: one map from bytes to bytes plays eighteen maps, one for each label.
 Lists are kept as encoded lists. `Json` stands for the serializer, with the laws that are used of it.
 */
module FlatStore {
  import opened Basics
  import Tls

  type Version = x: nat | x < 0x1_0000

  datatype Label =
    | KeyPackage | Psk | EncryptionKeyPair | SignatureKeyPair | EpochKeyPairs
    | Tree | GroupContext | InterimTranscriptHash | ConfirmationTag
    | JoinConfig | OwnLeafNodes | GroupState | QueuedProposal | ProposalQueueRefs
    | OwnLeafNodeIndex | EpochSecrets | ResumptionPskStore | MessageSecrets

  function Text(l: Label): string {
    match l
    case KeyPackage => "KeyPackage"
    case Psk => "Psk"
    case EncryptionKeyPair => "EncryptionKeyPair"
    case SignatureKeyPair => "SignatureKeyPair"
    case EpochKeyPairs => "EpochKeyPairs"
    case Tree => "Tree"
    case GroupContext => "GroupContext"
    case InterimTranscriptHash => "InterimTranscriptHash"
    case ConfirmationTag => "ConfirmationTag"
    case JoinConfig => "MlsGroupJoinConfig"
    case OwnLeafNodes => "OwnLeafNodes"
    case GroupState => "GroupState"
    case QueuedProposal => "QueuedProposal"
    case ProposalQueueRefs => "ProposalQueueRefs"
    case OwnLeafNodeIndex => "OwnLeafNodeIndex"
    case EpochSecrets => "EpochSecrets"
    case ResumptionPskStore => "ResumptionPsk"
    case MessageSecrets => "MessageSecrets"
  }

  /** `build_key_from_vec`: label, key, version. */
  function StorageKey(l: Label, key: Bytes, v: Version): Bytes {
    Ascii(Text(l)) + key + Tls.BigEndian(v, 2)
  }

  // ---------------------------------------------------------------- labels are prefix-free

  /** The label that a storage key starts with, told from a few of its bytes. */
  function LabelOf(b: Bytes): Label {
    var at := (i: nat) => if i < |b| then b[i] else 0;
    if at(0) == 'K' as int then KeyPackage
    else if at(0) == 'P' as int then if at(1) == 's' as int then Psk else ProposalQueueRefs
    else if at(0) == 'E' as int then
      if at(1) == 'n' as int then EncryptionKeyPair else if at(5) == 'K' as int then EpochKeyPairs else EpochSecrets
    else if at(0) == 'S' as int then SignatureKeyPair
    else if at(0) == 'T' as int then Tree
    else if at(0) == 'G' as int then if at(5) == 'C' as int then GroupContext else GroupState
    else if at(0) == 'I' as int then InterimTranscriptHash
    else if at(0) == 'C' as int then ConfirmationTag
    else if at(0) == 'M' as int then if at(1) == 'l' as int then JoinConfig else MessageSecrets
    else if at(0) == 'O' as int then if at(11) == 's' as int then OwnLeafNodes else OwnLeafNodeIndex
    else if at(0) == 'Q' as int then QueuedProposal
    else ResumptionPskStore
  }

  predicate OneByteTells(l: Label) {
    || l.KeyPackage? || l.SignatureKeyPair? || l.Tree? || l.InterimTranscriptHash?
    || l.ConfirmationTag? || l.QueuedProposal? || l.ResumptionPskStore?
  }

  lemma ToldByOneByte(l: Label, rest: Bytes)
    requires OneByteTells(l)
    ensures LabelOf(Ascii(Text(l)) + rest) == l
  {
    assert (Ascii(Text(l)) + rest)[0] == Text(l)[0] as int % 256;
  }

  lemma ToldByMoreBytes(l: Label, rest: Bytes)
    requires !OneByteTells(l)
    ensures LabelOf(Ascii(Text(l)) + rest) == l
  {
    var b := Ascii(Text(l)) + rest;
    assert forall i | 0 <= i < |Text(l)| :: b[i] == Text(l)[i] as int % 256;
  }

  /** No label is a prefix of another: whatever follows it, it can be told. */
  lemma LabelIsTold(l: Label, rest: Bytes)
    ensures LabelOf(Ascii(Text(l)) + rest) == l
  {
    if OneByteTells(l) {
      ToldByOneByte(l, rest);
    } else {
      ToldByMoreBytes(l, rest);
    }
  }

  /** Different labels, keys or versions have different storage keys. */
  lemma StorageKeyInjective(l: Label, key: Bytes, v: Version, l': Label, key': Bytes, v': Version)
    ensures StorageKey(l, key, v) == StorageKey(l', key', v') <==> (l, key, v) == (l', key', v')
  {
    if StorageKey(l, key, v) == StorageKey(l', key', v') {
      KeyTellsLabel(l, key, v);
      KeyTellsLabel(l', key', v');
      KeyTellsRest(Ascii(Text(l)), key, v, key', v');
    }
  }

  /** A storage key is the label, then the key, then the version in two bytes, the high one first. */
  lemma KeyLayout(l: Label, key: Bytes, v: Version)
    ensures var k, n := StorageKey(l, key, v), |Text(l)|;
            && |k| == n + |key| + 2 && k[..n] == Ascii(Text(l)) && k[n..n + |key|] == key
            && k[|k| - 2] as nat == v / 256 && k[|k| - 1] as nat == v % 256
  {
    assert Tls.BigEndian(v, 2) == Tls.BigEndian(v / 256, 1) + [v % 256];
    assert Tls.BigEndian(v / 256, 1) == Tls.BigEndian(v / 256 / 256, 0) + [v / 256 % 256];
  }

  lemma KeyTellsLabel(l: Label, key: Bytes, v: Version)
    ensures LabelOf(StorageKey(l, key, v)) == l
  {
    var rest := key + Tls.BigEndian(v, 2);
    assert StorageKey(l, key, v) == Ascii(Text(l)) + rest;
    LabelIsTold(l, rest);
  }

  lemma KeyTellsRest(text: Bytes, key: Bytes, v: Version, key': Bytes, v': Version)
    requires text + key + Tls.BigEndian(v, 2) == text + key' + Tls.BigEndian(v', 2)
    ensures key == key' && v == v'
  {
    var b := text + key + Tls.BigEndian(v, 2);
    assert key == b[|text|..|b| - 2] == key';
    Tls.Powers();
    Tls.ValueOfBigEndian(v, 2);
    Tls.ValueOfBigEndian(v', 2);
    assert b[|b| - 2..] == Tls.BigEndian(v, 2) == Tls.BigEndian(v', 2);
  }

  // ---------------------------------------------------------------- operations

  /** The serializer: any, if what it writes can be read back, and the empty list is written as two brackets. */
  datatype Json = Json(
    value: Bytes -> Bytes, parseValue: Bytes -> Option<Bytes>,
    pair: (Bytes, Bytes) -> Bytes, parsePair: Bytes -> Option<(Bytes, Bytes)>,
    list: seq<Bytes> -> Bytes, parseList: Bytes -> Option<seq<Bytes>>)
  {
    ghost predicate Lawful() {
      && (forall x :: parseValue(value(x)) == Some(x))
      && (forall x, y :: parsePair(pair(x, y)) == Some((x, y)))
      && (forall x, y :: Ascii("[") <= pair(x, y))
      && (forall l :: parseList(list(l)) == Some(l))
      && list([]) == EMPTY_LIST
    }
  }

  const EMPTY_LIST: Bytes := Ascii("[]")

  datatype Op =
    | Write(value: Bytes)
    | Append(value: Bytes)
    | RemoveItem(value: Bytes)
    | Delete
    | Read
    | ReadList

  /** `Failed`: a serialization error is returned; `Panicked`: a stored list is not a list. */
  datatype Answer = Done | Found(value: Option<Bytes>) | Items(list: seq<Bytes>) | Failed | Panicked

  function WithoutFirst(list: seq<Bytes>, x: Bytes): seq<Bytes> {
    if list == [] then [] else if list[0] == x then list[1..] else [list[0]] + WithoutFirst(list[1..], x)
  }

  /** The items of a list, each read by itself; none if one cannot be read. */
  function ParseAll(j: Json, items: seq<Bytes>): Option<seq<Bytes>> {
    if items == [] then Some([])
    else
      var first := j.parseValue(items[0]);
      var rest := ParseAll(j, items[1..]);
      if first.None? || rest.None? then None else Some([first.value] + rest.value)
  }

  lemma {:induction false} ParseAppend(j: Json, items: seq<Bytes>, x: Bytes)
    ensures ParseAll(j, items + [x])
            == var front, last := ParseAll(j, items), j.parseValue(x);
               if front.None? || last.None? then None else Some(front.value + [last.value])
  {
    if items == [] {
      assert items + [x] == [x] && [x][1..] == items;
      var last := j.parseValue(x);
      assert last.Some? ==> [last.value] + [] == [] + [last.value];
    } else {
      assert (items + [x])[1..] == items[1..] + [x];
      ParseAppend(j, items[1..], x);
      var first, rest, last := j.parseValue(items[0]), ParseAll(j, items[1..]), j.parseValue(x);
      if first.Some? && rest.Some? && last.Some? {
        assert [first.value] + (rest.value + [last.value]) == [first.value] + rest.value + [last.value];
      }
    }
  }

  lemma {:induction false} ParsePrefix(j: Json, items: seq<Bytes>, n: nat)
    requires n <= |items| && ParseAll(j, items[..n]).None?
    ensures ParseAll(j, items).None?
  {
    if n > 0 {
      assert items[..n][1..] == items[1..][..n - 1];
      if ParseAll(j, items[..n][1..]).None? {
        ParsePrefix(j, items[1..], n - 1);
      }
    }
  }

  /** What an operation does to the one entry that it is for, and answers. */
  function OnCell(j: Json, cell: Option<Bytes>, op: Op): (Option<Bytes>, Answer) {
    match op
    case Write(x) => (Some(x), Done)
    case Delete => (None, Done)
    case Read => (cell, ValueIn(j, cell))
    case ReadList => (cell, ItemsIn(j, cell))
    case Append(x) =>
      var list := j.parseList(ListText(cell));
      if list.None? then (Some(ListText(cell)), Failed) else (Some(j.list(list.value + [x])), Done)
    case RemoveItem(x) =>
      var list := j.parseList(ListText(cell));
      if list.None? then (Some(ListText(cell)), Failed) else (Some(j.list(WithoutFirst(list.value, x))), Done)
  }

  function ValueIn(j: Json, cell: Option<Bytes>): Answer {
    if cell.None? then Found(None)
    else
      var value := j.parseValue(cell.value);
      if value.None? then Failed else Found(value)
  }

  function ItemsIn(j: Json, cell: Option<Bytes>): Answer {
    if cell.None? then Items([])
    else
      var list := j.parseList(cell.value);
      if list.None? then Panicked
      else
        var items := ParseAll(j, list.value);
        if items.None? then Failed else Items(items.value)
  }

  function ListText(cell: Option<Bytes>): Bytes {
    if cell.None? then EMPTY_LIST else cell.value
  }

  function Lookup<K, V>(m: map<K, V>, k: K): Option<V> {
    if k in m then Some(m[k]) else None
  }

  function Put<K, V>(m: map<K, V>, k: K, cell: Option<V>): map<K, V> {
    if cell.Some? then m[k := cell.value] else m - {k}
  }

  datatype Call = Call(kind: Label, key: Bytes, version: Version, op: Op) {
    function Place(): Bytes {
      StorageKey(kind, key, version)
    }
  }

  type Values = map<Bytes, Bytes>

  /** An operation on the flat map. */
  function Flat(j: Json, values: Values, c: Call): (Values, Answer) {
    var (cell, answer) := OnCell(j, Lookup(values, c.Place()), c.op);
    (Put(values, c.Place(), cell), answer)
  }

  // ---------------------------------------------------------------- refinement

  /** One map for each label. */
  type Family = Label -> map<(Bytes, Version), Bytes>

  /** The operation on the family: only the map of its label changes. */
  function OfFamily(j: Json, family: Family, c: Call): (Family, Answer) {
    var m := family(c.kind);
    var (cell, answer) := OnCell(j, Lookup(m, (c.key, c.version)), c.op);
    ((l: Label) => if l == c.kind then Put(m, (c.key, c.version), cell) else family(l), answer)
  }

  ghost predicate Represents(values: Values, family: Family) {
    forall l, k, v :: Lookup(values, StorageKey(l, k, v)) == Lookup(family(l), (k, v))
  }

  lemma StepRefines(j: Json, values: Values, family: Family, c: Call)
    requires Represents(values, family)
    ensures Represents(Flat(j, values, c).0, OfFamily(j, family, c).0)
    ensures Flat(j, values, c).1 == OfFamily(j, family, c).1
  {
    var values', family' := Flat(j, values, c).0, OfFamily(j, family, c).0;
    forall l, k, v ensures Lookup(values', StorageKey(l, k, v)) == Lookup(family'(l), (k, v)) {
      StorageKeyInjective(c.kind, c.key, c.version, l, k, v);
      assert Lookup(values, StorageKey(l, k, v)) == Lookup(family(l), (k, v));
    }
  }

  function FlatAnswers(j: Json, values: Values, calls: seq<Call>): seq<Answer>
    decreases |calls|
  {
    if calls == [] then []
    else
      var (next, answer) := Flat(j, values, calls[0]);
      [answer] + FlatAnswers(j, next, calls[1..])
  }

  function FamilyAnswers(j: Json, family: Family, calls: seq<Call>): seq<Answer>
    decreases |calls|
  {
    if calls == [] then []
    else
      var (next, answer) := OfFamily(j, family, calls[0]);
      [answer] + FamilyAnswers(j, next, calls[1..])
  }

  /** Every sequence of operations is answered as by independent maps. */
  lemma {:induction false} FlatRefinesFamily(j: Json, values: Values, family: Family, calls: seq<Call>)
    requires Represents(values, family)
    ensures FlatAnswers(j, values, calls) == FamilyAnswers(j, family, calls)
    decreases |calls|
  {
    if calls != [] {
      StepRefines(j, values, family, calls[0]);
      FlatRefinesFamily(j, Flat(j, values, calls[0]).0, OfFamily(j, family, calls[0]).0, calls[1..]);
    }
  }

  /** An operation changes no entry but its own. */
  lemma OthersUnchanged(j: Json, values: Values, c: Call, l: Label, k: Bytes, v: Version)
    requires (l, k, v) != (c.kind, c.key, c.version)
    ensures Lookup(Flat(j, values, c).0, StorageKey(l, k, v)) == Lookup(values, StorageKey(l, k, v))
  {
    StorageKeyInjective(c.kind, c.key, c.version, l, k, v);
  }

  // ---------------------------------------------------------------- the object

  class MemoryStorage {
    var values: Values
    const json: Json

    constructor (json: Json)
      ensures values == map[] && this.json == json
    {
      values := map[];
      this.json := json;
    }

    method WriteValue(l: Label, key: Bytes, v: Version, value: Bytes)
      modifies this`values
      ensures (values, Done) == Flat(json, old(values), Call(l, key, v, Write(value)))
    {
      values := values[StorageKey(l, key, v) := value];
    }

    /** `append` and `remove_item` share the reading and the writing of the list. */
    method UpdateList(l: Label, key: Bytes, v: Version, op: Op) returns (answer: Answer)
      requires op.Append? || op.RemoveItem?
      modifies this`values
      ensures (values, answer) == Flat(json, old(values), Call(l, key, v, op))
    {
      var storageKey := StorageKey(l, key, v);
      if storageKey !in values {
        values := values[storageKey := EMPTY_LIST];
      }
      assert values == old(values)[storageKey := ListText(Lookup(old(values), storageKey))];
      var list := json.parseList(values[storageKey]);
      if list.None? {
        return Failed;
      }
      var updated := if op.Append? then list.value + [op.value] else WithoutFirst(list.value, op.value);
      values := values[storageKey := json.list(updated)];
      assert values == old(values)[storageKey := json.list(updated)];
      answer := Done;
    }

    method ReadValue(l: Label, key: Bytes, v: Version) returns (answer: Answer)
      ensures (values, answer) == Flat(json, values, Call(l, key, v, Read))
    {
      var storageKey := StorageKey(l, key, v);
      if storageKey in values {
        assert values[storageKey := values[storageKey]] == values;
        var value := json.parseValue(values[storageKey]);
        answer := if value.None? then Failed else Found(value);
      } else {
        assert values - {storageKey} == values;
        answer := Found(None);
      }
    }

    /** `read_list` spells out the storage key. */
    method ReadItems(l: Label, key: Bytes, v: Version) returns (answer: Answer)
      ensures (values, answer) == Flat(json, values, Call(l, key, v, ReadList))
    {
      var storageKey := Ascii(Text(l));
      storageKey := storageKey + key;
      storageKey := storageKey + Tls.BigEndian(v, 2);
      if storageKey !in values {
        assert values - {storageKey} == values;
        return Items([]);
      }
      assert values[storageKey := values[storageKey]] == values;
      var list := json.parseList(values[storageKey]);
      if list.None? {
        return Panicked;
      }
      answer := DecodeItems(list.value);
    }

    /** The items are decoded one by one, up to the first that cannot be. */
    method DecodeItems(items: seq<Bytes>) returns (answer: Answer)
      ensures var all := ParseAll(json, items); answer == if all.None? then Failed else Items(all.value)
    {
      var out: seq<Bytes> := [];
      var i := 0;
      while i < |items|
        invariant 0 <= i <= |items| && ParseAll(json, items[..i]) == Some(out)
      {
        assert items[..i + 1] == items[..i] + [items[i]];
        ParseAppend(json, items[..i], items[i]);
        var item := json.parseValue(items[i]);
        if item.None? {
          ParsePrefix(json, items, i + 1);
          return Failed;
        }
        out := out + [item.value];
        i := i + 1;
      }
      assert items[..i] == items;
      answer := Items(out);
    }

    /** `delete` spells out the storage key. */
    method DeleteValue(l: Label, key: Bytes, v: Version)
      modifies this`values
      ensures (values, Done) == Flat(json, old(values), Call(l, key, v, Delete))
    {
      var storageKey := Ascii(Text(l));
      storageKey := storageKey + key;
      storageKey := storageKey + Tls.BigEndian(v, 2);
      values := values - {storageKey};
    }
  }
}
