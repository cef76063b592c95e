/**
 Extensions and lists of them with unique types. The data of known extensions is a token with a codec of its own.
 Vectors of elements are written under the sum of the elements' declared sizes, and read until that sum is reached.
 */
module ExtensionLists {
  import opened Basics
  import opened Tls

  type U16 = x: nat | x < 0x1_0000
  type Token = Bytes

  datatype Kind = ApplicationId | RatchetTree | RequiredCapabilities | ExternalPub | ExternalSenders | LastResort

  datatype ExtensionType = Known(kind: Kind) | Unknown(code: U16)

  datatype Extension = KnownExtension(kind: Kind, value: Token) | UnknownExtension(code: U16, data: Bytes) {
    function Type(): ExtensionType {
      if KnownExtension? then Known(kind) else Unknown(code)
    }
  }

  function Code(t: ExtensionType): U16 {
    match t
    case Known(ApplicationId) => 1
    case Known(RatchetTree) => 2
    case Known(RequiredCapabilities) => 3
    case Known(ExternalPub) => 4
    case Known(ExternalSenders) => 5
    case Known(LastResort) => 10
    case Unknown(code) => code
  }

  function FromCode(code: U16): ExtensionType {
    if code == 1 then Known(ApplicationId)
    else if code == 2 then Known(RatchetTree)
    else if code == 3 then Known(RequiredCapabilities)
    else if code == 4 then Known(ExternalPub)
    else if code == 5 then Known(ExternalSenders)
    else if code == 10 then Known(LastResort)
    else Unknown(code)
  }

  /** An unknown extension with the code of a known one. */
  predicate Aliased(e: Extension) {
    e.UnknownExtension? && FromCode(e.code).Known?
  }

  // ---------------------------------------------------------------- one extension

  /** Any codec for the data of known extensions that reads back what it writes, and declares the size it writes. */
  datatype DataCodec = DataCodec(write: (Kind, Token) -> Option<Bytes>, read: (Kind, Bytes) -> Read<Token>,
                                 size: (Kind, Token) -> nat) {
    ghost predicate Lawful() {
      forall k, t | write(k, t).Some? ::
        |write(k, t).value| == size(k, t) && forall rest :: read(k, write(k, t).value + rest) == Some((t, rest))
    }
  }

  function Data(c: DataCodec, e: Extension): Option<Bytes> {
    if e.KnownExtension? then c.write(e.kind, e.value) else Some(e.data)
  }

  function DataSize(c: DataCodec, e: Extension): nat {
    if e.KnownExtension? then c.size(e.kind, e.value) else |e.data|
  }

  /** `vlbytes_len_len` */
  function DeclaredHeader(n: nat): nat {
    if n < 0x40 then 1 else if n < 0x3fff then 2 else if n < 0x3fff_ffff then 4 else 8
  }

  function DeclaredSize(c: DataCodec, e: Extension): nat {
    2 + DeclaredHeader(DataSize(c, e)) + DataSize(c, e)
  }

  function Write(c: DataCodec, e: Extension): Option<Bytes> {
    var data := Data(c, e);
    if data.None? then None else Join(Some(BigEndian(Code(e.Type()), 2)), WriteVector(data.value))
  }

  /** Bytes of the data after what a known extension reads are ignored. */
  function ReadExtension(c: DataCodec, b: Bytes): Read<Extension> {
    var code := ReadInt(b, 2);
    if code.None? || code.value.0 >= 0x1_0000 then None else
    var data := ReadVector(code.value.1);
    if data.None? then None else
    match FromCode(code.value.0)
    case Known(kind) =>
      var value := c.read(kind, data.value.0);
      if value.None? then None else Some((KnownExtension(kind, value.value.0), data.value.1))
    case Unknown(u) => Some((UnknownExtension(u, data.value.0), data.value.1))
  }

  /** The data has one of the two lengths for which the declared header is longer than the written one. */
  predicate Oversized(c: DataCodec, e: Extension) {
    DataSize(c, e) == 0x3fff || DataSize(c, e) == 0x3fff_ffff
  }

  /** The declared size is the number of bytes written, except for data of two lengths. */
  lemma DeclaredSizeIsExact(c: DataCodec, e: Extension)
    requires c.Lawful() && Write(c, e).Some?
    ensures |Write(c, e).value| <= DeclaredSize(c, e)
    ensures |Write(c, e).value| == DeclaredSize(c, e) <==> !Oversized(c, e)
  {
    VectorRoundTrip(Data(c, e).value, []);
  }

  lemma KnownCodes(kind: Kind)
    ensures FromCode(Code(Known(kind))) == Known(kind)
  {
  }

  /** An extension is read back from what was written exactly if it is not an unknown one with a known code. */
  lemma ExtensionRoundTrip(c: DataCodec, e: Extension, rest: Bytes)
    requires c.Lawful() && Write(c, e).Some?
    ensures ReadExtension(c, Write(c, e).value + rest) == Some((e, rest)) <==> !Aliased(e)
  {
    var code, data := Code(e.Type()), Data(c, e).value;
    var vector := WriteVector(data).value;
    assert (BigEndian(code, 2) + vector) + rest == BigEndian(code, 2) + (vector + rest);
    Powers();
    IntRoundTrip(code, 2, vector + rest);
    VectorRoundTrip(data, rest);
    if e.KnownExtension? {
      KnownCodes(e.kind);
      assert c.read(e.kind, data + []) == Some((e.value, [])) && data + [] == data;
    }
  }

  /** `tls_deserialize_bytes`: the remainder is cut off by the declared size. */
  function ReadExtensionBytes(c: DataCodec, b: Bytes): Read<Extension> {
    var e := ReadExtension(c, b);
    if e.None? || DeclaredSize(c, e.value.0) > |b| then None else Some((e.value.0, b[DeclaredSize(c, e.value.0)..]))
  }

  /** The remainder is right exactly if the declared size is. */
  lemma RemainderIsExact(c: DataCodec, e: Extension, rest: Bytes)
    requires c.Lawful() && Write(c, e).Some? && !Aliased(e)
    ensures ReadExtensionBytes(c, Write(c, e).value + rest) == Some((e, rest)) <==> !Oversized(c, e)
  {
    ExtensionRoundTrip(c, e, rest);
    DeclaredSizeIsExact(c, e);
    var b := Write(c, e).value + rest;
    if |Write(c, e).value| != DeclaredSize(c, e) && DeclaredSize(c, e) <= |b| {
      assert |b[DeclaredSize(c, e)..]| != |rest|;
    }
  }

  // ---------------------------------------------------------------- lists

  ghost predicate Unique(list: seq<Extension>) {
    forall i, j | 0 <= i < j < |list| :: list[i].Type() != list[j].Type()
  }

  function WriteList(c: DataCodec, list: seq<Extension>): Option<Bytes> {
    Join(WriteLength(Declared(c, list)), WriteAll(e => Write(c, e), list))
  }

  /** The declared sizes of the elements. */
  function Declared(c: DataCodec, list: seq<Extension>): nat {
    TotalSize(e => DeclaredSize(c, e), list)
  }

  function ReadElements(c: DataCodec, b: Bytes, left: int): Read<seq<Extension>> {
    ReadAll(x => ReadExtension(c, x), e => DeclaredSize(c, e), b, left)
  }

  function HasType(list: seq<Extension>, t: ExtensionType): (r: bool)
    ensures r <==> exists i | 0 <= i < |list| :: list[i].Type() == t
  {
    list != [] && (list[0].Type() == t || HasType(list[1..], t))
  }

  /** The list, if its types are unique. */
  function Checked(list: seq<Extension>): Option<seq<Extension>> {
    if list == [] then Some([])
    else
      var front := Checked(list[..|list| - 1]);
      if front.None? || HasType(front.value, list[|list| - 1].Type()) then None
      else Some(front.value + [list[|list| - 1]])
  }

  function ReadList(c: DataCodec, b: Bytes): Read<seq<Extension>> {
    var header := ReadLength(b);
    if header.None? then None else
    var all := ReadElements(c, header.value.1, header.value.0);
    if all.None? then None else
    var list := Checked(all.value.0);
    if list.None? then None else Some((list.value, all.value.1))
  }

  lemma {:induction false} CheckedIsUnique(list: seq<Extension>)
    ensures Checked(list) == (if Unique(list) then Some(list) else None)
  {
    if list != [] {
      var front, last := list[..|list| - 1], list[|list| - 1];
      CheckedIsUnique(front);
      assert list == front + [last];
      if Unique(front) {
        assert Unique(list) <==> !HasType(front, last.Type());
      } else {
        var i, j :| 0 <= i < j < |front| && front[i].Type() == front[j].Type();
        assert list[i].Type() == list[j].Type();
      }
    }
  }

  lemma ElementsRoundTrip(c: DataCodec, list: seq<Extension>, rest: Bytes)
    requires c.Lawful() && WriteList(c, list).Some? && forall e | e in list :: !Aliased(e)
    ensures ReadElements(c, WriteAll(e => Write(c, e), list).value + rest, Declared(c, list)) == Some((list, rest))
  {
    var write, read, size := (e: Extension) => Write(c, e), (x: Bytes) => ReadExtension(c, x),
      (e: Extension) => DeclaredSize(c, e);
    forall e, more | e in list && write(e).Some? ensures read(write(e).value + more) == Some((e, more)) {
      ExtensionRoundTrip(c, e, more);
    }
    AllRoundTrip(write, read, size, list, rest);
  }

  lemma FirstIsNotAliased(c: DataCodec, b: Bytes)
    requires ReadExtension(c, b).Some?
    ensures !Aliased(ReadExtension(c, b).value.0)
  {
  }

  /** Nothing that is read is aliased. */
  lemma {:induction false} ReadIsNotAliased(c: DataCodec, b: Bytes, left: int)
    ensures ReadElements(c, b, left).Some? ==> forall e | e in ReadElements(c, b, left).value.0 :: !Aliased(e)
    decreases if left > 0 then left else 0
  {
    if left > 0 {
      var first := ReadExtension(c, b);
      if first.Some? {
        FirstIsNotAliased(c, b);
        ReadIsNotAliased(c, first.value.1, left - DeclaredSize(c, first.value.0));
      }
    }
  }

  /** A list is read back, in order, exactly if its types are unique and none is an unknown one with a known code. */
  lemma ListRoundTrip(c: DataCodec, list: seq<Extension>, rest: Bytes)
    requires c.Lawful() && WriteList(c, list).Some?
    ensures ReadList(c, WriteList(c, list).value + rest) == Some((list, rest))
            <==> Unique(list) && forall e | e in list :: !Aliased(e)
  {
    var size, all := Declared(c, list), WriteAll(e => Write(c, e), list).value;
    assert (WriteLength(size).value + all) + rest == WriteLength(size).value + (all + rest);
    LengthRoundTrip(size, all + rest);
    var got := ReadElements(c, all + rest, size);
    ReadIsNotAliased(c, all + rest, size);
    if forall e | e in list :: !Aliased(e) {
      ElementsRoundTrip(c, list, rest);
      CheckedIsUnique(list);
    } else if got.Some? {
      CheckedIsUnique(got.value.0);
    }
  }

  /** The elements' declared sizes add up to the bytes written, except for an element with data of two lengths. */
  lemma {:induction false} DeclaredIsExact(c: DataCodec, list: seq<Extension>)
    requires c.Lawful() && WriteAll(e => Write(c, e), list).Some?
    ensures |WriteAll(e => Write(c, e), list).value| <= Declared(c, list)
    ensures |WriteAll(e => Write(c, e), list).value| == Declared(c, list) <==> forall e | e in list :: !Oversized(c, e)
  {
    if list != [] {
      DeclaredSizeIsExact(c, list[0]);
      DeclaredIsExact(c, list[1..]);
      assert list == [list[0]] + list[1..];
    }
  }

  /** `tls_deserialize_bytes` of a list: the remainder is cut off by the list's declared size. */
  function ReadListBytes(c: DataCodec, b: Bytes): Read<seq<Extension>> {
    var list := ReadList(c, b);
    if list.None? then None else
    var size := HeaderSize(Declared(c, list.value.0)) + Declared(c, list.value.0);
    if size > |b| then None else Some((list.value.0, b[size..]))
  }

  /** The remainder after a list is right exactly if no element has data of the two lengths. */
  lemma ListRemainderIsExact(c: DataCodec, list: seq<Extension>, rest: Bytes)
    requires c.Lawful() && WriteList(c, list).Some? && Unique(list) && forall e | e in list :: !Aliased(e)
    ensures ReadListBytes(c, WriteList(c, list).value + rest) == Some((list, rest))
            <==> forall e | e in list :: !Oversized(c, e)
  {
    ListRoundTrip(c, list, rest);
    DeclaredIsExact(c, list);
    LengthRoundTrip(Declared(c, list), rest);
    var written, size := WriteList(c, list).value, HeaderSize(Declared(c, list)) + Declared(c, list);
    if size == |written| {
      assert (written + rest)[size..] == rest;
    } else if size <= |written + rest| {
      assert |(written + rest)[size..]| != |rest|;
    }
  }

  /** The position of the first extension of a type, or the length of the list. */
  function IndexOf(list: seq<Extension>, t: ExtensionType): (i: nat)
    ensures i <= |list| && (i < |list| ==> list[i].Type() == t)
    ensures forall j | 0 <= j < i :: list[j].Type() != t
  {
    if list == [] || list[0].Type() == t then 0 else 1 + IndexOf(list[1..], t)
  }

  /** The list without the first extension of a type, in the same order, and that extension. */
  function TakeOut(list: seq<Extension>, t: ExtensionType): (seq<Extension>, Option<Extension>) {
    var i := IndexOf(list, t);
    if i < |list| then (list[..i] + list[i + 1..], Some(list[i])) else (list, None)
  }

  /** The extensions of all other types, in their order. */
  function Except(list: seq<Extension>, t: ExtensionType): seq<Extension> {
    if list == [] then [] else (if list[0].Type() == t then [] else [list[0]]) + Except(list[1..], t)
  }

  lemma {:induction false} NothingToTake(list: seq<Extension>, t: ExtensionType)
    requires forall e | e in list :: e.Type() != t
    ensures Except(list, t) == list
  {
    if list != [] {
      assert list[0] in list;
      NothingToTake(list[1..], t);
      assert list == [list[0]] + list[1..];
    }
  }

  lemma {:induction false} ExceptSplit(a: seq<Extension>, b: seq<Extension>, t: ExtensionType)
    ensures Except(a + b, t) == Except(a, t) + Except(b, t)
  {
    if a == [] {
      assert a + b == b;
    } else {
      assert (a + b)[1..] == a[1..] + b;
      ExceptSplit(a[1..], b, t);
    }
  }

  lemma ExceptBetween(a: seq<Extension>, e: Extension, b: seq<Extension>, t: ExtensionType)
    requires e.Type() == t && (forall x | x in a :: x.Type() != t) && forall x | x in b :: x.Type() != t
    ensures Except(a + ([e] + b), t) == a + b
  {
    ExceptSplit(a, [e] + b, t);
    NothingToTake(a, t);
    NothingToTake(b, t);
    ExceptHead(e, b, t);
  }

  lemma ExceptHead(e: Extension, b: seq<Extension>, t: ExtensionType)
    requires e.Type() == t
    ensures Except([e] + b, t) == Except(b, t)
  {
    assert ([e] + b)[1..] == b;
  }

  /** From a list with unique types exactly the extension of the type is taken out, and the others keep their order. */
  lemma TakesOutOne(list: seq<Extension>, t: ExtensionType)
    requires Unique(list)
    ensures TakeOut(list, t).0 == Except(list, t)
    ensures forall e :: TakeOut(list, t).1 == Some(e) <==> e in list && e.Type() == t
  {
    var i := IndexOf(list, t);
    if i < |list| {
      assert list == list[..i] + ([list[i]] + list[i + 1..]);
      ExceptBetween(list[..i], list[i], list[i + 1..], t);
    } else {
      NothingToTake(list, t);
    }
  }

  /** The codes of the known types (section 17.3 of RFC 9420; 10 is that of the last-resort key package). */
  lemma StandardCodes()
    ensures Code(Known(ApplicationId)) == 1 && Code(Known(RatchetTree)) == 2 && Code(Known(RequiredCapabilities)) == 3
    ensures Code(Known(ExternalPub)) == 4 && Code(Known(ExternalSenders)) == 5 && Code(Known(LastResort)) == 10
  {
  }

  // ---------------------------------------------------------------- the object

  /** `Extensions` */
  class Extensions {
    var unique: seq<Extension>

    ghost predicate Valid()
      reads this
    {
      Unique(unique)
    }

    constructor Empty()
      ensures Valid() && unique == []
    {
      unique := [];
    }

    method Add(e: Extension) returns (added: bool)
      requires Valid()
      modifies this
      ensures Valid()
      ensures added <==> !exists i | 0 <= i < |old(unique)| :: old(unique)[i].Type() == e.Type()
      ensures unique == if added then old(unique) + [e] else old(unique)
    {
      if HasType(unique, e.Type()) {
        return false;
      }
      unique := unique + [e];
      added := true;
    }

    method Remove(t: ExtensionType) returns (removed: Option<Extension>)
      requires Valid()
      modifies this
      ensures Valid() && !HasType(unique, t)
      ensures (unique, removed) == TakeOut(old(unique), t)
    {
      var i := 0;
      while i < |unique| && unique[i].Type() != t
        invariant 0 <= i <= IndexOf(unique, t) && unique == old(unique)
      {
        i := i + 1;
      }
      if i < |unique| {
        removed := Some(unique[i]);
        unique := unique[..i] + unique[i + 1..];
      } else {
        removed := None;
      }
    }

    method AddOrReplace(e: Extension) returns (replaced: Option<Extension>)
      requires Valid()
      modifies this
      ensures Valid()
      ensures (unique, replaced) == (TakeOut(old(unique), e.Type()).0 + [e], TakeOut(old(unique), e.Type()).1)
    {
      replaced := Remove(e.Type());
      unique := unique + [e];
    }

    /** `try_from`: the list is taken exactly if its types are unique. */
    static method TryFrom(candidate: seq<Extension>) returns (r: Option<seq<Extension>>)
      ensures r == if Unique(candidate) then Some(candidate) else None
    {
      var unique: seq<Extension> := [];
      var i := 0;
      while i < |candidate|
        invariant 0 <= i <= |candidate| && unique == candidate[..i] && Unique(unique)
      {
        if HasType(unique, candidate[i].Type()) {
          ghost var j :| 0 <= j < i && unique[j].Type() == candidate[i].Type();
          assert candidate[j] == unique[j];
          return None;
        }
        unique := unique + [candidate[i]];
        i := i + 1;
      }
      assert candidate[..i] == candidate;
      r := Some(unique);
    }
  }
}
