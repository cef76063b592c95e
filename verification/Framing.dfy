/**
 Framed contents, what is signed of them, and public messages (sections 6.1 and 6.2 of RFC 9420).
 Proposals and commits are tokens with a codec of their own; signatures and tags are symbolic.
 A received content is the same value as a sent one before its proposals and commits are validated.
 */
module Framing {
  import opened Basics
  import opened Tls

  type U32 = x: nat | x < 0x1_0000_0000
  type U64 = x: nat | x < 0x1_0000_0000_0000_0000

  /** A proposal or a commit. */
  type Token = Bytes

  /** Any codec that reads back what it writes, whatever follows, and declares the size it writes. */
  datatype Codec = Codec(write: Token -> Option<Bytes>, read: Bytes -> Read<Token>, size: Token -> nat) {
    ghost predicate Lawful() {
      forall t | write(t).Some? ::
        |write(t).value| == size(t) && forall rest :: read(write(t).value + rest) == Some((t, rest))
    }

    /** Nothing is read but what would be written. */
    ghost predicate Canonical() {
      forall b | read(b).Some? ::
        write(read(b).value.0).Some? && b == write(read(b).value.0).value + read(b).value.1
    }
  }

  datatype Codecs = Codecs(proposal: Codec, commit: Codec) {
    ghost predicate Lawful() {
      proposal.Lawful() && commit.Lawful()
    }

    ghost predicate Canonical() {
      proposal.Canonical() && commit.Canonical()
    }
  }

  datatype Sender = Member(leaf: U32) | External(index: U32) | NewMemberProposal | NewMemberCommit

  datatype ContentType = IsApplication | IsProposal | IsCommit

  datatype Body = Application(data: Bytes) | Proposal(proposal: Token) | Commit(commit: Token) {
    function Type(): ContentType {
      match this
      case Application(_) => IsApplication
      case Proposal(_) => IsProposal
      case Commit(_) => IsCommit
    }
  }

  datatype Content = Content(group: Bytes, epoch: U64, sender: Sender, aad: Bytes, body: Body)

  datatype WireFormat = PublicMessageFormat | PrivateMessageFormat

  /** The tags are MACs, which are byte vectors. */
  datatype Auth = Auth(signature: Bytes, confirmationTag: Option<Bytes>)

  // ---------------------------------------------------------------- senders

  function WriteSender(s: Sender): Option<Bytes> {
    match s
    case Member(i) => Some([1] + BigEndian(i, 4))
    case External(i) => Some([2] + BigEndian(i, 4))
    case NewMemberProposal => Some([3])
    case NewMemberCommit => Some([4])
  }

  function ReadSender(b: Bytes): Read<Sender> {
    if b == [] then None
    else if b[0] == 3 then Some((NewMemberProposal, b[1..]))
    else if b[0] == 4 then Some((NewMemberCommit, b[1..]))
    else if b[0] != 1 && b[0] != 2 then None
    else
      var index := ReadInt(b[1..], 4);
      if index.None? || index.value.0 >= 0x1_0000_0000 then None
      else Some((if b[0] == 1 then Member(index.value.0) else External(index.value.0), index.value.1))
  }

  function SenderSize(s: Sender): nat {
    if s.Member? || s.External? then 5 else 1
  }

  lemma SenderRoundTrip(s: Sender, rest: Bytes)
    ensures |WriteSender(s).value| == SenderSize(s)
    ensures ReadSender(WriteSender(s).value + rest) == Some((s, rest))
  {
    var b := WriteSender(s).value + rest;
    Powers();
    if s.Member? || s.External? {
      var i := if s.Member? then s.leaf else s.index;
      IntRoundTrip(i, 4, rest);
      assert b[1..] == BigEndian(i, 4) + rest;
    } else {
      assert b[1..] == rest;
    }
  }

  // ---------------------------------------------------------------- bodies

  function TypeByte(t: ContentType): Byte {
    match t
    case IsApplication => 1
    case IsProposal => 2
    case IsCommit => 3
  }

  function ReadType(b: Bytes): Read<ContentType> {
    if b == [] then None
    else if b[0] == 1 then Some((IsApplication, b[1..]))
    else if b[0] == 2 then Some((IsProposal, b[1..]))
    else if b[0] == 3 then Some((IsCommit, b[1..]))
    else None
  }

  /** `serialize_without_type` */
  function WriteBody(c: Codecs, body: Body): Option<Bytes> {
    match body
    case Application(data) => WriteVector(data)
    case Proposal(p) => c.proposal.write(p)
    case Commit(t) => c.commit.write(t)
  }

  /** `deserialize_without_type` */
  function ReadBody(c: Codecs, b: Bytes, t: ContentType): Read<Body> {
    match t
    case IsApplication => var r := ReadVector(b); if r.None? then None else Some((Application(r.value.0), r.value.1))
    case IsProposal => var r := c.proposal.read(b); if r.None? then None else Some((Proposal(r.value.0), r.value.1))
    case IsCommit => var r := c.commit.read(b); if r.None? then None else Some((Commit(r.value.0), r.value.1))
  }

  /** `serialized_len_without_type` */
  function BodySize(c: Codecs, body: Body): nat {
    match body
    case Application(data) => VectorSize(data)
    case Proposal(p) => c.proposal.size(p)
    case Commit(t) => c.commit.size(t)
  }

  lemma BodyRoundTrip(c: Codecs, body: Body, rest: Bytes)
    requires c.Lawful() && WriteBody(c, body).Some?
    ensures |WriteBody(c, body).value| == BodySize(c, body)
    ensures ReadBody(c, WriteBody(c, body).value + rest, body.Type()) == Some((body, rest))
  {
    match body
    case Application(data) => VectorRoundTrip(data, rest);
    case Proposal(p) => assert c.proposal.read(c.proposal.write(p).value + rest) == Some((p, rest));
    case Commit(t) => assert c.commit.read(c.commit.write(t).value + rest) == Some((t, rest));
  }

  /** The body as an enum: its type, then `WriteBody`. */
  function WriteTyped(c: Codecs, body: Body): Option<Bytes> {
    Join(Some([TypeByte(body.Type())]), WriteBody(c, body))
  }

  function ReadTyped(c: Codecs, b: Bytes): Read<Body> {
    var t := ReadType(b);
    if t.None? then None else ReadBody(c, t.value.1, t.value.0)
  }

  lemma TypedRoundTrip(c: Codecs, body: Body, rest: Bytes)
    requires c.Lawful() && WriteTyped(c, body).Some?
    ensures |WriteTyped(c, body).value| == 1 + BodySize(c, body)
    ensures ReadTyped(c, WriteTyped(c, body).value + rest) == Some((body, rest))
  {
    var b := WriteTyped(c, body).value + rest;
    assert b[1..] == WriteBody(c, body).value + rest;
    BodyRoundTrip(c, body, rest);
  }

  // ---------------------------------------------------------------- contents

  function WriteContent(c: Codecs, x: Content): Option<Bytes> {
    Join(WriteVector(x.group),
         Join(Some(BigEndian(x.epoch, 8)),
              Join(WriteSender(x.sender), Join(WriteVector(x.aad), WriteTyped(c, x.body)))))
  }

  function ReadContent(c: Codecs, b: Bytes): Read<Content> {
    var group := ReadVector(b);
    if group.None? then None else
    var epoch := ReadInt(group.value.1, 8);
    if epoch.None? || epoch.value.0 >= 0x1_0000_0000_0000_0000 then None else
    var sender := ReadSender(epoch.value.1);
    if sender.None? then None else
    var aad := ReadVector(sender.value.1);
    if aad.None? then None else
    var body := ReadTyped(c, aad.value.1);
    if body.None? then None else
    Some((Content(group.value.0, epoch.value.0, sender.value.0, aad.value.0, body.value.0), body.value.1))
  }

  function ContentSize(c: Codecs, x: Content): nat {
    VectorSize(x.group) + 8 + SenderSize(x.sender) + VectorSize(x.aad) + 1 + BodySize(c, x.body)
  }

  lemma Regroup(a: Bytes, b: Bytes, c: Bytes, d: Bytes, e: Bytes, rest: Bytes)
    ensures (a + (b + (c + (d + e)))) + rest == a + (b + (c + (d + (e + rest))))
  {
    assert (d + e) + rest == d + (e + rest);
    assert (c + (d + e)) + rest == c + ((d + e) + rest);
    assert (b + (c + (d + e))) + rest == b + ((c + (d + e)) + rest);
  }

  lemma ContentRoundTrip(c: Codecs, x: Content, rest: Bytes)
    requires c.Lawful() && WriteContent(c, x).Some?
    ensures |WriteContent(c, x).value| == ContentSize(c, x)
    ensures ReadContent(c, WriteContent(c, x).value + rest) == Some((x, rest))
  {
    var group, epoch, sender := WriteVector(x.group).value, BigEndian(x.epoch, 8), WriteSender(x.sender).value;
    var aad, body := WriteVector(x.aad).value, WriteTyped(c, x.body).value;
    Regroup(group, epoch, sender, aad, body, rest);
    Powers();
    VectorRoundTrip(x.group, epoch + (sender + (aad + (body + rest))));
    IntRoundTrip(x.epoch, 8, sender + (aad + (body + rest)));
    SenderRoundTrip(x.sender, aad + (body + rest));
    VectorRoundTrip(x.aad, body + rest);
    TypedRoundTrip(c, x.body, rest);
  }

  // ---------------------------------------------------------------- authentication data

  function WriteTag(tag: Option<Bytes>): Option<Bytes> {
    if tag.None? then Some([]) else WriteVector(tag.value)
  }

  function WriteAuth(a: Auth): Option<Bytes> {
    Join(WriteVector(a.signature), WriteTag(a.confirmationTag))
  }

  function ReadTag(b: Bytes, present: bool): Read<Option<Bytes>> {
    if !present then Some((None, b))
    else
      var tag := ReadVector(b);
      if tag.None? then None else Some((Some(tag.value.0), tag.value.1))
  }

  /** A confirmation tag is read exactly for commits. */
  function ReadAuth(b: Bytes, t: ContentType): Read<Auth> {
    var signature := ReadVector(b);
    if signature.None? then None else
    var tag := ReadTag(signature.value.1, t == IsCommit);
    if tag.None? then None else
    Some((Auth(signature.value.0, tag.value.0), tag.value.1))
  }

  function TagSize(tag: Option<Bytes>): nat {
    if tag.None? then 0 else VectorSize(tag.value)
  }

  function AuthSize(a: Auth): nat {
    VectorSize(a.signature) + TagSize(a.confirmationTag)
  }

  lemma TagRoundTrip(tag: Option<Bytes>, rest: Bytes)
    requires WriteTag(tag).Some?
    ensures |WriteTag(tag).value| == TagSize(tag)
    ensures ReadTag(WriteTag(tag).value + rest, tag.Some?) == Some((tag, rest))
  {
    if tag.None? {
      assert [] + rest == rest;
    } else {
      VectorRoundTrip(tag.value, rest);
    }
  }

  lemma AuthRoundTrip(a: Auth, t: ContentType, rest: Bytes)
    requires WriteAuth(a).Some? && (a.confirmationTag.Some? <==> t == IsCommit)
    ensures ReadAuth(WriteAuth(a).value + rest, t) == Some((a, rest))
  {
    var signature, tag := WriteVector(a.signature).value, WriteTag(a.confirmationTag).value;
    assert (signature + tag) + rest == signature + (tag + rest);
    VectorRoundTrip(a.signature, tag + rest);
    TagRoundTrip(a.confirmationTag, rest);
  }

  lemma AuthSizeIsExact(a: Auth)
    requires WriteAuth(a).Some?
    ensures |WriteAuth(a).value| == AuthSize(a)
  {
    VectorRoundTrip(a.signature, []);
    TagRoundTrip(a.confirmationTag, []);
  }

  // ---------------------------------------------------------------- public messages

  datatype PublicMessage = PublicMessage(content: Content, auth: Auth, membershipTag: Option<Bytes>)

  function WritePublic(c: Codecs, m: PublicMessage): Option<Bytes> {
    Join(WriteContent(c, m.content), Join(WriteAuth(m.auth), WriteTag(m.membershipTag)))
  }

  /** A membership tag is read exactly for messages of members. */
  function ReadPublic(c: Codecs, b: Bytes): Read<PublicMessage> {
    var content := ReadContent(c, b);
    if content.None? then None else
    var auth := ReadAuth(content.value.1, content.value.0.body.Type());
    if auth.None? then None else
    var tag := ReadTag(auth.value.1, content.value.0.sender.Member?);
    if tag.None? then None else
    Some((PublicMessage(content.value.0, auth.value.0, tag.value.0), tag.value.1))
  }

  function PublicSize(c: Codecs, m: PublicMessage): nat {
    ContentSize(c, m.content) + AuthSize(m.auth) + TagSize(m.membershipTag)
  }

  /** The tags that a reader expects are there, and no others. */
  predicate WellTagged(m: PublicMessage) {
    && (m.auth.confirmationTag.Some? <==> m.content.body.Commit?)
    && (m.membershipTag.Some? <==> m.content.sender.Member?)
  }

  lemma ReadIsWellTagged(c: Codecs, b: Bytes)
    ensures ReadPublic(c, b).Some? ==> WellTagged(ReadPublic(c, b).value.0)
  {
  }

  lemma PublicSizeIsExact(c: Codecs, m: PublicMessage)
    requires c.Lawful() && WritePublic(c, m).Some?
    ensures |WritePublic(c, m).value| == PublicSize(c, m)
  {
    ContentRoundTrip(c, m.content, []);
    AuthSizeIsExact(m.auth);
    TagRoundTrip(m.membershipTag, []);
  }

  /** A public message is read back from what was written, whatever follows, exactly if it is well tagged. */
  lemma PublicRoundTrip(c: Codecs, m: PublicMessage, rest: Bytes)
    requires c.Lawful() && WritePublic(c, m).Some?
    ensures ReadPublic(c, WritePublic(c, m).value + rest) == Some((m, rest)) <==> WellTagged(m)
  {
    var content, auth, tag := WriteContent(c, m.content).value, WriteAuth(m.auth).value,
      WriteTag(m.membershipTag).value;
    if WellTagged(m) {
      assert (content + (auth + tag)) + rest == content + (auth + (tag + rest));
      ContentRoundTrip(c, m.content, auth + (tag + rest));
      AuthRoundTrip(m.auth, m.content.body.Type(), tag + rest);
      TagRoundTrip(m.membershipTag, rest);
    } else {
      ReadIsWellTagged(c, WritePublic(c, m).value + rest);
    }
  }

  /** `tls_deserialize_bytes`: the remainder is cut off by the declared size. */
  function ReadPublicBytes(c: Codecs, b: Bytes): Read<PublicMessage> {
    var m := ReadPublic(c, b);
    if m.None? || PublicSize(c, m.value.0) > |b| then None else Some((m.value.0, b[PublicSize(c, m.value.0)..]))
  }

  lemma RemainderIsExact(c: Codecs, m: PublicMessage, rest: Bytes)
    requires c.Lawful() && WritePublic(c, m).Some? && WellTagged(m)
    ensures ReadPublicBytes(c, WritePublic(c, m).value + rest) == Some((m, rest))
  {
    PublicRoundTrip(c, m, rest);
    PublicSizeIsExact(c, m);
  }
}
