/**
 What is signed and what is verified of a message, and the membership tag (sections 6.1 and 6.2 of RFC 9420).
 */
module Signing {
  import opened Basics
  import opened Tls
  import opened Framing

  // ---------------------------------------------------------------- to be signed

  function WireFormatCode(w: WireFormat): nat {
    if w.PublicMessageFormat? then 1 else 2
  }

  const MLS10: nat := 1

  /** Whether the group context is signed along. */
  predicate UsesContext(s: Sender) {
    s.Member? || s.NewMemberCommit?
  }

  function SignedContext(s: Sender, context: Option<Bytes>): Bytes {
    if context.Some? && UsesContext(s) then context.value else []
  }

  function WriteTbs(c: Codecs, w: WireFormat, x: Content, context: Option<Bytes>): Option<Bytes> {
    Join(Some(Head(w)), Join(WriteContent(c, x), Some(SignedContext(x.sender, context))))
  }

  function TbsSize(c: Codecs, x: Content, context: Option<Bytes>): nat {
    2 + 2 + ContentSize(c, x) + |SignedContext(x.sender, context)|
  }

  /** The protocol version and the wire format. */
  function Head(w: WireFormat): (r: Bytes)
    ensures |r| == 4
  {
    BigEndian(MLS10, 2) + BigEndian(WireFormatCode(w), 2)
  }

  /** The declared size is the number of bytes written. */
  lemma TbsSizeIsExact(c: Codecs, w: WireFormat, x: Content, context: Option<Bytes>)
    requires c.Lawful() && WriteTbs(c, w, x, context).Some?
    ensures |WriteTbs(c, w, x, context).value| == TbsSize(c, x, context)
  {
    ContentRoundTrip(c, x, []);
  }

  /** `framed_content_tbs_serialized`: the bytes, and the count that is returned for them. */
  method SerializeTbs(c: Codecs, w: WireFormat, x: Content,
                      context: Option<Bytes>) returns (out: Option<Bytes>, written: nat)
    ensures out == WriteTbs(c, w, x, context)
    ensures out.Some? ==> written == |out.value|
  {
    var writer := Head(w);
    written := 4;
    var content := WriteContent(c, x);
    if content.None? {
      return None, 0;
    }
    writer := writer + content.value;
    written := written + |content.value|;
    ghost var signed := SignedContext(x.sender, context);
    if context.Some? && (x.sender.Member? || x.sender.NewMemberCommit?) {
      writer := writer + context.value;
      written := written + |context.value|;
      assert writer == Head(w) + (content.value + signed);
    } else {
      assert content.value + signed == content.value;
    }
    out := Some(writer);
  }

  /**
   What two parties sign and verify is equal exactly if the wire formats are and, where the context counts, the
   contexts.
   */
  lemma SameBytes(c: Codecs, x: Content, w: WireFormat, context: Option<Bytes>, w': WireFormat, context': Option<Bytes>)
    requires WriteContent(c, x).Some?
    ensures WriteTbs(c, w, x, context) == WriteTbs(c, w', x, context')
            <==> w == w' && SignedContext(x.sender, context) == SignedContext(x.sender, context')
  {
    var content := WriteContent(c, x).value;
    var b, b' := WriteTbs(c, w, x, context).value, WriteTbs(c, w', x, context').value;
    if b == b' {
      assert b[..4] == Head(w) && b'[..4] == Head(w');
      HeadInjective(w, w');
      assert b[4 + |content|..] == SignedContext(x.sender, context);
      assert b'[4 + |content|..] == SignedContext(x.sender, context');
    }
  }

  lemma HeadInjective(w: WireFormat, w': WireFormat)
    ensures Head(w) == Head(w') ==> w == w'
  {
    assert Head(w)[2..] == BigEndian(WireFormatCode(w), 2) && Head(w')[2..] == BigEndian(WireFormatCode(w'), 2);
    Powers();
    ValueOfBigEndian(WireFormatCode(w), 2);
    ValueOfBigEndian(WireFormatCode(w'), 2);
  }

  /** `SignContent`: the label with its prefix, then the payload. */
  function WriteSignContent(payload: Option<Bytes>): Option<Bytes> {
    if payload.None? then None else Join(WriteVector(Ascii("MLS 1.0 FramedContentTBS")), WriteVector(payload.value))
  }

  // ---------------------------------------------------------------- signatures

  /** Any signature scheme in which a signature verifies under the signer's public key. */
  datatype Scheme = Scheme(sign: (Bytes, Bytes) -> Bytes, publicKey: Bytes -> Bytes,
                           verify: (Bytes, Bytes, Bytes) -> bool) {
    ghost predicate Lawful() {
      forall secret, payload :: verify(publicKey(secret), payload, sign(secret, payload))
    }
  }

  /** `AuthenticatedContent` */
  datatype Authenticated = Authenticated(wireFormat: WireFormat, content: Content, auth: Auth)

  /** The group context of the signer: `serialized` is its encoding, if it can be encoded. */
  datatype GroupContext = GroupContext(group: Bytes, epoch: U64, serialized: Option<Bytes>)

  /** `Signable::sign`; tags are added later. */
  function Sign(c: Codecs, scheme: Scheme, secret: Bytes, w: WireFormat, x: Content,
                context: Option<Bytes>): Option<Authenticated> {
    var payload := WriteSignContent(WriteTbs(c, w, x, context));
    if payload.None? then None else Some(Authenticated(w, x, Auth(scheme.sign(secret, payload.value), None)))
  }

  /** `new_and_sign`: the context is attached for members and for external commits. */
  function NewAndSign(c: Codecs, scheme: Scheme, secret: Bytes, w: WireFormat, aad: Bytes, sender: Sender, body: Body,
                      g: GroupContext)
    : Option<Authenticated>
  {
    var x := Content(g.group, g.epoch, sender, aad, body);
    if UsesContext(sender) && g.serialized.None? then None
    else Sign(c, scheme, secret, w, x, if UsesContext(sender) then g.serialized else None)
  }

  /** `new_join_proposal` and `new_external_proposal`: no context, no additional data, a public message. */
  function NewOutsideProposal(c: Codecs, scheme: Scheme, secret: Bytes, sender: Sender, proposal: Token, group: Bytes,
                              epoch: U64)
    : Option<Authenticated>
    requires sender.NewMemberProposal? || sender.External?
  {
    Sign(c, scheme, secret, PublicMessageFormat, Content(group, epoch, sender, [], Proposal(proposal)), None)
  }

  /** A received content with the context of the receiver. */
  datatype Verifiable = Verifiable(wireFormat: WireFormat, content: Content, context: Option<Bytes>, auth: Auth)

  predicate Verifies(c: Codecs, scheme: Scheme, publicKey: Bytes, v: Verifiable) {
    var payload := WriteSignContent(WriteTbs(c, v.wireFormat, v.content, v.context));
    payload.Some? && scheme.verify(publicKey, payload.value, v.auth.signature)
  }

  /** The receiver may attach any context if the sender's kind does not sign it, and must share it otherwise. */
  predicate ContextAgrees(s: Sender, signed: Option<Bytes>, received: Option<Bytes>) {
    SignedContext(s, signed) == SignedContext(s, received)
  }

  /** A signed content verifies at every receiver that has it under the same wire format and an agreeing context. */
  lemma SignedVerifies(c: Codecs, scheme: Scheme, secret: Bytes, w: WireFormat, x: Content, context: Option<Bytes>,
                       v: Verifiable)
    requires scheme.Lawful() && Sign(c, scheme, secret, w, x, context).Some?
    requires v.wireFormat == w && v.content == x && ContextAgrees(x.sender, context, v.context)
    requires v.auth.signature == Sign(c, scheme, secret, w, x, context).value.auth.signature
    ensures Verifies(c, scheme, scheme.publicKey(secret), v)
  {
    SameBytes(c, x, w, context, w, v.context);
    var payload := WriteSignContent(WriteTbs(c, w, x, context)).value;
    assert scheme.verify(scheme.publicKey(secret), payload, scheme.sign(secret, payload));
  }

  // ---------------------------------------------------------------- membership tags

  /** The tag of a message under a key: a MAC over what is signed and the authentication data. */
  function MembershipTag(c: Codecs, mac: (Bytes, Bytes) -> Bytes, key: Bytes, x: Content, a: Auth,
                         context: Bytes): Option<Bytes> {
    var tbm := Join(WriteTbs(c, PublicMessageFormat, x, Some(context)), WriteAuth(a));
    if tbm.None? then None else Some(mac(key, tbm.value))
  }

  function SetMembershipTag(c: Codecs, mac: (Bytes, Bytes) -> Bytes, key: Bytes, m: PublicMessage,
                            context: Bytes): Option<PublicMessage> {
    var tag := MembershipTag(c, mac, key, m.content, m.auth, context);
    if tag.None? then None else Some(m.(membershipTag := tag))
  }

  datatype Membership = Valid | Invalid | Missing | NotEncodable

  function VerifyMembership(c: Codecs, mac: (Bytes, Bytes) -> Bytes, key: Bytes, m: PublicMessage,
                            context: Bytes): Membership {
    var expected := MembershipTag(c, mac, key, m.content, m.auth, context);
    if expected.None? then NotEncodable
    else if m.membershipTag.None? then Missing
    else if m.membershipTag == expected then Valid
    else Invalid
  }

  /** A tagged message of a member is read back from the wire, and its tag is valid. */
  lemma TagSurvivesTheWire(c: Codecs, mac: (Bytes, Bytes) -> Bytes, key: Bytes, m: PublicMessage, context: Bytes,
                           rest: Bytes)
    requires c.Lawful() && m.content.sender.Member? && (m.auth.confirmationTag.Some? <==> m.content.body.Commit?)
    requires SetMembershipTag(c, mac, key, m, context).Some?
    requires WritePublic(c, SetMembershipTag(c, mac, key, m, context).value).Some?
    ensures var sent := SetMembershipTag(c, mac, key, m, context).value;
            var got := ReadPublic(c, WritePublic(c, sent).value + rest);
            got == Some((sent, rest)) && VerifyMembership(c, mac, key, got.value.0, context) == Valid
  {
    PublicRoundTrip(c, SetMembershipTag(c, mac, key, m, context).value, rest);
  }

  // ---------------------------------------------------------------- from the signer to the verifier

  /** A signed content as a public message: a confirmation tag for commits, a membership tag for members. */
  predicate Publishes(a: Authenticated, m: PublicMessage) {
    && m.content == a.content && m.auth.signature == a.auth.signature && WellTagged(m)
  }

  /** A public message of any of the four kinds of senders, sent and read, verifies at the receiver. */
  lemma PublicVerifies(c: Codecs, scheme: Scheme, secret: Bytes, x: Content, context: Option<Bytes>,
                       received: Option<Bytes>,
                       m: PublicMessage, rest: Bytes)
    requires c.Lawful() && scheme.Lawful() && Sign(c, scheme, secret, PublicMessageFormat, x, context).Some?
    requires Publishes(Sign(c, scheme, secret, PublicMessageFormat, x, context).value, m) && WritePublic(c, m).Some?
    requires ContextAgrees(x.sender, context, received)
    ensures var got := ReadPublic(c, WritePublic(c, m).value + rest);
            && got.Some? && got.value.1 == rest && got.value.0.content == x
            && Verifies(c, scheme, scheme.publicKey(secret),
                        Verifiable(PublicMessageFormat, got.value.0.content, received, got.value.0.auth))
  {
    PublicRoundTrip(c, m, rest);
    SignedVerifies(c, scheme, secret, PublicMessageFormat, x, context,
                   Verifiable(PublicMessageFormat, x, received, m.auth));
  }

  /** A message that `new_and_sign` made verifies at every receiver with the signer's group context. */
  lemma MessageVerifies(c: Codecs, scheme: Scheme, secret: Bytes, aad: Bytes, sender: Sender, body: Body,
                        g: GroupContext,
                        m: PublicMessage, rest: Bytes)
    requires c.Lawful() && scheme.Lawful()
    requires NewAndSign(c, scheme, secret, PublicMessageFormat, aad, sender, body, g).Some?
    requires Publishes(NewAndSign(c, scheme, secret, PublicMessageFormat, aad, sender, body, g).value, m)
    requires WritePublic(c, m).Some?
    ensures var got := ReadPublic(c, WritePublic(c, m).value + rest);
            && got == Some((m, rest)) && m.content == Content(g.group, g.epoch, sender, aad, body)
            && Verifies(c, scheme, scheme.publicKey(secret),
                        Verifiable(PublicMessageFormat, m.content, g.serialized, m.auth))
  {
    PublicRoundTrip(c, m, rest);
    var context := if UsesContext(sender) then g.serialized else None;
    PublicVerifies(c, scheme, secret, m.content, context, g.serialized, m, rest);
  }

  /** A proposal from outside the group verifies at every receiver, whatever its group context. */
  lemma OutsideProposalVerifies(c: Codecs, scheme: Scheme, secret: Bytes, sender: Sender, proposal: Token,
                                group: Bytes, epoch: U64,
                                received: Option<Bytes>, m: PublicMessage, rest: Bytes)
    requires c.Lawful() && scheme.Lawful() && (sender.NewMemberProposal? || sender.External?)
    requires NewOutsideProposal(c, scheme, secret, sender, proposal, group, epoch).Some?
    requires Publishes(NewOutsideProposal(c, scheme, secret, sender, proposal, group, epoch).value, m)
    requires WritePublic(c, m).Some?
    ensures ReadPublic(c, WritePublic(c, m).value + rest) == Some((m, rest))
    ensures m.content == Content(group, epoch, sender, [], Proposal(proposal))
    ensures Verifies(c, scheme, scheme.publicKey(secret), Verifiable(PublicMessageFormat, m.content, received, m.auth))
  {
    PublicRoundTrip(c, m, rest);
    PublicVerifies(c, scheme, secret, m.content, None, received, m, rest);
  }
}
