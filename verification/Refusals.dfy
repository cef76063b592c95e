/**
 What is refused. With a signature scheme, a MAC and an encryption that cannot be forged, a receiver accepts a message
 exactly if nothing that is protected has changed on the way.
 */
module Refusals {
  import opened Basics
  import opened Tls
  import opened Framing
  import opened Signing
  import opened PrivateMessages

  // ---------------------------------------------------------------- signatures

  /** A signature verifies only if it was made under the key over these bytes, and tells them. */
  ghost predicate Unforgeable(scheme: Scheme) {
    && (forall secret, payload, signature ::
          scheme.verify(scheme.publicKey(secret), payload, signature) <==> signature == scheme.sign(secret, payload))
    && forall secret, payload, payload' ::
         scheme.sign(secret, payload) == scheme.sign(secret, payload') ==> payload == payload'
  }

  /** The context as it is appended. */
  function Plain(context: Option<Bytes>): Bytes {
    if context.Some? then context.value else []
  }

  /** Two parties sign the same bytes exactly if wire format, content and, where it counts, context are the same. */
  lemma TbsTells(c: Codecs, w: WireFormat, x: Content, context: Option<Bytes>, w': WireFormat, x': Content,
                 context': Option<Bytes>)
    requires c.Lawful() && WriteTbs(c, w, x, context).Some? && WriteTbs(c, w', x', context').Some?
    ensures WriteTbs(c, w, x, context) == WriteTbs(c, w', x', context')
            <==> w == w' && x == x' && (x.sender.Member? || x.sender.NewMemberCommit?
                                        ==> Plain(context) == Plain(context'))
  {
    if WriteTbs(c, w, x, context) == WriteTbs(c, w', x', context') {
      SameContent(c, w, x, context, w', x', context');
    }
    if x == x' {
      SameBytes(c, x, w, context, w', context');
    }
  }

  lemma SameContent(c: Codecs, w: WireFormat, x: Content, context: Option<Bytes>, w': WireFormat, x': Content,
                    context': Option<Bytes>)
    requires c.Lawful() && WriteTbs(c, w, x, context).Some?
    requires WriteTbs(c, w, x, context) == WriteTbs(c, w', x', context')
    ensures x == x'
  {
    var b := WriteTbs(c, w, x, context).value;
    assert b[4..] == WriteContent(c, x).value + SignedContext(x.sender, context);
    assert b[4..] == WriteContent(c, x').value + SignedContext(x'.sender, context');
    ContentRoundTrip(c, x, SignedContext(x.sender, context));
    ContentRoundTrip(c, x', SignedContext(x'.sender, context'));
  }

  /** The first bytes that are signed: version 1 and the wire format, 1 for public and 2 for private messages. */
  lemma HeadBytes(w: WireFormat)
    ensures Head(w) == if w.PublicMessageFormat? then [0, 1, 0, 1] else [0, 1, 0, 2]
  {
    assert BigEndian(1, 2) == BigEndian(0, 1) + [1] && BigEndian(2, 2) == BigEndian(0, 1) + [2];
    assert BigEndian(0, 1) == BigEndian(0, 0) + [0];
  }

  /** What is signed starts with the label, and tells the payload. */
  lemma SignContentTells(payload: Bytes)
    requires WriteSignContent(Some(payload)).Some?
    ensures var b := WriteSignContent(Some(payload)).value;
            && ReadVector(b).Some? && ReadVector(b).value.0 == Ascii("MLS 1.0 FramedContentTBS")
            && ReadVector(ReadVector(b).value.1) == Some((payload, []))
  {
    var vector := WriteVector(payload).value;
    VectorRoundTrip(Ascii("MLS 1.0 FramedContentTBS"), vector);
    VectorRoundTrip(payload, []);
    assert vector + [] == vector;
  }

  /** A received content verifies exactly if its signature is the one that the signer would make over it. */
  lemma VerifiesOnlySigned(c: Codecs, scheme: Scheme, secret: Bytes, v: Verifiable)
    requires Unforgeable(scheme)
    ensures var signed := Sign(c, scheme, secret, v.wireFormat, v.content, v.context);
            Verifies(c, scheme, scheme.publicKey(secret), v)
            <==> signed.Some? && signed.value.auth.signature == v.auth.signature
  {
  }

  /** With the signature of a signed content, exactly that content verifies, in the signer's format and context. */
  lemma SignatureExactly(c: Codecs, scheme: Scheme, secret: Bytes, w: WireFormat, x: Content, context: Option<Bytes>,
                         v: Verifiable)
    requires c.Lawful() && Unforgeable(scheme) && Sign(c, scheme, secret, w, x, context).Some?
    requires v.auth.signature == Sign(c, scheme, secret, w, x, context).value.auth.signature
    ensures Verifies(c, scheme, scheme.publicKey(secret), v)
            <==> && v.wireFormat == w && v.content == x
                 && (x.sender.Member? || x.sender.NewMemberCommit? ==> Plain(context) == Plain(v.context))
  {
    var tbs, tbs' := WriteTbs(c, w, x, context), WriteTbs(c, v.wireFormat, v.content, v.context);
    VerifiesOnlySigned(c, scheme, secret, v);
    if tbs'.Some? {
      TbsTells(c, w, x, context, v.wireFormat, v.content, v.context);
    }
    SignContentTells(tbs.value);
    if WriteSignContent(tbs').Some? {
      SignContentTells(tbs'.value);
    }
  }

  /** Signing changes nothing of the content, and adds no tag. */
  lemma SignedAsIs(c: Codecs, scheme: Scheme, secret: Bytes, w: WireFormat, x: Content, context: Option<Bytes>)
    ensures var signed := Sign(c, scheme, secret, w, x, context);
            signed.Some? ==> signed.value == Authenticated(w, x, Auth(signed.value.auth.signature, None))
  {
  }

  /** A member or an external committer whose group context cannot be encoded signs nothing. */
  lemma NoContextNoSignature(c: Codecs, scheme: Scheme, secret: Bytes, w: WireFormat, aad: Bytes, sender: Sender,
                             body: Body, g: GroupContext)
    requires (sender.Member? || sender.NewMemberCommit?) && g.serialized.None?
    ensures NewAndSign(c, scheme, secret, w, aad, sender, body, g).None?
  {
  }

  /** No other signature is accepted for a content that was signed. */
  lemma OtherSignatureFails(c: Codecs, scheme: Scheme, secret: Bytes, w: WireFormat, x: Content, context: Option<Bytes>,
                            v: Verifiable)
    requires Unforgeable(scheme) && Sign(c, scheme, secret, w, x, context).Some?
    requires v.wireFormat == w && v.content == x && v.context == context
    requires v.auth.signature != Sign(c, scheme, secret, w, x, context).value.auth.signature
    ensures !Verifies(c, scheme, scheme.publicKey(secret), v)
  {
    VerifiesOnlySigned(c, scheme, secret, v);
  }

  // ---------------------------------------------------------------- membership tags

  /** A tag tells what it was made over. */
  ghost predicate Collisionless(mac: (Bytes, Bytes) -> Bytes) {
    forall key, text, text' :: mac(key, text) == mac(key, text') ==> text == text'
  }

  lemma AuthTells(a: Auth, a': Auth)
    requires WriteAuth(a).Some? && WriteAuth(a) == WriteAuth(a')
    ensures a == a'
  {
    var tag, tag' := WriteTag(a.confirmationTag).value, WriteTag(a'.confirmationTag).value;
    VectorRoundTrip(a.signature, tag);
    VectorRoundTrip(a'.signature, tag');
    TagTells(a.confirmationTag, a'.confirmationTag);
  }

  lemma TagTells(tag: Option<Bytes>, tag': Option<Bytes>)
    requires WriteTag(tag).Some? && WriteTag(tag) == WriteTag(tag')
    ensures tag == tag'
  {
    TagRoundTrip(tag, []);
    TagRoundTrip(tag', []);
  }

  /** Encodings of which neither is the beginning of the other, unless they are equal. */
  predicate Apart(a: Bytes, b: Bytes) {
    a <= b || b <= a ==> a == b
  }

  lemma SamePrefix(a: Bytes, rest: Bytes, a': Bytes, rest': Bytes)
    requires Apart(a, a') && a + rest == a' + rest'
    ensures a == a' && rest == rest'
  {
    var all := a + rest;
    assert all[..|a|] == a && all[..|a'|] == a';
    assert a <= a' || a' <= a;
    assert all[|a|..] == rest;
    assert all[|a'|..] == rest';
  }

  /** What the tag is made over tells content, context and authentication data. */
  lemma TaggedTells(c: Codecs, x: Content, a: Auth, context: Bytes, x': Content, a': Auth, context': Bytes)
    requires c.Lawful() && Apart(context, context')
    requires WriteTbs(c, PublicMessageFormat, x, Some(context)).Some? && WriteAuth(a).Some?
    requires Join(WriteTbs(c, PublicMessageFormat, x, Some(context)), WriteAuth(a))
             == Join(WriteTbs(c, PublicMessageFormat, x', Some(context')), WriteAuth(a'))
    ensures x == x' && a == a' && (x.sender.Member? || x.sender.NewMemberCommit? ==> context == context')
  {
    TaggedReads(c, x, a, context);
    TaggedReads(c, x', a', context');
    SamePrefix(SignedContext(x.sender, Some(context)), WriteAuth(a).value,
               SignedContext(x'.sender, Some(context')), WriteAuth(a').value);
    AuthTells(a, a');
  }

  lemma TaggedReads(c: Codecs, x: Content, a: Auth, context: Bytes)
    requires c.Lawful() && WriteTbs(c, PublicMessageFormat, x, Some(context)).Some? && WriteAuth(a).Some?
    ensures var b := Join(WriteTbs(c, PublicMessageFormat, x, Some(context)), WriteAuth(a)).value;
            |b| >= 4 && ReadContent(c, b[4..]) == Some((x, SignedContext(x.sender, Some(context)) + WriteAuth(a).value))
  {
    var signed, auth := SignedContext(x.sender, Some(context)), WriteAuth(a).value;
    var content := WriteContent(c, x).value;
    assert (Head(PublicMessageFormat) + (content + signed)) + auth
        == Head(PublicMessageFormat) + (content + (signed + auth));
    ContentRoundTrip(c, x, signed + auth);
  }

  /** With the tag that a member set, exactly its message and context are valid; with another one nothing is. */
  lemma MembershipExactly(c: Codecs, mac: (Bytes, Bytes) -> Bytes, key: Bytes, m: PublicMessage, context: Bytes,
                          m': PublicMessage, context': Bytes)
    requires c.Lawful() && Collisionless(mac) && Apart(context, context')
    requires SetMembershipTag(c, mac, key, m, context).Some?
    requires m'.membershipTag == SetMembershipTag(c, mac, key, m, context).value.membershipTag
    requires MembershipTag(c, mac, key, m'.content, m'.auth, context').Some?
    ensures VerifyMembership(c, mac, key, m', context') in {Valid, Invalid}
    ensures VerifyMembership(c, mac, key, m', context') == Valid
            <==> && m'.content == m.content && m'.auth == m.auth
                 && (m.content.sender.Member? || m.content.sender.NewMemberCommit? ==> context == context')
  {
    if VerifyMembership(c, mac, key, m', context') == Valid {
      TaggedTells(c, m.content, m.auth, context, m'.content, m'.auth, context');
    } else if m'.content == m.content {
      SameBytes(c, m.content, PublicMessageFormat, Some(context), PublicMessageFormat, Some(context'));
    }
  }

  /** A message is valid with one tag only; without a tag it is neither valid nor invalid. */
  lemma OneValidTag(c: Codecs, mac: (Bytes, Bytes) -> Bytes, key: Bytes, m: PublicMessage, context: Bytes,
                    tag: Option<Bytes>)
    requires VerifyMembership(c, mac, key, m, context) == Valid
    ensures VerifyMembership(c, mac, key, m.(membershipTag := tag), context)
            == if tag.None? then Missing else if tag == m.membershipTag then Valid else Invalid
  {
  }

  // ---------------------------------------------------------------- private messages

  /** The text is opened under this additional data, and under no other. */
  ghost predicate OpensOnlyUnder(crypto: Crypto, key: Bytes, nonce: Nonce, text: Bytes, aad: Bytes) {
    forall other | crypto.open(key, nonce, other, text).Some? :: other == aad
  }

  /** The encryption of a message binds its additional data: nothing in the two ciphertexts opens under other data. */
  ghost predicate Binds(crypto: Crypto, ratchet: Ratchet, guard: ReuseGuard, senderSecret: Bytes, m: PrivateMessage) {
    var contentAad, senderAad := ContentAad(m.group, m.epoch, m.contentType, m.aad),
      SenderDataAad(m.group, m.epoch, m.contentType);
    && contentAad.Some? && senderAad.Some?
    && OpensOnlyUnder(crypto, ratchet.key, Guarded(ratchet.nonce, guard), m.ciphertext, contentAad.value)
    && OpensOnlyUnder(crypto, crypto.deriveKey(senderSecret, m.ciphertext),
                      crypto.deriveNonce(senderSecret, m.ciphertext), m.encryptedSenderData, senderAad.value)
  }

  lemma SenderAadTells(group: Bytes, epoch: U64, t: ContentType, group': Bytes, epoch': U64, t': ContentType)
    requires SenderDataAad(group, epoch, t).Some? && SenderDataAad(group, epoch, t) == SenderDataAad(group', epoch', t')
    ensures group == group' && epoch == epoch' && t == t'
  {
    var rest, rest' := BigEndian(epoch, 8) + [TypeByte(t)], BigEndian(epoch', 8) + [TypeByte(t')];
    VectorRoundTrip(group, rest);
    VectorRoundTrip(group', rest');
    Powers();
    IntRoundTrip(epoch, 8, [TypeByte(t)]);
    IntRoundTrip(epoch', 8, [TypeByte(t')]);
    assert [TypeByte(t)][0] == [TypeByte(t')][0];
  }

  lemma ContentAadTells(group: Bytes, epoch: U64, t: ContentType, aad: Bytes, aad': Bytes)
    requires ContentAad(group, epoch, t, aad).Some?
    requires ContentAad(group, epoch, t, aad) == ContentAad(group, epoch, t, aad')
    ensures aad == aad'
  {
    var head, vector, vector' := SenderDataAad(group, epoch, t).value, WriteVector(aad).value, WriteVector(aad').value;
    assert (head + vector)[|head|..] == vector && (head + vector')[|head|..] == vector';
    VectorRoundTrip(aad, []);
    VectorRoundTrip(aad', []);
    assert vector + [] == vector && vector' + [] == vector';
  }

  /** Sender data is opened only under the group, epoch and content type that it was sealed for. */
  lemma SenderDataIsBound(crypto: Crypto, ratchet: Ratchet, guard: ReuseGuard, senderSecret: Bytes, m: PrivateMessage,
                          got: PrivateMessage)
    requires Binds(crypto, ratchet, guard, senderSecret, m) && OpenSenderData(crypto, got, senderSecret).Some?
    requires got.ciphertext == m.ciphertext && got.encryptedSenderData == m.encryptedSenderData
    ensures got.group == m.group && got.epoch == m.epoch && got.contentType == m.contentType
  {
    SenderAadTells(m.group, m.epoch, m.contentType, got.group, got.epoch, got.contentType);
  }

  /** What is not a private message of a member is not protected. */
  lemma ProtectRefuses(c: Codecs, crypto: Crypto, a: Authenticated, generation: U32, ratchet: Ratchet,
                       guard: ReuseGuard, senderSecret: Bytes, padding: nat)
    ensures var p := Protect(c, crypto, a, generation, ratchet, guard, senderSecret, padding);
            && (p.WrongWireFormat? <==> a.wireFormat != PrivateMessageFormat)
            && (p.SenderNotMember? <==> a.wireFormat == PrivateMessageFormat && !a.content.sender.Member?)
            && (p.Message? ==> p.message.group == a.content.group && p.message.epoch == a.content.epoch
                               && p.message.contentType == a.content.body.Type() && p.message.aad == a.content.aad)
  {
  }

  /** Of all messages with the two ciphertexts of a protected one, exactly that one is accepted. */
  lemma HeaderIsBound(c: Codecs, crypto: Crypto, a: Authenticated, generation: U32, ratchet: Ratchet,
                      guard: ReuseGuard, senderSecret: Bytes, padding: nat, tree: SecretTree, context: Bytes,
                      got: PrivateMessage)
    requires c.Lawful() && crypto.Lawful() && (a.auth.confirmationTag.Some? <==> a.content.body.Commit?)
    requires Protect(c, crypto, a, generation, ratchet, guard, senderSecret, padding).Message?
    requires tree(a.content.sender.leaf, if a.content.body.Application? then ApplicationSecret else HandshakeSecret,
                  generation) == Some(ratchet)
    requires var m := Protect(c, crypto, a, generation, ratchet, guard, senderSecret, padding).message;
             && Binds(crypto, ratchet, guard, senderSecret, m)
             && got.ciphertext == m.ciphertext && got.encryptedSenderData == m.encryptedSenderData
    ensures var m := Protect(c, crypto, a, generation, ratchet, guard, senderSecret, padding).message;
            Unprotect(c, crypto, got, senderSecret, tree, context).Some? <==> got == m
  {
    var m := Protect(c, crypto, a, generation, ratchet, guard, senderSecret, padding).message;
    PrivateRoundTrip(c, crypto, a, generation, ratchet, guard, senderSecret, padding, tree, context);
    SenderDataOpens(c, crypto, a, generation, ratchet, guard, senderSecret, padding);
    if Unprotect(c, crypto, got, senderSecret, tree, context).Some? {
      SenderDataIsBound(crypto, ratchet, guard, senderSecret, m, got);
      ContentAadTells(m.group, m.epoch, m.contentType, m.aad, got.aad);
    }
  }
}
