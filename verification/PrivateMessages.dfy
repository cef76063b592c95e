/**
 Private messages: padding, encryption under a ratchet secret, and back (section 6.3 of RFC 9420).
 Encryption is symbolic: what was sealed under a key, a nonce and additional data is opened under the same ones.
 The secret tree is a parameter: the secret that the sender used, and what the receiver finds for it.
 */
module PrivateMessages {
  import opened Basics
  import opened Tls
  import opened Framing
  import opened Signing

  // ---------------------------------------------------------------- the reuse guard

  const NONCE_BYTES: nat := 12
  const REUSE_GUARD_BYTES: nat := 4

  type Nonce = b: Bytes | |b| == NONCE_BYTES witness seq(NONCE_BYTES, _ => 0)
  type ReuseGuard = b: Bytes | |b| == REUSE_GUARD_BYTES witness seq(REUSE_GUARD_BYTES, _ => 0)

  function Pow2(n: nat): (p: nat)
    ensures p >= 1
  {
    if n == 0 then 1 else 2 * Pow2(n - 1)
  }

  /** Exclusive or of the n lowest bits. */
  function XorBits(a: nat, b: nat, n: nat): (r: nat)
    ensures r < Pow2(n)
  {
    if n == 0 then 0 else (a % 2 + b % 2) % 2 + 2 * XorBits(a / 2, b / 2, n - 1)
  }

  function Xor(a: Byte, b: Byte): Byte {
    EightBits();
    XorBits(a, b, 8)
  }

  lemma EightBits()
    ensures Pow2(8) == 256
  {
    assert Pow2(4) == 16;
    assert Pow2(6) == 64;
  }

  lemma LowestBit(x: nat, rest: nat)
    requires x < 2
    ensures (x + 2 * rest) % 2 == x && (x + 2 * rest) / 2 == rest
  {
  }

  lemma OneBit(x: nat, y: nat)
    requires x < 2 && y < 2
    ensures ((x + y) % 2 + y) % 2 == x
  {
  }

  lemma {:induction false} XorBitsTwice(a: nat, b: nat, n: nat)
    requires a < Pow2(n)
    ensures XorBits(XorBits(a, b, n), b, n) == a
  {
    if n > 0 {
      XorBitsTwice(a / 2, b / 2, n - 1);
      LowestBit((a % 2 + b % 2) % 2, XorBits(a / 2, b / 2, n - 1));
      OneBit(a % 2, b % 2);
    }
  }

  /** The k-th lowest bit of a number. */
  predicate Bit(x: nat, k: nat) {
    if k == 0 then x % 2 == 1 else Bit(x / 2, k - 1)
  }

  lemma {:induction false} XorBitsBit(a: nat, b: nat, n: nat, k: nat)
    requires k < n
    ensures Bit(XorBits(a, b, n), k) <==> Bit(a, k) != Bit(b, k)
  {
    LowestBit((a % 2 + b % 2) % 2, XorBits(a / 2, b / 2, n - 1));
    if k > 0 {
      XorBitsBit(a / 2, b / 2, n - 1, k - 1);
    }
  }

  lemma {:induction false} SameBits(a: nat, b: nat, n: nat)
    requires a < Pow2(n) && b < Pow2(n) && forall k: nat | k < n :: Bit(a, k) <==> Bit(b, k)
    ensures a == b
  {
    if n > 0 {
      assert Bit(a, 0) <==> Bit(b, 0);
      forall k: nat | k < n - 1 ensures Bit(a / 2, k) <==> Bit(b / 2, k) {
        assert Bit(a, k + 1) <==> Bit(b, k + 1);
      }
      SameBits(a / 2, b / 2, n - 1);
    }
  }

  /** The nonce with its first bytes changed by the guard. */
  function Guarded(nonce: Nonce, guard: ReuseGuard): Nonce {
    seq(NONCE_BYTES, i requires 0 <= i < NONCE_BYTES =>
      if i < REUSE_GUARD_BYTES then Xor(nonce[i], guard[i]) else nonce[i])
  }

  /** `xor_with_reuse_guard`, in place. */
  method XorWithReuseGuard(nonce: array<Byte>, guard: ReuseGuard)
    requires nonce.Length == NONCE_BYTES
    modifies nonce
    ensures nonce[..] == Guarded(old(nonce[..]), guard)
  {
    for i := 0 to REUSE_GUARD_BYTES
      invariant forall j | 0 <= j < NONCE_BYTES ::
                  nonce[j] == if j < i then Xor(old(nonce[j]), guard[j]) else old(nonce[j])
    {
      nonce[i] := Xor(nonce[i], guard[i]);
    }
  }

  /** Applying the guard twice gives the nonce back. */
  lemma GuardedTwice(nonce: Nonce, guard: ReuseGuard)
    ensures Guarded(Guarded(nonce, guard), guard) == nonce
  {
    EightBits();
    forall i | 0 <= i < REUSE_GUARD_BYTES ensures Xor(Xor(nonce[i], guard[i]), guard[i]) == nonce[i] {
      XorBitsTwice(nonce[i], guard[i], 8);
    }
  }

  /** A bit of the first bytes is flipped exactly if it is set in the guard; the other bytes stay. */
  lemma GuardedBits(nonce: Nonce, guard: ReuseGuard, i: nat, k: nat)
    requires i < NONCE_BYTES && k < 8
    ensures Bit(Guarded(nonce, guard)[i], k)
            <==> if i < REUSE_GUARD_BYTES then Bit(nonce[i], k) != Bit(guard[i], k) else Bit(nonce[i], k)
  {
    if i < REUSE_GUARD_BYTES {
      XorBitsBit(nonce[i], guard[i], 8, k);
    }
  }

  /** Under one nonce, two guards give the same nonce exactly if they are equal. */
  lemma GuardsTellApart(nonce: Nonce, guard: ReuseGuard, guard': ReuseGuard)
    ensures Guarded(nonce, guard) == Guarded(nonce, guard') <==> guard == guard'
  {
    EightBits();
    if Guarded(nonce, guard) == Guarded(nonce, guard') {
      forall i | 0 <= i < REUSE_GUARD_BYTES ensures guard[i] == guard'[i] {
        forall k: nat | k < 8 ensures Bit(guard[i], k) <==> Bit(guard'[i], k) {
          GuardedBits(nonce, guard, i, k);
          GuardedBits(nonce, guard', i, k);
        }
        SameBits(guard[i], guard'[i], 8);
      }
    }
  }

  // ---------------------------------------------------------------- padding

  function PaddingLength(plaintext: nat, padding: nat, mac: nat): nat {
    if padding > 0 then (padding - (plaintext + mac) % padding) % padding else 0
  }

  lemma Remaining(m: nat, r: nat)
    requires r < m
    ensures (m - r) % m == if r == 0 then 0 else m - r
  {
  }

  /** The multiple of m that n is rounded up to. */
  lemma RoundedUp(n: nat, m: nat) returns (q: nat)
    requires m > 0
    ensures n + (m - n % m) % m == m * q
    ensures q == 0 || m * (q - 1) < n
  {
    var r := n % m;
    Remaining(m, r);
    q := if r == 0 then n / m else n / m + 1;
  }

  lemma NoSmallerMultiple(m: nat, n: nat, q: nat, k: nat)
    requires q == 0 || m * (q - 1) < n
    requires n <= m * k
    ensures m * q <= m * k
  {
    if k < q {
      Monotone(m, k, q - 1);
    } else {
      Monotone(m, q, k);
    }
  }

  /** The padded length with the tag is the least multiple of the padding size that is long enough. */
  lemma PaddingIsLeast(plaintext: nat, padding: nat, mac: nat, other: nat)
    requires padding > 0
    ensures (plaintext + PaddingLength(plaintext, padding, mac) + mac) % padding == 0
    ensures plaintext + mac <= other && other % padding == 0
            ==> plaintext + PaddingLength(plaintext, padding, mac) + mac <= other
  {
    var n := plaintext + mac;
    var q := RoundedUp(n, padding);
    assert plaintext + PaddingLength(plaintext, padding, mac) + mac == padding * q;
    MultipleOf(padding, q);
    if n <= other && other % padding == 0 {
      IsMultiple(padding, other);
      NoSmallerMultiple(padding, n, q, other / padding);
    }
  }

  lemma IsMultiple(m: nat, x: nat)
    requires m > 0 && x % m == 0
    ensures x == m * (x / m)
  {
  }

  lemma MultipleOf(m: nat, k: nat)
    requires m > 0
    ensures m * k % m == 0
  {
    var x := m * k;
    var d := k - x / m;
    assert m * d == x % m;
    Smaller(m, d);
  }

  /** The only multiple of m between 0 and m - 1 is 0. */
  lemma Smaller(m: nat, d: int)
    requires 0 <= m * d < m
    ensures m * d == 0
  {
    if d >= 1 {
      Monotone(m, 1, d);
    }
  }

  lemma Monotone(m: nat, a: nat, b: nat)
    requires a <= b
    ensures m * a <= m * b
  {
  }

  // ---------------------------------------------------------------- the plaintext

  function Zeros(n: nat): (r: Bytes)
    ensures |r| == n && forall x | x in r :: x == 0
  {
    seq(n, _ => 0)
  }

  function PlaintextLength(c: Codecs, body: Body, auth: Auth): nat {
    BodySize(c, body) + AuthSize(auth)
  }

  function WritePadded(c: Codecs, body: Body, auth: Auth, padding: nat, mac: nat): Option<Bytes> {
    Join(WriteBody(c, body),
         Join(WriteAuth(auth), Some(Zeros(PaddingLength(PlaintextLength(c, body, auth), padding, mac)))))
  }

  /** `encode_padded_ciphertext_content_detached` */
  method EncodePadded(c: Codecs, body: Body, auth: Auth, padding: nat, mac: nat) returns (out: Option<Bytes>)
    ensures out == WritePadded(c, body, auth, padding, mac)
  {
    var paddingLength := PaddingLength(BodySize(c, body) + AuthSize(auth), padding, mac);
    var content, authBytes := WriteBody(c, body), WriteAuth(auth);
    if content.None? || authBytes.None? {
      return None;
    }
    var buffer := content.value;
    buffer := buffer + authBytes.value;
    assert buffer + Zeros(paddingLength) == content.value + (authBytes.value + Zeros(paddingLength));
    buffer := buffer + Zeros(paddingLength);
    out := Some(buffer);
  }

  /** `deserialize_ciphertext_content`: what follows the authentication data must be zeros. */
  function ReadPadded(c: Codecs, b: Bytes, t: ContentType): Option<(Body, Auth)> {
    var body := ReadBody(c, b, t);
    if body.None? then None else
    var auth := ReadAuth(body.value.1, t);
    if auth.None? || exists x | x in auth.value.1 :: x != 0 then None
    else Some((body.value.0, auth.value.0))
  }

  lemma PaddedRoundTrip(c: Codecs, body: Body, auth: Auth, padding: nat, mac: nat)
    requires c.Lawful() && WritePadded(c, body, auth, padding, mac).Some?
    requires auth.confirmationTag.Some? <==> body.Commit?
    ensures ReadPadded(c, WritePadded(c, body, auth, padding, mac).value, body.Type()) == Some((body, auth))
  {
    var zeros := Zeros(PaddingLength(PlaintextLength(c, body, auth), padding, mac));
    BodyRoundTrip(c, body, WriteAuth(auth).value + zeros);
    AuthRoundTrip(auth, body.Type(), zeros);
  }

  /** The length of the padded plaintext, and that it is what is needed and no more. */
  lemma PaddedLength(c: Codecs, body: Body, auth: Auth, padding: nat, mac: nat)
    requires c.Lawful() && WritePadded(c, body, auth, padding, mac).Some?
    ensures var n := PlaintextLength(c, body, auth);
            |WritePadded(c, body, auth, padding, mac).value| == n + PaddingLength(n, padding, mac)
  {
    BodyRoundTrip(c, body, []);
    AuthSizeIsExact(auth);
  }

  // ---------------------------------------------------------------- sender data

  datatype SenderData = SenderData(leaf: U32, generation: U32, guard: ReuseGuard)

  function WriteSenderData(d: SenderData): Bytes {
    BigEndian(d.leaf, 4) + (BigEndian(d.generation, 4) + d.guard)
  }

  function ReadSenderData(b: Bytes): Option<SenderData> {
    var leaf := ReadInt(b, 4);
    if leaf.None? || leaf.value.0 >= 0x1_0000_0000 then None else
    var generation := ReadInt(leaf.value.1, 4);
    if generation.None? || generation.value.0 >= 0x1_0000_0000 then None else
    var guard := Take(generation.value.1, REUSE_GUARD_BYTES);
    if guard.None? then None else Some(SenderData(leaf.value.0, generation.value.0, guard.value.0))
  }

  lemma SenderDataRoundTrip(d: SenderData)
    ensures ReadSenderData(WriteSenderData(d)) == Some(d)
  {
    Powers();
    IntRoundTrip(d.leaf, 4, BigEndian(d.generation, 4) + d.guard);
    IntRoundTrip(d.generation, 4, d.guard);
    assert d.guard[..REUSE_GUARD_BYTES] == d.guard;
  }

  // ---------------------------------------------------------------- protection

  /** Any authenticated encryption; keys and nonces for sender data are derived from a secret and the ciphertext. */
  datatype Crypto = Crypto(
    seal: (Bytes, Nonce, Bytes, Bytes) -> Bytes,
    open: (Bytes, Nonce, Bytes, Bytes) -> Option<Bytes>,
    deriveKey: (Bytes, Bytes) -> Bytes,
    deriveNonce: (Bytes, Bytes) -> Nonce,
    mac: nat)
  {
    ghost predicate Lawful() {
      forall key, nonce, aad, message ::
        && open(key, nonce, aad, seal(key, nonce, aad, message)) == Some(message)
        && |seal(key, nonce, aad, message)| == |message| + mac
    }
  }

  /** The key and nonce of one generation of a sender's ratchet. */
  datatype Ratchet = Ratchet(key: Bytes, nonce: Nonce)

  datatype SecretType = HandshakeSecret | ApplicationSecret

  function SecretFor(t: ContentType): SecretType {
    if t == IsApplication then ApplicationSecret else HandshakeSecret
  }

  datatype PrivateMessage = PrivateMessage(
    group: Bytes, epoch: U64, contentType: ContentType, aad: Bytes, encryptedSenderData: Bytes, ciphertext: Bytes)

  function SenderDataAad(group: Bytes, epoch: U64, t: ContentType): Option<Bytes> {
    Join(WriteVector(group), Some(BigEndian(epoch, 8) + [TypeByte(t)]))
  }

  function ContentAad(group: Bytes, epoch: U64, t: ContentType, aad: Bytes): Option<Bytes> {
    Join(SenderDataAad(group, epoch, t), WriteVector(aad))
  }

  datatype Protected = Message(message: PrivateMessage) | WrongWireFormat | SenderNotMember | NotEncodable

  /** `try_from_authenticated_content` and `encrypt_content`, with the ratchet secret and the random guard given. */
  function Protect(c: Codecs, crypto: Crypto, a: Authenticated, generation: U32, ratchet: Ratchet, guard: ReuseGuard,
                   senderSecret: Bytes, padding: nat): Protected
  {
    var x := a.content;
    var t := x.body.Type();
    if !a.wireFormat.PrivateMessageFormat? then WrongWireFormat
    else if !x.sender.Member? then SenderNotMember
    else
      var contentAad, senderAad := ContentAad(x.group, x.epoch, t, x.aad), SenderDataAad(x.group, x.epoch, t);
      var plaintext := WritePadded(c, x.body, a.auth, padding, crypto.mac);
      if contentAad.None? || senderAad.None? || plaintext.None? then Protected.NotEncodable
      else
        var ciphertext := crypto.seal(ratchet.key, Guarded(ratchet.nonce, guard), contentAad.value, plaintext.value);
        var encrypted := crypto.seal(crypto.deriveKey(senderSecret, ciphertext),
                                     crypto.deriveNonce(senderSecret, ciphertext),
                                     senderAad.value, WriteSenderData(SenderData(x.sender.leaf, generation, guard)));
        Message(PrivateMessage(x.group, x.epoch, t, x.aad, encrypted, ciphertext))
  }

  /** `sender_data` */
  function OpenSenderData(crypto: Crypto, m: PrivateMessage, senderSecret: Bytes): Option<SenderData> {
    var aad := SenderDataAad(m.group, m.epoch, m.contentType);
    if aad.None? then None else
    var plain := crypto.open(crypto.deriveKey(senderSecret, m.ciphertext),
                             crypto.deriveNonce(senderSecret, m.ciphertext),
                              aad.value, m.encryptedSenderData);
    if plain.None? then None else ReadSenderData(plain.value)
  }

  /** `decrypt` */
  function Decrypt(c: Codecs, crypto: Crypto, m: PrivateMessage, key: Bytes, nonce: Nonce): Option<(Body, Auth)> {
    var aad := ContentAad(m.group, m.epoch, m.contentType, m.aad);
    if aad.None? then None else
    var plain := crypto.open(key, nonce, aad.value, m.ciphertext);
    if plain.None? then None else ReadPadded(c, plain.value, m.contentType)
  }

  /** What the receiver's secret tree has for a leaf, a kind of secret and a generation. */
  type SecretTree = (U32, SecretType, U32) -> Option<Ratchet>

  /** `sender_data` and `to_verifiable_content` */
  function Unprotect(c: Codecs, crypto: Crypto, m: PrivateMessage, senderSecret: Bytes, tree: SecretTree,
                     context: Bytes): Option<Verifiable> {
    var data := OpenSenderData(crypto, m, senderSecret);
    if data.None? then None else
    var ratchet := tree(data.value.leaf, SecretFor(m.contentType), data.value.generation);
    if ratchet.None? then None else
    var content := Decrypt(c, crypto, m, ratchet.value.key, Guarded(ratchet.value.nonce, data.value.guard));
    if content.None? then None else
    Some(Verifiable(PrivateMessageFormat,
                    Content(m.group, m.epoch, Member(data.value.leaf), m.aad, content.value.0),
                    Some(context), content.value.1))
  }

  lemma SenderDataOpens(c: Codecs, crypto: Crypto, a: Authenticated, generation: U32, ratchet: Ratchet,
                        guard: ReuseGuard,
                        senderSecret: Bytes, padding: nat)
    requires crypto.Lawful() && Protect(c, crypto, a, generation, ratchet, guard, senderSecret, padding).Message?
    ensures var m := Protect(c, crypto, a, generation, ratchet, guard, senderSecret, padding).message;
            OpenSenderData(crypto, m, senderSecret) == Some(SenderData(a.content.sender.leaf, generation, guard))
  {
    SenderDataRoundTrip(SenderData(a.content.sender.leaf, generation, guard));
  }

  lemma ReadAuthIsTagged(b: Bytes, t: ContentType)
    ensures ReadAuth(b, t).Some? ==> (ReadAuth(b, t).value.0.confirmationTag.Some? <==> t == IsCommit)
  {
  }

  /**
   A protected content is recovered, with its sender, authentication data and additional data, by every receiver
   that has the same ratchet secret, exactly if a confirmation tag is present just for commits.
   */
  lemma PrivateRoundTrip(c: Codecs, crypto: Crypto, a: Authenticated, generation: U32, ratchet: Ratchet,
                         guard: ReuseGuard,
                         senderSecret: Bytes, padding: nat, tree: SecretTree, context: Bytes)
    requires c.Lawful() && crypto.Lawful()
    requires Protect(c, crypto, a, generation, ratchet, guard, senderSecret, padding).Message?
    requires tree(a.content.sender.leaf, if a.content.body.Application? then ApplicationSecret else HandshakeSecret,
                  generation) == Some(ratchet)
    ensures var m := Protect(c, crypto, a, generation, ratchet, guard, senderSecret, padding).message;
            Unprotect(c, crypto, m, senderSecret, tree, context)
            == Some(Verifiable(PrivateMessageFormat, a.content, Some(context), a.auth))
            <==> (a.auth.confirmationTag.Some? <==> a.content.body.Commit?)
  {
    var m := Protect(c, crypto, a, generation, ratchet, guard, senderSecret, padding).message;
    SenderDataOpens(c, crypto, a, generation, ratchet, guard, senderSecret, padding);
    var plaintext := WritePadded(c, a.content.body, a.auth, padding, crypto.mac).value;
    assert Decrypt(c, crypto, m, ratchet.key, Guarded(ratchet.nonce, guard)) == ReadPadded(c, plaintext, m.contentType);
    if a.auth.confirmationTag.Some? <==> a.content.body.Commit? {
      PaddedRoundTrip(c, a.content.body, a.auth, padding, crypto.mac);
    } else if ReadBody(c, plaintext, m.contentType).Some? {
      ReadAuthIsTagged(ReadBody(c, plaintext, m.contentType).value.1, m.contentType);
    }
  }

  /** With a positive padding size, the ciphertext has the least length that is a multiple of it. */
  lemma CiphertextLength(c: Codecs, crypto: Crypto, a: Authenticated, generation: U32, ratchet: Ratchet,
                         guard: ReuseGuard,
                         senderSecret: Bytes, padding: nat, other: nat)
    requires c.Lawful() && crypto.Lawful() && padding > 0
    requires Protect(c, crypto, a, generation, ratchet, guard, senderSecret, padding).Message?
    ensures var m := Protect(c, crypto, a, generation, ratchet, guard, senderSecret, padding).message;
            var needed := PlaintextLength(c, a.content.body, a.auth) + crypto.mac;
            && needed <= |m.ciphertext| && |m.ciphertext| % padding == 0
            && (needed <= other && other % padding == 0 ==> |m.ciphertext| <= other)
  {
    PaddedLength(c, a.content.body, a.auth, padding, crypto.mac);
    PaddingIsLeast(PlaintextLength(c, a.content.body, a.auth), padding, crypto.mac, other);
  }

  /** A signed private message verifies at every receiver that has the ratchet secret and the group context. */
  lemma PrivateVerifies(c: Codecs, crypto: Crypto, scheme: Scheme, secret: Bytes, aad: Bytes, sender: Sender,
                        body: Body,
                        g: GroupContext, a: Authenticated, generation: U32, ratchet: Ratchet, guard: ReuseGuard,
                        senderSecret: Bytes, padding: nat, tree: SecretTree)
    requires c.Lawful() && crypto.Lawful() && scheme.Lawful()
    requires var signed := NewAndSign(c, scheme, secret, PrivateMessageFormat, aad, sender, body, g);
             && signed.Some? && a.wireFormat == signed.value.wireFormat && a.content == signed.value.content
             && a.auth.signature == signed.value.auth.signature && (a.auth.confirmationTag.Some? <==> body.Commit?)
    requires Protect(c, crypto, a, generation, ratchet, guard, senderSecret, padding).Message? && g.serialized.Some?
    requires tree(a.content.sender.leaf, if a.content.body.Application? then ApplicationSecret else HandshakeSecret,
                  generation) == Some(ratchet)
    ensures var m := Protect(c, crypto, a, generation, ratchet, guard, senderSecret, padding).message;
            var v := Unprotect(c, crypto, m, senderSecret, tree, g.serialized.value);
            && v.Some? && v.value.content == Content(g.group, g.epoch, sender, aad, body) && v.value.auth == a.auth
            && Verifies(c, scheme, scheme.publicKey(secret), v.value)
  {
    PrivateRoundTrip(c, crypto, a, generation, ratchet, guard, senderSecret, padding, tree, g.serialized.value);
    SignedVerifies(c, scheme, secret, PrivateMessageFormat, a.content, g.serialized,
                   Verifiable(PrivateMessageFormat, a.content, g.serialized, a.auth));
  }
}
