/**
 Readers accept exactly what writers write: one encoding for each value, and everything else is refused. The codecs of
 proposals and commits are assumed to be so.
 */
module Canonical {
  import opened Basics
  import opened Tls
  import opened Framing
  import opened PrivateMessages

  // ---------------------------------------------------------------- integers and vectors

  lemma {:induction false} EndianOfValue(b: Bytes)
    ensures Value(b) < Pow256(|b|) && BigEndian(Value(b), |b|) == b
  {
    if b != [] {
      var front, last := b[..|b| - 1], b[|b| - 1];
      EndianOfValue(front);
      assert (256 * Value(front) + last) / 256 == Value(front) && (256 * Value(front) + last) % 256 == last;
      assert b == front + [last];
    }
  }

  /** Every n bytes are an integer. */
  lemma IntExactly(b: Bytes, n: nat)
    requires |b| >= n
    ensures ReadInt(b, n).Some?
    ensures var (x, rest) := ReadInt(b, n).value; x < Pow256(n) && b == BigEndian(x, n) + rest
  {
    EndianOfValue(b[..n]);
    assert b == b[..n] + b[n..];
  }

  lemma TwoBytes(b: Bytes)
    requires |b| == 2
    ensures Value(b) == 0x100 * (b[0] as nat) + (b[1] as nat)
  {
    assert b[..1] == [b[0]] && b[..1][..0] == [];
    assert Value([b[0]]) == b[0];
  }

  lemma FourBytes(b: Bytes)
    requires |b| == 4
    ensures Value(b) == 0x1_0000 * Value(b[..2]) + 0x100 * (b[2] as nat) + (b[3] as nat)
  {
    assert b[..3][..2] == b[..2] && b[..3][2] == b[2];
    assert Value(b[..3]) == 256 * Value(b[..2]) + b[2];
  }

  /** Only the shortest header of a length is read. */
  lemma LengthIsShortest(b: Bytes)
    requires ReadLength(b).Some?
    ensures var (n, rest) := ReadLength(b).value;
            n < MAX_LENGTH && WriteLength(n).Some? && b == WriteLength(n).value + rest
  {
    Powers();
    var (n, rest) := ReadLength(b).value;
    if b[0] < 0x40 {
      assert BigEndian(n, 1) == BigEndian(n / 256, 0) + [n % 256];
      assert b == [n] + rest;
    } else if b[0] < 0x80 {
      IntExactly(b, 2);
      TwoBytes(b[..2]);
    } else {
      IntExactly(b, 4);
      FourBytes(b[..4]);
      assert b[..4][..2] == b[..2];
      TwoBytes(b[..2]);
    }
  }

  lemma LengthExactly(b: Bytes, n: nat, rest: Bytes)
    ensures ReadLength(b) == Some((n, rest)) <==> n < MAX_LENGTH && b == WriteLength(n).value + rest
  {
    if ReadLength(b) == Some((n, rest)) {
      LengthIsShortest(b);
    } else if n < MAX_LENGTH {
      LengthRoundTrip(n, rest);
    }
  }

  lemma VectorIsShortest(b: Bytes)
    requires ReadVector(b).Some?
    ensures var (x, rest) := ReadVector(b).value; WriteVector(x).Some? && b == WriteVector(x).value + rest
  {
    LengthIsShortest(b);
    var (n, more) := ReadLength(b).value;
    var (x, rest) := ReadVector(b).value;
    assert more == x + rest;
    assert WriteLength(n).value + (x + rest) == (WriteLength(n).value + x) + rest;
  }

  /** A vector is read exactly if it is encoded with the shortest header. */
  lemma VectorExactly(b: Bytes, x: Bytes, rest: Bytes)
    ensures ReadVector(b) == Some((x, rest)) <==> WriteVector(x).Some? && b == WriteVector(x).value + rest
  {
    if ReadVector(b) == Some((x, rest)) {
      VectorIsShortest(b);
    } else if WriteVector(x).Some? {
      VectorRoundTrip(x, rest);
    }
  }

  // ---------------------------------------------------------------- contents

  lemma SenderIsWritten(b: Bytes)
    requires ReadSender(b).Some?
    ensures var (s, rest) := ReadSender(b).value; b == WriteSender(s).value + rest
  {
    if b[0] == 1 || b[0] == 2 {
      IntExactly(b[1..], 4);
      var (i, rest) := ReadInt(b[1..], 4).value;
      assert b == [b[0]] + b[1..];
      assert [b[0]] + (BigEndian(i, 4) + rest) == ([b[0]] + BigEndian(i, 4)) + rest;
    } else {
      assert b == [b[0]] + b[1..];
    }
  }

  lemma BodyIsWritten(c: Codecs, b: Bytes, t: ContentType)
    requires c.Canonical() && ReadBody(c, b, t).Some?
    ensures var (body, rest) := ReadBody(c, b, t).value;
            body.Type() == t && WriteBody(c, body).Some? && b == WriteBody(c, body).value + rest
  {
    match t
    case IsApplication => VectorIsShortest(b);
    case IsProposal => assert c.proposal.read(b).Some?;
    case IsCommit => assert c.commit.read(b).Some?;
  }

  lemma TypedIsWritten(c: Codecs, b: Bytes)
    requires c.Canonical() && ReadTyped(c, b).Some?
    ensures var (body, rest) := ReadTyped(c, b).value;
            WriteTyped(c, body).Some? && b == WriteTyped(c, body).value + rest
  {
    var (t, more) := ReadType(b).value;
    BodyIsWritten(c, more, t);
    var (body, rest) := ReadBody(c, more, t).value;
    assert b == [TypeByte(t)] + more;
    assert [TypeByte(t)] + (WriteBody(c, body).value + rest) == ([TypeByte(t)] + WriteBody(c, body).value) + rest;
  }

  lemma ContentIsWritten(c: Codecs, b: Bytes)
    requires c.Canonical() && ReadContent(c, b).Some?
    ensures var (x, rest) := ReadContent(c, b).value; WriteContent(c, x).Some? && b == WriteContent(c, x).value + rest
  {
    var (x, rest) := ReadContent(c, b).value;
    var b1, b2, b3, b4 := ContentParts(c, b, x, rest);
    FiveParts(b, WriteVector(x.group).value, b1, BigEndian(x.epoch, 8), b2, WriteSender(x.sender).value, b3,
              WriteVector(x.aad).value, b4, WriteTyped(c, x.body).value, rest);
  }

  lemma ContentParts(c: Codecs, b: Bytes, x: Content, rest: Bytes) returns (b1: Bytes, b2: Bytes, b3: Bytes, b4: Bytes)
    requires c.Canonical() && ReadContent(c, b) == Some((x, rest))
    ensures WriteVector(x.group).Some? && b == WriteVector(x.group).value + b1 && b1 == BigEndian(x.epoch, 8) + b2
    ensures b2 == WriteSender(x.sender).value + b3
    ensures WriteVector(x.aad).Some? && b3 == WriteVector(x.aad).value + b4
    ensures WriteTyped(c, x.body).Some? && b4 == WriteTyped(c, x.body).value + rest
  {
    b1 := ReadVector(b).value.1;
    b2 := ReadInt(b1, 8).value.1;
    b3 := ReadSender(b2).value.1;
    b4 := ReadVector(b3).value.1;
    VectorIsShortest(b);
    IntExactly(b1, 8);
    SenderIsWritten(b2);
    VectorIsShortest(b3);
    TypedIsWritten(c, b4);
  }

  lemma FiveParts(b: Bytes, p1: Bytes, b1: Bytes, p2: Bytes, b2: Bytes, p3: Bytes, b3: Bytes, p4: Bytes, b4: Bytes,
                  p5: Bytes, rest: Bytes)
    requires b == p1 + b1 && b1 == p2 + b2 && b2 == p3 + b3 && b3 == p4 + b4 && b4 == p5 + rest
    ensures b == (p1 + (p2 + (p3 + (p4 + p5)))) + rest
  {
    Regroup(p1, p2, p3, p4, p5, rest);
  }

  lemma TagIsWritten(b: Bytes, present: bool)
    requires ReadTag(b, present).Some?
    ensures var (tag, rest) := ReadTag(b, present).value;
            (tag.Some? <==> present) && WriteTag(tag).Some? && b == WriteTag(tag).value + rest
  {
    if present {
      VectorIsShortest(b);
    } else {
      assert b == [] + b;
    }
  }

  lemma AuthIsWritten(b: Bytes, t: ContentType)
    requires ReadAuth(b, t).Some?
    ensures var (a, rest) := ReadAuth(b, t).value;
            (a.confirmationTag.Some? <==> t == IsCommit) && WriteAuth(a).Some? && b == WriteAuth(a).value + rest
  {
    var (a, rest) := ReadAuth(b, t).value;
    var more := ReadVector(b).value.1;
    VectorIsShortest(b);
    TagIsWritten(more, t == IsCommit);
    TwoParts(b, WriteVector(a.signature).value, more, WriteTag(a.confirmationTag).value, rest);
  }

  lemma TwoParts(b: Bytes, p1: Bytes, b1: Bytes, p2: Bytes, rest: Bytes)
    requires b == p1 + b1 && b1 == p2 + rest
    ensures b == (p1 + p2) + rest
  {
  }

  lemma PublicIsWritten(c: Codecs, b: Bytes, m: PublicMessage, rest: Bytes)
    requires c.Canonical() && ReadPublic(c, b) == Some((m, rest))
    ensures WellTagged(m) && WritePublic(c, m).Some? && b == WritePublic(c, m).value + rest
  {
    var b1, b2 := PublicParts(c, b, m, rest);
    ThreeParts(b, WriteContent(c, m.content).value, b1, WriteAuth(m.auth).value, b2, WriteTag(m.membershipTag).value,
               rest);
  }

  lemma PublicParts(c: Codecs, b: Bytes, m: PublicMessage, rest: Bytes) returns (b1: Bytes, b2: Bytes)
    requires c.Canonical() && ReadPublic(c, b) == Some((m, rest))
    ensures WriteContent(c, m.content).Some? && b == WriteContent(c, m.content).value + b1
    ensures WriteAuth(m.auth).Some? && b1 == WriteAuth(m.auth).value + b2
    ensures WriteTag(m.membershipTag).Some? && b2 == WriteTag(m.membershipTag).value + rest
    ensures WellTagged(m)
  {
    b1 := ReadContent(c, b).value.1;
    b2 := ReadAuth(b1, m.content.body.Type()).value.1;
    ContentIsWritten(c, b);
    AuthIsWritten(b1, m.content.body.Type());
    TagIsWritten(b2, m.content.sender.Member?);
  }

  lemma ThreeParts(b: Bytes, p1: Bytes, b1: Bytes, p2: Bytes, b2: Bytes, p3: Bytes, rest: Bytes)
    requires b == p1 + b1 && b1 == p2 + b2 && b2 == p3 + rest
    ensures b == (p1 + (p2 + p3)) + rest
  {
    assert p2 + (p3 + rest) == (p2 + p3) + rest;
    assert p1 + ((p2 + p3) + rest) == (p1 + (p2 + p3)) + rest;
  }

  /** Bytes are read as a public message exactly if it is well tagged and they are what is written for it. */
  lemma PublicExactly(c: Codecs, b: Bytes, m: PublicMessage, rest: Bytes)
    requires c.Lawful() && c.Canonical()
    ensures ReadPublic(c, b) == Some((m, rest))
            <==> WellTagged(m) && WritePublic(c, m).Some? && b == WritePublic(c, m).value + rest
  {
    if ReadPublic(c, b) == Some((m, rest)) {
      PublicIsWritten(c, b, m, rest);
    } else if WritePublic(c, m).Some? {
      PublicRoundTrip(c, m, rest);
    }
  }

  /** The numbers of sender types and content types (section 6 of RFC 9420). */
  lemma StandardTypes(leaf: U32)
    ensures WriteSender(Member(leaf)).value[0] == 1 && WriteSender(External(leaf)).value[0] == 2
    ensures WriteSender(NewMemberProposal).value == [3] && WriteSender(NewMemberCommit).value == [4]
    ensures TypeByte(IsApplication) == 1 && TypeByte(IsProposal) == 2 && TypeByte(IsCommit) == 3
  {
  }

  // ---------------------------------------------------------------- private messages

  /** Sender data is read from what starts with its encoding. */
  lemma SenderDataExactly(b: Bytes, d: SenderData)
    ensures ReadSenderData(b) == Some(d) <==> WriteSenderData(d) <= b
  {
    Powers();
    if ReadSenderData(b) == Some(d) {
      var b1 := ReadInt(b, 4).value.1;
      var b2 := ReadInt(b1, 4).value.1;
      IntExactly(b, 4);
      IntExactly(b1, 4);
      assert b2 == d.guard + b2[REUSE_GUARD_BYTES..];
      assert b == WriteSenderData(d) + b2[REUSE_GUARD_BYTES..];
    }
    if WriteSenderData(d) <= b {
      var rest := b[|WriteSenderData(d)|..];
      assert b == WriteSenderData(d) + rest;
      SenderDataReads(d, rest);
    }
  }

  lemma SenderDataReads(d: SenderData, rest: Bytes)
    ensures ReadSenderData(WriteSenderData(d) + rest) == Some(d)
  {
    var b := WriteSenderData(d) + rest;
    assert b == BigEndian(d.leaf, 4) + (BigEndian(d.generation, 4) + (d.guard + rest));
    Powers();
    IntRoundTrip(d.leaf, 4, BigEndian(d.generation, 4) + (d.guard + rest));
    IntRoundTrip(d.generation, 4, d.guard + rest);
    assert (d.guard + rest)[..REUSE_GUARD_BYTES] == d.guard;
  }

  /** A padded plaintext: the body, the authentication data and any number of zeros. */
  ghost predicate Pads(c: Codecs, b: Bytes, body: Body, auth: Auth, n: nat) {
    && WriteBody(c, body).Some? && WriteAuth(auth).Some?
    && b == WriteBody(c, body).value + (WriteAuth(auth).value + Zeros(n))
  }

  /** A plaintext is read exactly if nothing but zeros follows, and a confirmation tag is there just for commits. */
  lemma PaddedExactly(c: Codecs, b: Bytes, t: ContentType, body: Body, auth: Auth)
    requires c.Lawful() && c.Canonical()
    ensures ReadPadded(c, b, t) == Some((body, auth))
            <==> && body.Type() == t && (auth.confirmationTag.Some? <==> body.Commit?)
                 && exists n: nat :: Pads(c, b, body, auth, n)
  {
    if ReadPadded(c, b, t) == Some((body, auth)) {
      var more := ReadBody(c, b, t).value.1;
      var zeros := ReadAuth(more, t).value.1;
      BodyIsWritten(c, b, t);
      AuthIsWritten(more, t);
      assert zeros == Zeros(|zeros|) by {
        assert forall i | 0 <= i < |zeros| :: zeros[i] in zeros && Zeros(|zeros|)[i] in Zeros(|zeros|);
      }
      assert Pads(c, b, body, auth, |zeros|);
    } else if n: nat :| Pads(c, b, body, auth, n) {
      BodyRoundTrip(c, body, WriteAuth(auth).value + Zeros(n));
      if auth.confirmationTag.Some? <==> body.Commit? {
        AuthRoundTrip(auth, body.Type(), Zeros(n));
      }
    }
  }
}
