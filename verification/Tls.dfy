/**
 The TLS presentation language as the messages use it: big-endian integers and byte vectors with the
 variable-size length header of section 2.1.2 of RFC 9420. Writers can fail; readers return what is left.
 */
module Tls {
  import opened Basics

  /** What was read, and the bytes after it. */
  type Read<T> = Option<(T, Bytes)>

  function Join(a: Option<Bytes>, b: Option<Bytes>): Option<Bytes> {
    if a.None? || b.None? then None else Some(a.value + b.value)
  }

  // ---------------------------------------------------------------- integers

  function Pow256(n: nat): (p: nat)
    ensures p >= 1
  {
    if n == 0 then 1 else 256 * Pow256(n - 1)
  }

  function BigEndian(x: nat, n: nat): (r: Bytes)
    ensures |r| == n
  {
    if n == 0 then [] else BigEndian(x / 256, n - 1) + [x % 256]
  }

  function Value(b: Bytes): nat {
    if b == [] then 0 else 256 * Value(b[..|b| - 1]) + b[|b| - 1]
  }

  lemma {:induction false} ValueOfBigEndian(x: nat, n: nat)
    requires x < Pow256(n)
    ensures Value(BigEndian(x, n)) == x
  {
    if n > 0 {
      ValueOfBigEndian(x / 256, n - 1);
      assert BigEndian(x, n)[..n - 1] == BigEndian(x / 256, n - 1);
    }
  }

  function Take(b: Bytes, n: nat): Read<Bytes> {
    if |b| < n then None else Some((b[..n], b[n..]))
  }

  function ReadInt(b: Bytes, n: nat): Read<nat> {
    if |b| < n then None else Some((Value(b[..n]), b[n..]))
  }

  lemma IntRoundTrip(x: nat, n: nat, rest: Bytes)
    requires x < Pow256(n)
    ensures ReadInt(BigEndian(x, n) + rest, n) == Some((x, rest))
  {
    ValueOfBigEndian(x, n);
    assert (BigEndian(x, n) + rest)[..n] == BigEndian(x, n);
    assert (BigEndian(x, n) + rest)[n..] == rest;
  }

  lemma Powers()
    ensures Pow256(1) == 0x100 && Pow256(2) == 0x1_0000 && Pow256(4) == 0x1_0000_0000
    ensures Pow256(8) == 0x1_0000_0000_0000_0000
  {
    assert Pow256(3) == 256 * Pow256(2);
    assert Pow256(5) == 256 * Pow256(4);
    assert Pow256(6) == 256 * Pow256(5);
    assert Pow256(7) == 256 * Pow256(6);
  }

  // ---------------------------------------------------------------- length headers

  const MAX_LENGTH: nat := 0x4000_0000

  /** How many bytes the header of a vector of this length has. */
  function HeaderSize(n: nat): nat {
    if n < 0x40 then 1 else if n < 0x4000 then 2 else 4
  }

  function WriteLength(n: nat): Option<Bytes> {
    if n < 0x40 then Some(BigEndian(n, 1))
    else if n < 0x4000 then Some(BigEndian(0x4000 + n, 2))
    else if n < MAX_LENGTH then Some(BigEndian(0x8000_0000 + n, 4))
    else None
  }

  /** The two highest bits give the size of the header; only the shortest header is accepted. */
  function ReadLength(b: Bytes): Read<nat> {
    if b == [] then None
    else if b[0] < 0x40 then Some((b[0], b[1..]))
    else if b[0] < 0x80 then
      var header := ReadInt(b, 2);
      if header.None? || header.value.0 < 0x4000 + 0x40 then None else Some((header.value.0 - 0x4000, header.value.1))
    else if b[0] < 0xc0 then
      var header := ReadInt(b, 4);
      if header.None? || header.value.0 < 0x8000_0000 + 0x4000 then None
      else Some((header.value.0 - 0x8000_0000, header.value.1))
    else None
  }

  /** The first byte of a big-endian integer holds its highest bits. */
  lemma FirstByte2(x: nat)
    requires x < 0x1_0000
    ensures BigEndian(x, 2)[0] == x / 0x100
  {
    assert BigEndian(x, 2) == BigEndian(x / 256, 1) + [x % 256];
    assert BigEndian(x / 256, 1) == BigEndian(x / 256 / 256, 0) + [x / 256 % 256];
  }

  lemma FirstByte4(x: nat)
    requires x < 0x1_0000_0000
    ensures BigEndian(x, 4)[0] == x / 0x100_0000
  {
    assert BigEndian(x, 4) == BigEndian(x / 256, 3) + [x % 256];
    assert BigEndian(x / 256, 3) == BigEndian(x / 256 / 256, 2) + [x / 256 % 256];
    FirstByte2(x / 256 / 256);
  }

  lemma LengthRoundTrip(n: nat, rest: Bytes)
    requires n < MAX_LENGTH
    ensures WriteLength(n).Some? && |WriteLength(n).value| == HeaderSize(n)
    ensures ReadLength(WriteLength(n).value + rest) == Some((n, rest))
  {
    var b := WriteLength(n).value + rest;
    Powers();
    if n < 0x40 {
      assert BigEndian(n, 1) == BigEndian(n / 256, 0) + [n % 256];
      assert b[1..] == rest;
    } else if n < 0x4000 {
      FirstByte2(0x4000 + n);
      IntRoundTrip(0x4000 + n, 2, rest);
    } else {
      FirstByte4(0x8000_0000 + n);
      IntRoundTrip(0x8000_0000 + n, 4, rest);
    }
  }

  // ---------------------------------------------------------------- byte vectors

  function WriteVector(x: Bytes): Option<Bytes> {
    Join(WriteLength(|x|), Some(x))
  }

  function ReadVector(b: Bytes): Read<Bytes> {
    var header := ReadLength(b);
    if header.None? then None else Take(header.value.1, header.value.0)
  }

  function VectorSize(x: Bytes): nat {
    HeaderSize(|x|) + |x|
  }

  lemma VectorRoundTrip(x: Bytes, rest: Bytes)
    requires WriteVector(x).Some?
    ensures ReadVector(WriteVector(x).value + rest) == Some((x, rest))
    ensures |WriteVector(x).value| == VectorSize(x)
  {
    var header := WriteLength(|x|).value;
    LengthRoundTrip(|x|, x + rest);
    assert WriteVector(x).value + rest == header + (x + rest);
    assert (x + rest)[..|x|] == x && (x + rest)[|x|..] == rest;
  }

  // ---------------------------------------------------------------- vectors of elements

  function WriteAll<T>(write: T -> Option<Bytes>, list: seq<T>): Option<Bytes> {
    if list == [] then Some([]) else Join(write(list[0]), WriteAll(write, list[1..]))
  }

  function TotalSize<T>(size: T -> nat, list: seq<T>): nat {
    if list == [] then 0 else size(list[0]) + TotalSize(size, list[1..])
  }

  /** Elements are read until their declared sizes reach the length in the header. */
  function ReadAll<T(!new)>(read: Bytes -> Read<T>, size: T -> nat, b: Bytes, left: int): Read<seq<T>>
    requires forall x :: size(x) > 0
    decreases if left > 0 then left else 0
  {
    if left <= 0 then Some(([], b))
    else
      var first := read(b);
      if first.None? then None
      else
        var others := ReadAll(read, size, first.value.1, left - size(first.value.0));
        if others.None? then None else Some(([first.value.0] + others.value.0, others.value.1))
  }

  /** Elements that are read back one by one are read back as a vector. */
  lemma {:induction false} AllRoundTrip<T(!new)>(write: T -> Option<Bytes>, read: Bytes -> Read<T>, size: T -> nat,
                                                 list: seq<T>, rest: Bytes)
    requires forall x :: size(x) > 0
    requires WriteAll(write, list).Some?
    requires forall x, more | x in list && write(x).Some? :: read(write(x).value + more) == Some((x, more))
    ensures ReadAll(read, size, WriteAll(write, list).value + rest, TotalSize(size, list)) == Some((list, rest))
  {
    if list == [] {
      assert [] + rest == rest;
    } else {
      var first, others := write(list[0]).value, WriteAll(write, list[1..]).value;
      assert (first + others) + rest == first + (others + rest);
      assert list[0] in list;
      AllRoundTrip(write, read, size, list[1..], rest);
      assert list == [list[0]] + list[1..];
    }
  }
}
