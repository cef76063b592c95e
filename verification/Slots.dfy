/**
 The slot table that every active client keeps for a group (`known_members`), as values:
 who is active, who may commit, how a commit changes the table and who is drawn to commit next.
 The random generator is a parameter: any function of its seed and of the ranges asked of it so far.
 */
module Slots {

  import opened Basics

  type Name = string

  /** The content of a free slot. */
  const NOBODY: Name := ""

  datatype Policy = Random | First | Last

  /** `OrchestratedParameters`: the first `committers` of the `processers` slots may commit. */
  datatype Parameters = Parameters(committers: nat, processers: nat, policy: Policy) {
    predicate Valid() {
      1 <= committers <= processers
    }
  }

  function Min(a: nat, b: nat): nat {
    if a <= b then a else b
  }

  // ---------------------------------------------------------------- the generator

  /** A deterministic generator: its seed, and the ranges it has been asked for since. */
  datatype Rng = Rng(seed: Bytes, asked: seq<(nat, nat)>)

  type DrawFn = (Rng, nat, nat) -> nat

  ghost predicate InRange(d: DrawFn) {
    forall r: Rng, lo: nat, hi: nat :: lo < hi ==> lo <= d(r, lo, hi) < hi
  }

  /** `gen_range(lo..hi)`: unknown, but determined by the generator's state and within the range. */
  type Draw = d: DrawFn | InRange(d) witness (r: Rng, lo: nat, hi: nat) => lo

  /** The first 32 bytes of the transcript hash, padded with zeros. */
  function SeedArray(hash: Bytes): (seed: Bytes)
    ensures |seed| == 32
    ensures forall i | 0 <= i < 32 :: seed[i] == if i < |hash| then hash[i] else 0
  {
    seq(32, i => if 0 <= i < |hash| then hash[i] else 0)
  }

  // ---------------------------------------------------------------- the table

  /** The number of occupied slots. */
  function Filled(slots: seq<Name>): (k: nat)
    ensures k <= |slots|
  {
    if slots == [] then 0 else (if slots[0] != NOBODY then 1 else 0) + Filled(slots[1..])
  }

  ghost predicate Distinct(names: seq<Name>) {
    forall i | 0 <= i < |names| :: names[i] !in names[..i]
  }

  lemma DistinctPair(names: seq<Name>, i: nat, j: nat)
    requires Distinct(names) && i < j < |names|
    ensures names[i] != names[j]
  {
    assert names[..j][i] == names[i];
  }

  /** The first k slots hold distinct names and the others are free. */
  ghost predicate Packed(slots: seq<Name>, k: nat) {
    && k <= |slots|
    && (forall i | 0 <= i < k :: slots[i] != NOBODY)
    && (forall i | k <= i < |slots| :: slots[i] == NOBODY)
    && Distinct(slots[..k])
  }

  ghost function Active(slots: seq<Name>): set<Name> {
    set x | x in slots && x != NOBODY
  }

  function Named(names: seq<Name>): set<Name> {
    set x | x in names
  }

  lemma NamedSplit(names: seq<Name>)
    requires names != []
    ensures Named(names) == {names[0]} + Named(names[1..])
  {
  }

  /** The state that every operation keeps: the right length, and packed. */
  ghost predicate Table(p: Parameters, slots: seq<Name>) {
    p.Valid() && |slots| == p.processers && Packed(slots, Filled(slots))
  }

  lemma {:induction false} FilledWhenPacked(slots: seq<Name>, k: nat)
    requires Packed(slots, k)
    ensures Filled(slots) == k
  {
    if slots == [] {
    } else if k == 0 {
      FilledWhenPacked(slots[1..], 0);
    } else {
      assert slots[1..][..k - 1] == slots[..k][1..];
      FilledWhenPacked(slots[1..], k - 1);
    }
  }

  lemma ActiveCount(slots: seq<Name>, k: nat)
    requires Packed(slots, k)
    ensures |Active(slots)| == k
  {
    assert Active(slots) == Named(slots[..k]);
    DistinctCount(slots[..k]);
  }

  lemma {:induction false} DistinctCount(names: seq<Name>)
    requires Distinct(names)
    ensures |Named(names)| == |names|
  {
    if names != [] {
      DistinctCount(names[1..]);
      NamedSplit(names);
    }
  }

  // ---------------------------------------------------------------- additions

  /** The slot drawn for a new member, and the generator afterwards. */
  function Sample(p: Parameters, draw: Draw, rng: Rng, total: nat): (nat, Rng)
    requires total >= 1
  {
    match p.policy
    case First =>
      var lo := Min(p.committers, total - 1);
      (draw(rng, lo, total), Rng(rng.seed, rng.asked + [(lo, total)]))
    case Last => (0, rng)
    case Random => (draw(rng, 0, total), Rng(rng.seed, rng.asked + [(0, total)]))
  }

  /** One step of the reservoir: where a new member goes for a given sample. */
  function AddOne(p: Parameters, slots: seq<Name>, name: Name, sample: nat): (next: seq<Name>)
    requires p.Valid() && |slots| == p.processers
    ensures |next| == |slots|
  {
    var k := Filled(slots);
    if k < p.committers then
      slots[k := name]
    else if sample < p.processers then
      var moved := if slots[sample] != NOBODY && k < p.processers then slots[k := slots[sample]] else slots;
      moved[Min(k, sample) := name]
    else
      slots
  }

  /** The additions of one commit, in order, all against the same member count. */
  function AddAll(p: Parameters, draw: Draw, rng: Rng, slots: seq<Name>, total: nat, names: seq<Name>)
    : (r: (seq<Name>, Rng))
    requires p.Valid() && |slots| == p.processers && total >= 1
    ensures |r.0| == |slots|
    decreases |names|
  {
    if names == [] then
      (slots, rng)
    else
      var (sample, after) := Sample(p, draw, rng, total);
      AddAll(p, draw, after, AddOne(p, slots, names[0], sample), total, names[1..])
  }

  function Resize(slots: seq<Name>, n: nat): (r: seq<Name>)
    ensures |r| == n
  {
    if n <= |slots| then slots[..n] else slots + seq(n - |slots|, _ => NOBODY)
  }

  function Retain(slots: seq<Name>, gone: seq<Name>): (r: seq<Name>)
    ensures |r| <= |slots|
  {
    if slots == [] then []
    else (if slots[0] in gone then [] else [slots[0]]) + Retain(slots[1..], gone)
  }

  /** `remove_members` for an active replica. */
  function RemoveAll(slots: seq<Name>, gone: seq<Name>): (r: seq<Name>)
    ensures |r| == |slots|
  {
    Resize(Retain(slots, gone), |slots|)
  }

  // ---------------------------------------------------------------- the draw of the next committer

  /** The n-th draw of the reroll loop (0 is the first draw). */
  function Roll(draw: Draw, rng: Rng, range: nat, n: nat): (who: nat)
    requires range >= 1
    ensures who < range
  {
    draw(Rng(rng.seed, rng.asked + seq(n, _ => (0, range))), 0, range)
  }

  /** The loop stops on a slot unless several members are new and the slot holds one of them. */
  predicate Acceptable(slots: seq<Name>, names: seq<Name>, who: nat)
    requires who < |slots|
  {
    |names| > 1 ==> slots[who] !in names
  }

  /** The draws the loop is made of stop after n rerolls, and not before. */
  ghost predicate StopsAt(draw: Draw, rng: Rng, range: nat, slots: seq<Name>, names: seq<Name>, n: nat)
    requires 1 <= range <= |slots|
  {
    && Acceptable(slots, names, Roll(draw, rng, range, n))
    && forall m: nat | m < n :: !Acceptable(slots, names, Roll(draw, rng, range, m))
  }

  /** The reroll loop ends. */
  ghost predicate Settles(draw: Draw, rng: Rng, range: nat, slots: seq<Name>, names: seq<Name>)
    requires 1 <= range <= |slots|
  {
    exists n: nat :: Acceptable(slots, names, Roll(draw, rng, range, n))
  }

  /** How often the loop rerolls. */
  ghost function Rerolls(draw: Draw, rng: Rng, range: nat, slots: seq<Name>, names: seq<Name>): (n: nat)
    requires 1 <= range <= |slots|
    requires Settles(draw, rng, range, slots, names)
    ensures StopsAt(draw, rng, range, slots, names, n)
  {
    StopsExists(draw, rng, range, slots, names);
    var n: nat :| StopsAt(draw, rng, range, slots, names, n);
    n
  }

  lemma StopsExists(draw: Draw, rng: Rng, range: nat, slots: seq<Name>, names: seq<Name>)
    requires 1 <= range <= |slots|
    requires Settles(draw, rng, range, slots, names)
    ensures exists n: nat :: StopsAt(draw, rng, range, slots, names, n)
  {
    var bound: nat :| Acceptable(slots, names, Roll(draw, rng, range, bound));
    var n := 0;
    while !Acceptable(slots, names, Roll(draw, rng, range, n))
      invariant n <= bound
      invariant forall m: nat | m < n :: !Acceptable(slots, names, Roll(draw, rng, range, m))
      decreases bound - n
    {
      n := n + 1;
    }
    assert StopsAt(draw, rng, range, slots, names, n);
  }

  // ---------------------------------------------------------------- the reaction to a commit

  datatype NextAction = Inactive | Listen | Commit

  /** `iter().position(|x| x == name)` */
  function FirstIndex(slots: seq<Name>, name: Name): (i: nat)
    requires name in slots
    ensures i < |slots| && slots[i] == name && name !in slots[..i]
  {
    if slots[0] == name then 0
    else
      assert slots[..1 + FirstIndex(slots[1..], name)] == [slots[0]] + slots[1..][..FirstIndex(slots[1..], name)];
      1 + FirstIndex(slots[1..], name)
  }

  /** The number of new members other than `me`. */
  function Others(names: seq<Name>, me: Name): (n: nat)
    ensures n <= |names|
  {
    if names == [] then 0 else (if names[0] != me then 1 else 0) + Others(names[1..], me)
  }

  /** The table after a commit's additions, and the generator with which the next committer is drawn. */
  function Grown(p: Parameters, draw: Draw, slots: seq<Name>, hash: Bytes, total: nat, names: seq<Name>)
    : (r: (seq<Name>, Rng))
    requires p.Valid() && |slots| == p.processers && total >= 1
    ensures |r.0| == |slots|
  {
    AddAll(p, draw, Rng(SeedArray(hash), []), slots, total, names)
  }

  /** The draw of the next committer comes to an end. */
  ghost predicate Elects(p: Parameters, draw: Draw, slots: seq<Name>, hash: Bytes, total: nat, names: seq<Name>)
    requires p.Valid() && |slots| == p.processers && total >= 1
  {
    var (next, rng) := Grown(p, draw, slots, hash, total, names);
    Settles(draw, rng, Min(p.committers, total), next, names)
  }

  /** The slot that is drawn. */
  ghost function Elected(p: Parameters, draw: Draw, slots: seq<Name>, hash: Bytes, total: nat, names: seq<Name>)
    : (who: nat)
    requires p.Valid() && |slots| == p.processers && total >= 1
    requires Elects(p, draw, slots, hash, total, names)
    ensures who < Min(p.committers, total)
  {
    var (next, rng) := Grown(p, draw, slots, hash, total, names);
    var range := Min(p.committers, total);
    Roll(draw, rng, range, Rerolls(draw, rng, range, next, names))
  }

  /** The state of a replica after a commit, and what it does next. */
  datatype Reaction = Reaction(slots: seq<Name>, pending: nat, action: NextAction)

  ghost function React(p: Parameters, draw: Draw, me: Name, slots: seq<Name>, pending: nat,
                       hash: Bytes, total: nat, names: seq<Name>): Reaction
    requires p.Valid() && |slots| == p.processers && total >= 1
    requires me in Grown(p, draw, slots, hash, total, names).0 ==> Elects(p, draw, slots, hash, total, names)
  {
    var next := Grown(p, draw, slots, hash, total, names).0;
    if me !in next then
      Reaction(next, pending, Inactive)
    else if FirstIndex(next, me) == Elected(p, draw, slots, hash, total, names) then
      var n := Others(names, me);
      Reaction(next, n, if n == 0 then Commit else Listen)
    else
      Reaction(next, pending, Listen)
  }
}
