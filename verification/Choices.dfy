/**
 What the generator can choose. The tables and winners that a commit can lead to are exactly those of independent
 choices: one sample for each new member, from the range of the policy, and then rolls until one is acceptable.
 */
module Choices {
  import opened Basics
  import opened Slots
  import opened Reservoir

  // ---------------------------------------------------------------- one sample

  /** Where everybody stands after one addition: k slots were taken before it. */
  ghost predicate Placed(p: Parameters, slots: seq<Name>, k: nat, name: Name, sample: nat, next: seq<Name>)
    requires p.Valid() && |slots| == |next| == p.processers && k <= p.processers
  {
    if k < p.committers then
      next[k] == name && forall j | 0 <= j < |next| && j != k :: next[j] == slots[j]
    else if sample < p.processers then
      && next[Min(k, sample)] == name
      && (sample < k < p.processers ==> next[k] == slots[sample])
      && forall j | 0 <= j < |next| && j != Min(k, sample) && j != k :: next[j] == slots[j]
    else
      next == slots
  }

  lemma AddOnePlaces(p: Parameters, slots: seq<Name>, name: Name, sample: nat)
    requires Table(p, slots)
    ensures Placed(p, slots, Filled(slots), name, sample, AddOne(p, slots, name, sample))
  {
  }

  /** What can be drawn for a new member. */
  predicate MaySample(p: Parameters, total: nat, sample: nat)
    requires total >= 1
  {
    match p.policy
    case First => Min(p.committers, total - 1) <= sample < total
    case Last => sample == 0
    case Random => sample < total
  }

  predicate AllMaySample(p: Parameters, total: nat, samples: seq<nat>)
    requires total >= 1
  {
    forall i | 0 <= i < |samples| :: MaySample(p, total, samples[i])
  }

  /** The table when the samples are given. */
  function PlaceAll(p: Parameters, slots: seq<Name>, names: seq<Name>, samples: seq<nat>): (next: seq<Name>)
    requires p.Valid() && |slots| == p.processers && |names| == |samples|
    ensures |next| == |slots|
    decreases |names|
  {
    if names == [] then slots
    else PlaceAll(p, AddOne(p, slots, names[0], samples[0]), names[1..], samples[1..])
  }

  /** Under policy Random, with the committer slots taken: the draw from all members decides. */
  lemma RandomPlaces(p: Parameters, draw: Draw, rng: Rng, slots: seq<Name>, total: nat, name: Name)
    requires Table(p, slots) && p.policy.Random? && p.committers <= Filled(slots) && total >= 1
    ensures var k, d := Filled(slots), draw(rng, 0, total);
            var next := AddAll(p, draw, rng, slots, total, [name]).0;
            && (d < p.processers ==> next[Min(k, d)] == name && (d < k < p.processers ==> next[k] == slots[d]))
            && (d >= p.processers ==> next == slots)
            && forall j | 0 <= j < |next| && j != Min(k, d) && j != k :: next[j] == slots[j]
  {
    var d := draw(rng, 0, total);
    var samples := ChoicesOf(p, draw, rng, slots, total, [name]);
    assert [name][1..] == [] && samples[1..] == [];
    AddOnePlaces(p, slots, name, d);
    assert AddAll(p, draw, rng, slots, total, [name]).0 == AddOne(p, slots, name, d);
  }

  ghost predicate Lands(p: Parameters, draw: Draw, rng: Rng, slots: seq<Name>, total: nat, name: Name, j: nat)
    requires Table(p, slots) && total >= 1 && j < p.processers
  {
    AddAll(p, draw, rng, slots, total, [name]).0[j] == name
  }

  /** Under policy Random a new member can land in exactly these slots. */
  lemma RandomReaches(p: Parameters, rng: Rng, slots: seq<Name>, total: nat, name: Name, j: nat)
    requires Table(p, slots) && p.policy.Random? && total >= 1 && j < p.processers
    requires name !in slots && p.committers <= Filled(slots)
    ensures (exists draw: Draw :: Lands(p, draw, rng, slots, total, name, j)) <==> j < Min(Filled(slots) + 1, total)
  {
    if j < Min(Filled(slots) + 1, total) {
      AnyChoice(p, rng, slots, total, [name], [j], []);
      var draw: Draw :| Follows(p, draw, rng, slots, total, [name], [j], []);
      assert [name][1..] == [] && [j][1..] == [];
      AddOnePlaces(p, slots, name, j);
      assert PlaceAll(p, slots, [name], [j]) == AddOne(p, slots, name, j);
      assert Lands(p, draw, rng, slots, total, name, j);
    } else {
      forall draw: Draw ensures !Lands(p, draw, rng, slots, total, name, j) {
        RandomPlaces(p, draw, rng, slots, total, name);
        assert slots[j] in slots;
      }
    }
  }

  // ---------------------------------------------------------------- all samples

  /** Whatever the generator, it has made such choices. */
  lemma {:induction false} ChoicesOf(p: Parameters, draw: Draw, rng: Rng, slots: seq<Name>, total: nat,
                                     names: seq<Name>) returns (samples: seq<nat>)
    requires p.Valid() && |slots| == p.processers && total >= 1
    ensures |samples| == |names| && AllMaySample(p, total, samples)
    ensures AddAll(p, draw, rng, slots, total, names).0 == PlaceAll(p, slots, names, samples)
    decreases |names|
  {
    if names == [] {
      samples := [];
    } else {
      var (sample, after) := Sample(p, draw, rng, total);
      var others := ChoicesOf(p, draw, after, AddOne(p, slots, names[0], sample), total, names[1..]);
      samples := [sample] + others;
      assert samples[1..] == others;
    }
  }

  /** A generator that gives the numbers of a script, from the time on at which it was asked `from` times. */
  function Script(from: nat, script: seq<nat>): Draw {
    (r: Rng, lo: nat, hi: nat) =>
      var i := |r.asked| - from;
      if 0 <= i < |script| && lo <= script[i] < hi then script[i] else lo
  }

  /** The generator makes these choices: the samples first, and then the rolls. */
  ghost predicate Follows(p: Parameters, draw: Draw, rng: Rng, slots: seq<Name>, total: nat, names: seq<Name>,
                          samples: seq<nat>, rolls: seq<nat>)
    requires p.Valid() && |slots| == p.processers && total >= 1 && |names| == |samples|
  {
    var (next, after) := AddAll(p, draw, rng, slots, total, names);
    && next == PlaceAll(p, slots, names, samples)
    && forall i | 0 <= i < |rolls| :: Roll(draw, after, Min(p.committers, total), i) == rolls[i]
  }

  /** What is asked of the generator before the rolls. */
  function Asked(p: Parameters, samples: seq<nat>): seq<nat> {
    if p.policy.Last? then [] else samples
  }

  lemma {:induction false} ScriptFollows(p: Parameters, rng: Rng, slots: seq<Name>, total: nat, names: seq<Name>,
                                         samples: seq<nat>, rolls: seq<nat>, from: nat, script: seq<nat>)
    requires p.Valid() && |slots| == p.processers && total >= 1 && |names| == |samples|
    requires AllMaySample(p, total, samples) && forall i | 0 <= i < |rolls| :: rolls[i] < Min(p.committers, total)
    requires from <= |rng.asked| <= from + |script| && script[|rng.asked| - from..] == Asked(p, samples) + rolls
    ensures Follows(p, Script(from, script), rng, slots, total, names, samples, rolls)
    decreases |names|
  {
    var draw, here := Script(from, script), |rng.asked| - from;
    if names == [] {
      forall i | 0 <= i < |rolls| ensures Roll(draw, rng, Min(p.committers, total), i) == rolls[i] {
        assert script[here..][i] == rolls[i] == script[here + i];
      }
    } else {
      var (sample, after) := Sample(p, draw, rng, total);
      assert MaySample(p, total, samples[0]);
      if !p.policy.Last? {
        assert script[here..][0] == samples[0] == script[here];
        assert script[here + 1..] == script[here..][1..] == samples[1..] + rolls;
      }
      ScriptFollows(p, after, AddOne(p, slots, names[0], samples[0]), total, names[1..], samples[1..], rolls, from,
                    script);
    }
  }

  /** Every choice of samples and rolls is made by some generator, whatever it was asked before. */
  lemma AnyChoice(p: Parameters, rng: Rng, slots: seq<Name>, total: nat, names: seq<Name>, samples: seq<nat>,
                  rolls: seq<nat>)
    requires p.Valid() && |slots| == p.processers && total >= 1 && |names| == |samples|
    requires AllMaySample(p, total, samples) && forall i | 0 <= i < |rolls| :: rolls[i] < Min(p.committers, total)
    ensures exists draw: Draw :: Follows(p, draw, rng, slots, total, names, samples, rolls)
  {
    var script := Asked(p, samples) + rolls;
    ScriptFollows(p, rng, slots, total, names, samples, rolls, |rng.asked|, script);
  }

  // ---------------------------------------------------------------- the next committer

  /** The table after a commit, the slot that is drawn and how many rolls were not acceptable before it. */
  ghost predicate Outcome(p: Parameters, draw: Draw, slots: seq<Name>, hash: Bytes, total: nat, names: seq<Name>,
                          next: seq<Name>, who: nat, rerolls: nat)
    requires p.Valid() && |slots| == p.processers && total >= 1
  {
    var (grown, rng) := Grown(p, draw, slots, hash, total, names);
    && Elects(p, draw, slots, hash, total, names)
    && grown == next && Elected(p, draw, slots, hash, total, names) == who
    && Rerolls(draw, rng, Min(p.committers, total), grown, names) == rerolls
  }

  /** Every draw that ends was made of such choices, and falls on an acceptable committer slot. */
  lemma OutcomeIsChosen(p: Parameters, draw: Draw, slots: seq<Name>, hash: Bytes, total: nat, names: seq<Name>)
    returns (samples: seq<nat>)
    requires p.Valid() && |slots| == p.processers && total >= 1 && Elects(p, draw, slots, hash, total, names)
    ensures |samples| == |names| && AllMaySample(p, total, samples)
    ensures var who := Elected(p, draw, slots, hash, total, names);
            && Grown(p, draw, slots, hash, total, names).0 == PlaceAll(p, slots, names, samples)
            && who < Min(p.committers, total) && Acceptable(PlaceAll(p, slots, names, samples), names, who)
  {
    samples := ChoicesOf(p, draw, Rng(SeedArray(hash), []), slots, total, names);
  }

  /** And every such choice can be the outcome, after any rolls that are not acceptable. */
  lemma AnyOutcome(p: Parameters, slots: seq<Name>, hash: Bytes, total: nat, names: seq<Name>, samples: seq<nat>,
                   before: seq<nat>, who: nat)
    requires p.Valid() && |slots| == p.processers && total >= 1 && |names| == |samples|
    requires AllMaySample(p, total, samples) && who < Min(p.committers, total)
    requires Acceptable(PlaceAll(p, slots, names, samples), names, who)
    requires forall i | 0 <= i < |before| ::
               before[i] < Min(p.committers, total) && !Acceptable(PlaceAll(p, slots, names, samples), names, before[i])
    ensures exists draw: Draw ::
              Outcome(p, draw, slots, hash, total, names, PlaceAll(p, slots, names, samples), who, |before|)
  {
    var rng, rolls := Rng(SeedArray(hash), []), before + [who];
    AnyChoice(p, rng, slots, total, names, samples, rolls);
    var draw: Draw :| Follows(p, draw, rng, slots, total, names, samples, rolls);
    ChosenElects(p, draw, slots, hash, total, names, samples, before, who);
  }

  lemma ChosenElects(p: Parameters, draw: Draw, slots: seq<Name>, hash: Bytes, total: nat, names: seq<Name>,
                     samples: seq<nat>, before: seq<nat>, who: nat)
    requires p.Valid() && |slots| == p.processers && total >= 1 && |names| == |samples|
    requires Follows(p, draw, Rng(SeedArray(hash), []), slots, total, names, samples, before + [who])
    requires who < Min(p.committers, total) && Acceptable(PlaceAll(p, slots, names, samples), names, who)
    requires forall i | 0 <= i < |before| ::
               before[i] < Min(p.committers, total) && !Acceptable(PlaceAll(p, slots, names, samples), names, before[i])
    ensures Outcome(p, draw, slots, hash, total, names, PlaceAll(p, slots, names, samples), who, |before|)
  {
    var (next, rng) := Grown(p, draw, slots, hash, total, names);
    var range, rolls := Min(p.committers, total), before + [who];
    assert forall i | 0 <= i < |rolls| :: Roll(draw, rng, range, i) == rolls[i];
    assert Acceptable(next, names, Roll(draw, rng, range, |before|));
    assert Settles(draw, rng, range, next, names);
    assert forall i: nat | i < |before| :: !Acceptable(next, names, Roll(draw, rng, range, i));
  }

  // ---------------------------------------------------------------- the reaction

  /**
   A client without a slot is inactive; the one that is drawn commits, or waits for the other new members; everybody
   else listens. Whoever is not drawn keeps waiting for what it was waiting for.
   */
  lemma ReactTells(p: Parameters, draw: Draw, me: Name, slots: seq<Name>, pending: nat, hash: Bytes, total: nat,
                   names: seq<Name>)
    requires Table(p, slots) && Joinable(slots, names) && total >= 1 && me != NOBODY
    requires Elects(p, draw, slots, hash, total, names)
    ensures var next, who := Grown(p, draw, slots, hash, total, names).0, Elected(p, draw, slots, hash, total, names);
            var r := React(p, draw, me, slots, pending, hash, total, names);
            && r.slots == next && (r.action == Inactive <==> me !in next)
            && (if me in next && next[who] == me then
                  r.pending == Others(names, me) && (r.action == Commit <==> Others(names, me) == 0)
                else r.pending == pending && r.action != Commit)
  {
    var next, who := Grown(p, draw, slots, hash, total, names).0, Elected(p, draw, slots, hash, total, names);
    AddAllEffect(p, draw, Rng(SeedArray(hash), []), slots, total, names);
    if me in next && next[who] == me {
      var i := FirstIndex(next, me);
      assert who < Filled(next) && i < Filled(next);
      if i < who {
        DistinctPair(next[..Filled(next)], i, who);
      }
    }
  }
}
