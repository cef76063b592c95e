/**
 Can the draw of the next committer come to an end? The conditions of `Reservoir` for every history: under policy First
 it always can. Under policy Last with one committer slot it cannot once two members are added at a time; a run shows
 that the first commit of a group can be such a one.
 */
module Endless {
  import opened Basics
  import opened Slots
  import opened Reservoir
  import opened History
  import opened Client
  import opened Protocol

  /** The table that the removals of a commit leave. */
  ghost function Kept(m: Moment, e: Entry): seq<Name> {
    RemoveAll(m.slots, Removed(e.action))
  }

  /** Some slot that is drawn from holds no new member. */
  ghost predicate CanEnd(w: World, m: Moment, e: Entry)
    requires Accepts(w, m, e) && |Changed(m.members, e.action)| >= 1
  {
    var total := |Changed(m.members, e.action)|;
    SomeoneAcceptable(Grown(w.p, w.draw, Kept(m, e), e.hash, total, Added(e.action)).0, Added(e.action),
                      Min(w.p.committers, total))
  }

  /** The author keeps its slot, and there are at least as many members as names in the table. */
  lemma RoomLeft(w: World, m: Moment, e: Entry)
    requires Good(w, m) && Accepts(w, m, e) && e.author in m.slots
    ensures Table(w.p, Kept(m, e)) && Joinable(Kept(m, e), Added(e.action)) && 1 <= Filled(Kept(m, e))
    ensures Filled(Kept(m, e)) + |Added(e.action)| <= |Changed(m.members, e.action)|
  {
    var a, r := Named(Added(e.action)), Named(Removed(e.action));
    MayJoin(w, m, e);
    RemoveAllEffect(w.p, m.slots, Removed(e.action));
    ActiveCount(Kept(m, e), Filled(Kept(m, e)));
    DistinctCount(Added(e.action));
    assert e.author in Active(m.slots) && e.author in Active(Kept(m, e));
    Size(Active(Kept(m, e)), m.members - r);
    assert (m.members - r) !! a;
  }

  lemma Size(a: set<Name>, b: set<Name>)
    requires a <= b
    ensures |a| <= |b|
  {
    assert b == a + (b - a);
  }

  /** Under policy First, whatever a member that is drawn commits, the draw that follows can end. */
  lemma FirstAlwaysCanEnd(w: World, log: seq<Entry>, past: seq<Moment>, e: Entry)
    requires Chronicle(w, log, past) && w.p.policy.First? && Accepts(w, past[|log|], e)
    requires e.author == past[|log|].winner != NOBODY
    ensures |Changed(past[|log|].members, e.action)| >= 1 && CanEnd(w, past[|log|], e)
  {
    var m := past[|log|];
    AlwaysGood(w, log, past, |log|);
    WinnerIsActive(w, log, past, |log|);
    RoomLeft(w, m, e);
    FirstCanEnd(w.p, w.draw, Rng(SeedArray(e.hash), []), Kept(m, e), |Changed(m.members, e.action)|, Added(e.action));
  }

  /** Under policy Last, if it adds several members: exactly if an old member keeps a committer slot. */
  lemma LastSometimesCanEnd(w: World, log: seq<Entry>, past: seq<Moment>, e: Entry)
    requires Chronicle(w, log, past) && w.p.policy.Last? && Accepts(w, past[|log|], e) && |Added(e.action)| > 1
    requires e.author == past[|log|].winner != NOBODY
    ensures |Changed(past[|log|].members, e.action)| >= 1
    ensures var k := Filled(Kept(past[|log|], e));
            CanEnd(w, past[|log|], e) <==> Min(k, w.p.committers) >= 2 || k + |Added(e.action)| <= w.p.committers
  {
    var m := past[|log|];
    AlwaysGood(w, log, past, |log|);
    WinnerIsActive(w, log, past, |log|);
    RoomLeft(w, m, e);
    LastCanEnd(w.p, w.draw, Rng(SeedArray(e.hash), []), Kept(m, e), |Changed(m.members, e.action)|, Added(e.action));
  }

  lemma EndsOnlyIfItCan(w: World, m: Moment, e: Entry)
    requires Accepts(w, m, e) && |Changed(m.members, e.action)| >= 1 && !CanEnd(w, m, e)
    ensures !Elects(w.p, w.draw, Kept(m, e), e.hash, |Changed(m.members, e.action)|, Added(e.action))
  {
    var total := |Changed(m.members, e.action)|;
    var (next, rng) := Grown(w.p, w.draw, Kept(m, e), e.hash, total, Added(e.action));
    RerollCanEnd(rng, Min(w.p.committers, total), next, Added(e.action));
  }

  // ---------------------------------------------------------------- one committer slot

  /** With one committer slot, whoever is drawn is in slot 0. */
  ghost predicate InFront(m: Moment) {
    m.slots != [] && m.winner in {m.slots[0], NOBODY}
  }

  lemma InFrontAtFirst(w: World)
    requires w.Valid() && w.p.committers == 1
    ensures InFront(Genesis(w))
  {
  }

  lemma InFrontNext(w: World, m: Moment, e: Entry, now: Moment)
    requires Follows(w, m, e, now) && w.p.committers == 1
    ensures InFront(now)
  {
  }

  lemma InFrontLater(w: World, log: seq<Entry>, past: seq<Moment>, i: nat)
    requires Chronicle(w, log, past) && i < |log| && w.p.committers == 1
    ensures InFront(past[i + 1])
  {
    StepAt(w, log, past, i);
    InFrontNext(w, past[i], log[i], past[i + 1]);
  }

  lemma InFrontAt(w: World, log: seq<Entry>, past: seq<Moment>, i: nat)
    requires Chronicle(w, log, past) && i <= |log| && w.p.committers == 1
    ensures InFront(past[i])
  {
    if i == 0 {
      InFrontAtFirst(w);
    } else {
      InFrontLater(w, log, past, i - 1);
    }
  }

  lemma FrontStays(p: Parameters, slots: seq<Name>, gone: seq<Name>)
    requires Table(p, slots) && slots[0] !in gone
    ensures RemoveAll(slots, gone)[0] == slots[0]
  {
    assert Retain(slots, gone)[0] == slots[0];
  }

  /** Under policy Last, with the committer slots taken, nothing in the other slots changes. */
  lemma {:induction false} BehindStays(p: Parameters, draw: Draw, rng: Rng, slots: seq<Name>, total: nat,
                                       names: seq<Name>, j: nat)
    requires Table(p, slots) && Joinable(slots, names) && total >= 1 && p.policy.Last?
    requires p.committers <= Filled(slots) && 1 <= j < Filled(slots)
    ensures AddAll(p, draw, rng, slots, total, names).0[j] == slots[j]
    decreases |names|
  {
    if names != [] {
      AddOneEffect(p, slots, names[0], 0);
      JoinableRest(p, slots, names, 0);
      BehindStays(p, draw, rng, AddOne(p, slots, names[0], 0), total, names[1..], j);
    }
  }

  /** Under policy Last with one committer slot, whoever was in slot 0 keeps a slot exactly if there was a free one. */
  lemma FrontMovesBack(p: Parameters, draw: Draw, rng: Rng, slots: seq<Name>, total: nat, names: seq<Name>)
    requires Table(p, slots) && Joinable(slots, names) && total >= 1 && p.policy.Last? && p.committers == 1
    requires names != [] && 1 <= Filled(slots)
    ensures slots[0] in AddAll(p, draw, rng, slots, total, names).0 <==> Filled(slots) < p.processers
  {
    var k, x, mid := Filled(slots), slots[0], AddOne(p, slots, names[0], 0);
    AddOneEffect(p, slots, names[0], 0);
    JoinableRest(p, slots, names, 0);
    var next := AddAll(p, draw, rng, mid, total, names[1..]).0;
    if k < p.processers {
      assert mid[k] == slots[0];
      BehindStays(p, draw, rng, mid, total, names[1..], k);
    } else {
      Gone(p, slots, names[0]);
      AddAllEffect(p, draw, rng, mid, total, names[1..]);
      assert x in slots && x !in Active(next);
    }
  }

  /** A full table: slot 0 is overwritten. */
  lemma Gone(p: Parameters, slots: seq<Name>, name: Name)
    requires Table(p, slots) && p.committers == 1 && Filled(slots) == p.processers && name !in slots
    ensures slots[0] !in AddOne(p, slots, name, 0) && slots[0] != NOBODY
  {
    NotAgain(slots, p.processers);
    var next := AddOne(p, slots, name, 0);
    forall i | 0 <= i < |next| ensures next[i] != slots[0] {
      assert i > 0 ==> next[i] == slots[1..][i - 1];
      assert i == 0 ==> next[i] == name && slots[0] in slots;
    }
  }

  /**
   Under policy Last with one committer slot, two members that are added at once: the draw never ends, so nobody is
   drawn. The author's own loop never ends exactly if there was a free slot to which it moves.
   */
  lemma TwoAtOnce(w: World, log: seq<Entry>, past: seq<Moment>, e: Entry, now: Moment)
    requires Chronicle(w, log, past) && w.p.policy.Last? && w.p.committers == 1 && |Added(e.action)| > 1
    requires Follows(w, past[|log|], e, now) && e.author == past[|log|].winner != NOBODY
    ensures now.winner == NOBODY
    ensures e.author in now.slots <==> Filled(Kept(past[|log|], e)) < w.p.processers
  {
    var m := past[|log|];
    AlwaysGood(w, log, past, |log|);
    WinnerIsActive(w, log, past, |log|);
    InFrontAt(w, log, past, |log|);
    LastSometimesCanEnd(w, log, past, e);
    EndsOnlyIfItCan(w, m, e);
    RoomLeft(w, m, e);
    FrontStays(w.p, m.slots, Removed(e.action));
    FrontMovesBack(w.p, w.draw, Rng(SeedArray(e.hash), []), Kept(m, e), |Changed(m.members, e.action)|,
                   Added(e.action));
  }

  /**
   In every run under policy Last with one committer slot: the holder of the token can add two members at once exactly
   if the table is full, so that it loses its slot.
   */
  lemma AddingTwoNeverEnds(w: World, run: seq<Event>, n: Name, a: Action, hash: Bytes, past: seq<Moment>)
    requires Feasible(w, run) && UniformRun(w, run) && Chronicle(w, After(w, run).log, past)
    requires w.p.policy.Last? && w.p.committers == 1 && |Added(a)| > 1
    requires var s := After(w, run);
             && n in s.tokens && n in s.nodes && Uniform(s.nodes[n].r.slots, a)
             && Admissible(s.nodes[n].r.members, Entry(s.nodes[n].r.epoch, n, a, hash))
    ensures var s := After(w, run);
            CanConfirm(w.p, w.draw, n, s.nodes[n].r, a, hash)
            <==> Filled(RemoveAll(s.nodes[n].r.slots, Removed(a))) == w.p.processers
  {
    var s := After(w, run);
    var past' := Safety(w, run);
    OneHistory(w, s.log, past, past');
    TokenHolder(past, s, n);
    HolderNeverEnds(w, s.log, past, s.nodes[n].r, Entry(|s.log|, n, a, hash));
  }

  lemma HolderNeverEnds(w: World, log: seq<Entry>, past: seq<Moment>, r: Replica, e: Entry)
    requires Chronicle(w, log, past) && w.p.policy.Last? && w.p.committers == 1 && |Added(e.action)| > 1
    requires r.members == past[|log|].members && r.slots == past[|log|].slots && Uniform(r.slots, e.action)
    requires e.author == past[|log|].winner != NOBODY && Admissible(r.members, e)
    ensures CanConfirm(w.p, w.draw, e.author, r, e.action, e.hash)
            <==> Filled(RemoveAll(r.slots, Removed(e.action))) == w.p.processers
  {
    var m := past[|log|];
    AlwaysGood(w, log, past, |log|);
    WinnerIsActive(w, log, past, |log|);
    var now := Next(w, m, e);
    TwoAtOnce(w, log, past, e, now);
    RemovalsAgree(m.slots, e.action);
    RoomLeft(w, m, e);
    LastSometimesCanEnd(w, log, past, e);
    EndsOnlyIfItCan(w, m, e);
  }

  /** At the very start: the creator adds two members, and never gets an answer unless the table has one slot only. */
  lemma FirstCommitNeverEnds(w: World, b: Name, c: Name, hash: Bytes)
    requires w.Valid() && w.p.policy.Last? && w.p.committers == 1
    requires NOBODY !in {b, c} && b != c && w.creator !in {b, c}
    ensures var s, a := Init(w), Batch([b, c], []);
            && w.creator in s.tokens && w.creator in s.nodes
            && Admissible(s.nodes[w.creator].r.members, Entry(0, w.creator, a, hash))
            && (CanConfirm(w.p, w.draw, w.creator, s.nodes[w.creator].r, a, hash) <==> w.p.processers == 1)
  {
    var a := Batch([b, c], []);
    GenesisGood(w);
    CreatorCommitsFirst(w);
    assert Distinct([b, c]) && Distinct([]);
    var r := Init(w).nodes[w.creator].r;
    RemoveNobody(r.slots, []);
    HolderNeverEnds(w, [], [Genesis(w)], r, Entry(0, w.creator, a, hash));
  }
}
