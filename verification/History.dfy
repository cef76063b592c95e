/**
 A group as the sequence of its commits: after each of them its members, the slot table and the
 member drawn to commit next. `Protocol` shows that every replica computes them.
 */
module History {
  import opened Basics
  import opened Slots
  import opened Reservoir

  /** What one commit does: a single operation, or a batch of queued proposals. */
  datatype Action =
    | Update
    | Invite(name: Name)
    | Remove(name: Name)
    | Batch(added: seq<Name>, removed: seq<Name>)

  /** The additions and removals that receivers read from the commit. */
  function Added(a: Action): seq<Name> {
    match a
    case Invite(name) => [name]
    case Batch(added, _) => added
    case _ => []
  }

  function Removed(a: Action): seq<Name> {
    match a
    case Remove(name) => [name]
    case Batch(_, removed) => removed
    case _ => []
  }

  /** The removals the committer applies to its own table: only those of a single `Remove`. */
  function OwnRemovals(a: Action): seq<Name> {
    if a.Remove? then [a.name] else []
  }

  /** A published commit: the epoch it was made in, and the transcript hash after it. */
  datatype Entry = Entry(epoch: nat, author: Name, action: Action, hash: Bytes)

  /** What all clients share: the parameters, the generator, and the group's creator and first hash. */
  datatype World = World(p: Parameters, draw: Draw, creator: Name, genesis: Bytes) {
    predicate Valid() {
      p.Valid() && creator != NOBODY
    }
  }

  // ---------------------------------------------------------------- moments

  /** The group in one epoch: its members, its slot table and whose turn it is to commit, if anybody's. */
  datatype Moment = Moment(members: set<Name>, slots: seq<Name>, winner: Name)

  /** What MLS accepts: members are removed, others are added, and nobody removes itself. */
  ghost predicate Admissible(members: set<Name>, e: Entry) {
    && e.author in members && e.author !in Removed(e.action)
    && Distinct(Added(e.action)) && NOBODY !in Added(e.action) && Named(Added(e.action)) !! members
    && Distinct(Removed(e.action)) && Named(Removed(e.action)) <= members
  }

  ghost function Changed(members: set<Name>, a: Action): set<Name> {
    members - Named(Removed(a)) + Named(Added(a))
  }

  /** The table after a commit, and the member drawn to commit next (nobody, if the draw never ends). */
  ghost function Drawn(p: Parameters, draw: Draw, slots: seq<Name>, hash: Bytes, total: nat, names: seq<Name>)
    : (r: (seq<Name>, Name))
    requires p.Valid() && |slots| == p.processers && total >= 1
    ensures |r.0| == p.processers && (r.1 != NOBODY ==> r.1 in r.0)
  {
    var next := Grown(p, draw, slots, hash, total, names).0;
    (next,
     if Elects(p, draw, slots, hash, total, names) then next[Elected(p, draw, slots, hash, total, names)] else NOBODY)
  }

  ghost function Genesis(w: World): Moment
    requires w.Valid()
  {
    var (slots, winner) := Drawn(w.p, w.draw, Resize([], w.p.processers), w.genesis, 1, [w.creator]);
    Moment({w.creator}, slots, winner)
  }

  ghost predicate Accepts(w: World, m: Moment, e: Entry) {
    w.Valid() && |m.slots| == w.p.processers && Admissible(m.members, e)
  }

  ghost function Next(w: World, m: Moment, e: Entry): Moment
    requires Accepts(w, m, e)
  {
    var members := Changed(m.members, e.action);
    assert e.author in members;
    var (slots, winner) := Drawn(w.p, w.draw, RemoveAll(m.slots, Removed(e.action)), e.hash, |members|,
                                 Added(e.action));
    Moment(members, slots, winner)
  }

  ghost predicate Follows(w: World, m: Moment, e: Entry, m': Moment) {
    Accepts(w, m, e) && m' == Next(w, m, e)
  }

  /** The moments of a group's history: the first one, and one after each commit. */
  ghost predicate Chronicle(w: World, log: seq<Entry>, past: seq<Moment>) {
    && w.Valid() && |past| == |log| + 1 && past[0] == Genesis(w)
    && forall i {:trigger Follows(w, past[i], log[i], past[i + 1])} | 0 <= i < |log| ::
         Follows(w, past[i], log[i], past[i + 1])
  }

  lemma StepAt(w: World, log: seq<Entry>, past: seq<Moment>, i: nat)
    requires Chronicle(w, log, past) && i < |log|
    ensures Follows(w, past[i], log[i], past[i + 1])
  {
  }

  lemma SameNext(w: World, m: Moment, e: Entry, now: Moment, now': Moment)
    requires Follows(w, m, e, now) && Follows(w, m, e, now')
    ensures now == now'
  {
  }

  lemma SameStep(w: World, log: seq<Entry>, past: seq<Moment>, past': seq<Moment>, i: nat)
    requires Chronicle(w, log, past) && Chronicle(w, log, past') && i < |log| && past[i] == past'[i]
    ensures past[i + 1] == past'[i + 1]
  {
    StepAt(w, log, past, i);
    StepAt(w, log, past', i);
    SameNext(w, past[i], log[i], past[i + 1], past'[i + 1]);
  }

  lemma {:induction false} SameMoment(w: World, log: seq<Entry>, past: seq<Moment>, past': seq<Moment>, i: nat)
    requires Chronicle(w, log, past) && Chronicle(w, log, past') && i < |past|
    ensures past[i] == past'[i]
  {
    if i > 0 {
      SameMoment(w, log, past, past', i - 1);
      SameStep(w, log, past, past', i - 1);
    }
  }

  /** A log has one history. */
  lemma OneHistory(w: World, log: seq<Entry>, past: seq<Moment>, past': seq<Moment>)
    requires Chronicle(w, log, past) && Chronicle(w, log, past')
    ensures past == past'
  {
    forall i: nat | i < |past| ensures past[i] == past'[i] {
      SameMoment(w, log, past, past', i);
    }
  }

  // ---------------------------------------------------------------- what every moment keeps

  /** Receivers compute the new member count; the committer and the joiners count. They agree. */
  lemma CountByArithmetic(members: set<Name>, e: Entry)
    requires Admissible(members, e)
    ensures |Changed(members, e.action)| == |members| + |Added(e.action)| - |Removed(e.action)|
  {
    var a, r := Named(Added(e.action)), Named(Removed(e.action));
    DistinctCount(Added(e.action));
    DistinctCount(Removed(e.action));
    assert members == (members - r) + r && (members - r) !! r;
    assert (members - r) !! a;
  }

  ghost predicate Good(w: World, m: Moment) {
    Table(w.p, m.slots) && Active(m.slots) <= m.members && NOBODY !in m.members
  }

  lemma EmptyTable(p: Parameters)
    requires p.Valid()
    ensures Table(p, Resize([], p.processers)) && Filled(Resize([], p.processers)) == 0
    ensures Active(Resize([], p.processers)) == {}
  {
    var slots := Resize([], p.processers);
    assert forall x | x in slots :: x == NOBODY;
    NoneActive(slots);
    assert Packed(slots, 0);
    FilledWhenPacked(slots, 0);
  }

  lemma GenesisGood(w: World)
    requires w.Valid()
    ensures Good(w, Genesis(w)) && Filled(Genesis(w).slots) == 1
  {
    EmptyTable(w.p);
    FirstTable(w.p, w.draw, w.genesis, w.creator, Resize([], w.p.processers));
  }

  lemma FirstTable(p: Parameters, draw: Draw, hash: Bytes, creator: Name, slots: seq<Name>)
    requires Table(p, slots) && Filled(slots) == 0 && Active(slots) == {} && creator != NOBODY
    ensures var next := Grown(p, draw, slots, hash, 1, [creator]).0;
            Table(p, next) && Filled(next) == 1 && Active(next) <= {creator}
  {
    assert creator in slots ==> creator in Active(slots);
    AddAllEffect(p, draw, Rng(SeedArray(hash), []), slots, 1, [creator]);
  }

  /** The additions of an admissible commit may join the table that its removals leave. */
  lemma MayJoin(w: World, m: Moment, e: Entry)
    requires Good(w, m) && Accepts(w, m, e)
    ensures NOBODY !in Removed(e.action)
    ensures Joinable(m.slots, Added(e.action)) && Joinable(RemoveAll(m.slots, Removed(e.action)), Added(e.action))
  {
    assert NOBODY !in Named(Removed(e.action));
    RemoveAllEffect(w.p, m.slots, Removed(e.action));
    var left := RemoveAll(m.slots, Removed(e.action));
    forall x | x in Added(e.action) ensures x !in m.slots && x !in left {
      assert x in Named(Added(e.action));
      assert x in m.slots ==> x in Active(m.slots);
      assert x in left ==> x in Active(left);
    }
  }

  /** A commit on any table: what is left of it, and how full it is at least. */
  lemma GrownEffect(p: Parameters, draw: Draw, slots: seq<Name>, e: Entry, total: nat)
    requires Table(p, slots) && total >= 1 && NOBODY !in Removed(e.action)
    requires Joinable(RemoveAll(slots, Removed(e.action)), Added(e.action))
    ensures var next := Grown(p, draw, RemoveAll(slots, Removed(e.action)), e.hash, total, Added(e.action)).0;
            && Table(p, next) && Active(next) <= Active(slots) - Named(Removed(e.action)) + Named(Added(e.action))
            && (Filled(next) >= p.committers
                || Filled(next) + |Active(slots) * Named(Removed(e.action))| >= Filled(slots) + |Added(e.action)|)
  {
    RemoveAllEffect(p, slots, Removed(e.action));
    AddAllEffect(p, draw, Rng(SeedArray(e.hash), []), RemoveAll(slots, Removed(e.action)), total, Added(e.action));
  }

  /** The table stays packed and holds members only. */
  lemma NextGood(w: World, m: Moment, e: Entry, m': Moment)
    requires Good(w, m) && Follows(w, m, e, m')
    ensures Good(w, m')
  {
    MayJoin(w, m, e);
    assert e.author in Changed(m.members, e.action);
    GrownEffect(w.p, w.draw, m.slots, e, |Changed(m.members, e.action)|);
  }

  /** Committer slots stay occupied but for the active members that the commit removes. */
  lemma NextFilled(w: World, m: Moment, e: Entry, m': Moment)
    requires Good(w, m) && Follows(w, m, e, m')
    ensures |m'.members| == |m.members| + |Added(e.action)| - |Removed(e.action)|
    ensures var k := Filled(m'.slots);
            k >= w.p.committers
            || k + |Active(m.slots) * Named(Removed(e.action))| >= Filled(m.slots) + |Added(e.action)|
  {
    MayJoin(w, m, e);
    assert e.author in Changed(m.members, e.action);
    GrownEffect(w.p, w.draw, m.slots, e, |Changed(m.members, e.action)|);
    CountByArithmetic(m.members, e);
  }

  lemma StepGood(w: World, log: seq<Entry>, past: seq<Moment>, i: nat)
    requires Chronicle(w, log, past) && i < |log| && Good(w, past[i])
    ensures Good(w, past[i + 1])
  {
    StepAt(w, log, past, i);
    NextGood(w, past[i], log[i], past[i + 1]);
  }

  lemma StepFilled(w: World, log: seq<Entry>, past: seq<Moment>, i: nat)
    requires Chronicle(w, log, past) && i < |log| && Good(w, past[i])
    ensures |past[i + 1].members| == |past[i].members| + |Added(log[i].action)| - |Removed(log[i].action)|
    ensures var k := Filled(past[i + 1].slots);
            k >= w.p.committers
            || k + |Active(past[i].slots) * Named(Removed(log[i].action))|
               >= Filled(past[i].slots) + |Added(log[i].action)|
  {
    StepAt(w, log, past, i);
    NextFilled(w, past[i], log[i], past[i + 1]);
  }

  /** After every sequence of commits the table is packed and holds members only. */
  lemma {:induction false} AlwaysGood(w: World, log: seq<Entry>, past: seq<Moment>, i: nat)
    requires Chronicle(w, log, past) && i <= |log|
    ensures Good(w, past[i])
  {
    if i == 0 {
      GenesisGood(w);
    } else {
      AlwaysGood(w, log, past, i - 1);
      StepGood(w, log, past, i - 1);
    }
  }

  // ---------------------------------------------------------------- how full the table is

  /** The number of active members removed by the first i commits. */
  ghost function Lost(log: seq<Entry>, past: seq<Moment>, i: nat): nat
    requires i <= |log| < |past|
  {
    if i == 0 then 0
    else Lost(log, past, i - 1) + |Active(past[i - 1].slots) * Named(Removed(log[i - 1].action))|
  }

  lemma StaysFull(c: nat, k: nat, k': nat, lost: nat, gone: nat, n: nat, n': nat, added: nat)
    requires k + lost >= Min(c, n) && n' <= n + added && (k' >= c || k' + gone >= k + added)
    ensures k' + (lost + gone) >= Min(c, n')
  {
  }

  /** Committer slots stay occupied, short of one for each active member removed. */
  lemma {:induction false} CommittersStayFull(w: World, log: seq<Entry>, past: seq<Moment>, i: nat)
    requires Chronicle(w, log, past) && i <= |log|
    ensures Filled(past[i].slots) + Lost(log, past, i) >= Min(w.p.committers, |past[i].members|)
  {
    if i == 0 {
      GenesisGood(w);
    } else {
      CommittersStayFull(w, log, past, i - 1);
      AlwaysGood(w, log, past, i - 1);
      StepFilled(w, log, past, i - 1);
      StaysFull(w.p.committers, Filled(past[i - 1].slots), Filled(past[i].slots), Lost(log, past, i - 1),
                |Active(past[i - 1].slots) * Named(Removed(log[i - 1].action))|, |past[i - 1].members|,
                |past[i].members|,
                |Added(log[i - 1].action)|);
    }
  }

  /** The first i commits remove nobody. */
  ghost predicate Growing(log: seq<Entry>, i: nat) {
    i <= |log| && forall j | 0 <= j < i :: Removed(log[j].action) == []
  }

  lemma {:induction false} NothingLost(log: seq<Entry>, past: seq<Moment>, i: nat)
    requires Growing(log, i) && |log| < |past|
    ensures Lost(log, past, i) == 0
  {
    if i > 0 {
      NothingLost(log, past, i - 1);
      assert Active(past[i - 1].slots) * Named([]) == {};
    }
  }

  /** The draw for an epoch can only fall on a free slot if active members were removed before. */
  lemma GrowingHasWinner(w: World, log: seq<Entry>, past: seq<Moment>, i: nat)
    requires Chronicle(w, log, past) && Growing(log, i)
    ensures forall who | 0 <= who < Min(w.p.committers, |past[i].members|) ::
              who < |past[i].slots| && past[i].slots[who] in past[i].members
  {
    NothingLost(log, past, i);
    CommittersStayFull(w, log, past, i);
    AlwaysGood(w, log, past, i);
    var slots := past[i].slots;
    forall who | 0 <= who < Min(w.p.committers, |past[i].members|) ensures slots[who] in past[i].members {
      assert slots[who] in Active(slots);
    }
  }

  /** At most one addition to a table that is as full as possible keeps it so. */
  lemma AddOneFillsUp(p: Parameters, draw: Draw, slots: seq<Name>, hash: Bytes, total: nat, names: seq<Name>)
    requires Table(p, slots) && Joinable(slots, names) && total >= 1 && |names| <= 1
    requires Filled(slots) == Min(total - |names|, p.processers)
    ensures Filled(Grown(p, draw, RemoveAll(slots, []), hash, total, names).0) == Min(total, p.processers)
  {
    RemoveNobody(slots, []);
    if |names| == 1 {
      var (sample, after) := Sample(p, draw, Rng(SeedArray(hash), []), total);
      var next := AddOne(p, slots, names[0], sample);
      AddOneEffect(p, slots, names[0], sample);
      assert names[1..] == [];
      assert AddAll(p, draw, after, next, total, []).0 == next;
    }
  }

  /** Without removals and with at most one addition per commit, the table is as full as possible. */
  lemma {:induction false} OneByOneFillsUp(w: World, log: seq<Entry>, past: seq<Moment>, i: nat)
    requires Chronicle(w, log, past) && Growing(log, i)
    requires forall j | 0 <= j < i :: |Added(log[j].action)| <= 1
    ensures Filled(past[i].slots) == Min(|past[i].members|, w.p.processers)
  {
    if i == 0 {
      GenesisGood(w);
    } else {
      var m, e := past[i - 1], log[i - 1];
      OneByOneFillsUp(w, log, past, i - 1);
      AlwaysGood(w, log, past, i - 1);
      StepAt(w, log, past, i - 1);
      CountByArithmetic(m.members, e);
      MayJoin(w, m, e);
      assert e.author in Changed(m.members, e.action);
      AddOneFillsUp(w.p, w.draw, m.slots, e.hash, |Changed(m.members, e.action)|, Added(e.action));
    }
  }
}
