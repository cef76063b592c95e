/**
 A batch that removes an active member: the committer keeps that member in its table, the receivers do not.
 The tables differ, and a run shows that two clients can then be given the token of one epoch.
 */
module Split {
  import opened Basics
  import opened Slots
  import opened Reservoir
  import opened History
  import opened Client
  import opened Protocol

  /** The table after a batch, as the committer and as a receiver compute it. */
  ghost function OwnTable(p: Parameters, draw: Draw, slots: seq<Name>, a: Action, hash: Bytes, total: nat): seq<Name>
    requires p.Valid() && |slots| == p.processers && total >= 1
  {
    Grown(p, draw, RemoveAll(slots, OwnRemovals(a)), hash, total, Added(a)).0
  }

  ghost function SharedTable(p: Parameters, draw: Draw, slots: seq<Name>, a: Action, hash: Bytes, total: nat): seq<Name>
    requires p.Valid() && |slots| == p.processers && total >= 1
  {
    Grown(p, draw, RemoveAll(slots, Removed(a)), hash, total, Added(a)).0
  }

  /** A batch that a table can take: the additions are new, nobody is added and removed, and all fit into the slots. */
  ghost predicate FittingBatch(p: Parameters, slots: seq<Name>, a: Action) {
    && a.Batch? && Table(p, slots) && Joinable(slots, a.added) && NOBODY !in a.removed
    && Named(a.added) !! Named(a.removed) && Filled(slots) + |a.added| <= p.processers
  }

  /** A removed active member keeps its slot in the committer's table. */
  lemma StaysInOwn(p: Parameters, draw: Draw, slots: seq<Name>, a: Action, hash: Bytes, total: nat, x: Name)
    requires FittingBatch(p, slots, a) && total >= 1 && x in slots && x in a.removed
    ensures x in Active(OwnTable(p, draw, slots, a, hash, total))
  {
    RemoveNobody(slots, []);
    AddAllEffect(p, draw, Rng(SeedArray(hash), []), slots, total, a.added);
    assert x in Active(slots);
  }

  /** It has none in the receivers' tables. */
  lemma GoneFromShared(p: Parameters, draw: Draw, slots: seq<Name>, a: Action, hash: Bytes, total: nat, x: Name)
    requires FittingBatch(p, slots, a) && total >= 1 && x in a.removed
    ensures x !in Active(SharedTable(p, draw, slots, a, hash, total))
  {
    var left := RemoveAll(slots, a.removed);
    RemoveAllEffect(p, slots, a.removed);
    assert forall y | y in a.added :: y in left ==> y in Active(left);
    AddAllEffect(p, draw, Rng(SeedArray(hash), []), left, total, a.added);
    assert x in Named(a.removed) && x !in Named(a.added);
  }

  /** After a batch that fits, committer and receivers have the same table exactly if nobody removed was active. */
  lemma BatchRemovalAgrees(p: Parameters, draw: Draw, slots: seq<Name>, a: Action, hash: Bytes, total: nat)
    requires FittingBatch(p, slots, a) && total >= 1
    ensures OwnTable(p, draw, slots, a, hash, total) == SharedTable(p, draw, slots, a, hash, total)
            <==> Uniform(slots, a)
  {
    if Uniform(slots, a) {
      RemovalsAgree(slots, a);
    } else {
      var x :| x in a.removed && x in slots;
      StaysInOwn(p, draw, slots, a, hash, total, x);
      GoneFromShared(p, draw, slots, a, hash, total, x);
    }
  }

  /**
   The first batch of a run that is not uniform: after it the committer's table is the history's, and so that of every
   receiver, exactly if the batch is uniform, provided that its additions fit.
   */
  lemma FirstSplit(w: World, run: seq<Event>, n: Name, a: Action, hash: Bytes, past: seq<Moment>, now: Moment)
    requires Feasible(w, run) && UniformRun(w, run) && a.Batch? && Chronicle(w, After(w, run).log, past)
    requires Enabled(w, After(w, run), Committed(n, a, hash))
    requires var m := past[|past| - 1];
             && Follows(w, m, Entry(|After(w, run).log|, n, a, hash), now)
             && Filled(m.slots) + |a.added| <= w.p.processers
    ensures var s := Apply(w, After(w, run), Committed(n, a, hash));
            n in s.nodes && (s.nodes[n].r.slots == now.slots <==> Uniform(past[|past| - 1].slots, a))
  {
    var s := After(w, run);
    var past' := Safety(w, run);
    OneHistory(w, s.log, past, past');
    TokenHolder(past, s, n);
    AlwaysGood(w, s.log, past, |s.log|);
    WinnerIsActive(w, s.log, past, |s.log|);
    SplitAt(w, past[|s.log|], Entry(|s.log|, n, a, hash), now, s.nodes[n].r);
  }

  lemma SplitAt(w: World, m: Moment, e: Entry, now: Moment, r: Replica)
    requires Good(w, m) && Follows(w, m, e, now) && e.action.Batch? && r.members == m.members && r.slots == m.slots
    requires e.author in m.slots && CanConfirm(w.p, w.draw, e.author, r, e.action, e.hash)
    requires Filled(m.slots) + |e.action.added| <= w.p.processers
    ensures Confirm(w.p, w.draw, e.author, r, e.action, e.hash).0.slots == now.slots <==> Uniform(m.slots, e.action)
  {
    MayJoin(w, m, e);
    assert forall x | x in Named(e.action.added) :: x !in Named(e.action.removed);
    BatchRemovalAgrees(w.p, w.draw, m.slots, e.action, e.hash, |now.members|);
  }

  /** A joiner replays the additions on the author's table from before the commit, which is what the author does. */
  lemma JoinerReplays(w: World, r: Replica, n: Name, a: Action, hash: Bytes, m: Welcome)
    requires n in r.slots && CanConfirm(w.p, w.draw, n, r, a, hash)
    requires m in WelcomesOf(r, a, hash) && CanJoin(w.p, w.draw, m)
    ensures Join(w.p, w.draw, m).0.slots == Confirm(w.p, w.draw, n, r, a, hash).0.slots
    ensures Join(w.p, w.draw, m).0.members == Confirm(w.p, w.draw, n, r, a, hash).0.members
  {
    RemoveNobody(r.slots, []);
    assert Resize(r.slots, w.p.processers) == r.slots;
  }

  /**
   Whatever a commit adds and removes, after every uniform run: those that it adds side with its author, and not with
   the receivers if these differ.
   */
  lemma JoinersSideWithAuthor(w: World, run: seq<Event>, n: Name, a: Action, hash: Bytes, m: Welcome)
    requires Feasible(w, run) && UniformRun(w, run) && Enabled(w, After(w, run), Committed(n, a, hash))
    requires m in WelcomesOf(After(w, run).nodes[n].r, a, hash) && CanJoin(w.p, w.draw, m)
    ensures var s := Apply(w, After(w, run), Committed(n, a, hash));
            && n in s.nodes && m in s.welcomes
            && Join(w.p, w.draw, m).0.slots == s.nodes[n].r.slots
            && Join(w.p, w.draw, m).0.members == s.nodes[n].r.members
            && Join(w.p, w.draw, m).0.epoch == s.nodes[n].r.epoch
  {
    var s := After(w, run);
    var past := Safety(w, run);
    TokenHolder(past, s, n);
    WinnerIsActive(w, s.log, past, |s.log|);
    JoinerReplays(w, s.nodes[n].r, n, a, hash, m);
  }

  lemma GrownOne(p: Parameters, draw: Draw, slots: seq<Name>, hash: Bytes, total: nat, y: Name)
    requires p.Valid() && |slots| == p.processers && total >= 1
    ensures Grown(p, draw, slots, hash, total, [y]).0
            == AddOne(p, slots, y, Sample(p, draw, Rng(SeedArray(hash), []), total).0)
  {
    assert [y][1..] == [];
    var (sample, after) := Sample(p, draw, Rng(SeedArray(hash), []), total);
    var next := AddOne(p, slots, y, sample);
    assert AddAll(p, draw, after, next, total, []).0 == next;
  }

  lemma PairTables(b: Name, x: Name)
    requires b != x && b != NOBODY && x != NOBODY
    ensures Table(Parameters(1, 2, Random), [b, x]) && Filled([b, x]) == 2 && Filled([b, NOBODY]) == 1
    ensures RemoveAll([b, x], []) == [b, x] && RemoveAll([b, x], [x]) == [b, NOBODY]
  {
    var slots, left := [b, x], [b, NOBODY];
    assert Packed(slots, 2);
    FilledWhenPacked(slots, 2);
    assert Packed(left, 1);
    FilledWhenPacked(left, 1);
    RemoveNobody(slots, []);
    assert slots[1..] == [x] && Retain([x], [x]) == [] && Retain(slots, [x]) == [b];
  }

  /** When the additions do not fit, the tables can coincide again: the new member takes the slot of the removed one. */
  lemma OverflowCanAgree(b: Name, x: Name, y: Name)
    requires b != x && b != y && x != y && NOBODY !in {b, x, y}
    ensures var p, slots, a := Parameters(1, 2, Random), [b, x], Batch([y], [x]);
            && Table(p, slots) && Joinable(slots, a.added) && !Uniform(slots, a)
            && Filled(slots) + |a.added| > p.processers
            && OwnTable(p, TOP, slots, a, [], 2) == SharedTable(p, TOP, slots, a, [], 2) == [b, y]
  {
    var p, slots := Parameters(1, 2, Random), [b, x];
    PairTables(b, x);
    GrownOne(p, TOP, slots, [], 2, y);
    GrownOne(p, TOP, [b, NOBODY], [], 2, y);
    assert Sample(p, TOP, Rng(SeedArray([]), []), 2).0 == 1;
    assert slots[1] == x && x in Batch([y], [x]).removed;
    assert AddOne(p, slots, y, 1) == [b, y] && AddOne(p, [b, NOBODY], y, 1) == [b, y];
  }

  // ---------------------------------------------------------------- a generator of extreme draws

  const TOP: Draw := (r: Rng, lo: nat, hi: nat) => if lo < hi && r.seed != [] && r.seed[0] == 0 then hi - 1 else lo

  /** Three slots, of which two are committers'. */
  const THREE_SLOTS: Parameters := Parameters(2, 3, Random)

  /** The hash is empty, so that the seed is zero. */
  lemma TopDraw(p: Parameters, slots: seq<Name>, total: nat, names: seq<Name>)
    requires p == Parameters(2, |slots|, Random) && p.Valid() && total >= 1 && |names| <= 1
    ensures Elects(p, TOP, slots, [], total, names)
    ensures Elected(p, TOP, slots, [], total, names) == Min(2, total) - 1
    ensures Grown(p, TOP, slots, [], total, names).0
            == if names == [] then slots else AddOne(p, slots, names[0], total - 1)
  {
    var (next, rng) := Grown(p, TOP, slots, [], total, names);
    if names != [] {
      assert names == [names[0]];
      GrownOne(p, TOP, slots, [], total, names[0]);
    }
    assert rng.seed == SeedArray([]) by {
      SameSeed(p, TOP, Rng(SeedArray([]), []), slots, total, names);
    }
    assert Acceptable(next, names, Roll(TOP, rng, Min(2, total), 0));
  }

  lemma {:induction false} SameSeed(p: Parameters, draw: Draw, rng: Rng, slots: seq<Name>, total: nat, names: seq<Name>)
    requires p.Valid() && |slots| == p.processers && total >= 1
    ensures AddAll(p, draw, rng, slots, total, names).1.seed == rng.seed
    decreases |names|
  {
    if names != [] {
      var (sample, after) := Sample(p, draw, rng, total);
      SameSeed(p, draw, after, AddOne(p, slots, names[0], sample), total, names[1..]);
    }
  }

  /** The reaction when the largest number is drawn, from the table after the additions. */
  lemma TopReact(p: Parameters, me: Name, slots: seq<Name>, total: nat, names: seq<Name>, next: seq<Name>)
    requires p == Parameters(2, |slots|, Random) && p.Valid() && total >= 1 && |names| <= 1 && me in next
    requires next == if names == [] then slots else AddOne(p, slots, names[0], total - 1)
    ensures Responds(p, TOP, me, slots, [], total, names)
    ensures React(p, TOP, me, slots, 0, [], total, names)
            == if FirstIndex(next, me) != Min(2, total) - 1 then Reaction(next, 0, Listen)
               else Reaction(next, Others(names, me), if Others(names, me) == 0 then Commit else Listen)
  {
    TopDraw(p, slots, total, names);
  }

  lemma Extend(w: World, run: seq<Event>, ev: Event)
    requires Feasible(w, run) && Enabled(w, After(w, run), ev)
    ensures Feasible(w, run + [ev]) && After(w, run + [ev]) == Apply(w, After(w, run), ev)
  {
    assert (run + [ev])[..|run|] == run;
  }

  /** Three clients; the first one creates the group. */
  datatype Trio = Trio(a: Name, b: Name, c: Name) {
    predicate Valid() {
      a != b && b != c && a != c && NOBODY !in {a, b, c}
    }

    function World(): World {
      History.World.World(THREE_SLOTS, TOP, a, [])
    }

    function Alone(): seq<Name> { [a, NOBODY, NOBODY] }

    function Two(): seq<Name> { [a, b, NOBODY] }

    function All(): seq<Name> { [a, b, c] }

    function Left(): seq<Name> { [b, c, NOBODY] }
  }

  lemma TableFacts(t: Trio)
    requires t.Valid()
    ensures AddOne(THREE_SLOTS, t.Alone(), t.b, 1) == t.Two() && AddOne(THREE_SLOTS, t.Two(), t.c, 2) == t.All()
    ensures RemoveAll(t.Alone(), []) == t.Alone() && RemoveAll(t.Two(), []) == t.Two()
    ensures RemoveAll(t.All(), []) == t.All()
  {
    assert Packed(t.Alone(), 1);
    FilledWhenPacked(t.Alone(), 1);
    assert Packed(t.Two(), 2);
    FilledWhenPacked(t.Two(), 2);
    RemoveNobody(t.Alone(), []);
    RemoveNobody(t.Two(), []);
    RemoveNobody(t.All(), []);
  }

  lemma AllLeft(t: Trio)
    requires t.Valid()
    ensures RemoveAll(t.All(), [t.a]) == t.Left()
  {
    assert t.All()[1..] == [t.b, t.c] && [t.b, t.c][1..] == [t.c];
    assert Retain([t.c], [t.a]) == [t.c] && Retain([t.b, t.c], [t.a]) == [t.b, t.c];
  }

  lemma IndexFacts(t: Trio)
    requires t.Valid()
    ensures FirstIndex(t.Two(), t.a) == 0 && FirstIndex(t.Two(), t.b) == 1
    ensures FirstIndex(t.All(), t.b) == 1 && FirstIndex(t.All(), t.c) == 2 && FirstIndex(t.Left(), t.c) == 1
  {
  }

  lemma OneOther(x: Name, me: Name)
    requires x != me
    ensures Others([x], me) == 1
  {
    assert [x][1..] == [];
  }

  lemma WithB(t: Trio)
    requires t.Valid()
    ensures Changed({t.a}, Invite(t.b)) == {t.a, t.b}
  {
  }

  lemma WithC(t: Trio)
    requires t.Valid()
    ensures Changed({t.a, t.b}, Invite(t.c)) == {t.a, t.b, t.c}
  {
  }

  lemma Three(t: Trio)
    requires t.Valid()
    ensures |{t.a, t.b, t.c}| == 3
  {
  }

  lemma WithoutA(t: Trio)
    requires t.Valid()
    ensures Changed({t.a, t.b, t.c}, Batch([], [t.a])) == {t.b, t.c}
  {
  }

  // ---------------------------------------------------------------- the replicas of the run

  lemma AInvitesB(t: Trio)
    requires t.Valid()
    ensures var r := Replica(true, 0, {t.a}, t.Alone(), 0);
            && CanConfirm(THREE_SLOTS, TOP, t.a, r, Invite(t.b), [])
            && Confirm(THREE_SLOTS, TOP, t.a, r, Invite(t.b), []) == (Replica(true, 1, {t.a, t.b}, t.Two(), 0), Listen)
  {
    WithB(t);
    TableFacts(t);
    IndexFacts(t);
    TopReact(THREE_SLOTS, t.a, t.Alone(), 2, [t.b], t.Two());
  }

  lemma BJoins(t: Trio)
    requires t.Valid()
    ensures var m := Welcome(t.b, 1, {t.a, t.b}, [], t.Alone(), [t.b]);
            CanJoin(THREE_SLOTS, TOP, m) && Join(THREE_SLOTS, TOP, m)
              == (Replica(true, 1, {t.a, t.b}, t.Two(), 0), Commit)
  {
    TableFacts(t);
    IndexFacts(t);
    TopReact(THREE_SLOTS, t.b, t.Alone(), 2, [t.b], t.Two());
    assert Resize(t.Alone(), 3) == t.Alone();
    assert [t.b][1..] == [];
  }

  lemma BInvitesC(t: Trio)
    requires t.Valid()
    ensures var r := Replica(true, 1, {t.a, t.b}, t.Two(), 0);
            && CanConfirm(THREE_SLOTS, TOP, t.b, r, Invite(t.c), [])
            && Confirm(THREE_SLOTS, TOP, t.b, r, Invite(t.c), [])
               == (Replica(true, 2, {t.a, t.b, t.c}, t.All(), 1), Listen)
  {
    WithC(t);
    Three(t);
    TableFacts(t);
    IndexFacts(t);
    TopReact(THREE_SLOTS, t.b, t.Two(), 3, [t.c], t.All());
    OneOther(t.c, t.b);
  }

  lemma CJoins(t: Trio)
    requires t.Valid()
    ensures var m := Welcome(t.c, 2, {t.a, t.b, t.c}, [], t.Two(), [t.c]);
            CanJoin(THREE_SLOTS, TOP, m) && Join(THREE_SLOTS, TOP, m)
              == (Replica(true, 2, {t.a, t.b, t.c}, t.All(), 0), Listen)
  {
    Three(t);
    TableFacts(t);
    IndexFacts(t);
    TopReact(THREE_SLOTS, t.c, t.Two(), 3, [t.c], t.All());
    assert Resize(t.Two(), 3) == t.Two();
  }

  /** B removes A in a batch and keeps it in its own table: B is in slot 1. */
  lemma BRemovesA(t: Trio)
    requires t.Valid()
    ensures var r := Replica(true, 2, {t.a, t.b, t.c}, t.All(), 0);
            && CanConfirm(THREE_SLOTS, TOP, t.b, r, Batch([], [t.a]), [])
            && Confirm(THREE_SLOTS, TOP, t.b, r, Batch([], [t.a]), [])
               == (Replica(true, 3, {t.b, t.c}, t.All(), 0), Commit)
  {
    WithoutA(t);
    TableFacts(t);
    IndexFacts(t);
    TopReact(THREE_SLOTS, t.b, t.All(), 2, [], t.All());
  }

  /** C processes that commit: C is in slot 1 of its own table. */
  lemma CProcesses(t: Trio)
    requires t.Valid()
    ensures var r, e := Replica(true, 2, {t.a, t.b, t.c}, t.All(), 0), Entry(2, t.b, Batch([], [t.a]), []);
            && CanProcess(THREE_SLOTS, TOP, t.c, r, e)
            && Process(THREE_SLOTS, TOP, t.c, r, e) == (Replica(true, 3, {t.b, t.c}, t.Left(), 0), Commit)
  {
    WithoutA(t);
    Three(t);
    AllLeft(t);
    IndexFacts(t);
    TopReact(THREE_SLOTS, t.c, t.Left(), 2, [], t.Left());
  }

  // ---------------------------------------------------------------- the states of the run

  lemma Committing(w: World, s: State, n: Name, a: Action, hash: Bytes, r: Replica, action: NextAction)
    requires n in s.tokens && n in s.nodes && s.nodes[n].r.live
    requires Admissible(s.nodes[n].r.members, Entry(s.nodes[n].r.epoch, n, a, hash))
    requires CanConfirm(w.p, w.draw, n, s.nodes[n].r, a, hash)
    requires (r, action) == Confirm(w.p, w.draw, n, s.nodes[n].r, a, hash)
    ensures Enabled(w, s, Committed(n, a, hash))
    ensures Apply(w, s, Committed(n, a, hash)) == Put(Published(s, n, a, hash), n, s.nodes[n].(r := r), action)
  {
  }

  ghost function S0(t: Trio): State {
    State([], map[t.a := Node(Replica(true, 0, {t.a}, t.Alone(), 0), 0)], {}, multiset{t.a}, [Grant(0, t.a)])
  }

  ghost function S1(t: Trio): State {
    State([Entry(0, t.a, Invite(t.b), [])],
          map[t.a := Node(Replica(true, 1, {t.a, t.b}, t.Two(), 0), 0)],
          {Welcome(t.b, 1, {t.a, t.b}, [], t.Alone(), [t.b])}, multiset{}, [Grant(0, t.a)])
  }

  lemma Step0(t: Trio)
    requires t.Valid()
    ensures Init(t.World()) == S0(t)
  {
    CreatorCommitsFirst(t.World());
    TopDraw(THREE_SLOTS, Resize([], 3), 1, [t.a]);
    EmptyTable(THREE_SLOTS);
    assert Resize([], 3)[0 := t.a] == t.Alone();
  }

  lemma Step1(t: Trio)
    requires t.Valid()
    ensures Enabled(t.World(), S0(t), Committed(t.a, Invite(t.b), []))
    ensures Apply(t.World(), S0(t), Committed(t.a, Invite(t.b), [])) == S1(t)
  {
    AInvitesB(t);
    Committing(t.World(), S0(t), t.a, Invite(t.b), [], S1(t).nodes[t.a].r, Listen);
    Publish1(t);
  }

  lemma Publish1(t: Trio)
    requires t.Valid()
    ensures Put(Published(S0(t), t.a, Invite(t.b), []), t.a, S1(t).nodes[t.a], Listen) == S1(t)
  {
    var r := S0(t).nodes[t.a].r;
    assert NewMembers(r, Invite(t.b)) == {t.a, t.b};
    assert WelcomesOf(r, Invite(t.b), []) == S1(t).welcomes;
  }

  ghost function S2(t: Trio): State {
    S1(t).(nodes := S1(t).nodes[t.b := Node(Replica(true, 1, {t.a, t.b}, t.Two(), 0), 1)],
           welcomes := {}, tokens := multiset{t.b}, grants := [Grant(0, t.a), Grant(1, t.b)])
  }

  ghost function S3(t: Trio): State {
    S2(t).(log := S1(t).log + [Entry(1, t.b, Invite(t.c), [])],
           nodes := S2(t).nodes[t.b := Node(Replica(true, 2, {t.a, t.b, t.c}, t.All(), 1), 1)],
           welcomes := {Welcome(t.c, 2, {t.a, t.b, t.c}, [], t.Two(), [t.c])}, tokens := multiset{})
  }

  ghost function S4(t: Trio): State {
    S3(t).(nodes := S3(t).nodes[t.c := Node(Replica(true, 2, {t.a, t.b, t.c}, t.All(), 0), 2)], welcomes := {})
  }

  ghost function S5(t: Trio): State {
    S4(t).(nodes := S4(t).nodes[t.b := Node(Replica(true, 2, {t.a, t.b, t.c}, t.All(), 0), 1)],
           tokens := multiset{t.b}, grants := S4(t).grants + [Grant(2, t.b)])
  }

  ghost function S6(t: Trio): State {
    S5(t).(log := S3(t).log + [Entry(2, t.b, Batch([], [t.a]), [])],
           nodes := S5(t).nodes[t.b := Node(Replica(true, 3, {t.b, t.c}, t.All(), 0), 1)],
           grants := S5(t).grants + [Grant(3, t.b)])
  }

  ghost function S7(t: Trio): State {
    S6(t).(nodes := S6(t).nodes[t.c := Node(Replica(true, 3, {t.b, t.c}, t.Left(), 0), 3)],
           tokens := multiset{t.b, t.c}, grants := S6(t).grants + [Grant(3, t.c)])
  }

  lemma Step2(t: Trio)
    requires t.Valid()
    ensures var ev := Joined(Welcome(t.b, 1, {t.a, t.b}, [], t.Alone(), [t.b]));
            Enabled(t.World(), S1(t), ev) && Apply(t.World(), S1(t), ev) == S2(t)
  {
    BJoins(t);
  }

  lemma Publish3(t: Trio)
    requires t.Valid()
    ensures Put(Published(S2(t), t.b, Invite(t.c), []), t.b, S3(t).nodes[t.b], Listen) == S3(t)
  {
    var r := S2(t).nodes[t.b].r;
    assert NewMembers(r, Invite(t.c)) == {t.a, t.b, t.c};
    assert WelcomesOf(r, Invite(t.c), []) == S3(t).welcomes;
  }

  lemma Step3(t: Trio)
    requires t.Valid()
    ensures Enabled(t.World(), S2(t), Committed(t.b, Invite(t.c), []))
    ensures Apply(t.World(), S2(t), Committed(t.b, Invite(t.c), [])) == S3(t)
  {
    BInvitesC(t);
    Committing(t.World(), S2(t), t.b, Invite(t.c), [], S3(t).nodes[t.b].r, Listen);
    Publish3(t);
  }

  lemma Step4(t: Trio)
    requires t.Valid()
    ensures var ev := Joined(Welcome(t.c, 2, {t.a, t.b, t.c}, [], t.Two(), [t.c]));
            Enabled(t.World(), S3(t), ev) && Apply(t.World(), S3(t), ev) == S4(t)
  {
    CJoins(t);
  }

  lemma Step5(t: Trio)
    requires t.Valid()
    ensures Enabled(t.World(), S4(t), Acked(t.b, t.c)) && Apply(t.World(), S4(t), Acked(t.b, t.c)) == S5(t)
  {
  }

  lemma Publish6(t: Trio)
    requires t.Valid()
    ensures Put(Published(S5(t), t.b, Batch([], [t.a]), []), t.b, S6(t).nodes[t.b], Commit) == S6(t)
  {
    assert WelcomesOf(S5(t).nodes[t.b].r, Batch([], [t.a]), []) == {};
  }

  lemma Step6(t: Trio)
    requires t.Valid()
    ensures Enabled(t.World(), S5(t), Committed(t.b, Batch([], [t.a]), []))
    ensures Apply(t.World(), S5(t), Committed(t.b, Batch([], [t.a]), [])) == S6(t)
  {
    BRemovesA(t);
    Committing(t.World(), S5(t), t.b, Batch([], [t.a]), [], S6(t).nodes[t.b].r, Commit);
    Publish6(t);
  }

  lemma Step7(t: Trio)
    requires t.Valid()
    ensures Enabled(t.World(), S6(t), Delivered(t.c)) && Apply(t.World(), S6(t), Delivered(t.c)) == S7(t)
  {
    CProcesses(t);
    ApplyDelivered(t.World(), S6(t), t.c, S7(t).nodes[t.c].r, Commit);
  }

  lemma Begin(t: Trio)
    requires t.Valid()
    ensures Feasible(t.World(), []) && After(t.World(), []) == S0(t)
  {
    Step0(t);
  }

  lemma ThreeSteps(t: Trio) returns (run: seq<Event>)
    requires t.Valid()
    ensures Feasible(t.World(), run) && After(t.World(), run) == S3(t)
  {
    Begin(t);
    Step1(t);
    Extend(t.World(), [], Committed(t.a, Invite(t.b), []));
    run := [] + [Committed(t.a, Invite(t.b), [])];
    Step2(t);
    Extend(t.World(), run, Joined(Welcome(t.b, 1, {t.a, t.b}, [], t.Alone(), [t.b])));
    run := run + [Joined(Welcome(t.b, 1, {t.a, t.b}, [], t.Alone(), [t.b]))];
    Step3(t);
    Extend(t.World(), run, Committed(t.b, Invite(t.c), []));
    run := run + [Committed(t.b, Invite(t.c), [])];
  }

  lemma FiveSteps(t: Trio) returns (run: seq<Event>)
    requires t.Valid()
    ensures Feasible(t.World(), run) && After(t.World(), run) == S5(t)
  {
    run := ThreeSteps(t);
    Step4(t);
    Extend(t.World(), run, Joined(Welcome(t.c, 2, {t.a, t.b, t.c}, [], t.Two(), [t.c])));
    run := run + [Joined(Welcome(t.c, 2, {t.a, t.b, t.c}, [], t.Two(), [t.c]))];
    Step5(t);
    Extend(t.World(), run, Acked(t.b, t.c));
    run := run + [Acked(t.b, t.c)];
  }

  /** For any three names there is a run in which two clients hold the token of epoch 3 and their tables differ. */
  lemma BatchRemovalSplitsTheToken(t: Trio) returns (run: seq<Event>)
    requires t.Valid()
    ensures Feasible(t.World(), run)
    ensures var s := After(t.World(), run);
            && Grant(3, t.b) in s.grants && Grant(3, t.c) in s.grants && s.tokens == multiset{t.b, t.c}
            && t.b in s.nodes && t.c in s.nodes
            && s.nodes[t.b].r == Replica(true, 3, {t.b, t.c}, [t.a, t.b, t.c], 0)
            && s.nodes[t.c].r == Replica(true, 3, {t.b, t.c}, [t.b, t.c, NOBODY], 0)
  {
    run := FiveSteps(t);
    Step6(t);
    Extend(t.World(), run, Committed(t.b, Batch([], [t.a]), []));
    run := run + [Committed(t.b, Batch([], [t.a]), [])];
    Step7(t);
    Extend(t.World(), run, Delivered(t.c));
    run := run + [Delivered(t.c)];
    assert After(t.World(), run) == S7(t);
  }
}
