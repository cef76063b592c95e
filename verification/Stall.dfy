/**
 A group of three with two slots, both of committers: the third member gets no slot, one of the others removes the
 other, and the draw falls on the free slot. Nobody is drawn, and no commit ever follows.
 */
module Stall {
  import opened Slots
  import opened Reservoir
  import opened History
  import opened Client
  import opened Protocol
  import opened Split

  /** Two slots, both committers'. */
  const TWO_SLOTS: Parameters := Parameters(2, 2, Random)

  ghost function Place(t: Trio): World {
    World(TWO_SLOTS, TOP, t.a, [])
  }

  lemma PairFacts(t: Trio)
    requires t.Valid()
    ensures AddOne(TWO_SLOTS, [t.a, NOBODY], t.b, 1) == [t.a, t.b]
    ensures AddOne(TWO_SLOTS, [t.a, t.b], t.c, 2) == [t.a, t.b]
    ensures RemoveAll([t.a, NOBODY], []) == [t.a, NOBODY] && RemoveAll([t.a, t.b], []) == [t.a, t.b]
    ensures RemoveAll([t.a, t.b], [t.a]) == [t.b, NOBODY]
  {
    assert Packed([t.a, NOBODY], 1);
    FilledWhenPacked([t.a, NOBODY], 1);
    assert Packed([t.a, t.b], 2);
    FilledWhenPacked([t.a, t.b], 2);
    RemoveNobody([t.a, NOBODY], []);
    RemoveNobody([t.a, t.b], []);
    assert [t.a, t.b][1..] == [t.b] && Retain([t.b], [t.a]) == [t.b];
    assert Retain([t.a, t.b], [t.a]) == [t.b];
  }

  lemma Positions(t: Trio)
    requires t.Valid()
    ensures FirstIndex([t.a, t.b], t.a) == 0 && FirstIndex([t.a, t.b], t.b) == 1 && FirstIndex([t.b, NOBODY], t.b) == 0
  {
  }

  lemma WithoutFirst(t: Trio)
    requires t.Valid()
    ensures Changed({t.a, t.b, t.c}, Action.Remove(t.a)) == {t.b, t.c} && |{t.b, t.c}| == 2
  {
  }

  // ---------------------------------------------------------------- the replicas of the run

  lemma AInvites(t: Trio)
    requires t.Valid()
    ensures var r := Replica(true, 0, {t.a}, [t.a, NOBODY], 0);
            && CanConfirm(TWO_SLOTS, TOP, t.a, r, Invite(t.b), [])
            && Confirm(TWO_SLOTS, TOP, t.a, r, Invite(t.b), []) == (Replica(true, 1, {t.a, t.b}, [t.a, t.b], 0), Listen)
  {
    WithB(t);
    PairFacts(t);
    Positions(t);
    TopReact(TWO_SLOTS, t.a, [t.a, NOBODY], 2, [t.b], [t.a, t.b]);
  }

  lemma BEnters(t: Trio)
    requires t.Valid()
    ensures var m := Welcome(t.b, 1, {t.a, t.b}, [], [t.a, NOBODY], [t.b]);
            CanJoin(TWO_SLOTS, TOP, m) && Join(TWO_SLOTS, TOP, m)
              == (Replica(true, 1, {t.a, t.b}, [t.a, t.b], 0), Commit)
  {
    PairFacts(t);
    Positions(t);
    TopReact(TWO_SLOTS, t.b, [t.a, NOBODY], 2, [t.b], [t.a, t.b]);
    assert Resize([t.a, NOBODY], 2) == [t.a, NOBODY];
    assert [t.b][1..] == [];
  }

  lemma BInvites(t: Trio)
    requires t.Valid()
    ensures var r := Replica(true, 1, {t.a, t.b}, [t.a, t.b], 0);
            && CanConfirm(TWO_SLOTS, TOP, t.b, r, Invite(t.c), [])
            && Confirm(TWO_SLOTS, TOP, t.b, r, Invite(t.c), [])
               == (Replica(true, 2, {t.a, t.b, t.c}, [t.a, t.b], 1), Listen)
  {
    WithC(t);
    Three(t);
    PairFacts(t);
    Positions(t);
    TopReact(TWO_SLOTS, t.b, [t.a, t.b], 3, [t.c], [t.a, t.b]);
    OneOther(t.c, t.b);
  }

  lemma BRemoves(t: Trio)
    requires t.Valid()
    ensures var r := Replica(true, 2, {t.a, t.b, t.c}, [t.a, t.b], 0);
            && CanConfirm(TWO_SLOTS, TOP, t.b, r, Action.Remove(t.a), [])
            && Confirm(TWO_SLOTS, TOP, t.b, r, Action.Remove(t.a), [])
               == (Replica(true, 3, {t.b, t.c}, [t.b, NOBODY], 0), Listen)
  {
    WithoutFirst(t);
    PairFacts(t);
    Positions(t);
    TopReact(TWO_SLOTS, t.b, [t.b, NOBODY], 2, [], [t.b, NOBODY]);
  }

  // ---------------------------------------------------------------- the states of the run

  ghost function Z0(t: Trio): State {
    State([], map[t.a := Node(Replica(true, 0, {t.a}, [t.a, NOBODY], 0), 0)], {}, multiset{t.a}, [Grant(0, t.a)])
  }

  ghost function Z1(t: Trio): State {
    State([Entry(0, t.a, Invite(t.b), [])], map[t.a := Node(Replica(true, 1, {t.a, t.b}, [t.a, t.b], 0), 0)],
          {Welcome(t.b, 1, {t.a, t.b}, [], [t.a, NOBODY], [t.b])}, multiset{}, [Grant(0, t.a)])
  }

  ghost function Z2(t: Trio): State {
    Z1(t).(nodes := Z1(t).nodes[t.b := Node(Replica(true, 1, {t.a, t.b}, [t.a, t.b], 0), 1)],
           welcomes := {}, tokens := multiset{t.b}, grants := [Grant(0, t.a), Grant(1, t.b)])
  }

  ghost function Z3(t: Trio): State {
    Z2(t).(log := Z1(t).log + [Entry(1, t.b, Invite(t.c), [])],
           nodes := Z2(t).nodes[t.b := Node(Replica(true, 2, {t.a, t.b, t.c}, [t.a, t.b], 1), 1)],
           welcomes := {Welcome(t.c, 2, {t.a, t.b, t.c}, [], [t.a, t.b], [t.c])}, tokens := multiset{})
  }

  ghost function Z4(t: Trio): State {
    Z3(t).(nodes := Z3(t).nodes[t.b := Node(Replica(true, 2, {t.a, t.b, t.c}, [t.a, t.b], 0), 1)],
           tokens := multiset{t.b}, grants := Z3(t).grants + [Grant(2, t.b)])
  }

  ghost function Z5(t: Trio): State {
    Z4(t).(log := Z3(t).log + [Entry(2, t.b, Action.Remove(t.a), [])],
           nodes := Z4(t).nodes[t.b := Node(Replica(true, 3, {t.b, t.c}, [t.b, NOBODY], 0), 1)],
           tokens := multiset{})
  }

  lemma ToZ0(t: Trio)
    requires t.Valid()
    ensures Place(t).Valid() && Init(Place(t)) == Z0(t)
  {
    TopDraw(TWO_SLOTS, Resize([], 2), 1, [t.a]);
    EmptyTable(TWO_SLOTS);
    assert Resize([], 2)[0 := t.a] == [t.a, NOBODY];
  }

  lemma PublishZ1(t: Trio)
    requires t.Valid()
    ensures Put(Published(Z0(t), t.a, Invite(t.b), []), t.a, Z1(t).nodes[t.a], Listen) == Z1(t)
  {
    WithB(t);
    assert WelcomesOf(Z0(t).nodes[t.a].r, Invite(t.b), []) == Z1(t).welcomes;
  }

  lemma ToZ1(t: Trio)
    requires t.Valid()
    ensures Enabled(Place(t), Z0(t), Committed(t.a, Invite(t.b), []))
    ensures Apply(Place(t), Z0(t), Committed(t.a, Invite(t.b), [])) == Z1(t)
  {
    AInvites(t);
    Committing(Place(t), Z0(t), t.a, Invite(t.b), [], Z1(t).nodes[t.a].r, Listen);
    PublishZ1(t);
  }

  lemma ToZ2(t: Trio)
    requires t.Valid()
    ensures var ev := Joined(Welcome(t.b, 1, {t.a, t.b}, [], [t.a, NOBODY], [t.b]));
            Enabled(Place(t), Z1(t), ev) && Apply(Place(t), Z1(t), ev) == Z2(t)
  {
    BEnters(t);
  }

  lemma PublishZ3(t: Trio)
    requires t.Valid()
    ensures Put(Published(Z2(t), t.b, Invite(t.c), []), t.b, Z3(t).nodes[t.b], Listen) == Z3(t)
  {
    WithC(t);
    assert WelcomesOf(Z2(t).nodes[t.b].r, Invite(t.c), []) == Z3(t).welcomes;
  }

  lemma ToZ3(t: Trio)
    requires t.Valid()
    ensures Enabled(Place(t), Z2(t), Committed(t.b, Invite(t.c), []))
    ensures Apply(Place(t), Z2(t), Committed(t.b, Invite(t.c), [])) == Z3(t)
  {
    BInvites(t);
    Committing(Place(t), Z2(t), t.b, Invite(t.c), [], Z3(t).nodes[t.b].r, Listen);
    PublishZ3(t);
  }

  lemma ToZ4(t: Trio)
    requires t.Valid()
    ensures Enabled(Place(t), Z3(t), Acked(t.b, t.c)) && Apply(Place(t), Z3(t), Acked(t.b, t.c)) == Z4(t)
  {
  }

  lemma PublishZ5(t: Trio)
    requires t.Valid()
    ensures Put(Published(Z4(t), t.b, Action.Remove(t.a), []), t.b, Z5(t).nodes[t.b], Listen) == Z5(t)
  {
    assert WelcomesOf(Z4(t).nodes[t.b].r, Action.Remove(t.a), []) == {};
  }

  lemma ToZ5(t: Trio)
    requires t.Valid()
    ensures Enabled(Place(t), Z4(t), Committed(t.b, Action.Remove(t.a), []))
    ensures Apply(Place(t), Z4(t), Committed(t.b, Action.Remove(t.a), [])) == Z5(t)
  {
    BRemoves(t);
    Committing(Place(t), Z4(t), t.b, Action.Remove(t.a), [], Z5(t).nodes[t.b].r, Listen);
    PublishZ5(t);
  }

  // ---------------------------------------------------------------- the run

  /** The run is uniform and ends in the state. */
  ghost predicate UniformTo(w: World, run: seq<Event>, s: State) {
    Leads(w, run, s) && UniformRun(w, run)
  }

  lemma Continued(w: World, run: seq<Event>, s: State, ev: Event, t: State)
    requires UniformTo(w, run, s) && Enabled(w, s, ev) && t == Apply(w, s, ev)
    requires ev.Committed? ==> !ev.action.Batch?
    ensures UniformTo(w, run + [ev], t)
  {
    Extend(w, run, ev);
    assert (run + [ev])[..|run|] == run;
  }

  lemma AtStart(t: Trio)
    requires t.Valid()
    ensures UniformTo(Place(t), [], Z0(t))
  {
    ToZ0(t);
  }

  lemma StallStart(t: Trio) returns (run: seq<Event>)
    requires t.Valid()
    ensures UniformTo(Place(t), run, Z3(t))
  {
    var w, m := Place(t), Welcome(t.b, 1, {t.a, t.b}, [], [t.a, NOBODY], [t.b]);
    AtStart(t);
    ToZ1(t);
    ToZ2(t);
    ToZ3(t);
    run := [];
    Continued(w, run, Z0(t), Committed(t.a, Invite(t.b), []), Z1(t));
    run := run + [Committed(t.a, Invite(t.b), [])];
    Continued(w, run, Z1(t), Joined(m), Z2(t));
    run := run + [Joined(m)];
    Continued(w, run, Z2(t), Committed(t.b, Invite(t.c), []), Z3(t));
    run := run + [Committed(t.b, Invite(t.c), [])];
  }

  /** When the whole range is drawn from, the largest number falls on slot 1. */
  lemma NobodyDrawn(t: Trio, m: Moment, now: Moment)
    requires t.Valid() && Follows(Place(t), m, Entry(2, t.b, Action.Remove(t.a), []), now)
    requires now.members == {t.b, t.c} && now.slots == [t.b, NOBODY]
    ensures now.winner == NOBODY
  {
    WithoutFirst(t);
    TopDraw(TWO_SLOTS, RemoveAll(m.slots, [t.a]), 2, []);
  }

  /** The run leads to a group in which nobody is drawn; whatever happens then, no commit follows. */
  lemma GroupStalls(t: Trio) returns (run: seq<Event>, past: seq<Moment>)
    requires t.Valid()
    ensures Feasible(Place(t), run) && UniformRun(Place(t), run)
    ensures Chronicle(Place(t), After(Place(t), run).log, past) && past[|past| - 1].winner == NOBODY
    ensures |past[|past| - 1].members| == 2
    ensures forall more | Feasible(Place(t), run + more) :: After(Place(t), run + more).log == After(Place(t), run).log
  {
    var w := Place(t);
    ToZ4(t);
    ToZ5(t);
    run := StallStart(t);
    Continued(w, run, Z3(t), Acked(t.b, t.c), Z4(t));
    run := run + [Acked(t.b, t.c)];
    Continued(w, run, Z4(t), Committed(t.b, Action.Remove(t.a), []), Z5(t));
    run := run + [Committed(t.b, Action.Remove(t.a), [])];
    past := Safety(w, run);
    AtTheEnd(t, past);
    forall more | Feasible(w, run + more) ensures After(w, run + more).log == After(w, run).log {
      StalledForGood(w, run, more, past);
    }
  }

  lemma AtTheEnd(t: Trio, past: seq<Moment>)
    requires t.Valid() && Protocol.Inv(Place(t), Z5(t), past)
    ensures past[3].winner == NOBODY && |past[3].members| == 2
  {
    assert GoodNode(past, Z5(t), t.b);
    StepAt(Place(t), Z5(t).log, past, 2);
    WithoutFirst(t);
    NobodyDrawn(t, past[2], past[3]);
  }
}
