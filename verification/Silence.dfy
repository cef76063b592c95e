/**
 A careful run in which nobody misses a commit and the group falls silent nevertheless: the creator commits before it
 is subscribed, is drawn by its own commit, and loses the acknowledgement that it waits for.
 */
module Silence {
  import opened Slots
  import opened History
  import opened Client
  import opened Protocol
  import opened Split
  import opened Subscriptions
  import opened Progress
  import opened Losses
  import opened Turns
  import opened Rash
  import opened Hasty

  // ---------------------------------------------------------------- the replicas

  /** B is added and slot 0 is drawn. */
  lemma LowInvite(t: Trio)
    requires t.Valid()
    ensures var w := t.World();
            && Grown(w.p, w.draw, t.Alone(), LOW, 2, [t.b]).0 == t.Two()
            && Elects(w.p, w.draw, t.Alone(), LOW, 2, [t.b]) && Elected(w.p, w.draw, t.Alone(), LOW, 2, [t.b]) == 0
  {
    var w := t.World();
    var (next, rng) := Grown(w.p, w.draw, t.Alone(), LOW, 2, [t.b]);
    TableFacts(t);
    GrownOne(w.p, w.draw, t.Alone(), LOW, 2, t.b);
    assert Packed(t.Alone(), 1);
    FilledWhenPacked(t.Alone(), 1);
    SameSeed(w.p, w.draw, Rng(SeedArray(LOW), []), t.Alone(), 2, [t.b]);
    assert rng.seed == SeedArray(LOW) && SeedArray(LOW)[0] == 1;
    assert Acceptable(next, [t.b], Roll(w.draw, rng, Min(2, 2), 0));
  }

  lemma AInvites(t: Trio)
    requires t.Valid()
    ensures var w, r := t.World(), Replica(true, 0, {t.a}, t.Alone(), 0);
            && CanConfirm(w.p, w.draw, t.a, r, Invite(t.b), LOW)
            && Confirm(w.p, w.draw, t.a, r, Invite(t.b), LOW) == (Replica(true, 1, {t.a, t.b}, t.Two(), 1), Listen)
            && DrawnBy(w, t.a, r, Invite(t.b), LOW) == t.a
  {
    WithB(t);
    TableFacts(t);
    IndexFacts(t);
    LowInvite(t);
    OneOther(t.b, t.a);
  }

  ghost function Invitation(t: Trio): Welcome {
    Welcome(t.b, 1, {t.a, t.b}, LOW, t.Alone(), [t.b])
  }

  lemma BIsInvited(t: Trio)
    requires t.Valid()
    ensures var w, m := t.World(), Invitation(t);
            CanJoin(w.p, w.draw, m) && Join(w.p, w.draw, m) == (Replica(true, 1, {t.a, t.b}, t.Two(), 0), Listen)
  {
    TableFacts(t);
    IndexFacts(t);
    LowInvite(t);
    assert Resize(t.Alone(), 3) == t.Alone();
  }

  // ---------------------------------------------------------------- the states

  /** A has invited B and waits for its acknowledgement. */
  ghost function Q1(t: Trio): State {
    State([Entry(0, t.a, Invite(t.b), LOW)],
          map[t.a := Node(Replica(true, 1, {t.a, t.b}, t.Two(), 1), 0)],
          {Invitation(t)}, multiset{}, [Grant(0, t.a)])
  }

  ghost function Q2(t: Trio): State {
    Q1(t).(nodes := Q1(t).nodes[t.b := Node(Replica(true, 1, {t.a, t.b}, t.Two(), 0), 1)], welcomes := {})
  }

  /** A has got its subscription, too late for B's acknowledgement. */
  ghost function Q3(t: Trio): State {
    Q2(t).(nodes := Q2(t).nodes[t.a := Node(Replica(true, 1, {t.a, t.b}, t.Two(), 1), 1)])
  }

  lemma PublishQ1(t: Trio)
    requires t.Valid()
    ensures Put(Published(S0(t), t.a, Invite(t.b), LOW), t.a, Q1(t).nodes[t.a], Listen) == Q1(t)
  {
    WithB(t);
    assert WelcomesOf(S0(t).nodes[t.a].r, Invite(t.b), LOW) == Q1(t).welcomes;
  }

  ghost function N1(t: Trio): Net {
    Net(t.a, Q1(t), {}, {}, map[])
  }

  ghost function N2(t: Trio): Net {
    Net(t.a, Q2(t), {}, {}, map[t.b := {}])
  }

  ghost function N3(t: Trio): Net {
    Net(t.a, Q2(t), {t.b}, {Ack(t.b, 1)}, map[t.b := {}])
  }

  ghost function N4(t: Trio): Net {
    Net(t.a, Q3(t), {t.a, t.b}, {Ack(t.b, 1), Ack(t.a, 1)}, map[t.b := {}, t.a := {t.b}])
  }

  lemma ToN1(t: Trio)
    requires t.Valid()
    ensures t.World().Valid() && StepTo(t.World(), Start(t.World()), Commits(t.a, Invite(t.b), LOW), N1(t))
    ensures CarefulStep(t.World(), Start(t.World()), Commits(t.a, Invite(t.b), LOW))
  {
    Step0(t);
    AInvites(t);
    Committing(t.World(), S0(t), t.a, Invite(t.b), LOW, Q1(t).nodes[t.a].r, Listen);
    PublishQ1(t);
  }

  lemma ToN2(t: Trio)
    requires t.Valid()
    ensures StepTo(t.World(), N1(t), Joins(Invitation(t)), N2(t))
  {
    BIsInvited(t);
  }

  lemma ToN3(t: Trio)
    requires t.Valid()
    ensures StepTo(t.World(), N2(t), Subscribes(t.b), N3(t))
  {
    SubscribesChanges(t.World(), N2(t), t.b);
    assert N2(t).AckedAt(1) == {};
  }

  lemma ToN4(t: Trio)
    requires t.Valid()
    ensures StepTo(t.World(), N3(t), Subscribes(t.a), N4(t))
  {
    SubscribesChanges(t.World(), N3(t), t.a);
    assert N3(t).AckedAt(1) == {t.b};
  }

  // ---------------------------------------------------------------- the run

  ghost predicate CarefullyTo(w: World, run: seq<Step>, net: Net) {
    w.Valid() && CanRun(w, Start(w), run) && Careful(w, Start(w), run) && End(w, Start(w), run) == net
  }

  lemma CarefullyExtended(w: World, run: seq<Step>, net: Net, step: Step, net': Net)
    requires CarefullyTo(w, run, net) && StepTo(w, net, step, net') && CarefulStep(w, net, step)
    ensures CarefullyTo(w, run + [step], net')
  {
    CarefulAppend(w, Start(w), run, step);
  }

  lemma ToTheEnd(t: Trio) returns (run: seq<Step>)
    requires t.Valid()
    ensures CarefullyTo(t.World(), run, N4(t))
  {
    var w := t.World();
    ToN1(t);
    ToN2(t);
    ToN3(t);
    ToN4(t);
    run := [];
    CarefullyExtended(w, run, Start(w), Commits(t.a, Invite(t.b), LOW), N1(t));
    run := run + [Commits(t.a, Invite(t.b), LOW)];
    CarefullyExtended(w, run, N1(t), Joins(Invitation(t)), N2(t));
    run := run + [Joins(Invitation(t))];
    CarefullyExtended(w, run, N2(t), Subscribes(t.b), N3(t));
    run := run + [Subscribes(t.b)];
    CarefullyExtended(w, run, N3(t), Subscribes(t.a), N4(t));
    run := run + [Subscribes(t.a)];
  }

  lemma EndIsDeaf(t: Trio, past: seq<Moment>)
    requires t.Valid() && Sound(past, N4(t).s)
    ensures past[1].winner == t.a && Deaf(N4(t), past)
  {
    assert GoodNode(past, N4(t).s, t.a);
    assert Behind(N4(t), t.a) - {t.a} == {t.b};
    OneOther(t.b, t.a);
  }

  /** A member is drawn and nobody has missed anything, but no commit ever follows. */
  lemma GroupFallsSilent(t: Trio) returns (run: seq<Step>, past: seq<Moment>)
    requires t.Valid()
    ensures var w := t.World();
            && w.Valid() && CanRun(w, Start(w), run) && Careful(w, Start(w), run)
            && Chronicle(w, End(w, Start(w), run).s.log, past) && past[|past| - 1].winner == t.a
            && (forall n :: !HasMissed(End(w, Start(w), run), n))
            && !exists more :: GoesOn(w, End(w, Start(w), run), more)
  {
    var w, late := t.World(), NOBODY;
    run := ToTheEnd(t);
    past, late := DisciplineHolds(w, run);
    EndIsDeaf(t, past);
    GroupGoesOn(w, run, past);
  }
}
