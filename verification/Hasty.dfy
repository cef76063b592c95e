/**
 Two runs that are not guarded. In the first, a joiner that wins the draw commits before it is subscribed, and misses
 the next commit. In the second, only the creator's first commit is made too early; its late acknowledgement is then
 counted for somebody else's, the token does not wait for a joiner, and the joiner misses a commit.
 */
module Hasty {
  import opened Basics
  import opened Slots
  import opened History
  import opened Client
  import opened Protocol
  import opened Split
  import opened Subscriptions
  import opened Turns

  /** With this hash the smallest number is drawn. */
  const LOW: Bytes := [1]

  lemma LowDraw(slots: seq<Name>, total: nat)
    requires |slots| == 3 && total >= 1
    ensures Elects(THREE_SLOTS, TOP, slots, LOW, total, []) && Elected(THREE_SLOTS, TOP, slots, LOW, total, []) == 0
    ensures Grown(THREE_SLOTS, TOP, slots, LOW, total, []).0 == slots
  {
    var (next, rng) := Grown(THREE_SLOTS, TOP, slots, LOW, total, []);
    assert rng == Rng(SeedArray(LOW), []) && SeedArray(LOW)[0] == 1;
    assert Acceptable(next, [], Roll(TOP, rng, Min(2, total), 0));
  }

  lemma LowReact(me: Name, slots: seq<Name>, total: nat)
    requires |slots| == 3 && total >= 1 && me in slots
    ensures Responds(THREE_SLOTS, TOP, me, slots, LOW, total, [])
    ensures React(THREE_SLOTS, TOP, me, slots, 0, LOW, total, [])
            == Reaction(slots, 0, if FirstIndex(slots, me) == 0 then Commit else Listen)
  {
    LowDraw(slots, total);
  }

  /** A client of the group of two commits an update: A gets the next token, B does not. */
  lemma Updates(t: Trio, me: Name, epoch: nat)
    requires t.Valid() && me in {t.a, t.b}
    ensures var r := Replica(true, epoch, {t.a, t.b}, t.Two(), 0);
            && CanConfirm(THREE_SLOTS, TOP, me, r, Update, LOW)
            && Confirm(THREE_SLOTS, TOP, me, r, Update, LOW)
               == (Replica(true, epoch + 1, {t.a, t.b}, t.Two(), 0), if me == t.a then Commit else Listen)
  {
    TableFacts(t);
    IndexFacts(t);
    LowReact(me, t.Two(), 2);
    assert Changed({t.a, t.b}, Update) == {t.a, t.b};
  }

  /** B commits an update in the group of three. */
  lemma BUpdates(t: Trio)
    requires t.Valid()
    ensures var r := Replica(true, 2, {t.a, t.b, t.c}, t.All(), 0);
            && CanConfirm(THREE_SLOTS, TOP, t.b, r, Update, LOW)
            && Confirm(THREE_SLOTS, TOP, t.b, r, Update, LOW) == (Replica(true, 3, {t.a, t.b, t.c}, t.All(), 0), Listen)
  {
    TableFacts(t);
    IndexFacts(t);
    Three(t);
    LowReact(t.b, t.All(), 3);
    assert Changed({t.a, t.b, t.c}, Update) == {t.a, t.b, t.c};
  }

  /** A processes B's update. */
  lemma AProcesses(t: Trio)
    requires t.Valid()
    ensures var r, e := Replica(true, 1, {t.a, t.b}, t.Two(), 0), Entry(1, t.b, Update, LOW);
            && CanProcess(THREE_SLOTS, TOP, t.a, r, e)
            && Process(THREE_SLOTS, TOP, t.a, r, e) == (Replica(true, 2, {t.a, t.b}, t.Two(), 0), Commit)
  {
    TableFacts(t);
    IndexFacts(t);
    LowReact(t.a, t.Two(), 2);
    assert Changed({t.a, t.b}, Update) == {t.a, t.b};
  }

  lemma NoWelcomes(r: Replica)
    ensures WelcomesOf(r, Update, LOW) == {}
  {
  }

  // ---------------------------------------------------------------- building runs

  ghost predicate StepTo(w: World, net: Net, step: Step, net': Net) {
    MayStep(w, net, step) && net' == Take(w, net, step)
  }

  /** The run leads from the start to this state. */
  ghost predicate LeadsTo(w: World, run: seq<Step>, net: Net) {
    w.Valid() && CanRun(w, Start(w), run) && End(w, Start(w), run) == net
  }

  lemma Extended(w: World, run: seq<Step>, net: Net, step: Step, net': Net)
    requires LeadsTo(w, run, net) && StepTo(w, net, step, net')
    ensures LeadsTo(w, run + [step], net')
  {
    Single(w, net, step);
    RunAppend(w, Start(w), run, [step]);
  }

  ghost function WelcomeB(t: Trio): Welcome {
    Welcome(t.b, 1, {t.a, t.b}, [], t.Alone(), [t.b])
  }

  ghost function WelcomeC(t: Trio): Welcome {
    Welcome(t.c, 2, {t.a, t.b, t.c}, [], t.Two(), [t.c])
  }

  // ---------------------------------------------------------------- the joiner that is too early

  /** B has committed, but is not subscribed. */
  ghost function H3(t: Trio): State {
    S2(t).(log := S1(t).log + [Entry(1, t.b, Update, LOW)],
           nodes := S2(t).nodes[t.b := Node(Replica(true, 2, {t.a, t.b}, t.Two(), 0), 1)],
           tokens := multiset{})
  }

  /** A has got its own commit back. */
  ghost function H4(t: Trio): State {
    H3(t).(nodes := H3(t).nodes[t.a := Node(Replica(true, 1, {t.a, t.b}, t.Two(), 0), 1)])
  }

  /** A has processed B's commit. */
  ghost function H5(t: Trio): State {
    H4(t).(nodes := H4(t).nodes[t.a := Node(Replica(true, 2, {t.a, t.b}, t.Two(), 0), 2)],
           tokens := multiset{t.a}, grants := H4(t).grants + [Grant(2, t.a)])
  }

  /** A has committed. */
  ghost function H6(t: Trio): State {
    H5(t).(log := H3(t).log + [Entry(2, t.a, Update, LOW)],
           nodes := H5(t).nodes[t.a := Node(Replica(true, 3, {t.a, t.b}, t.Two(), 0), 2)],
           grants := H5(t).grants + [Grant(3, t.a)])
  }

  lemma ToH3(t: Trio)
    requires t.Valid()
    ensures Enabled(t.World(), S2(t), Committed(t.b, Update, LOW)) && Uniform(S2(t).nodes[t.b].r.slots, Update)
    ensures Apply(t.World(), S2(t), Committed(t.b, Update, LOW)) == H3(t)
  {
    Updates(t, t.b, 1);
    NoWelcomes(S2(t).nodes[t.b].r);
    Committing(t.World(), S2(t), t.b, Update, LOW, H3(t).nodes[t.b].r, Listen);
  }

  lemma ToH4(t: Trio)
    requires t.Valid()
    ensures Enabled(t.World(), H3(t), Delivered(t.a)) && Apply(t.World(), H3(t), Delivered(t.a)) == H4(t)
  {
  }

  lemma ToH5(t: Trio)
    requires t.Valid()
    ensures Enabled(t.World(), H4(t), Delivered(t.a)) && Apply(t.World(), H4(t), Delivered(t.a)) == H5(t)
  {
    AProcesses(t);
    assert Concerns(H4(t), t.a);
    ApplyDelivered(t.World(), H4(t), t.a, H5(t).nodes[t.a].r, Commit);
  }

  lemma ToH6(t: Trio)
    requires t.Valid()
    ensures Enabled(t.World(), H5(t), Committed(t.a, Update, LOW)) && Uniform(H5(t).nodes[t.a].r.slots, Update)
    ensures Apply(t.World(), H5(t), Committed(t.a, Update, LOW)) == H6(t)
  {
    Updates(t, t.a, 2);
    NoWelcomes(H5(t).nodes[t.a].r);
    Committing(t.World(), H5(t), t.a, Update, LOW, H6(t).nodes[t.a].r, Commit);
  }

  /** A is subscribed, B is not. */
  ghost function Early(t: Trio, s: State, gone: map<Name, set<Name>>): Net {
    Net(t.a, s, {t.a}, {Ack(t.a, 0)}, gone)
  }

  lemma EarlyStart(t: Trio)
    requires t.Valid()
    ensures t.World().Valid() && StepTo(t.World(), Start(t.World()), Subscribes(t.a), Early(t, S0(t), map[t.a := {}]))
  {
    Step0(t);
    var net := Start(t.World());
    SubscribesChanges(t.World(), net, t.a);
    assert net.AckedAt(0) == {};
  }

  lemma EarlyCommits(t: Trio)
    requires t.Valid()
    ensures StepTo(t.World(), Early(t, S0(t), map[t.a := {}]), Commits(t.a, Invite(t.b), []),
                   Early(t, S1(t), map[t.a := {}]))
  {
    Step1(t);
  }

  lemma EarlyJoins(t: Trio)
    requires t.Valid()
    ensures StepTo(t.World(), Early(t, S1(t), map[t.a := {}]), Joins(WelcomeB(t)),
                   Early(t, S2(t), map[t.a := {}, t.b := {}]))
  {
    Step2(t);
  }

  lemma EarlyUpdates(t: Trio, gone: map<Name, set<Name>>)
    requires t.Valid()
    ensures StepTo(t.World(), Early(t, S2(t), gone), Commits(t.b, Update, LOW), Early(t, H3(t), gone))
    ensures StepTo(t.World(), Early(t, H5(t), gone), Commits(t.a, Update, LOW), Early(t, H6(t), gone))
  {
    ToH3(t);
    ToH6(t);
  }

  lemma EarlyDelivers(t: Trio, gone: map<Name, set<Name>>)
    requires t.Valid() && gone == map[t.a := {}, t.b := {}]
    ensures StepTo(t.World(), Early(t, H3(t), gone), Delivers(t.a), Early(t, H4(t), gone))
  {
    ToH4(t);
    assert gone[t.a := {}] == gone;
  }

  lemma EarlyDeliversAgain(t: Trio, gone: map<Name, set<Name>>)
    requires t.Valid() && gone == map[t.a := {}, t.b := {}]
    ensures StepTo(t.World(), Early(t, H4(t), gone), Delivers(t.a), Early(t, H5(t), gone))
  {
    ToH5(t);
    assert gone[t.a := {}] == gone;
  }

  /** The late subscription of a client that others have overtaken. */
  lemma TooLate(w: World, net: Net, n: Name)
    requires n in net.s.nodes && n !in net.subscribed && net.s.nodes[n].r.live && net.s.nodes[n].cursor <= |net.s.log|
    requires net.s.nodes[n].r.epoch < |net.s.log| && net.s.log[net.s.nodes[n].r.epoch].author != n
    ensures MayStep(w, net, Subscribes(n)) && HasMissed(Take(w, net, Subscribes(n)), n)
  {
    SubscribesChanges(w, net, n);
  }

  lemma JoinerStart(t: Trio) returns (run: seq<Step>)
    requires t.Valid()
    ensures LeadsTo(t.World(), run, Early(t, H3(t), map[t.a := {}, t.b := {}]))
  {
    var w, gone := t.World(), map[t.a := {}, t.b := {}];
    EarlyStart(t);
    EarlyCommits(t);
    EarlyJoins(t);
    EarlyUpdates(t, gone);
    run := [];
    Extended(w, run, Start(w), Subscribes(t.a), Early(t, S0(t), map[t.a := {}]));
    run := run + [Subscribes(t.a)];
    Extended(w, run, Early(t, S0(t), map[t.a := {}]), Commits(t.a, Invite(t.b), []), Early(t, S1(t), map[t.a := {}]));
    run := run + [Commits(t.a, Invite(t.b), [])];
    Extended(w, run, Early(t, S1(t), map[t.a := {}]), Joins(WelcomeB(t)), Early(t, S2(t), gone));
    run := run + [Joins(WelcomeB(t))];
    Extended(w, run, Early(t, S2(t), gone), Commits(t.b, Update, LOW), Early(t, H3(t), gone));
    run := run + [Commits(t.b, Update, LOW)];
  }

  /** B wins the draw when it joins, commits before it is subscribed, and misses the commit after its own. */
  lemma HastyJoinerMissesACommit(t: Trio) returns (run: seq<Step>)
    requires t.Valid()
    ensures t.World().Valid() && CanRun(t.World(), Start(t.World()), run)
    ensures HasMissed(End(t.World(), Start(t.World()), run), t.b)
  {
    var w, net := t.World(), Early(t, H6(t), map[t.a := {}, t.b := {}]);
    run := JoinerMiddle(t);
    TooLate(w, net, t.b);
    Extended(w, run, net, Subscribes(t.b), Take(w, net, Subscribes(t.b)));
    run := run + [Subscribes(t.b)];
  }

  lemma JoinerMiddle(t: Trio) returns (run: seq<Step>)
    requires t.Valid()
    ensures LeadsTo(t.World(), run, Early(t, H6(t), map[t.a := {}, t.b := {}]))
  {
    var w, gone := t.World(), map[t.a := {}, t.b := {}];
    EarlyDelivers(t, gone);
    EarlyDeliversAgain(t, gone);
    EarlyUpdates(t, gone);
    run := JoinerStart(t);
    Extended(w, run, Early(t, H3(t), gone), Delivers(t.a), Early(t, H4(t), gone));
    run := run + [Delivers(t.a)];
    Extended(w, run, Early(t, H4(t), gone), Delivers(t.a), Early(t, H5(t), gone));
    run := run + [Delivers(t.a)];
    Extended(w, run, Early(t, H5(t), gone), Commits(t.a, Update, LOW), Early(t, H6(t), gone));
    run := run + [Commits(t.a, Update, LOW)];
  }

  // ---------------------------------------------------------------- the creator that is too early

  /** A has got its subscription, too late to get its own commit. */
  ghost function K4(t: Trio): State {
    S2(t).(nodes := S2(t).nodes[t.a := Node(Replica(true, 1, {t.a, t.b}, t.Two(), 0), 1)])
  }

  /** B has invited C and waits for one acknowledgement. */
  ghost function K5(t: Trio): State {
    K4(t).(log := S1(t).log + [Entry(1, t.b, Invite(t.c), [])],
           nodes := K4(t).nodes[t.b := Node(Replica(true, 2, {t.a, t.b, t.c}, t.All(), 1), 1)],
           welcomes := {WelcomeC(t)}, tokens := multiset{})
  }

  /** B has taken A's acknowledgement for C's. */
  ghost function K6(t: Trio): State {
    K5(t).(nodes := K5(t).nodes[t.b := Node(Replica(true, 2, {t.a, t.b, t.c}, t.All(), 0), 1)],
           tokens := multiset{t.b}, grants := K5(t).grants + [Grant(2, t.b)])
  }

  /** B has committed again. */
  ghost function K7(t: Trio): State {
    K6(t).(log := K5(t).log + [Entry(2, t.b, Update, LOW)],
           nodes := K6(t).nodes[t.b := Node(Replica(true, 3, {t.a, t.b, t.c}, t.All(), 0), 1)],
           tokens := multiset{})
  }

  /** C has processed its Welcome. */
  ghost function K8(t: Trio): State {
    K7(t).(nodes := K7(t).nodes[t.c := Node(Replica(true, 2, {t.a, t.b, t.c}, t.All(), 0), 3)], welcomes := {})
  }

  lemma InvitePublished(t: Trio)
    requires t.Valid()
    ensures Put(Published(K4(t), t.b, Invite(t.c), []), t.b, K5(t).nodes[t.b], Listen) == K5(t)
  {
    var r := K4(t).nodes[t.b].r;
    WithC(t);
    assert WelcomesOf(r, Invite(t.c), []) == K5(t).welcomes;
  }

  lemma ToK5(t: Trio)
    requires t.Valid()
    ensures Enabled(t.World(), K4(t), Committed(t.b, Invite(t.c), []))
    ensures Apply(t.World(), K4(t), Committed(t.b, Invite(t.c), [])) == K5(t)
  {
    BInvitesC(t);
    Committing(t.World(), K4(t), t.b, Invite(t.c), [], K5(t).nodes[t.b].r, Listen);
    InvitePublished(t);
  }

  lemma ToK6(t: Trio)
    requires t.Valid()
    ensures Enabled(t.World(), K5(t), Acked(t.b, t.a)) && Apply(t.World(), K5(t), Acked(t.b, t.a)) == K6(t)
  {
  }

  lemma ToK7(t: Trio)
    requires t.Valid()
    ensures Enabled(t.World(), K6(t), Committed(t.b, Update, LOW)) && Uniform(K6(t).nodes[t.b].r.slots, Update)
    ensures Apply(t.World(), K6(t), Committed(t.b, Update, LOW)) == K7(t)
  {
    BUpdates(t);
    NoWelcomes(K6(t).nodes[t.b].r);
    Committing(t.World(), K6(t), t.b, Update, LOW, K7(t).nodes[t.b].r, Listen);
  }

  lemma ToK8(t: Trio)
    requires t.Valid()
    ensures Enabled(t.World(), K7(t), Joined(WelcomeC(t))) && Apply(t.World(), K7(t), Joined(WelcomeC(t))) == K8(t)
  {
    CJoins(t);
  }

  /** A and B are subscribed, in this order of the acknowledgements: first B's, then A's. */
  ghost function Both(t: Trio, s: State, gone: map<Name, set<Name>>): Net {
    Net(t.a, s, {t.a, t.b}, {Ack(t.b, 1), Ack(t.a, 1)}, gone)
  }

  lemma CreatorCommits(t: Trio)
    requires t.Valid()
    ensures t.World().Valid()
    ensures StepTo(t.World(), Start(t.World()), Commits(t.a, Invite(t.b), []), Net(t.a, S1(t), {}, {}, map[]))
  {
    Step0(t);
    Step1(t);
  }

  lemma BArrives(t: Trio)
    requires t.Valid()
    ensures StepTo(t.World(), Net(t.a, S1(t), {}, {}, map[]), Joins(WelcomeB(t)),
                   Net(t.a, S2(t), {}, {}, map[t.b := {}]))
  {
    Step2(t);
  }

  lemma BSubscribes(t: Trio)
    requires t.Valid()
    ensures StepTo(t.World(), Net(t.a, S2(t), {}, {}, map[t.b := {}]), Subscribes(t.b),
                   Net(t.a, S2(t), {t.b}, {Ack(t.b, 1)}, map[t.b := {}]))
  {
    var net := Net(t.a, S2(t), {}, {}, map[t.b := {}]);
    SubscribesChanges(t.World(), net, t.b);
    assert net.AckedAt(1) == {};
  }

  lemma ASubscribes(t: Trio)
    requires t.Valid()
    ensures StepTo(t.World(), Net(t.a, S2(t), {t.b}, {Ack(t.b, 1)}, map[t.b := {}]), Subscribes(t.a),
                   Both(t, K4(t), map[t.b := {}, t.a := {t.b}]))
  {
    var net := Net(t.a, S2(t), {t.b}, {Ack(t.b, 1)}, map[t.b := {}]);
    SubscribesChanges(t.World(), net, t.a);
    assert net.AckedAt(1) == {t.b};
  }

  lemma BCommits(t: Trio, gone: map<Name, set<Name>>)
    requires t.Valid()
    ensures StepTo(t.World(), Both(t, K4(t), gone), Commits(t.b, Invite(t.c), []), Both(t, K5(t), gone))
    ensures StepTo(t.World(), Both(t, K6(t), gone), Commits(t.b, Update, LOW), Both(t, K7(t), gone))
  {
    ToK5(t);
    ToK7(t);
  }

  lemma BHears(t: Trio)
    requires t.Valid()
    ensures StepTo(t.World(), Both(t, K5(t), map[t.b := {}, t.a := {t.b}]), Hears(t.b, t.a),
                   Both(t, K6(t), map[t.b := {t.a}, t.a := {t.b}]))
  {
    ToK6(t);
    var net := Both(t, K5(t), map[t.b := {}, t.a := {t.b}]);
    assert net.Gone(t.b) + {t.a} == {t.a};
    assert net.gone[t.b := {t.a}] == map[t.b := {t.a}, t.a := {t.b}];
  }

  lemma CArrives(t: Trio)
    requires t.Valid()
    ensures StepTo(t.World(), Both(t, K7(t), map[t.b := {t.a}, t.a := {t.b}]), Joins(WelcomeC(t)),
                   Both(t, K8(t), map[t.b := {t.a}, t.a := {t.b}, t.c := {}]))
  {
    ToK8(t);
  }

  lemma {:induction false} PatientAppend(w: World, net: Net, run: seq<Step>, step: Step)
    requires CanRun(w, net, run) && Patient(w, net, run) && MayStep(w, End(w, net, run), step)
    requires step.Commits? ==> step.name in End(w, net, run).subscribed
    ensures CanRun(w, net, run + [step]) && Patient(w, net, run + [step])
    ensures End(w, net, run + [step]) == Take(w, End(w, net, run), step)
    decreases |run|
  {
    if run == [] {
      assert run + [step] == [step];
      Single(w, net, step);
    } else {
      Tail(run, [step]);
      PatientAppend(w, Take(w, net, run[0]), run[1..], step);
    }
  }

  /** Patient steps from one state to another. */
  ghost predicate PatientlyTo(w: World, net: Net, run: seq<Step>, net': Net) {
    CanRun(w, net, run) && Patient(w, net, run) && End(w, net, run) == net'
  }

  lemma PatientlyExtended(w: World, net: Net, run: seq<Step>, mid: Net, step: Step, net': Net)
    requires PatientlyTo(w, net, run, mid) && StepTo(w, mid, step, net')
    requires step.Commits? ==> step.name in mid.subscribed
    ensures PatientlyTo(w, net, run + [step], net')
  {
    PatientAppend(w, net, run, step);
  }

  lemma CreatorStart(t: Trio) returns (run: seq<Step>)
    requires t.Valid()
    ensures PatientlyTo(t.World(), Net(t.a, S1(t), {}, {}, map[]), run, Both(t, K5(t), map[t.b := {}, t.a := {t.b}]))
  {
    var w := t.World();
    var n1, n2 := Net(t.a, S1(t), {}, {}, map[]), Net(t.a, S2(t), {}, {}, map[t.b := {}]);
    var n3, n4 := Net(t.a, S2(t), {t.b}, {Ack(t.b, 1)}, map[t.b := {}]), Both(t, K4(t), map[t.b := {}, t.a := {t.b}]);
    BArrives(t);
    BSubscribes(t);
    ASubscribes(t);
    BCommits(t, map[t.b := {}, t.a := {t.b}]);
    run := [];
    PatientlyExtended(w, n1, run, n1, Joins(WelcomeB(t)), n2);
    run := run + [Joins(WelcomeB(t))];
    PatientlyExtended(w, n1, run, n2, Subscribes(t.b), n3);
    run := run + [Subscribes(t.b)];
    PatientlyExtended(w, n1, run, n3, Subscribes(t.a), n4);
    run := run + [Subscribes(t.a)];
    PatientlyExtended(w, n1, run, n4, Commits(t.b, Invite(t.c), []), Both(t, K5(t), map[t.b := {}, t.a := {t.b}]));
    run := run + [Commits(t.b, Invite(t.c), [])];
  }

  lemma CreatorEnd(t: Trio) returns (run: seq<Step>)
    requires t.Valid()
    ensures var w, n1 := t.World(), Net(t.a, S1(t), {}, {}, map[]);
            CanRun(w, n1, run) && Patient(w, n1, run) && HasMissed(End(w, n1, run), t.c)
  {
    var w, n1 := t.World(), Net(t.a, S1(t), {}, {}, map[]);
    run := CreatorMiddle(t);
    var net := Both(t, K8(t), map[t.b := {t.a}, t.a := {t.b}, t.c := {}]);
    TooLate(w, net, t.c);
    PatientlyExtended(w, n1, run, net, Subscribes(t.c), Take(w, net, Subscribes(t.c)));
    run := run + [Subscribes(t.c)];
  }

  lemma CreatorMiddle(t: Trio) returns (run: seq<Step>)
    requires t.Valid()
    ensures PatientlyTo(t.World(), Net(t.a, S1(t), {}, {}, map[]), run,
                        Both(t, K8(t), map[t.b := {t.a}, t.a := {t.b}, t.c := {}]))
  {
    var w, n1 := t.World(), Net(t.a, S1(t), {}, {}, map[]);
    var gone := map[t.b := {t.a}, t.a := {t.b}];
    BHears(t);
    BCommits(t, gone);
    CArrives(t);
    run := CreatorStart(t);
    PatientlyExtended(w, n1, run, Both(t, K5(t), map[t.b := {}, t.a := {t.b}]), Hears(t.b, t.a), Both(t, K6(t), gone));
    run := run + [Hears(t.b, t.a)];
    PatientlyExtended(w, n1, run, Both(t, K6(t), gone), Commits(t.b, Update, LOW), Both(t, K7(t), gone));
    run := run + [Commits(t.b, Update, LOW)];
    PatientlyExtended(w, n1, run, Both(t, K7(t), gone), Joins(WelcomeC(t)), Both(t, K8(t), gone[t.c := {}]));
    run := run + [Joins(WelcomeC(t))];
  }

  /** A commits before it is subscribed, and everybody is patient from then on; C misses a commit. */
  lemma HastyCreatorCostsAJoiner(t: Trio) returns (run: seq<Step>)
    requires t.Valid()
    ensures var w, first := t.World(), Commits(t.a, Invite(t.b), []);
            && w.Valid() && MayStep(w, Start(w), first)
            && var net := Take(w, Start(w), first);
            && CanRun(w, net, run) && Patient(w, net, run) && HasMissed(End(w, net, run), t.c)
  {
    CreatorCommits(t);
    run := CreatorEnd(t);
  }
}
