/**
 Runs of the orchestrated commit protocol over one group. Commits are published in a total order
 (the group's topic); every client consumes them at its own pace and may miss any of them; each Welcome
 arrives once, at any time, but a client's Welcomes arrive in the order they were sent; acknowledgements may
 arrive at any time, any number of times, from anybody.
 In every such run all replicas agree, and at most one commit token is ever granted per epoch, provided that no
 batch of proposals removes an active member (`UniformRun`).
 */
module Protocol {
  import opened Basics
  import opened Slots
  import opened Reservoir
  import opened History
  import opened Client

  /** A client's replica and how many of the published commits have been delivered to it. */
  datatype Node = Node(r: Replica, cursor: nat)

  /** A token for the commit of one epoch, sent to the agent of one client. */
  datatype Grant = Grant(epoch: nat, name: Name)

  datatype State = State(
    log: seq<Entry>,
    nodes: map<Name, Node>,
    welcomes: set<Welcome>,
    tokens: multiset<Name>,
    grants: seq<Grant>)

  datatype Event =
    | Committed(name: Name, action: Action, hash: Bytes)
    | Delivered(name: Name)
    | Missed(name: Name, to: nat)
    | Joined(welcome: Welcome)
    | Acked(name: Name, sender: Name)

  // ---------------------------------------------------------------- steps

  /** The state in which a group was created: the creator holds the first token. */
  ghost function Init(w: World): State
    requires w.Valid()
  {
    var slots := Grown(w.p, w.draw, Resize([], w.p.processers), w.genesis, 1, [w.creator]).0;
    State([], map[w.creator := Node(Replica(true, 0, {w.creator}, slots, 0), 0)], {},
          multiset{w.creator}, [Grant(0, w.creator)])
  }

  ghost predicate Enabled(w: World, s: State, ev: Event) {
    match ev
    case Committed(n, a, hash) =>
      && n in s.tokens && n in s.nodes && s.nodes[n].r.live
      && Admissible(s.nodes[n].r.members, Entry(s.nodes[n].r.epoch, n, a, hash))
      && CanConfirm(w.p, w.draw, n, s.nodes[n].r, a, hash)
    case Delivered(n) =>
      && n in s.nodes && s.nodes[n].r.live && s.nodes[n].cursor < |s.log|
      && (Concerns(s, n) ==> CanProcess(w.p, w.draw, n, s.nodes[n].r, s.log[s.nodes[n].cursor]))
    case Missed(n, to) => n in s.nodes && s.nodes[n].cursor <= to <= |s.log|
    case Joined(m) =>
      && m in s.welcomes && CanJoin(w.p, w.draw, m)
      && (forall m' | m' in s.welcomes && m'.to == m.to :: m.epoch <= m'.epoch)
    case Acked(n, sender) => n in s.nodes
  }

  /** The next commit for n is somebody else's and is for n's epoch; others are ignored. */
  ghost predicate Concerns(s: State, n: Name)
    requires n in s.nodes && s.nodes[n].cursor < |s.log|
  {
    var e := s.log[s.nodes[n].cursor];
    e.author != n && e.epoch == s.nodes[n].r.epoch
  }

  /** A client processes the next commit that is delivered to it. */
  ghost function Processed(w: World, s: State, n: Name): (Replica, NextAction)
    requires Enabled(w, s, Delivered(n)) && Concerns(s, n)
  {
    Process(w.p, w.draw, n, s.nodes[n].r, s.log[s.nodes[n].cursor])
  }

  /** The Welcomes of a commit carry the committer's table as it was before the commit. */
  ghost function WelcomesOf(r: Replica, a: Action, hash: Bytes): set<Welcome> {
    set x | x in Added(a) :: Welcome(x, r.epoch + 1, NewMembers(r, a), hash, r.slots, Added(a))
  }

  /** Put a node in place and, if it signals Commit, grant it a token. */
  ghost function Put(s: State, n: Name, node: Node, action: NextAction): State {
    s.(nodes := s.nodes[n := node],
       tokens := if action == Commit then s.tokens + multiset{n} else s.tokens,
       grants := if action == Commit then s.grants + [Grant(node.r.epoch, n)] else s.grants)
  }

  ghost function Apply(w: World, s: State, ev: Event): State
    requires Enabled(w, s, ev)
  {
    match ev
    case Committed(n, a, hash) =>
      var r := s.nodes[n].r;
      var (next, action) := Confirm(w.p, w.draw, n, r, a, hash);
      Put(s.(log := s.log + [Entry(r.epoch, n, a, hash)],
             welcomes := s.welcomes + WelcomesOf(r, a, hash),
             tokens := s.tokens - multiset{n}),
          n, s.nodes[n].(r := next), action)
    case Delivered(n) =>
      var node := s.nodes[n];
      if Concerns(s, n) then
        var (next, action) := Processed(w, s, n);
        Put(s, n, Node(next, node.cursor + 1), action)
      else
        Put(s, n, node.(cursor := node.cursor + 1), Listen)
    case Missed(n, to) => Put(s, n, s.nodes[n].(cursor := to), Listen)
    case Joined(m) =>
      var (next, action) := Join(w.p, w.draw, m);
      Put(s.(welcomes := s.welcomes - {m}), m.to, Node(next, |s.log|), action)
    case Acked(n, sender) =>
      var (next, action) := Acknowledge(n, s.nodes[n].r, sender);
      Put(s, n, s.nodes[n].(r := next), action)
  }

  /** The events can happen in this order. */
  ghost predicate Feasible(w: World, run: seq<Event>)
    decreases |run|, 0
  {
    w.Valid() &&
    (run != [] ==>
       && Feasible(w, run[..|run| - 1])
       && Enabled(w, After(w, run[..|run| - 1]), run[|run| - 1]))
  }

  ghost function After(w: World, run: seq<Event>): State
    requires Feasible(w, run)
    decreases |run|, 1
  {
    if run == [] then Init(w)
    else Apply(w, After(w, run[..|run| - 1]), run[|run| - 1])
  }

  /** A batch of proposals removes nobody from the committer's table. */
  predicate Uniform(slots: seq<Name>, a: Action) {
    a.Batch? ==> forall x | x in a.removed :: x !in slots
  }

  /** Every commit of the run is uniform. `Split.BatchRemovalSplitsTheToken` is a run that is not. */
  ghost predicate UniformRun(w: World, run: seq<Event>)
    requires Feasible(w, run)
  {
    run != [] ==>
      var s, last := After(w, run[..|run| - 1]), run[|run| - 1];
      && UniformRun(w, run[..|run| - 1])
      && (last.Committed? ==> Uniform(s.nodes[last.name].r.slots, last.action))
  }

  // ---------------------------------------------------------------- the invariant

  /** A commit was made in its own epoch, by the member whose turn it was. */
  ghost predicate GoodEntry(past: seq<Moment>, log: seq<Entry>, i: nat)
    requires |past| == |log| + 1 && i < |log|
  {
    && log[i].epoch == i && log[i].author == past[i].winner
    && Admissible(past[i].members, log[i]) && Uniform(past[i].slots, log[i].action)
  }

  /** A live replica is exactly the history's state at its epoch; a waiting one is the next committer. */
  ghost predicate GoodNode(past: seq<Moment>, s: State, n: Name)
    requires |past| == |s.log| + 1 && n in s.nodes
  {
    var node := s.nodes[n];
    var r := node.r;
    && n != NOBODY && r.epoch <= |s.log| && node.cursor <= |s.log|
    && (r.live ==> Agrees(past, n, r))
    && (r.pending > 0 ==> Due(past, s, n, r))
    && (r.live && r.epoch == |s.log| && n == past[|s.log|].winner ==> r.pending > 0 || Grant(|s.log|, n) in s.grants)
    && (forall m | m in s.welcomes && m.to == n :: r.epoch < m.epoch)
  }

  ghost predicate Agrees(past: seq<Moment>, n: Name, r: Replica)
    requires r.epoch < |past|
  {
    r.members == past[r.epoch].members && r.slots == past[r.epoch].slots && n in r.members
  }

  /** It is n's turn, n stands at the present epoch, and its token has not been granted yet. */
  ghost predicate Due(past: seq<Moment>, s: State, n: Name, r: Replica)
    requires |past| == |s.log| + 1
  {
    && r.live && r.epoch == |s.log| && n == past[|s.log|].winner
    && (forall g | g in s.grants :: g.epoch != |s.log|)
  }

  ghost predicate GoodWelcome(past: seq<Moment>, log: seq<Entry>, m: Welcome)
    requires |past| == |log| + 1
  {
    && 1 <= m.epoch <= |log| && m.to in m.names
    && m.names == Added(log[m.epoch - 1].action) && m.hash == log[m.epoch - 1].hash
    && m.members == past[m.epoch].members && m.snapshot == past[m.epoch - 1].slots
  }

  ghost predicate GoodToken(past: seq<Moment>, s: State, n: Name)
    requires |past| == |s.log| + 1
  {
    && s.tokens[n] == 1 && n in s.nodes && n == past[|s.log|].winner
    && s.nodes[n].r.live && s.nodes[n].r.epoch == |s.log| && s.nodes[n].r.pending == 0
    && Grant(|s.log|, n) in s.grants
  }

  ghost predicate GoodGrant(past: seq<Moment>, s: State, g: Grant) {
    && g.name in s.nodes && g.epoch <= s.nodes[g.name].r.epoch
    && g.epoch < |past| && g.name == past[g.epoch].winner
    && (g.epoch == |s.log| ==> g.name in s.tokens)
  }

  ghost predicate DistinctEpochs(grants: seq<Grant>) {
    forall i, j | 0 <= i < j < |grants| :: grants[i].epoch != grants[j].epoch
  }

  ghost predicate Sound(past: seq<Moment>, s: State) {
    && |past| == |s.log| + 1
    && (forall i | 0 <= i < |s.log| :: GoodEntry(past, s.log, i))
    && (forall n | n in s.nodes :: GoodNode(past, s, n))
    && (forall m | m in s.welcomes :: GoodWelcome(past, s.log, m))
    && (forall n | n in s.tokens :: GoodToken(past, s, n))
    && (forall g | g in s.grants :: GoodGrant(past, s, g))
    && (forall i | 0 <= i < |s.log| :: Grant(i, s.log[i].author) in s.grants)
    && DistinctEpochs(s.grants)
  }

  /** The invariant of all runs, for the group's history so far. */
  ghost predicate Inv(w: World, s: State, past: seq<Moment>) {
    Chronicle(w, s.log, past) && Sound(past, s)
  }

  // ---------------------------------------------------------------- a replica computes the history's next moment

  /** A reaction to the commit that led to this moment. */
  ghost predicate Reacted(now: Moment, names: seq<Name>, me: Name, r: Reaction) {
    && r.slots == now.slots
    && (r.action != Inactive && me == now.winner ==> r.pending == Others(names, me))
    && (r.pending > 0 || r.action == Commit <==> r.action != Inactive && me == now.winner)
    && (r.action == Commit ==> r.pending == 0)
    && (r.action != Inactive <==> me in now.slots)
  }

  lemma OnlyIndex(slots: seq<Name>, k: nat, i: nat, j: nat)
    requires Packed(slots, k) && i < |slots| && j < |slots| && slots[i] == slots[j] != NOBODY
    ensures i == j
  {
    if i < j {
      DistinctPair(slots[..k], i, j);
    } else if j < i {
      DistinctPair(slots[..k], j, i);
    }
  }

  /** The reaction signals Commit, or waits for acknowledgements, exactly at the member that is drawn. */
  lemma ReactAgrees(p: Parameters, draw: Draw, me: Name, slots: seq<Name>, hash: Bytes, total: nat, names: seq<Name>,
                    now: Moment)
    requires Responds(p, draw, me, slots, hash, total, names) && me != NOBODY
    requires (now.slots, now.winner) == Drawn(p, draw, slots, hash, total, names)
    requires Table(p, now.slots) && Active(now.slots) <= now.members
    ensures var r := React(p, draw, me, slots, 0, hash, total, names);
            Reacted(now, names, me, r)
  {
    var next := now.slots;
    assert me in next ==> me in Active(next);
    if me in next {
      var who := Elected(p, draw, slots, hash, total, names);
      var k := Filled(next);
      assert next[FirstIndex(next, me)] == me;
      if next[who] == me {
        OnlyIndex(next, k, FirstIndex(next, me), who);
      }
    }
  }

  /** Where a commit or a Welcome leaves a client, given the moment it leads to. */
  ghost predicate Landed(now: Moment, names: seq<Name>, n: Name, r: Replica, action: NextAction) {
    && (r.live && n == now.winner ==> r.pending == Others(names, n))
    && (r.live <==> n in now.slots)
    && (r.live ==> r.members == now.members && r.slots == now.slots && n in r.members)
    && (r.pending > 0 || action == Commit <==> r.live && n == now.winner)
    && (action == Commit ==> r.pending == 0)
  }

  /** The creation of a group always hands the creator the first token. */
  lemma CreatorCommitsFirst(w: World)
    requires w.Valid()
    ensures Genesis(w).winner == w.creator
    ensures var slots := Resize([], w.p.processers);
            && Responds(w.p, w.draw, w.creator, slots, w.genesis, 1, [w.creator])
            && React(w.p, w.draw, w.creator, slots, 0, w.genesis, 1, [w.creator])
               == Reaction(Genesis(w).slots, 0, Commit)
  {
    EmptyTable(w.p);
    var slots := Resize([], w.p.processers);
    var (sample, after) := Sample(w.p, w.draw, Rng(SeedArray(w.genesis), []), 1);
    var next := slots[0 := w.creator];
    assert AddOne(w.p, slots, w.creator, sample) == next;
    assert [w.creator][1..] == [];
    assert AddAll(w.p, w.draw, after, next, 1, []) == (next, after);
    assert Grown(w.p, w.draw, slots, w.genesis, 1, [w.creator]) == (next, after);
    assert Roll(w.draw, after, 1, 0) == 0;
    assert Acceptable(next, [w.creator], Roll(w.draw, after, 1, 0));
    assert Settles(w.draw, after, 1, next, [w.creator]);
  }

  // ---------------------------------------------------------------- replacing one node

  /** What replacing one node must respect, the published commits staying the same. */
  ghost predicate Fits(past: seq<Moment>, s: State, n: Name, node: Node, action: NextAction)
    requires |past| == |s.log| + 1
  {
    var r := node.r;
    && n != NOBODY && r.epoch <= |s.log| && node.cursor <= |s.log|
    && (n in s.nodes ==> s.nodes[n].r.epoch <= r.epoch)
    && (r.live ==> Agrees(past, n, r))
    && (forall m | m in s.welcomes && m.to == n :: r.epoch < m.epoch)
    && (r.pending > 0 || action == Commit ==> Due(past, s, n, r))
    && (r.live && r.epoch == |s.log| && n == past[|s.log|].winner ==>
          r.pending > 0 || action == Commit || Grant(|s.log|, n) in s.grants)
    && (action == Commit ==> r.pending == 0)
    && (n in s.tokens ==> r.live && r.epoch == |s.log| && r.pending == 0 && action != Commit)
  }

  lemma PutKeepsNodes(past: seq<Moment>, s: State, n: Name, node: Node, action: NextAction)
    requires Sound(past, s) && Fits(past, s, n, node, action)
    ensures var t := Put(s, n, node, action); forall m | m in t.nodes :: GoodNode(past, t, m)
  {
    var t := Put(s, n, node, action);
    forall m | m in t.nodes ensures GoodNode(past, t, m) {
      if m != n {
        assert GoodNode(past, s, m);
      }
    }
  }

  lemma PutKeepsTokens(past: seq<Moment>, s: State, n: Name, node: Node, action: NextAction)
    requires Sound(past, s) && Fits(past, s, n, node, action)
    ensures var t := Put(s, n, node, action);
            && (forall m | m in t.tokens :: GoodToken(past, t, m))
            && (forall g | g in t.grants :: GoodGrant(past, t, g))
            && DistinctEpochs(t.grants)
  {
    var t := Put(s, n, node, action);
    forall m | m in t.tokens ensures GoodToken(past, t, m) {
      if m in s.tokens {
        assert GoodToken(past, s, m);
      }
    }
    forall g | g in t.grants ensures GoodGrant(past, t, g) {
      if g in s.grants {
        assert GoodGrant(past, s, g);
      }
    }
    forall i, j | 0 <= i < j < |t.grants| ensures t.grants[i].epoch != t.grants[j].epoch {
      assert t.grants[i] in s.grants;
    }
  }

  lemma SoundPut(past: seq<Moment>, s: State, n: Name, node: Node, action: NextAction)
    requires Sound(past, s) && Fits(past, s, n, node, action)
    ensures Sound(past, Put(s, n, node, action))
  {
    PutKeepsNodes(past, s, n, node, action);
    PutKeepsTokens(past, s, n, node, action);
  }

  // ---------------------------------------------------------------- a new commit

  /** The state with a commit published but the committer's replica not yet advanced. */
  ghost function Published(s: State, n: Name, a: Action, hash: Bytes): State
    requires n in s.nodes
  {
    var r := s.nodes[n].r;
    s.(log := s.log + [Entry(r.epoch, n, a, hash)],
       welcomes := s.welcomes + WelcomesOf(r, a, hash),
       tokens := s.tokens - multiset{n})
  }

  /** The holder of a token stands at the end of the log and is the only one with a claim to commit. */
  lemma TokenHolder(past: seq<Moment>, s: State, n: Name)
    requires Sound(past, s) && n in s.tokens
    ensures GoodToken(past, s, n) && GoodNode(past, s, n)
    ensures forall m | m in s.nodes :: s.nodes[m].r.pending == 0
    ensures s.tokens - multiset{n} == multiset{}
  {
    assert GoodToken(past, s, n);
    forall m | m in s.nodes ensures s.nodes[m].r.pending == 0 {
      assert GoodNode(past, s, m);
    }
    assert forall m | m in s.tokens :: GoodToken(past, s, m) && m == n;
  }

  lemma SoundPublished(past: seq<Moment>, s: State, n: Name, a: Action, hash: Bytes, now: Moment)
    requires Sound(past, s) && n in s.tokens && n in s.nodes
    requires Admissible(past[|s.log|].members, Entry(|s.log|, n, a, hash)) && Uniform(past[|s.log|].slots, a)
    requires now.members == NewMembers(s.nodes[n].r, a)
    ensures Sound(past + [now], Published(s, n, a, hash))
  {
    var t := Published(s, n, a, hash);
    var past' := past + [now];
    TokenHolder(past, s, n);
    forall i | 0 <= i < |t.log| ensures GoodEntry(past', t.log, i) {
      assert i < |s.log| ==> GoodEntry(past, s.log, i);
    }
    forall m | m in t.nodes ensures GoodNode(past', t, m) {
      assert GoodNode(past, s, m);
    }
    forall m | m in t.welcomes ensures GoodWelcome(past', t.log, m) && (m in s.welcomes <==> m.epoch <= |s.log|) {
      assert m in s.welcomes ==> GoodWelcome(past, s.log, m);
    }
    forall g | g in t.grants ensures GoodGrant(past', t, g) {
      assert GoodGrant(past, s, g);
    }
  }

  // ---------------------------------------------------------------- the committer

  /** With a uniform commit, the committer's own removals have the effect the receivers' have. */
  lemma RemovalsAgree(slots: seq<Name>, a: Action)
    requires Uniform(slots, a)
    ensures RemoveAll(slots, OwnRemovals(a)) == RemoveAll(slots, Removed(a))
  {
    if a.Batch? {
      RemoveNobody(slots, a.removed);
      RemoveNobody(slots, []);
    }
  }

  /** The committer's replica after its commit. */
  lemma ConfirmAgrees(w: World, m: Moment, e: Entry, now: Moment, r: Replica)
    requires Good(w, m) && Follows(w, m, e, now) && Uniform(m.slots, e.action)
    requires r.members == m.members && r.slots == m.slots && r.pending == 0
    requires e.author in m.slots && e.author != NOBODY
    requires CanConfirm(w.p, w.draw, e.author, r, e.action, e.hash)
    ensures var (r', action) := Confirm(w.p, w.draw, e.author, r, e.action, e.hash);
            Confirmed(e.author, now, Added(e.action), r', action)
  {
    NextGood(w, m, e, now);
    RemovalsAgree(m.slots, e.action);
    var left := RemoveAll(m.slots, Removed(e.action));
    ReactAgrees(w.p, w.draw, e.author, left, e.hash, |now.members|, Added(e.action), now);
  }

  ghost predicate Confirmed(n: Name, now: Moment, names: seq<Name>, r: Replica, action: NextAction) {
    && (n == now.winner ==> r.pending == Others(names, n))
    && r.members == now.members && r.slots == now.slots
    && (r.pending > 0 || action == Commit <==> n == now.winner)
    && (action == Commit ==> r.pending == 0)
  }

  lemma CommitterFits(past: seq<Moment>, s: State, n: Name, a: Action, hash: Bytes, now: Moment, r': Replica,
                      action: NextAction)
    requires Sound(past, s) && n in s.tokens && n in s.nodes
    requires Sound(past + [now], Published(s, n, a, hash))
    requires Admissible(past[|s.log|].members, Entry(|s.log|, n, a, hash))
    requires r'.live && r'.epoch == |s.log| + 1 && Confirmed(n, now, Added(a), r', action)
    requires now.members == NewMembers(s.nodes[n].r, a)
    ensures Fits(past + [now], Published(s, n, a, hash), n, s.nodes[n].(r := r'), action)
  {
    TokenHolder(past, s, n);
    var t := Published(s, n, a, hash);
    assert GoodNode(past + [now], t, n);
    forall m | m in t.welcomes ensures m.to != n {
      assert GoodWelcome(past + [now], t.log, m);
      assert m.to in Named(Added(a)) || m in s.welcomes;
      assert m in s.welcomes && m.to == n ==> GoodWelcome(past, s.log, m);
    }
    assert forall g | g in t.grants :: GoodGrant(past, s, g) && GoodNode(past, s, g.name);
  }

  lemma GrownStep(w: World, log: seq<Entry>, past: seq<Moment>, e: Entry, now: Moment, i: nat)
    requires Chronicle(w, log, past) && Follows(w, past[|log|], e, now) && i <= |log|
    ensures Follows(w, (past + [now])[i], (log + [e])[i], (past + [now])[i + 1])
  {
    if i < |log| {
      StepAt(w, log, past, i);
    }
  }

  lemma ChronicleGrows(w: World, log: seq<Entry>, past: seq<Moment>, e: Entry, now: Moment)
    requires Chronicle(w, log, past) && Follows(w, past[|log|], e, now)
    ensures Chronicle(w, log + [e], past + [now])
  {
    var log', past' := log + [e], past + [now];
    forall i: nat | i < |log'| ensures Follows(w, past'[i], log'[i], past'[i + 1]) {
      GrownStep(w, log, past, e, now, i);
    }
  }

  /** Whoever is drawn has a slot. */
  ghost predicate WinnerActive(m: Moment) {
    m.winner != NOBODY ==> m.winner in m.slots
  }

  lemma FirstActive(w: World)
    requires w.Valid()
    ensures WinnerActive(Genesis(w))
  {
  }

  lemma NextActive(w: World, m: Moment, e: Entry, now: Moment)
    requires Follows(w, m, e, now)
    ensures WinnerActive(now)
  {
  }

  lemma LaterActive(w: World, log: seq<Entry>, past: seq<Moment>, i: nat)
    requires Chronicle(w, log, past) && i < |log|
    ensures WinnerActive(past[i + 1])
  {
    StepAt(w, log, past, i);
    NextActive(w, past[i], log[i], past[i + 1]);
  }

  lemma WinnerIsActive(w: World, log: seq<Entry>, past: seq<Moment>, i: nat)
    requires Chronicle(w, log, past) && i <= |log|
    ensures WinnerActive(past[i])
  {
    if i == 0 {
      FirstActive(w);
    } else {
      LaterActive(w, log, past, i - 1);
    }
  }

  lemma CommitMoment(w: World, s: State, past: seq<Moment>, n: Name, a: Action, hash: Bytes) returns (now: Moment)
    requires Inv(w, s, past) && Enabled(w, s, Committed(n, a, hash)) && Uniform(s.nodes[n].r.slots, a)
    ensures s.nodes[n].r.epoch == |s.log| && Follows(w, past[|s.log|], Entry(|s.log|, n, a, hash), now)
    ensures Uniform(past[|s.log|].slots, a) && now.members == NewMembers(s.nodes[n].r, a)
    ensures var (r', action) := Confirm(w.p, w.draw, n, s.nodes[n].r, a, hash); Confirmed(n, now, Added(a), r', action)
  {
    TokenHolder(past, s, n);
    var m, e := past[|s.log|], Entry(|s.log|, n, a, hash);
    AlwaysGood(w, s.log, past, |s.log|);
    WinnerIsActive(w, s.log, past, |s.log|);
    now := Next(w, m, e);
    ConfirmAgrees(w, m, e, now, s.nodes[n].r);
  }

  lemma InvCommitted(w: World, s: State, past: seq<Moment>, n: Name, a: Action, hash: Bytes) returns (now: Moment)
    requires Inv(w, s, past) && Enabled(w, s, Committed(n, a, hash)) && Uniform(s.nodes[n].r.slots, a)
    ensures Inv(w, Apply(w, s, Committed(n, a, hash)), past + [now])
    ensures var (r', action) := Confirm(w.p, w.draw, n, s.nodes[n].r, a, hash); Confirmed(n, now, Added(a), r', action)
  {
    now := CommitMoment(w, s, past, n, a, hash);
    var (r', action) := Confirm(w.p, w.draw, n, s.nodes[n].r, a, hash);
    ChronicleGrows(w, s.log, past, Entry(|s.log|, n, a, hash), now);
    SoundPublished(past, s, n, a, hash, now);
    CommitterFits(past, s, n, a, hash, now, r', action);
    SoundPut(past + [now], Published(s, n, a, hash), n, s.nodes[n].(r := r'), action);
  }

  // ---------------------------------------------------------------- the receivers

  /** Arriving at an epoch, a client has not had the token of that epoch. */
  lemma ArrivedFits(past: seq<Moment>, s: State, names: seq<Name>, n: Name, r: Replica, cursor: nat, action: NextAction)
    requires Sound(past, s) && r.epoch < |past| && Landed(past[r.epoch], names, n, r, action) && n != NOBODY
    requires cursor <= |s.log|
    requires n in s.nodes ==> s.nodes[n].r.epoch < r.epoch
    requires forall m | m in s.welcomes && m.to == n :: r.epoch < m.epoch
    ensures Fits(past, s, n, Node(r, cursor), action)
  {
    assert forall g | g in s.grants :: GoodGrant(past, s, g);
    if r.pending > 0 || action == Commit {
      assert r.epoch < |s.log| ==> GoodEntry(past, s.log, r.epoch);
      assert r.epoch < |s.log| ==> Grant(r.epoch, n) in s.grants;
    }
    assert n in s.tokens ==> GoodToken(past, s, n);
  }

  lemma SettleLands(now: Moment, n: Name, r: Replica, e: Entry, reaction: Reaction)
    requires Admissible(r.members, e) && n in r.members && now.members == NewMembers(r, e.action)
    requires n != NOBODY && Active(now.slots) <= now.members
    requires Reacted(now, Added(e.action), n, reaction)
             || (reaction.action == Inactive && reaction.pending == 0 && n !in now.slots)
    ensures var (r', action) := Settle(n, r, e.action, reaction); Landed(now, Added(e.action), n, r', action)
  {
    assert n in Removed(e.action) <==> n in Named(Removed(e.action));
    assert n in now.slots ==> n in Active(now.slots);
  }

  /** A receiver at the moment before a commit. */
  ghost predicate Receiver(w: World, m: Moment, e: Entry, now: Moment, n: Name, r: Replica) {
    && Good(w, m) && Follows(w, m, e, now) && n != NOBODY && r.live && r.pending == 0
    && r.members == m.members && r.slots == m.slots && n in r.members
    && CanProcess(w.p, w.draw, n, r, e)
  }

  ghost function ReactionTo(w: World, n: Name, r: Replica, e: Entry): Reaction
    requires CanProcess(w.p, w.draw, n, r, e)
  {
    var left := AfterRemovals(n, r.slots, Removed(e.action));
    React(w.p, w.draw, n, left, r.pending, e.hash, CountAfter(r, e.action), Added(e.action))
  }

  lemma ActiveReacts(w: World, m: Moment, e: Entry, now: Moment, n: Name, r: Replica)
    requires Receiver(w, m, e, now, n, r) && n in r.slots
    ensures Reacted(now, Added(e.action), n, ReactionTo(w, n, r, e))
  {
    CountByArithmetic(m.members, e);
    NextGood(w, m, e, now);
    DrawnFrom(w, m, e, now);
    ReactsAs(w, e, now, n, r);
  }

  lemma ReactsAs(w: World, e: Entry, now: Moment, n: Name, r: Replica)
    requires CanProcess(w.p, w.draw, n, r, e) && n in r.slots && n != NOBODY && r.pending == 0
    requires CountAfter(r, e.action) == |now.members|
    requires (now.slots, now.winner)
             == Drawn(w.p, w.draw, RemoveAll(r.slots, Removed(e.action)), e.hash, |now.members|, Added(e.action))
    requires Table(w.p, now.slots) && Active(now.slots) <= now.members
    ensures Reacted(now, Added(e.action), n, ReactionTo(w, n, r, e))
  {
    ReactAgrees(w.p, w.draw, n, RemoveAll(r.slots, Removed(e.action)), e.hash, |now.members|, Added(e.action), now);
  }

  lemma DrawnFrom(w: World, m: Moment, e: Entry, now: Moment)
    requires Follows(w, m, e, now)
    ensures |now.members| >= 1 && now.members == Changed(m.members, e.action)
    ensures (now.slots, now.winner)
            == Drawn(w.p, w.draw, RemoveAll(m.slots, Removed(e.action)), e.hash, |now.members|, Added(e.action))
  {
    assert e.author in now.members;
  }

  /** A member without a slot gets none from a commit that does not add it. */
  lemma EvictedReacts(w: World, m: Moment, e: Entry, now: Moment, n: Name, r: Replica)
    requires Receiver(w, m, e, now, n, r) && n !in r.slots
    ensures var reaction := ReactionTo(w, n, r, e); reaction.action == Inactive && reaction.pending == 0
  {
    var total := CountAfter(r, e.action);
    MayJoin(w, m, e);
    AddAllEffect(w.p, w.draw, Rng(SeedArray(e.hash), []), r.slots, total, Added(e.action));
    var next := Grown(w.p, w.draw, r.slots, e.hash, total, Added(e.action)).0;
    assert n in next ==> n in Active(next);
    assert n !in Named(Added(e.action));
  }

  lemma NoSlotForEvicted(w: World, m: Moment, e: Entry, now: Moment, n: Name)
    requires Good(w, m) && Follows(w, m, e, now) && n in m.members && n !in m.slots && n != NOBODY
    ensures n !in now.slots
  {
    MayJoin(w, m, e);
    assert e.author in Changed(m.members, e.action);
    GrownEffect(w.p, w.draw, m.slots, e, |Changed(m.members, e.action)|);
    assert n in now.slots ==> n in Active(now.slots);
    assert n !in Named(Added(e.action));
  }

  lemma ProcessAgrees(w: World, m: Moment, e: Entry, now: Moment, n: Name, r: Replica)
    requires Receiver(w, m, e, now, n, r)
    ensures var (r', action) := Process(w.p, w.draw, n, r, e); Landed(now, Added(e.action), n, r', action)
  {
    if n in r.slots {
      ActiveReacts(w, m, e, now, n, r);
    } else {
      EvictedReacts(w, m, e, now, n, r);
      NoSlotForEvicted(w, m, e, now, n);
    }
    NextGood(w, m, e, now);
    SettleLands(now, n, r, e, ReactionTo(w, n, r, e));
  }

  lemma NodeFacts(past: seq<Moment>, s: State, n: Name)
    requires Sound(past, s) && n in s.nodes && s.nodes[n].cursor < |s.log| && Concerns(s, n)
    ensures GoodNode(past, s, n) && s.nodes[n].r.epoch == s.nodes[n].cursor && s.nodes[n].r.pending == 0
  {
    assert GoodNode(past, s, n) && GoodEntry(past, s.log, s.nodes[n].cursor);
  }

  lemma DeliveredArrives(w: World, s: State, past: seq<Moment>, n: Name, r': Replica, action: NextAction)
    requires Inv(w, s, past) && Enabled(w, s, Delivered(n)) && Concerns(s, n)
    requires (r', action) == Processed(w, s, n)
    ensures Landed(past[s.nodes[n].cursor + 1], Added(s.log[s.nodes[n].cursor].action), n, r', action)
  {
    NodeFacts(past, s, n);
    ProcessAgreesAt(w, s.log, past, s.nodes[n].cursor, n, s.nodes[n].r);
  }

  lemma ProcessAgreesAt(w: World, log: seq<Entry>, past: seq<Moment>, i: nat, n: Name, r: Replica)
    requires Chronicle(w, log, past) && i < |log| && n != NOBODY && r.live && r.pending == 0
    requires r.members == past[i].members && r.slots == past[i].slots && n in r.members
    requires CanProcess(w.p, w.draw, n, r, log[i])
    ensures var (r', action) := Process(w.p, w.draw, n, r, log[i]);
            Landed(past[i + 1], Added(log[i].action), n, r', action)
  {
    AlwaysGood(w, log, past, i);
    StepAt(w, log, past, i);
    ProcessAgrees(w, past[i], log[i], past[i + 1], n, r);
  }

  /** Delivering a commit to a client whose epoch it is for. */
  lemma DeliveredFits(past: seq<Moment>, s: State, names: seq<Name>, n: Name, r': Replica, action: NextAction)
    requires Sound(past, s) && n in s.nodes && s.nodes[n].r.live && s.nodes[n].cursor < |s.log| && Concerns(s, n)
    requires r'.epoch == s.nodes[n].r.epoch + 1 && Landed(past[s.nodes[n].cursor + 1], names, n, r', action)
    ensures Fits(past, s, n, Node(r', s.nodes[n].cursor + 1), action)
  {
    var i := s.nodes[n].cursor;
    assert GoodNode(past, s, n) && GoodEntry(past, s.log, i);
    forall m | m in s.welcomes && m.to == n ensures m.epoch > i + 1 {
      assert GoodWelcome(past, s.log, m);
      assert n in Named(m.names) <==> n in m.names;
    }
    ArrivedFits(past, s, names, n, r', i + 1, action);
  }

  lemma SoundMoved(past: seq<Moment>, s: State, n: Name, to: nat)
    requires Sound(past, s) && n in s.nodes && to <= |s.log|
    ensures Sound(past, Put(s, n, s.nodes[n].(cursor := to), Listen))
  {
    assert GoodNode(past, s, n);
    assert n in s.tokens ==> GoodToken(past, s, n);
    SoundPut(past, s, n, s.nodes[n].(cursor := to), Listen);
  }

  lemma SoundDelivered(past: seq<Moment>, s: State, names: seq<Name>, n: Name, r': Replica, action: NextAction)
    requires Sound(past, s) && n in s.nodes && s.nodes[n].r.live && s.nodes[n].cursor < |s.log| && Concerns(s, n)
    requires r'.epoch == s.nodes[n].r.epoch + 1 && Landed(past[s.nodes[n].cursor + 1], names, n, r', action)
    ensures Sound(past, Put(s, n, Node(r', s.nodes[n].cursor + 1), action))
  {
    DeliveredFits(past, s, names, n, r', action);
    SoundPut(past, s, n, Node(r', s.nodes[n].cursor + 1), action);
  }

  /** What delivering a commit does, for a result of processing it. */
  lemma ApplyDelivered(w: World, s: State, n: Name, r': Replica, action: NextAction)
    requires Enabled(w, s, Delivered(n)) && Concerns(s, n)
    requires (r', action) == Processed(w, s, n)
    ensures r'.epoch == s.nodes[n].r.epoch + 1
    ensures Apply(w, s, Delivered(n)) == Put(s, n, Node(r', s.nodes[n].cursor + 1), action)
  {
  }

  lemma SoundApplied(w: World, s: State, past: seq<Moment>, n: Name)
    requires Inv(w, s, past) && Enabled(w, s, Delivered(n)) && Concerns(s, n)
    ensures Sound(past, Apply(w, s, Delivered(n)))
  {
    var (r', action) := Processed(w, s, n);
    ApplyDelivered(w, s, n, r', action);
    DeliveredArrives(w, s, past, n, r', action);
    SoundDelivered(past, s, Added(s.log[s.nodes[n].cursor].action), n, r', action);
  }

  lemma ApplySkipped(w: World, s: State, n: Name)
    requires Enabled(w, s, Delivered(n)) && !Concerns(s, n)
    ensures Apply(w, s, Delivered(n)) == Put(s, n, s.nodes[n].(cursor := s.nodes[n].cursor + 1), Listen)
  {
  }

  lemma SoundSkipped(w: World, s: State, past: seq<Moment>, n: Name)
    requires Sound(past, s) && Enabled(w, s, Delivered(n)) && !Concerns(s, n)
    ensures Sound(past, Apply(w, s, Delivered(n)))
  {
    SoundMoved(past, s, n, s.nodes[n].cursor + 1);
    ApplySkipped(w, s, n);
  }

  lemma InvDelivered(w: World, s: State, past: seq<Moment>, n: Name)
    requires Inv(w, s, past) && Enabled(w, s, Delivered(n))
    ensures Inv(w, Apply(w, s, Delivered(n)), past)
  {
    if Concerns(s, n) {
      SoundApplied(w, s, past, n);
    } else {
      SoundSkipped(w, s, past, n);
    }
  }

  lemma InvMissed(w: World, s: State, past: seq<Moment>, n: Name, to: nat)
    requires Inv(w, s, past) && Enabled(w, s, Missed(n, to))
    ensures Inv(w, Apply(w, s, Missed(n, to)), past)
  {
    SoundMoved(past, s, n, to);
  }

  // ---------------------------------------------------------------- the joiners

  /**
   The committer's table before the commit is what the commit's additions start from: whoever adds removes nobody
   active.
   */
  lemma JoinAgrees(w: World, m: Moment, e: Entry, now: Moment, welcome: Welcome)
    requires Good(w, m) && Follows(w, m, e, now) && Uniform(m.slots, e.action)
    requires welcome.to in welcome.names && welcome.to != NOBODY && welcome.members == now.members
    requires welcome.names == Added(e.action) && welcome.hash == e.hash && welcome.snapshot == m.slots
    requires CanJoin(w.p, w.draw, welcome)
    ensures var (r, action) := Join(w.p, w.draw, welcome); Landed(now, welcome.names, welcome.to, r, action)
  {
    assert Resize(m.slots, w.p.processers) == m.slots;
    RemoveNobody(m.slots, Removed(e.action));
    NextGood(w, m, e, now);
    ReactAgrees(w.p, w.draw, welcome.to, m.slots, e.hash, |now.members|, Added(e.action), now);
    assert welcome.to in now.slots ==> welcome.to in Active(now.slots);
  }

  lemma WelcomeFacts(past: seq<Moment>, s: State, m: Welcome)
    requires Sound(past, s) && m in s.welcomes
    ensures GoodWelcome(past, s.log, m) && GoodEntry(past, s.log, m.epoch - 1)
  {
  }

  lemma JoinedArrives(w: World, s: State, past: seq<Moment>, m: Welcome)
    requires Inv(w, s, past) && Enabled(w, s, Joined(m))
    ensures m.epoch <= |s.log|
    ensures var (r, action) := Join(w.p, w.draw, m); Landed(past[m.epoch], m.names, m.to, r, action)
  {
    WelcomeFacts(past, s, m);
    JoinAgreesAt(w, s.log, past, m.epoch - 1, m);
  }

  lemma JoinAgreesAt(w: World, log: seq<Entry>, past: seq<Moment>, i: nat, m: Welcome)
    requires Chronicle(w, log, past) && i < |log| && GoodEntry(past, log, i) && CanJoin(w.p, w.draw, m)
    requires m.to in m.names && m.names == Added(log[i].action) && m.hash == log[i].hash
    requires m.members == past[i + 1].members && m.snapshot == past[i].slots
    ensures var (r, action) := Join(w.p, w.draw, m); Landed(past[i + 1], m.names, m.to, r, action)
  {
    AlwaysGood(w, log, past, i);
    StepAt(w, log, past, i);
    JoinAgrees(w, past[i], log[i], past[i + 1], m);
  }

  lemma SoundWithout(past: seq<Moment>, s: State, m: Welcome)
    requires Sound(past, s)
    ensures Sound(past, s.(welcomes := s.welcomes - {m}))
  {
    var t := s.(welcomes := s.welcomes - {m});
    assert forall n | n in t.nodes :: GoodNode(past, s, n) && GoodNode(past, t, n);
    assert forall n | n in t.tokens :: GoodToken(past, s, n) && GoodToken(past, t, n);
    assert forall g | g in t.grants :: GoodGrant(past, s, g) && GoodGrant(past, t, g);
  }

  /** A Welcome is determined by its addressee and its epoch. */
  lemma SoundJoined(past: seq<Moment>, s: State, m: Welcome, r: Replica, action: NextAction)
    requires Sound(past, s) && m in s.welcomes
    requires forall m' | m' in s.welcomes && m'.to == m.to :: m.epoch <= m'.epoch
    requires r.epoch == m.epoch < |past| && Landed(past[m.epoch], m.names, m.to, r, action)
    ensures Sound(past, Put(s.(welcomes := s.welcomes - {m}), m.to, Node(r, |s.log|), action))
  {
    var t := s.(welcomes := s.welcomes - {m});
    SoundWithout(past, s, m);
    assert GoodWelcome(past, s.log, m) && GoodEntry(past, s.log, m.epoch - 1);
    assert m.to in s.nodes ==> GoodNode(past, s, m.to);
    forall m' | m' in t.welcomes && m'.to == m.to ensures m.epoch < m'.epoch {
      assert GoodWelcome(past, s.log, m');
    }
    ArrivedFits(past, t, m.names, m.to, r, |s.log|, action);
    SoundPut(past, t, m.to, Node(r, |s.log|), action);
  }

  lemma InvJoined(w: World, s: State, past: seq<Moment>, m: Welcome)
    requires Inv(w, s, past) && Enabled(w, s, Joined(m))
    ensures Inv(w, Apply(w, s, Joined(m)), past)
  {
    var (r, action) := Join(w.p, w.draw, m);
    JoinedArrives(w, s, past, m);
    SoundJoined(past, s, m, r, action);
  }

  lemma InvAcked(w: World, s: State, past: seq<Moment>, n: Name, sender: Name)
    requires Inv(w, s, past) && Enabled(w, s, Acked(n, sender))
    ensures Inv(w, Apply(w, s, Acked(n, sender)), past)
  {
    assert GoodNode(past, s, n);
    assert n in s.tokens ==> GoodToken(past, s, n);
    var (r, action) := Acknowledge(n, s.nodes[n].r, sender);
    SoundPut(past, s, n, s.nodes[n].(r := r), action);
  }

  lemma InvInit(w: World)
    requires w.Valid()
    ensures Inv(w, Init(w), [Genesis(w)])
  {
    CreatorCommitsFirst(w);
    assert GoodNode([Genesis(w)], Init(w), w.creator);
  }

  /** After every feasible run there is a history that all of the state agrees with. */
  lemma {:induction false} Safety(w: World, run: seq<Event>) returns (past: seq<Moment>)
    requires Feasible(w, run) && UniformRun(w, run)
    ensures Inv(w, After(w, run), past)
  {
    if run == [] {
      InvInit(w);
      past := [Genesis(w)];
    } else {
      var s := After(w, run[..|run| - 1]);
      past := Safety(w, run[..|run| - 1]);
      match run[|run| - 1]
      case Committed(n, a, hash) =>
        var now := InvCommitted(w, s, past, n, a, hash);
        past := past + [now];
      case Delivered(n) => InvDelivered(w, s, past, n);
      case Missed(n, to) => InvMissed(w, s, past, n, to);
      case Joined(m) => InvJoined(w, s, past, m);
      case Acked(n, sender) => InvAcked(w, s, past, n, sender);
    }
  }

  // ---------------------------------------------------------------- the theorems

  lemma AtMostOneToken(past: seq<Moment>, s: State)
    requires Sound(past, s)
    ensures |s.tokens| <= 1
  {
    if n :| n in s.tokens {
      TokenHolder(past, s, n);
      assert s.tokens == s.tokens - multiset{n} + multiset{n};
    }
  }

  lemma CommitsInOrder(past: seq<Moment>, s: State)
    requires Sound(past, s)
    ensures forall i | 0 <= i < |s.log| :: s.log[i].epoch == i && Grant(i, s.log[i].author) in s.grants
  {
    forall i | 0 <= i < |s.log| ensures s.log[i].epoch == i && Grant(i, s.log[i].author) in s.grants {
      assert GoodEntry(past, s.log, i);
    }
  }

  /** No epoch's token is granted twice, no two tokens are ever held, and no epoch has two commits. */
  lemma OneTokenPerEpoch(w: World, run: seq<Event>)
    requires Feasible(w, run) && UniformRun(w, run)
    ensures var s := After(w, run);
            && DistinctEpochs(s.grants) && |s.tokens| <= 1
            && forall i | 0 <= i < |s.log| :: s.log[i].epoch == i && Grant(i, s.log[i].author) in s.grants
  {
    var past := Safety(w, run);
    AtMostOneToken(past, After(w, run));
    CommitsInOrder(past, After(w, run));
  }

  /** Two clients that hold the group in the same epoch have the same members and the same table. */
  lemma ReplicasAgree(w: World, run: seq<Event>, a: Name, b: Name)
    requires Feasible(w, run) && UniformRun(w, run)
    requires a in After(w, run).nodes && b in After(w, run).nodes
    requires var r, q := After(w, run).nodes[a].r, After(w, run).nodes[b].r; r.live && q.live && r.epoch == q.epoch
    ensures var r, q := After(w, run).nodes[a].r, After(w, run).nodes[b].r; r.members == q.members && r.slots == q.slots
  {
    var s := After(w, run);
    var past := Safety(w, run);
    assert GoodNode(past, s, a) && GoodNode(past, s, b);
  }

  /** At most one client waits for acknowledgements; while one does, nobody holds the token. */
  lemma AtMostOneWaiting(w: World, run: seq<Event>, a: Name)
    requires Feasible(w, run) && UniformRun(w, run)
    requires a in After(w, run).nodes && After(w, run).nodes[a].r.pending > 0
    ensures var s := After(w, run);
            && s.tokens == multiset{} && s.nodes[a].r.live && s.nodes[a].r.epoch == |s.log|
            && forall b | b in s.nodes && s.nodes[b].r.pending > 0 :: a == b
  {
    var s := After(w, run);
    var past := Safety(w, run);
    assert GoodNode(past, s, a);
    assert forall b | b in s.nodes :: GoodNode(past, s, b);
    assert forall n | n in s.tokens :: GoodToken(past, s, n) && false;
    assert s.tokens == multiset{};
  }

  /**
   The history draws one member for each epoch: nobody else gets that epoch's token, and it does or waits for it
   once it is there.
   */
  lemma TurnIsHonoured(w: World, run: seq<Event>) returns (past: seq<Moment>)
    requires Feasible(w, run) && UniformRun(w, run)
    ensures var s := After(w, run);
            && Chronicle(w, s.log, past)
            && (forall g | g in s.grants :: g.epoch < |past| && g.name == past[g.epoch].winner)
            && (forall n | n in s.nodes && s.nodes[n].r.live && s.nodes[n].r.epoch == |s.log|
                           && n == past[|s.log|].winner ::
                  s.nodes[n].r.pending > 0 <==> Grant(|s.log|, n) !in s.grants)
  {
    var s := After(w, run);
    past := Safety(w, run);
    assert forall g | g in s.grants :: GoodGrant(past, s, g);
    assert forall n | n in s.nodes :: GoodNode(past, s, n);
  }

  // ---------------------------------------------------------------- nobody's turn

  lemma HolderIsDrawn(past: seq<Moment>, s: State, n: Name)
    requires Sound(past, s) && n in s.tokens
    ensures n == past[|s.log|].winner && n != NOBODY
  {
    assert GoodToken(past, s, n) && GoodNode(past, s, n);
  }

  /** A step after a moment at which nobody was drawn publishes no commit. */
  lemma StalledStep(w: World, s: State, past: seq<Moment>, ev: Event)
    requires Inv(w, s, past) && past[|s.log|].winner == NOBODY && Enabled(w, s, ev)
    ensures Apply(w, s, ev).log == s.log && Inv(w, Apply(w, s, ev), past)
  {
    match ev
    case Committed(n, a, hash) => HolderIsDrawn(past, s, n); assert false;
    case Delivered(n) => InvDelivered(w, s, past, n);
    case Missed(n, to) => InvMissed(w, s, past, n, to);
    case Joined(m) => InvJoined(w, s, past, m);
    case Acked(n, sender) => InvAcked(w, s, past, n, sender);
  }

  /** The run is possible and ends in the state. */
  ghost predicate Leads(w: World, run: seq<Event>, s: State) {
    Feasible(w, run) && After(w, run) == s
  }

  lemma LastStep(w: World, run: seq<Event>, t: State) returns (s: State)
    requires Leads(w, run, t) && run != []
    ensures Leads(w, run[..|run| - 1], s) && Enabled(w, s, run[|run| - 1]) && t == Apply(w, s, run[|run| - 1])
  {
    s := After(w, run[..|run| - 1]);
  }

  lemma {:induction false} StalledFrom(w: World, run: seq<Event>, s: State, longer: seq<Event>, t: State,
                                       past: seq<Moment>)
    requires run <= longer && Leads(w, run, s) && Leads(w, longer, t) && Inv(w, s, past)
    requires past[|s.log|].winner == NOBODY
    ensures t.log == s.log && Inv(w, t, past)
    decreases |longer|
  {
    if longer != run {
      var mid := LastStep(w, longer, t);
      StalledFrom(w, run, s, longer[..|longer| - 1], mid, past);
      StalledStep(w, mid, past, longer[|longer| - 1]);
    }
  }

  /** If nobody was drawn, the group has made its last commit, whatever happens. */
  lemma StalledForGood(w: World, run: seq<Event>, more: seq<Event>, past: seq<Moment>)
    requires Feasible(w, run) && UniformRun(w, run) && Feasible(w, run + more)
    requires Chronicle(w, After(w, run).log, past) && past[|past| - 1].winner == NOBODY
    ensures After(w, run + more).log == After(w, run).log
  {
    var past' := Safety(w, run);
    OneHistory(w, After(w, run).log, past, past');
    StalledFrom(w, run, After(w, run), run + more, After(w, run + more), past);
  }
}
