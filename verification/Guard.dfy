/**
 When does everybody get every commit? In careful runs, always: a client that is not subscribed commits only what draws
 itself again, or nobody. A condition that the code itself could test is on the grants: the creator is subscribed before
 the first commit, and no Welcome draws the client it is for. Under it clients commit only when they are subscribed.
 */
module Guard {
  import opened Basics
  import opened Slots
  import opened History
  import opened Client
  import opened Protocol
  import opened Subscriptions
  import opened Progress

  /**
   Every commit from the client's epoch on is still to be delivered to it, and before those only commits of its own;
   the next one is its own or for its epoch. A client without a subscription is at the newest epoch.
   */
  ghost predicate MissesNothing(net: Net, n: Name)
    requires n in net.s.nodes
  {
    var node := net.s.nodes[n];
    if n in net.subscribed then
      && node.cursor <= node.r.epoch <= |net.s.log|
      && (forall i | node.cursor <= i < node.r.epoch :: net.s.log[i].author == n)
      && (node.cursor < |net.s.log| ==>
            net.s.log[node.cursor].author == n || net.s.log[node.cursor].epoch == node.r.epoch)
    else node.r.epoch == |net.s.log|
  }

  /** In every careful run no client that holds the group has missed a commit. */
  lemma CarefulMissNothing(w: World, run: seq<Step>, n: Name)
    requires w.Valid() && CanRun(w, Start(w), run) && Careful(w, Start(w), run)
    requires var net := End(w, Start(w), run); n in net.s.nodes && net.s.nodes[n].r.live
    ensures MissesNothing(End(w, Start(w), run), n) && !HasMissed(End(w, Start(w), run), n)
  {
    var past, late := DisciplineHolds(w, run);
    NothingMissed(End(w, Start(w), run), past, n, late);
  }

  lemma NothingMissed(net: Net, past: seq<Moment>, n: Name, late: Name)
    requires Sound(past, net.s) && Disciplined(net, past, late) && n in net.s.nodes && net.s.nodes[n].r.live
    ensures MissesNothing(net, n) && !HasMissed(net, n)
  {
    if n in net.subscribed {
      assert UpToDate(net, n);
      if net.s.nodes[n].cursor < |net.s.log| {
        NextIsForIt(net, past, n, late);
      }
    } else {
      assert GoodNode(past, net.s, n);
      assert n == late || Arriving(net, n);
    }
  }

  /**
   Whoever holds the token in a careful run: all others that the last commit added have acknowledged, all Welcomes
   were processed, and all others that hold the group are subscribed.
   */
  lemma TokenWaitsForEverybody(w: World, run: seq<Step>, n: Name)
    requires w.Valid() && CanRun(w, Start(w), run) && Careful(w, Start(w), run) && n in End(w, Start(w), run).s.tokens
    ensures var net := End(w, Start(w), run);
            && (forall x | x in net.Newest() && x != n :: Ack(x, |net.s.log|) in net.acks)
            && net.s.welcomes == {}
            && (forall x | x in net.s.nodes && net.s.nodes[x].r.live && x != n :: x in net.subscribed)
  {
    var net := End(w, Start(w), run);
    var past, late := DisciplineHolds(w, run);
    HolderIsDrawn(past, net.s, n);
    TokenHeard(net, past, n, late);
    NoWelcomeLeft(net, past, n, late);
    NobodyArriving(net, past, n, late);
  }

  /** A client that holds the token of a careful run without being subscribed: the last commit added nobody else. */
  lemma UnsubscribedTokenIsAlone(w: World, run: seq<Step>, n: Name)
    requires w.Valid() && CanRun(w, Start(w), run) && Careful(w, Start(w), run)
    requires n in End(w, Start(w), run).s.tokens && n !in End(w, Start(w), run).subscribed
    ensures End(w, Start(w), run).Newest() in {[], [n]}
  {
    var net := End(w, Start(w), run);
    var past, late := DisciplineHolds(w, run);
    HolderIsDrawn(past, net.s, n);
    if n == late {
      LateTokenAlone(net, past, n);
    } else {
      TokenAlone(net, past, n, late);
    }
  }

  // ---------------------------------------------------------------- the condition on grants

  /** The branch that gives the token to a client that has only just asked for its subscription. */
  ghost predicate GuardedStep(w: World, net: Net, step: Step)
    requires MayStep(w, net, step)
  {
    && (step.Commits? && net.s.log == [] ==> step.name in net.subscribed)
    && (step.Joins? ==> Join(w.p, w.draw, step.welcome).1 != Commit)
  }

  ghost predicate Guarded(w: World, net: Net, run: seq<Step>)
    requires CanRun(w, net, run)
    decreases |run|
  {
    run != [] ==> GuardedStep(w, net, run[0]) && Guarded(w, Take(w, net, run[0]), run[1..])
  }

  /** Tokens are with subscribers, but for the first one. */
  ghost predicate Held(net: Net) {
    forall n | n in net.s.tokens :: n in net.subscribed || net.s.log == []
  }

  lemma CommitsHeld(w: World, net: Net, past: seq<Moment>, n: Name, a: Action, hash: Bytes)
    requires Sound(past, net.s) && MayStep(w, net, Commits(n, a, hash)) && n in net.subscribed
    ensures Held(Take(w, net, Commits(n, a, hash)))
  {
    TokenHolder(past, net.s, n);
  }

  lemma HolderUnconcerned(past: seq<Moment>, s: State, n: Name)
    requires Sound(past, s) && n in s.nodes && s.nodes[n].cursor < |s.log| && Concerns(s, n)
    ensures n !in s.tokens
  {
    NodeFacts(past, s, n);
  }

  lemma DeliversHeld(w: World, net: Net, past: seq<Moment>, n: Name)
    requires Protocol.Inv(w, net.s, past) && MayStep(w, net, Delivers(n)) && Held(net)
    ensures Held(Take(w, net, Delivers(n)))
  {
    if Concerns(net.s, n) {
      var (r, action) := Processed(w, net.s, n);
      ApplyDelivered(w, net.s, n, r, action);
      DeliveredArrives(w, net.s, past, n, r, action);
      HolderUnconcerned(past, net.s, n);
    } else {
      ApplySkipped(w, net.s, n);
    }
  }

  lemma StepHeld(w: World, net: Net, past: seq<Moment>, step: Step)
    requires Protocol.Inv(w, net.s, past) && MayStep(w, net, step) && GuardedStep(w, net, step) && Held(net)
    ensures Held(Take(w, net, step)) && (step.Commits? ==> step.name in net.subscribed)
  {
    match step
    case Commits(n, a, hash) => CommitsHeld(w, net, past, n, a, hash);
    case Delivers(n) => DeliversHeld(w, net, past, n);
    case _ =>
  }

  lemma {:induction false} GuardedIsPatient(w: World, net: Net, past: seq<Moment>, run: seq<Step>, late: Name)
    requires CarefulInv(w, net, past, late) && Held(net) && CanRun(w, net, run) && Guarded(w, net, run)
    ensures Patient(w, net, run)
    decreases |run|
  {
    if run != [] {
      var step := run[0];
      StepHeld(w, net, past, step);
      var past', late' := StepCareful(w, net, past, step, late);
      GuardedIsPatient(w, Take(w, net, step), past', run[1..], late');
    }
  }

  /** In every guarded run no client that holds the group has missed a commit. */
  lemma NobodyMissesACommit(w: World, run: seq<Step>, n: Name)
    requires w.Valid() && CanRun(w, Start(w), run) && Guarded(w, Start(w), run)
    requires var net := End(w, Start(w), run); n in net.s.nodes && net.s.nodes[n].r.live
    ensures MissesNothing(End(w, Start(w), run), n) && !HasMissed(End(w, Start(w), run), n)
  {
    StartFull(w);
    GuardedIsPatient(w, Start(w), [Genesis(w)], run, NOBODY);
    PatientIsCareful(w, Start(w), run);
    CarefulMissNothing(w, run, n);
  }

  /** The guarded branch: a Welcome grants the token exactly if it is for its addressee alone and draws it. */
  lemma WelcomeGrants(w: World, s: State, past: seq<Moment>, m: Welcome)
    requires Protocol.Inv(w, s, past) && Enabled(w, s, Joined(m))
    ensures m.epoch < |past|
    ensures Join(w.p, w.draw, m).1 == Commit <==> past[m.epoch].winner == m.to && m.names == [m.to]
  {
    JoinedArrives(w, s, past, m);
    WelcomeFacts(past, s, m);
    JoinerDrawnAlone(w, s.log, past, m);
    LandedGrants(past[m.epoch], m.names, m.to, Join(w.p, w.draw, m).0, Join(w.p, w.draw, m).1);
  }

  lemma JoinerDrawnAlone(w: World, log: seq<Entry>, past: seq<Moment>, m: Welcome)
    requires Chronicle(w, log, past) && GoodWelcome(past, log, m) && GoodEntry(past, log, m.epoch - 1)
    ensures WinnerActive(past[m.epoch]) && m.to != NOBODY
    ensures past[m.epoch].winner == m.to ==> m.names == [m.to]
  {
    WinnerIsActive(w, log, past, m.epoch);
    if past[m.epoch].winner == m.to {
      DrawnAlone(w, log, past, m.epoch - 1);
    }
  }

  /** A client that lands at a moment that draws it, and is alone, has nobody to wait for. */
  lemma LandedGrants(now: Moment, names: seq<Name>, n: Name, r: Replica, action: NextAction)
    requires Landed(now, names, n, r, action) && WinnerActive(now) && n != NOBODY
    requires n == now.winner ==> names == [n]
    ensures action == Commit <==> now.winner == n && names == [n]
  {
    assert [n][1..] == [];
  }
}
