/**
 What an unsubscribed client risks when it commits: it can then miss a commit if and only if the draw that its own
 commit leads to falls on another member. A client that has missed a commit stays behind for good.
 */
module Rash {
  import opened Basics
  import opened Slots
  import opened History
  import opened Client
  import opened Protocol
  import opened Subscriptions
  import opened Progress
  import opened Losses
  import opened Turns

  // ---------------------------------------------------------------- a missed commit

  /** What a client that has missed a commit was and will be: the same replica, at a cursor that has passed it. */
  ghost predicate StaysBehind(net: Net, net': Net, n: Name) {
    HasMissed(net, n) && HasMissed(net', n) && net'.s.nodes[n].r == net.s.nodes[n].r
  }

  lemma BehindCommits(w: World, net: Net, past: seq<Moment>, n: Name, x: Name, a: Action, hash: Bytes)
    requires Sound(past, net.s) && HasMissed(net, n) && MayStep(w, net, Commits(x, a, hash))
    ensures StaysBehind(net, Take(w, net, Commits(x, a, hash)), n)
  {
    TokenHolder(past, net.s, x);
    CommitsChanges(w, net, past, x, a, hash);
  }

  /** A commit that is delivered to it is not for its epoch. */
  lemma BehindDelivers(w: World, net: Net, past: seq<Moment>, n: Name)
    requires Sound(past, net.s) && HasMissed(net, n) && MayStep(w, net, Delivers(n))
    ensures StaysBehind(net, Take(w, net, Delivers(n)), n)
  {
    assert GoodEntry(past, net.s.log, net.s.nodes[n].cursor);
    ApplySkipped(w, net.s, n);
  }

  lemma BehindHears(w: World, net: Net, past: seq<Moment>, n: Name, x: Name)
    requires Sound(past, net.s) && HasMissed(net, n) && MayStep(w, net, Hears(n, x))
    ensures StaysBehind(net, Take(w, net, Hears(n, x)), n)
  {
    assert GoodNode(past, net.s, n);
    HearsChanges(w, net, n, x);
  }

  lemma BehindElsewhere(w: World, net: Net, n: Name, step: Step)
    requires HasMissed(net, n) && MayStep(w, net, step) && !step.Commits? && Mover(step) != n
    ensures StaysBehind(net, Take(w, net, step), n)
  {
  }

  lemma BehindStep(w: World, net: Net, past: seq<Moment>, n: Name, step: Step)
    requires Sound(past, net.s) && HasMissed(net, n) && MayStep(w, net, step)
    ensures StaysBehind(net, Take(w, net, step), n)
  {
    if step.Commits? {
      BehindCommits(w, net, past, n, step.name, step.action, step.hash);
    } else if Mover(step) != n {
      BehindElsewhere(w, net, n, step);
    } else if step.Delivers? {
      BehindDelivers(w, net, past, n);
    } else {
      BehindHears(w, net, past, n, step.sender);
    }
  }

  /** Whatever happens, a client that has missed a commit keeps its replica, and never gets that commit. */
  lemma {:induction false} MissedForGood(w: World, net: Net, past: seq<Moment>, n: Name, more: seq<Step>)
    requires Protocol.Inv(w, net.s, past) && HasMissed(net, n) && CanRun(w, net, more)
    ensures StaysBehind(net, End(w, net, more), n)
    decreases |more|
  {
    if more != [] {
      BehindStep(w, net, past, n, more[0]);
      var past' := AnyStepInv(w, net, past, more[0]);
      MissedForGood(w, Take(w, net, more[0]), past', n, more[1..]);
    }
  }

  lemma AnyStepInv(w: World, net: Net, past: seq<Moment>, step: Step) returns (past': seq<Moment>)
    requires Protocol.Inv(w, net.s, past) && MayStep(w, net, step)
    ensures Protocol.Inv(w, Take(w, net, step).s, past')
  {
    if step.Commits? {
      var now := InvCommitted(w, net.s, past, step.name, step.action, step.hash);
      past' := past + [now];
    } else {
      StepInv(w, net, past, step);
      past' := past;
    }
  }

  /** Steps without a commit of n after which n has missed one. */
  ghost predicate CostsACommit(w: World, net: Net, more: seq<Step>, n: Name) {
    CanRun(w, net, more) && NoCommitBy(more, n) && HasMissed(End(w, net, more), n)
  }

  // ---------------------------------------------------------------- nobody else is drawn

  lemma EpochStaysAtJoin(w: World, net: Net, past: seq<Moment>, m: Welcome, n: Name)
    requires Sound(past, net.s) && MayStep(w, net, Joins(m))
    requires n in net.s.nodes && net.s.nodes[n].r.epoch == |net.s.log|
    ensures m.to != n
  {
    WelcomeFacts(past, net.s, m);
    assert GoodNode(past, net.s, n);
  }

  lemma EpochStaysAtDelivery(w: World, net: Net, past: seq<Moment>, x: Name, n: Name)
    requires Sound(past, net.s) && MayStep(w, net, Delivers(x))
    requires n in net.s.nodes && net.s.nodes[n].r.epoch == |net.s.log|
    ensures var t := AfterDelivery(w, net, x).s; n in t.nodes && t.nodes[n].r.epoch == |net.s.log|
  {
    if Concerns(net.s, x) {
      NodeFacts(past, net.s, x);
    }
  }

  lemma EpochStays(w: World, net: Net, past: seq<Moment>, step: Step, n: Name)
    requires Protocol.Inv(w, net.s, past) && MayStep(w, net, step) && !step.Commits?
    requires n in net.s.nodes && net.s.nodes[n].r.epoch == |net.s.log|
    ensures var t := Take(w, net, step).s; n in t.nodes && t.nodes[n].r.epoch == |net.s.log|
  {
    match step
    case Delivers(x) => EpochStaysAtDelivery(w, net, past, x, n);
    case Joins(m) => EpochStaysAtJoin(w, net, past, m, n);
    case _ =>
  }

  lemma {:induction false} StaysAtNewest(w: World, net: Net, past: seq<Moment>, run: seq<Step>, n: Name)
    requires Protocol.Inv(w, net.s, past) && CanRun(w, net, run) && NoCommitBy(run, n)
    requires past[|net.s.log|].winner == NOBODY || past[|net.s.log|].winner == n
    requires n in net.s.nodes && net.s.nodes[n].r.epoch == |net.s.log|
    ensures var t := End(w, net, run).s; t.log == net.s.log && n in t.nodes && t.nodes[n].r.epoch == |net.s.log|
    decreases |run|
  {
    if run != [] {
      var step := run[0];
      IdleStep(w, net, past, step);
      StaysAtNewestStep(w, net, past, step, n);
      StaysAtNewest(w, Take(w, net, step), past, run[1..], n);
    }
  }

  lemma StaysAtNewestStep(w: World, net: Net, past: seq<Moment>, step: Step, n: Name)
    requires Protocol.Inv(w, net.s, past) && MayStep(w, net, step) && !(step.Commits? && step.name == n)
    requires past[|net.s.log|].winner == NOBODY || past[|net.s.log|].winner == n
    requires n in net.s.nodes && net.s.nodes[n].r.epoch == |net.s.log|
    ensures var t := Take(w, net, step).s; n in t.nodes && t.nodes[n].r.epoch == |net.s.log|
  {
    if step.Commits? {
      OnlyWinnerCommits(w, net, past, step.name, step.action, step.hash);
    } else {
      EpochStays(w, net, past, step, n);
    }
  }

  // ---------------------------------------------------------------- another member is drawn

  /** The other member commits, and then the late client subscribes. */
  lemma LateOne(w: World, net: Net, past: seq<Moment>, n: Name, b: Name)
    requires NetInv(w, net, past, n) && b in net.s.tokens && b != n
    requires n in net.s.nodes && net.s.nodes[n].r.live && net.s.nodes[n].r.epoch == |net.s.log|
    ensures CostsACommit(w, net, [Commits(b, Update, []), Subscribes(n)], n)
  {
    CanUpdate(w, net, past, b, []);
    CommitsChanges(w, net, past, b, Update, []);
    assert GoodNode(past, net.s, n);
    LateCosts(w, net, n, b, Confirm(w.p, w.draw, b, net.s.nodes[b].r, Update, []).0);
  }

  lemma LateCosts(w: World, net: Net, n: Name, b: Name, r: Replica)
    requires MayStep(w, net, Commits(b, Update, [])) && b != n && n !in net.subscribed
    requires HasCommitted(net, Take(w, net, Commits(b, Update, [])), b, Update, [], r)
    requires n in net.s.nodes && net.s.nodes[n].r.live && net.s.nodes[n].r.epoch == |net.s.log|
    requires net.s.nodes[n].cursor <= |net.s.log|
    ensures CostsACommit(w, net, [Commits(b, Update, []), Subscribes(n)], n)
  {
    MissesTheUpdate(w, net, Take(w, net, Commits(b, Update, [])), n, b);
    TwoSteps(w, net, Commits(b, Update, []), Subscribes(n));
  }

  lemma MissesTheUpdate(w: World, net: Net, mid: Net, n: Name, b: Name)
    requires n in net.s.nodes && b != n && n !in net.subscribed && net.s.nodes[n].cursor <= |net.s.log|
    requires net.s.nodes[n].r.live && net.s.nodes[n].r.epoch == |net.s.log|
    requires exists r :: HasCommitted(net, mid, b, Update, [], r)
    ensures MayStep(w, mid, Subscribes(n)) && HasMissed(Take(w, mid, Subscribes(n)), n)
  {
    assert mid.s.nodes[n] == net.s.nodes[n];
    SubscribesChanges(w, mid, n);
  }

  lemma TwoSteps(w: World, net: Net, first: Step, second: Step)
    requires MayStep(w, net, first) && MayStep(w, Take(w, net, first), second)
    ensures CanRun(w, net, [first, second])
    ensures End(w, net, [first, second]) == Take(w, Take(w, net, first), second)
  {
    Single(w, net, first);
    Single(w, Take(w, net, first), second);
    RunAppend(w, net, [first], [second]);
    assert [first] + [second] == [first, second];
  }

  lemma RashCosts(w: World, net: Net, past: seq<Moment>, n: Name) returns (more: seq<Step>)
    requires FullInv(w, net, past, n) && past[|net.s.log|].winner !in {n, NOBODY} && !Deaf(net, past)
    requires n in net.s.nodes && net.s.nodes[n].r.live && net.s.nodes[n].r.epoch == |net.s.log|
    ensures CostsACommit(w, net, more, n)
  {
    assert GoodNode(past, net.s, n);
    var run, net' := Drain(w, net, past, n);
    DoneHasToken(w, net', past, n);
    var b := past[|net.s.log|].winner;
    LateOne(w, net', past, n, b);
    var last := [Commits(b, Update, []), Subscribes(n)];
    RunAppend(w, net, run, last);
    more := run + last;
  }

  // ---------------------------------------------------------------- the theorem

  /**
   After any careful run, let n hold the token without being subscribed and commit. There are steps without another
   commit of n after which n has missed one, if and only if the draw for the new epoch falls on another member.
   */
  lemma RashCommitExact(w: World, run: seq<Step>, n: Name, a: Action, hash: Bytes, past: seq<Moment>)
    requires w.Valid() && CanRun(w, Start(w), run) && Careful(w, Start(w), run)
    requires var net := End(w, Start(w), run);
             && n !in net.subscribed && MayStep(w, net, Commits(n, a, hash))
             && Chronicle(w, Take(w, net, Commits(n, a, hash)).s.log, past)
    ensures var net := Take(w, End(w, Start(w), run), Commits(n, a, hash));
            (exists more :: CostsACommit(w, net, more, n)) <==> past[|past| - 1].winner !in {n, NOBODY}
  {
    var before := End(w, Start(w), run);
    var was, late := DisciplineHolds(w, run);
    HolderIsDrawn(was, before.s, n);
    var now := CommitsFull(w, before, was, n, a, hash, late);
    var net := Take(w, before, Commits(n, a, hash));
    OneHistory(w, net.s.log, past, was + [now]);
    CommitsChanges(w, before, was, n, a, hash);
    CommitNotDeaf(before, net, was, past, n, a, hash, Confirm(w.p, w.draw, n, before.s.nodes[n].r, a, hash).0);
    AfterRash(w, net, past, n);
  }

  /** Nobody but the author stands at the epoch of a new commit. */
  lemma CommitNotDeaf(net: Net, net': Net, past: seq<Moment>, past': seq<Moment>, n: Name, a: Action, hash: Bytes,
                      r: Replica)
    requires Sound(past, net.s) && HasCommitted(net, net', n, a, hash, r) && |past'| == |net'.s.log| + 1
    ensures past'[|net'.s.log|].winner != n ==> !Deaf(net', past')
  {
    var b := past'[|net'.s.log|].winner;
    assert b in net.s.nodes ==> GoodNode(past, net.s, b);
  }

  lemma AfterRash(w: World, net: Net, past: seq<Moment>, n: Name)
    requires FullInv(w, net, past, n) && (past[|net.s.log|].winner != n ==> !Deaf(net, past))
    requires n in net.s.nodes && net.s.nodes[n].r.live && net.s.nodes[n].r.epoch == |net.s.log|
    ensures (exists more :: CostsACommit(w, net, more, n)) <==> past[|past| - 1].winner !in {n, NOBODY}
  {
    if past[|past| - 1].winner !in {n, NOBODY} {
      var more := RashCosts(w, net, past, n);
    } else {
      forall more | CanRun(w, net, more) && NoCommitBy(more, n) ensures !CostsACommit(w, net, more, n) {
        StaysAtNewest(w, net, past, more, n);
      }
    }
  }

  // ---------------------------------------------------------------- the branch that is not guarded

  lemma {:induction false} CarefulAppend(w: World, net: Net, run: seq<Step>, step: Step)
    requires CanRun(w, net, run) && Careful(w, net, run) && MayStep(w, End(w, net, run), step)
    requires CarefulStep(w, End(w, net, run), step)
    ensures CanRun(w, net, run + [step]) && Careful(w, net, run + [step])
    ensures End(w, net, run + [step]) == Take(w, End(w, net, run), step)
    decreases |run|
  {
    if run == [] {
      assert run + [step] == [step];
      Single(w, net, step);
    } else {
      Tail(run, [step]);
      CarefulAppend(w, Take(w, net, run[0]), run[1..], step);
    }
  }

  lemma GrantedUnsubscribed(w: World, net: Net, m: Welcome)
    requires MayStep(w, net, Joins(m)) && Join(w.p, w.draw, m).1 == Commit
    ensures m.to in Take(w, net, Joins(m)).s.tokens && m.to !in Take(w, net, Joins(m)).subscribed
  {
  }

  /**
   The branch that `Guarded` excludes, after any careful run: a Welcome that grants the token. Its addressee can commit
   an update at once, and can miss a commit after it if and only if that update draws another member.
   */
  lemma UnguardedWelcome(w: World, run: seq<Step>, m: Welcome, hash: Bytes, past: seq<Moment>)
    requires w.Valid() && CanRun(w, Start(w), run) && Careful(w, Start(w), run)
    requires var net := End(w, Start(w), run);
             && MayStep(w, net, Joins(m)) && Join(w.p, w.draw, m).1 == Commit
             && Chronicle(w, net.s.log + [Entry(|net.s.log|, m.to, Update, hash)], past)
    ensures var net := Take(w, End(w, Start(w), run), Joins(m));
            && MayStep(w, net, Commits(m.to, Update, hash))
            && ((exists more :: CostsACommit(w, Take(w, net, Commits(m.to, Update, hash)), more, m.to))
                <==> past[|past| - 1].winner !in {m.to, NOBODY})
  {
    var before := End(w, Start(w), run);
    var net := Take(w, before, Joins(m));
    GrantedUnsubscribed(w, before, m);
    CarefulAppend(w, Start(w), run, Joins(m));
    var longer := run + [Joins(m)];
    var was, late := DisciplineHolds(w, longer);
    CanUpdate(w, net, was, m.to, hash);
    CommitsChanges(w, net, was, m.to, Update, hash);
    SameLog(w, before, m);
    RashCommitExact(w, longer, m.to, Update, hash, past);
  }

  lemma SameLog(w: World, net: Net, m: Welcome)
    requires MayStep(w, net, Joins(m))
    ensures Take(w, net, Joins(m)).s.log == net.s.log
  {
  }
}
