/**
 Who is on the way: whoever has a slot holds the group or is invited, and the acknowledgement of every member added
 last is there or will come. With the invariant of `Subscriptions` this holds in every careful run.
 */
module Progress {
  import opened Basics
  import opened Slots
  import opened History
  import opened Client
  import opened Protocol
  import opened Subscriptions

  // ---------------------------------------------------------------- who is on the way

  ghost function Invited(net: Net): set<Name> {
    set m | m in net.s.welcomes :: m.to
  }

  /** A client that holds the group and has a slot in all epochs from its own to the newest. */
  ghost predicate Tracks(net: Net, past: seq<Moment>, x: Name) {
    x in net.s.nodes && net.s.nodes[x].r.live && forall i | net.s.nodes[x].r.epoch <= i < |past| :: x in past[i].slots
  }

  /** The acknowledgement of a member that was just added is there or will come. */
  ghost predicate Expected(net: Net, x: Name) {
    || x in Invited(net) || Ack(x, |net.s.log|) in net.acks
    || (x in net.s.nodes && net.s.nodes[x].r.live && x !in net.subscribed)
  }

  ghost predicate Present(net: Net, past: seq<Moment>)
    requires |past| == |net.s.log| + 1
  {
    && (forall x | x in past[|net.s.log|].slots && x != NOBODY :: x in Invited(net) || Tracks(net, past, x))
    && (forall x | x in net.Newest() :: Expected(net, x))
  }

  ghost predicate FullInv(w: World, net: Net, past: seq<Moment>, late: Name) {
    NetInv(w, net, past, late) && Present(net, past)
  }

  // ---------------------------------------------------------------- each step keeps them on the way

  /** One client changes and stays on the way. */
  lemma StaysPresent(net: Net, net': Net, past: seq<Moment>, n: Name)
    requires |past| == |net.s.log| + 1 && Present(net, past) && Changes(net, net', n)
    requires forall x | x in Invited(net) && x != n :: x in Invited(net')
    requires n in past[|net.s.log|].slots && n != NOBODY ==> n in Invited(net') || Tracks(net', past, n)
    requires n in net.Newest() ==> Expected(net', n)
    ensures Present(net', past)
  {
    forall x | x in past[|net.s.log|].slots && x != NOBODY ensures x in Invited(net') || Tracks(net', past, x) {
      if x != n {
        assert x in Invited(net) || Tracks(net, past, x);
      }
    }
    forall x | x in net'.Newest() ensures Expected(net', x) {
      if x != n {
        assert Expected(net, x);
        assert x in net'.subscribed - {n} <==> x in net.subscribed - {n};
      }
    }
  }

  lemma ReceivedPresent(net: Net, net': Net, past: seq<Moment>, n: Name, r: Replica)
    requires |past| == |net.s.log| + 1 && Present(net, past) && HasReceived(net, net', n, r)
    requires net'.s.welcomes == net.s.welcomes
    requires Tracks(net, past, n) ==> r.live && r.epoch >= net.s.nodes[n].r.epoch
    ensures Present(net', past)
  {
    assert Invited(net') == Invited(net);
    assert n in net.Newest() ==> Expected(net, n);
    assert n in past[|net.s.log|].slots && n != NOBODY ==> n in Invited(net) || Tracks(net, past, n);
    StaysPresent(net, net', past, n);
  }

  lemma DeliversPresent(w: World, net: Net, past: seq<Moment>, n: Name, late: Name)
    requires FullInv(w, net, past, late) && MayStep(w, net, Delivers(n))
    ensures Present(Take(w, net, Delivers(n)), past)
  {
    var net' := AfterDelivery(w, net, n);
    if Concerns(net.s, n) {
      var (r, action) := Processed(w, net.s, n);
      OtherLands(w, net, past, n, r, action);
      NodeFacts(past, net.s, n);
      ApplyDelivered(w, net.s, n, r, action);
      ReceivedPresent(net, net', past, n, r);
    } else {
      DeliversOwn(w, net, n);
      ApplySkipped(w, net.s, n);
      ReceivedPresent(net, net', past, n, net.s.nodes[n].r);
    }
  }

  lemma JoinedPresent(net: Net, net': Net, past: seq<Moment>, m: Welcome, r: Replica, action: NextAction)
    requires |past| == |net.s.log| + 1 && Present(net, past) && HasJoined(net, net', m, r) && m.epoch == |net.s.log|
    requires Landed(past[m.epoch], m.names, m.to, r, action)
    ensures Present(net', past)
  {
    forall x | x in Invited(net) && x != m.to ensures x in Invited(net') {
      var m' :| m' in net.s.welcomes && m'.to == x;
      assert m' in net'.s.welcomes;
    }
    StaysPresent(net, net', past, m.to);
  }

  lemma JoinsPresent(w: World, net: Net, past: seq<Moment>, m: Welcome, late: Name)
    requires FullInv(w, net, past, late) && MayStep(w, net, Joins(m))
    ensures Present(Take(w, net, Joins(m)), past)
  {
    var (r, action) := Join(w.p, w.draw, m);
    NoOtherWelcome(net, past, m, late);
    JoinsChanges(w, net, m);
    JoinedArrives(w, net.s, past, m);
    JoinedPresent(net, AfterJoin(w, net, m), past, m, r, action);
  }

  lemma SubscribesPresent(w: World, net: Net, past: seq<Moment>, n: Name, late: Name)
    requires FullInv(w, net, past, late) && MayStep(w, net, Subscribes(n))
    ensures Present(Take(w, net, Subscribes(n)), past)
  {
    var net' := Take(w, net, Subscribes(n));
    SubscribesChanges(w, net, n);
    SubscribesSettled(net, net', past, n, late, if n == late then NOBODY else late);
    SubscribedPresent(net, net', past, n);
  }

  lemma SubscribedPresent(net: Net, net': Net, past: seq<Moment>, n: Name)
    requires |past| == |net.s.log| + 1 && Present(net, past) && HasSubscribed(net, net', n) && Changes(net, net', n)
    ensures Present(net', past)
  {
    assert Invited(net') == Invited(net);
    assert n in past[|net.s.log|].slots && n != NOBODY ==> n in Invited(net) || Tracks(net, past, n);
    StaysPresent(net, net', past, n);
  }

  lemma HeardPresent(net: Net, net': Net, past: seq<Moment>, n: Name, x: Name)
    requires |past| == |net.s.log| + 1 && Present(net, past) && HasHeard(net, net', n, x)
    requires net'.s.welcomes == net.s.welcomes
    ensures Present(net', past)
  {
    assert Invited(net') == Invited(net);
    assert n in net.Newest() ==> Expected(net, n);
    assert n in past[|net.s.log|].slots && n != NOBODY ==> n in Invited(net) || Tracks(net, past, n);
    StaysPresent(net, net', past, n);
  }

  lemma HearsPresent(w: World, net: Net, past: seq<Moment>, n: Name, x: Name, late: Name)
    requires FullInv(w, net, past, late) && MayStep(w, net, Hears(n, x))
    ensures Present(Take(w, net, Hears(n, x)), past)
  {
    HearsChanges(w, net, n, x);
    HearsLeaves(w, net, n, x);
    HeardPresent(net, Take(w, net, Hears(n, x)), past, n, x);
  }

  lemma HearsLeaves(w: World, net: Net, n: Name, x: Name)
    requires MayStep(w, net, Hears(n, x))
    ensures Take(w, net, Hears(n, x)).s.welcomes == net.s.welcomes
  {
  }

  lemma QuietPresent(w: World, net: Net, past: seq<Moment>, step: Step, late: Name)
    requires FullInv(w, net, past, late) && MayStep(w, net, step) && Quiet(step, late)
    ensures FullInv(w, Take(w, net, step), past, late)
  {
    QuietKeeps(w, net, past, step, late);
    match step
    case Delivers(n) => DeliversPresent(w, net, past, n, late);
    case Joins(m) => JoinsPresent(w, net, past, m, late);
    case Subscribes(n) => SubscribesPresent(w, net, past, n, late);
    case Hears(n, x) => HearsPresent(w, net, past, n, x, late);
  }

  /** Who has a slot after a commit had one before, or was added. */
  lemma SlotsFrom(w: World, m: Moment, e: Entry, now: Moment, x: Name)
    requires Good(w, m) && Follows(w, m, e, now) && x in now.slots && x != NOBODY
    ensures x in m.slots || x in Added(e.action)
  {
    MayJoin(w, m, e);
    assert e.author in Changed(m.members, e.action);
    GrownEffect(w.p, w.draw, m.slots, e, |Changed(m.members, e.action)|);
    assert x in Active(now.slots);
  }

  lemma CommitsPresent(net: Net, net': Net, past: seq<Moment>, n: Name, a: Action, hash: Bytes, r: Replica, now: Moment)
    requires |past| == |net.s.log| + 1 && Present(net, past) && HasCommitted(net, net', n, a, hash, r)
    requires net.s.welcomes == {}
    requires forall x | x in now.slots && x != NOBODY :: x in past[|net.s.log|].slots || x in Added(a)
    ensures Present(net', past + [now])
  {
    var past' := past + [now];
    forall x | x in Added(a) ensures x in Invited(net') {
      var r := net.s.nodes[n].r;
      var m := Welcome(x, r.epoch + 1, NewMembers(r, a), hash, r.slots, Added(a));
      assert m in WelcomesOf(net.s.nodes[n].r, a, hash);
    }
    forall x | x in now.slots && x != NOBODY ensures x in Invited(net') || Tracks(net', past', x) {
      if x !in Added(a) {
        assert Tracks(net, past, x);
      }
    }
  }

  lemma CommitsFull(w: World, net: Net, past: seq<Moment>, n: Name, a: Action, hash: Bytes, late: Name)
    returns (now: Moment)
    requires FullInv(w, net, past, late) && late in {NOBODY, n} && MayStep(w, net, Commits(n, a, hash))
    ensures FullInv(w, Take(w, net, Commits(n, a, hash)), past + [now], LateAfter(net, n))
  {
    now := CommitsKeeps(w, net, past, n, a, hash, late);
    CommitsSlots(w, net, past, n, a, hash, now);
    NoWelcomeLeft(net, past, n, late);
    CommitsChanges(w, net, past, n, a, hash);
    CommitsPresent(net, Take(w, net, Commits(n, a, hash)), past, n, a, hash,
                   Confirm(w.p, w.draw, n, net.s.nodes[n].r, a, hash).0, now);
  }

  lemma CommitsSlots(w: World, net: Net, past: seq<Moment>, n: Name, a: Action, hash: Bytes, now: Moment)
    requires Protocol.Inv(w, net.s, past) && MayStep(w, net, Commits(n, a, hash))
    requires Chronicle(w, Take(w, net, Commits(n, a, hash)).s.log, past + [now])
    ensures forall x | x in now.slots && x != NOBODY :: x in past[|net.s.log|].slots || x in Added(a)
  {
    var i := |net.s.log|;
    AlwaysGood(w, net.s.log, past, i);
    TokenHolder(past, net.s, n);
    var log' := Take(w, net, Commits(n, a, hash)).s.log;
    StepAt(w, log', past + [now], i);
    forall x | x in now.slots && x != NOBODY ensures x in past[i].slots || x in Added(a) {
      SlotsFrom(w, past[i], log'[i], now, x);
    }
  }

  // ---------------------------------------------------------------- runs

  lemma StartFull(w: World)
    requires w.Valid()
    ensures FullInv(w, Start(w), [Genesis(w)], NOBODY)
  {
    StartInv(w);
    var net, past := Start(w), [Genesis(w)];
    GenesisGood(w);
    forall x | x in past[0].slots && x != NOBODY ensures Tracks(net, past, x) {
      assert x in Active(past[0].slots);
    }
    assert Expected(net, w.creator);
  }

  /** Nobody is late, or it is the late client's turn, or nobody's. */
  ghost predicate CarefulInv(w: World, net: Net, past: seq<Moment>, late: Name) {
    FullInv(w, net, past, late) && (late == NOBODY || past[|net.s.log|].winner in {late, NOBODY})
  }

  lemma CommitsCareful(w: World, net: Net, past: seq<Moment>, n: Name, a: Action, hash: Bytes, late: Name)
    returns (now: Moment)
    requires CarefulInv(w, net, past, late) && MayStep(w, net, Commits(n, a, hash))
    requires CarefulStep(w, net, Commits(n, a, hash))
    ensures CarefulInv(w, Take(w, net, Commits(n, a, hash)), past + [now], LateAfter(net, n))
  {
    HolderIsLate(w, net, past, n, late);
    now := CommitsFull(w, net, past, n, a, hash, late);
    CommitDraws(w, net, past, n, a, hash, now);
    LateIsCareful(w, net, past, n, a, hash, late, now);
  }

  lemma HolderIsLate(w: World, net: Net, past: seq<Moment>, n: Name, late: Name)
    requires CarefulInv(w, net, past, late) && n in net.s.tokens
    ensures late in {NOBODY, n}
  {
    HolderIsDrawn(past, net.s, n);
  }

  lemma LateIsCareful(w: World, net: Net, past: seq<Moment>, n: Name, a: Action, hash: Bytes, late: Name, now: Moment)
    requires MayStep(w, net, Commits(n, a, hash)) && CarefulStep(w, net, Commits(n, a, hash))
    requires FullInv(w, Take(w, net, Commits(n, a, hash)), past + [now], LateAfter(net, n))
    requires now.winner == DrawnBy(w, n, net.s.nodes[n].r, a, hash)
    ensures CarefulInv(w, Take(w, net, Commits(n, a, hash)), past + [now], LateAfter(net, n))
  {
  }

  lemma CommitDraws(w: World, net: Net, past: seq<Moment>, n: Name, a: Action, hash: Bytes, now: Moment)
    requires Protocol.Inv(w, net.s, past) && MayStep(w, net, Commits(n, a, hash))
    requires Chronicle(w, Take(w, net, Commits(n, a, hash)).s.log, past + [now])
    ensures now.winner == DrawnBy(w, n, net.s.nodes[n].r, a, hash)
  {
    CommitsChanges(w, net, past, n, a, hash);
    StepAt(w, Take(w, net, Commits(n, a, hash)).s.log, past + [now], |net.s.log|);
    DrawnByAuthor(w, net.s, past, n, a, hash, now);
  }

  lemma StepCareful(w: World, net: Net, past: seq<Moment>, step: Step, late: Name)
    returns (past': seq<Moment>, late': Name)
    requires CarefulInv(w, net, past, late) && MayStep(w, net, step) && CarefulStep(w, net, step)
    ensures CarefulInv(w, Take(w, net, step), past', late')
  {
    if step.Commits? {
      var now := CommitsCareful(w, net, past, step.name, step.action, step.hash, late);
      past', late' := past + [now], LateAfter(net, step.name);
    } else if Quiet(step, late) {
      QuietPresent(w, net, past, step, late);
      past', late' := past, late;
    } else {
      SubscribesKeeps(w, net, past, late, late, NOBODY);
      SubscribesPresent(w, net, past, late, late);
      past', late' := past, NOBODY;
    }
  }

  lemma {:induction false} CareKeeps(w: World, net: Net, past: seq<Moment>, run: seq<Step>, late: Name)
    returns (past': seq<Moment>, late': Name)
    requires CarefulInv(w, net, past, late) && CanRun(w, net, run) && Careful(w, net, run)
    ensures CarefulInv(w, End(w, net, run), past', late')
    decreases |run|
  {
    if run == [] {
      past', late' := past, late;
    } else {
      past', late' := StepCareful(w, net, past, run[0], late);
      past', late' := CareKeeps(w, Take(w, net, run[0]), past', run[1..], late');
    }
  }

  /** What every careful run keeps. */
  lemma DisciplineHolds(w: World, run: seq<Step>) returns (past: seq<Moment>, late: Name)
    requires w.Valid() && CanRun(w, Start(w), run) && Careful(w, Start(w), run)
    ensures CarefulInv(w, End(w, Start(w), run), past, late)
  {
    StartFull(w);
    past, late := CareKeeps(w, Start(w), [Genesis(w)], run, NOBODY);
  }
}
