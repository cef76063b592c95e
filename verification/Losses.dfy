/**
 Acknowledgements that never arrive. A client that committed before it was subscribed and is drawn by its own commit
 waits for the members that it added; what they acknowledge before its subscription completes is lost for it. It then
 waits for ever, and nobody can commit any more.
 */
module Losses {
  import opened Slots
  import opened History
  import opened Protocol
  import opened Subscriptions
  import opened Progress

  /** The acknowledgements since the last commit that a client has got or will never get. */
  ghost function Behind(net: Net, n: Name): set<Name>
    requires n in net.s.nodes
  {
    if n !in net.subscribed then net.AckedAt(|net.s.log|)
    else if net.s.nodes[n].cursor == |net.s.log| then net.Gone(n)
    else {}
  }

  /** The client whose turn it is waits for more acknowledgements than it can still get. */
  ghost predicate Deaf(net: Net, past: seq<Moment>)
    requires |past| == |net.s.log| + 1
  {
    var b := past[|net.s.log|].winner;
    HasTurn(net, past, b) && net.s.nodes[b].r.pending + |Behind(net, b) - {b}| > Others(net.Newest(), b)
  }

  lemma BehindIsNew(w: World, net: Net, past: seq<Moment>, b: Name, late: Name)
    requires NetInv(w, net, past, late) && HasTurn(net, past, b)
    ensures |Behind(net, b) - {b}| <= Others(net.Newest(), b)
  {
    assert GoodNode(past, net.s, b);
    NewestDistinct(past, net);
    OthersCount(net.Newest(), b);
    if b !in net.subscribed {
      AckedAreNew(net, past, b, late);
    } else if net.s.nodes[b].cursor == |net.s.log| {
      HeardAreNew(net, past, b, late);
    }
    SubsetSize(Behind(net, b) - {b}, Named(net.Newest()) - {b});
  }

  // ---------------------------------------------------------------- when nothing is lost

  /** Nothing is lost for a client that was the only one added. */
  lemma AloneNotLost(w: World, net: Net, past: seq<Moment>, late: Name)
    requires NetInv(w, net, past, late) && net.Newest() == [past[|net.s.log|].winner]
    ensures !Deaf(net, past)
  {
    var b := past[|net.s.log|].winner;
    assert [b][1..] == [];
    if HasTurn(net, past, b) {
      BehindIsNew(w, net, past, b, late);
      assert Waits(net, past, b);
    }
  }

  lemma ArrivingNotLost(w: World, net: Net, past: seq<Moment>, late: Name)
    requires NetInv(w, net, past, late) && past[|net.s.log|].winner !in net.subscribed
    requires past[|net.s.log|].winner != late
    ensures !Deaf(net, past)
  {
    var b := past[|net.s.log|].winner;
    if HasTurn(net, past, b) {
      NewestIfDrawn(w, net, past, b, late);
      AloneNotLost(w, net, past, late);
    }
  }

  /** Nothing is lost for a subscriber before it has heard anything. */
  lemma FreshNotLost(net: Net, past: seq<Moment>, late: Name)
    requires |past| == |net.s.log| + 1 && Disciplined(net, past, late)
    requires var b := past[|net.s.log|].winner;
             b in net.s.nodes && b in net.subscribed && (net.s.nodes[b].cursor == |net.s.log| ==> net.Gone(b) == {})
    ensures !Deaf(net, past)
  {
    var b := past[|net.s.log|].winner;
    assert Waits(net, past, b);
    assert Behind(net, b) - {b} == {};
  }

  lemma OthersNotLost(net: Net, net': Net, past: seq<Moment>, x: Name)
    requires |past| == |net.s.log| + 1 && Changes(net, net', x) && x != past[|net.s.log|].winner
    requires past[|net.s.log|].winner in net.subscribed && !Deaf(net, past)
    ensures !Deaf(net', past)
  {
    var b := past[|net.s.log|].winner;
    assert b in net'.subscribed - {x} <==> b in net.subscribed - {x};
    assert HasTurn(net', past, b) ==> net'.s.nodes[b] == net.s.nodes[b];
  }

  lemma HeardNotLost(w: World, net: Net, net': Net, past: seq<Moment>, x: Name, late: Name)
    requires NetInv(w, net, past, late) && HasHeard(net, net', past[|net.s.log|].winner, x) && !Deaf(net, past)
    ensures !Deaf(net', past)
  {
    var b := past[|net.s.log|].winner;
    assert GoodNode(past, net.s, b) && UpToDate(net, b);
    if net.s.nodes[b].cursor == |net.s.log| {
      if x != b {
        StillWaiting(net, past, b, x, late);
      }
      HeardSum(net, net', past, x);
    } else {
      assert Waits(net, past, b);
      assert Behind(net', b) - {b} == {};
    }
  }

  lemma HeardSum(net: Net, net': Net, past: seq<Moment>, x: Name)
    requires |past| == |net.s.log| + 1 && HasHeard(net, net', past[|net.s.log|].winner, x) && !Deaf(net, past)
    requires var b := past[|net.s.log|].winner;
             && net.s.nodes[b].cursor == |net.s.log|
             && (x != b ==> |net.Gone(b) + {x} - {b}| == |net.Gone(b) - {b}| + 1 <= Others(net.Newest(), b))
    ensures !Deaf(net', past)
  {
    var b := past[|net.s.log|].winner;
    assert x == b ==> net.Gone(b) + {x} - {b} == net.Gone(b) - {b};
  }

  /** Whom a step changes. */
  function Mover(step: Step): Name {
    if step.Joins? then step.welcome.to else step.name
  }

  lemma QuietChanges(w: World, net: Net, past: seq<Moment>, step: Step, late: Name)
    requires NetInv(w, net, past, late) && MayStep(w, net, step) && !step.Commits?
    ensures Changes(net, Take(w, net, step), Mover(step))
  {
    match step
    case Delivers(n) =>
      if Concerns(net.s, n) {
        var (r, action) := Processed(w, net.s, n);
        DeliversOther(w, net, n, r, action);
      } else {
        DeliversOwn(w, net, n);
      }
    case Joins(m) =>
      NoOtherWelcome(net, past, m, late);
      JoinsChanges(w, net, m);
    case Subscribes(n) =>
      SubscribesChanges(w, net, n);
      SubscribesSettled(net, Take(w, net, step), past, n, late, if n == late then NOBODY else late);
    case Hears(n, x) => HearsChanges(w, net, n, x);
  }

  lemma DeliveredFresh(w: World, net: Net, n: Name)
    requires MayStep(w, net, Delivers(n))
    ensures Take(w, net, Delivers(n)).Gone(n) == {} && n in Take(w, net, Delivers(n)).s.nodes
  {
  }

  lemma DeliversNotLost(w: World, net: Net, past: seq<Moment>, late: Name)
    requires |past| == |net.s.log| + 1 && MayStep(w, net, Delivers(past[|net.s.log|].winner))
    requires var net' := Take(w, net, Delivers(past[|net.s.log|].winner));
             && |past| == |net'.s.log| + 1 && Disciplined(net', past, late)
             && past[|net'.s.log|].winner in net'.subscribed
    ensures !Deaf(Take(w, net, Delivers(past[|net.s.log|].winner)), past)
  {
    var b := past[|net.s.log|].winner;
    DeliveredFresh(w, net, b);
    FreshNotLost(Take(w, net, Delivers(b)), past, late);
  }

  lemma SubscribesNotLost(w: World, net: Net, past: seq<Moment>, late: Name)
    requires NetInv(w, net, past, late) && MayStep(w, net, Subscribes(past[|net.s.log|].winner))
    requires past[|net.s.log|].winner != late
    requires NetInv(w, Take(w, net, Subscribes(past[|net.s.log|].winner)), past, late)
    ensures !Deaf(Take(w, net, Subscribes(past[|net.s.log|].winner)), past)
  {
    var b := past[|net.s.log|].winner;
    SubscribesChanges(w, net, b);
    SubscribedNotLost(w, net, Take(w, net, Subscribes(b)), past, late);
  }

  lemma SubscribedNotLost(w: World, net: Net, net': Net, past: seq<Moment>, late: Name)
    requires NetInv(w, net, past, late) && HasSubscribed(net, net', past[|net.s.log|].winner)
    requires var b := past[|net.s.log|].winner; b !in net.subscribed && net.s.nodes[b].r.live && b != late
    requires NetInv(w, net', past, late)
    ensures !Deaf(net', past)
  {
    NewestIfDrawn(w, net, past, past[|net.s.log|].winner, late);
    AloneNotLost(w, net', past, late);
  }

  /** A step of the client whose turn it is loses nothing, unless it was late. */
  lemma OwnStepNotLost(w: World, net: Net, past: seq<Moment>, step: Step, late: Name)
    requires NetInv(w, net, past, late) && MayStep(w, net, step) && Quiet(step, late) && !Deaf(net, past)
    requires Mover(step) == past[|net.s.log|].winner != late && NetInv(w, Take(w, net, step), past, late)
    requires !step.Joins? && past[|net.s.log|].winner in Take(w, net, step).subscribed
    ensures !Deaf(Take(w, net, step), past)
  {
    var b := past[|net.s.log|].winner;
    match step
    case Delivers(_) => DeliversNotLost(w, net, past, late);
    case Subscribes(_) => SubscribesNotLost(w, net, past, late);
    case Hears(_, x) =>
      HearsChanges(w, net, b, x);
      HeardNotLost(w, net, Take(w, net, step), past, x, late);
  }

  lemma QuietNotLost(w: World, net: Net, past: seq<Moment>, step: Step, late: Name)
    requires NetInv(w, net, past, late) && MayStep(w, net, step) && Quiet(step, late) && !Deaf(net, past)
    requires past[|net.s.log|].winner != late
    ensures |past| == |Take(w, net, step).s.log| + 1 && !Deaf(Take(w, net, step), past)
  {
    var b, net' := past[|net.s.log|].winner, Take(w, net, step);
    QuietKeeps(w, net, past, step, late);
    QuietChanges(w, net, past, step, late);
    if b !in net'.subscribed {
      ArrivingNotLost(w, net', past, late);
    } else if Mover(step) == b {
      OwnStepNotLost(w, net, past, step, late);
    } else {
      assert b in net'.subscribed - {Mover(step)};
      OthersNotLost(net, net', past, Mover(step));
    }
  }

  /** A late client that subscribes loses exactly what was acknowledged before. */
  lemma LateSubscribesKeepsLost(w: World, net: Net, past: seq<Moment>, b: Name)
    requires |past| == |net.s.log| + 1 && MayStep(w, net, Subscribes(b)) && b == past[|net.s.log|].winner
    ensures Deaf(net, past) <==> Deaf(Take(w, net, Subscribes(b)), past)
  {
    SubscribesChanges(w, net, b);
  }

  // ---------------------------------------------------------------- when something is lost

  lemma LostHasNoToken(w: World, net: Net, past: seq<Moment>, n: Name, late: Name)
    requires NetInv(w, net, past, late) && Deaf(net, past)
    ensures n !in net.s.tokens
  {
    if n in net.s.tokens {
      HolderIsDrawn(past, net.s, n);
      TokenHolder(past, net.s, n);
      BehindIsNew(w, net, past, n, late);
      assert false;
    }
  }

  lemma OthersLost(net: Net, net': Net, past: seq<Moment>, x: Name)
    requires |past| == |net.s.log| + 1 && Changes(net, net', x) && x != past[|net.s.log|].winner && Deaf(net, past)
    ensures Deaf(net', past)
  {
    var b := past[|net.s.log|].winner;
    assert b in net'.subscribed - {x} <==> b in net.subscribed - {x};
    assert net'.s.nodes[b] == net.s.nodes[b];
    assert net.AckedAt(|net.s.log|) <= net'.AckedAt(|net.s.log|);
    SubsetSize(Behind(net, b) - {b}, Behind(net', b) - {b});
  }

  lemma HeardLost(w: World, net: Net, net': Net, past: seq<Moment>, x: Name, late: Name)
    requires NetInv(w, net, past, late) && HasHeard(net, net', past[|net.s.log|].winner, x) && Deaf(net, past)
    ensures Deaf(net', past)
  {
    var b := past[|net.s.log|].winner;
    BehindIsNew(w, net, past, b, late);
    DeafHasAll(net, past, late);
    assert GoodNode(past, net.s, b);
    if x != b {
      StillWaiting(net, past, b, x, late);
    }
    HeardDeafSum(net, net', past, x);
  }

  /** A subscriber for which something is lost has got everything else that was published. */
  lemma DeafHasAll(net: Net, past: seq<Moment>, late: Name)
    requires |past| == |net.s.log| + 1 && Disciplined(net, past, late) && Deaf(net, past)
    ensures var b := past[|net.s.log|].winner; b in net.subscribed ==> net.s.nodes[b].cursor == |net.s.log|
  {
    var b := past[|net.s.log|].winner;
    assert Waits(net, past, b);
    assert Behind(net, b) - {b} != {};
  }

  lemma HeardDeafSum(net: Net, net': Net, past: seq<Moment>, x: Name)
    requires |past| == |net.s.log| + 1 && HasHeard(net, net', past[|net.s.log|].winner, x) && Deaf(net, past)
    requires var b := past[|net.s.log|].winner;
             && net.s.nodes[b].cursor == |net.s.log| && |Behind(net, b) - {b}| <= Others(net.Newest(), b)
             && (x != b ==> |net.Gone(b) + {x} - {b}| == |net.Gone(b) - {b}| + 1)
    ensures Deaf(net', past)
  {
    var b := past[|net.s.log|].winner;
    assert x == b ==> net.Gone(b) + {x} - {b} == net.Gone(b) - {b};
  }

  /** Nothing is delivered to a client for which something is lost. */
  lemma LostHasAll(w: World, net: Net, past: seq<Moment>, late: Name)
    requires NetInv(w, net, past, late) && Deaf(net, past)
    ensures !MayStep(w, net, Delivers(past[|net.s.log|].winner))
    ensures forall m | m in net.s.welcomes :: m.to != past[|net.s.log|].winner
  {
    var b := past[|net.s.log|].winner;
    DeafHasAll(net, past, late);
    assert GoodNode(past, net.s, b);
    forall m | m in net.s.welcomes ensures m.to != b {
      WelcomeFacts(past, net.s, m);
    }
  }

  lemma DeafMoves(w: World, net: Net, past: seq<Moment>, step: Step, late: Name)
    requires NetInv(w, net, past, late) && MayStep(w, net, step) && !step.Commits? && Deaf(net, past)
    requires Mover(step) == past[|net.s.log|].winner
    ensures step.Subscribes? || step.Hears?
  {
    LostHasAll(w, net, past, late);
  }

  lemma OwnStepLost(w: World, net: Net, past: seq<Moment>, step: Step, late: Name)
    requires NetInv(w, net, past, late) && MayStep(w, net, step) && !step.Commits? && Deaf(net, past)
    requires Mover(step) == past[|net.s.log|].winner && Changes(net, Take(w, net, step), Mover(step))
    ensures Deaf(Take(w, net, step), past)
  {
    DeafMoves(w, net, past, step, late);
    if step.Hears? {
      HearsLost(w, net, past, step.sender, late);
    } else {
      LateSubscribesKeepsLost(w, net, past, past[|net.s.log|].winner);
    }
  }

  lemma HearsLost(w: World, net: Net, past: seq<Moment>, x: Name, late: Name)
    requires NetInv(w, net, past, late) && Deaf(net, past) && MayStep(w, net, Hears(past[|net.s.log|].winner, x))
    ensures |past| == |Take(w, net, Hears(past[|net.s.log|].winner, x)).s.log| + 1
    ensures Deaf(Take(w, net, Hears(past[|net.s.log|].winner, x)), past)
  {
    var b := past[|net.s.log|].winner;
    HearsChanges(w, net, b, x);
    HeardLost(w, net, Take(w, net, Hears(b, x)), past, x, late);
  }

  /** What is lost stays lost, and no commit is published. */
  lemma LostStays(w: World, net: Net, past: seq<Moment>, step: Step, late: Name)
    requires NetInv(w, net, past, late) && MayStep(w, net, step) && Deaf(net, past)
    ensures !step.Commits? && Take(w, net, step).s.log == net.s.log && Deaf(Take(w, net, step), past)
  {
    if step.Commits? {
      LostHasNoToken(w, net, past, step.name, late);
    } else {
      QuietChanges(w, net, past, step, late);
      if Mover(step) == past[|net.s.log|].winner {
        OwnStepLost(w, net, past, step, late);
      } else {
        OthersLost(net, Take(w, net, step), past, Mover(step));
      }
    }
  }

  lemma LostStep(w: World, net: Net, past: seq<Moment>, step: Step, late: Name) returns (late': Name)
    requires CarefulInv(w, net, past, late) && MayStep(w, net, step) && Deaf(net, past)
    ensures Take(w, net, step).s.log == net.s.log && Deaf(Take(w, net, step), past)
    ensures CarefulInv(w, Take(w, net, step), past, late')
  {
    LostStays(w, net, past, step, late);
    var past';
    past', late' := StepCareful(w, net, past, step, late);
    OneHistory(w, net.s.log, past, past');
  }

  /** Once something is lost no commit follows, in any run. */
  lemma {:induction false} LostForGood(w: World, net: Net, past: seq<Moment>, run: seq<Step>, late: Name)
    requires CarefulInv(w, net, past, late) && CanRun(w, net, run) && Deaf(net, past)
    ensures End(w, net, run).s.log == net.s.log && Deaf(End(w, net, run), past)
    decreases |run|
  {
    if run != [] {
      var late' := LostStep(w, net, past, run[0], late);
      LostForGood(w, Take(w, net, run[0]), past, run[1..], late');
    }
  }
}
