/**
 Whose turn it is gets it: if a member is drawn for the present epoch and has lost no acknowledgement, deliveries,
 Welcomes, subscriptions and acknowledgements alone lead to a state in which it holds the token. Otherwise no commit
 ever follows.
 */
module Turns {
  import opened Basics
  import opened Slots
  import opened Reservoir
  import opened History
  import opened Client
  import opened Protocol
  import opened Subscriptions
  import opened Progress
  import opened Losses

  // ---------------------------------------------------------------- steps that can be taken

  /** If somebody is drawn, the draw has come to an end, for everybody that draws from the same table. */
  lemma DrawnElects(w: World, m: Moment, e: Entry, now: Moment)
    requires Follows(w, m, e, now) && now.winner != NOBODY
    ensures |now.members| >= 1
    ensures Elects(w.p, w.draw, RemoveAll(m.slots, Removed(e.action)), e.hash, |now.members|, Added(e.action))
  {
    assert e.author in now.members;
  }

  lemma EvictedResponds(w: World, m: Moment, e: Entry, now: Moment, n: Name)
    requires Good(w, m) && Follows(w, m, e, now) && n in m.members && n !in m.slots && n != NOBODY
    requires |now.members| >= 1
    ensures Responds(w.p, w.draw, n, m.slots, e.hash, |now.members|, Added(e.action))
  {
    MayJoin(w, m, e);
    AddAllEffect(w.p, w.draw, Rng(SeedArray(e.hash), []), m.slots, |now.members|, Added(e.action));
    var next := Grown(w.p, w.draw, m.slots, e.hash, |now.members|, Added(e.action)).0;
    assert n in next ==> n in Active(next);
    assert n !in Named(Added(e.action));
  }

  lemma ReceiverCanProcess(w: World, m: Moment, e: Entry, now: Moment, n: Name, r: Replica)
    requires Good(w, m) && Follows(w, m, e, now) && now.winner != NOBODY && n != NOBODY
    requires r.members == m.members && r.slots == m.slots && n in r.members
    ensures CanProcess(w.p, w.draw, n, r, e)
  {
    CountByArithmetic(m.members, e);
    DrawnFrom(w, m, e, now);
    if n in m.slots {
      DrawnElects(w, m, e, now);
      ActiveCanProcess(w.p, w.draw, n, r, e, |now.members|);
    } else {
      EvictedResponds(w, m, e, now, n);
      EvictedCanProcess(w.p, w.draw, n, r, e, |now.members|);
    }
  }

  lemma ActiveCanProcess(p: Parameters, draw: Draw, n: Name, r: Replica, e: Entry, total: nat)
    requires p.Valid() && |r.slots| == p.processers && n in r.slots && CountAfter(r, e.action) == total >= 1
    requires Elects(p, draw, RemoveAll(r.slots, Removed(e.action)), e.hash, total, Added(e.action))
    ensures CanProcess(p, draw, n, r, e)
  {
  }

  lemma EvictedCanProcess(p: Parameters, draw: Draw, n: Name, r: Replica, e: Entry, total: nat)
    requires n !in r.slots && CountAfter(r, e.action) == total
    requires Responds(p, draw, n, r.slots, e.hash, total, Added(e.action))
    ensures CanProcess(p, draw, n, r, e)
  {
  }

  /** Somebody was drawn for every epoch up to the newest. */
  lemma AllDrawn(net: Net, past: seq<Moment>, i: nat)
    requires Sound(past, net.s) && i <= |net.s.log| && past[|net.s.log|].winner != NOBODY
    ensures past[i].winner != NOBODY
  {
    if i < |net.s.log| {
      assert GoodEntry(past, net.s.log, i);
      assert Grant(i, net.s.log[i].author) in net.s.grants;
      assert GoodGrant(past, net.s, Grant(i, net.s.log[i].author));
      assert GoodNode(past, net.s, net.s.log[i].author);
    }
  }

  lemma CanDeliver(w: World, net: Net, past: seq<Moment>, n: Name, late: Name)
    requires NetInv(w, net, past, late) && past[|net.s.log|].winner != NOBODY
    requires n in net.subscribed && n in net.s.nodes && net.s.nodes[n].cursor < |net.s.log|
    ensures Enabled(w, net.s, Delivered(n))
  {
    NextIsForIt(net, past, n, late);
    if Concerns(net.s, n) {
      ConcernedCanProcess(w, net, past, n);
    }
  }

  lemma ConcernedCanProcess(w: World, net: Net, past: seq<Moment>, n: Name)
    requires Protocol.Inv(w, net.s, past) && past[|net.s.log|].winner != NOBODY
    requires n in net.s.nodes && net.s.nodes[n].cursor < |net.s.log| && net.s.nodes[n].r.live && Concerns(net.s, n)
    ensures CanProcess(w.p, w.draw, n, net.s.nodes[n].r, net.s.log[net.s.nodes[n].cursor])
  {
    var i, r := net.s.nodes[n].cursor, net.s.nodes[n].r;
    ConcernedReplica(net, past, n);
    AllDrawn(net, past, i + 1);
    DrawnCanProcess(w, net.s.log, past, i, n, r);
  }

  lemma ConcernedReplica(net: Net, past: seq<Moment>, n: Name)
    requires Sound(past, net.s) && n in net.s.nodes && net.s.nodes[n].cursor < |net.s.log|
    requires net.s.nodes[n].r.live && Concerns(net.s, n)
    ensures var i, r := net.s.nodes[n].cursor, net.s.nodes[n].r;
            r.members == past[i].members && r.slots == past[i].slots && n in r.members && n != NOBODY
  {
    NodeFacts(past, net.s, n);
  }

  lemma DrawnCanProcess(w: World, log: seq<Entry>, past: seq<Moment>, i: nat, n: Name, r: Replica)
    requires Chronicle(w, log, past) && i < |log| && past[i + 1].winner != NOBODY && n != NOBODY
    requires r.members == past[i].members && r.slots == past[i].slots && n in r.members
    ensures CanProcess(w.p, w.draw, n, r, log[i])
  {
    AlwaysGood(w, log, past, i);
    StepAt(w, log, past, i);
    ReceiverCanProcess(w, past[i], log[i], past[i + 1], n, r);
  }

  lemma WelcomeCanJoin(w: World, m: Moment, e: Entry, now: Moment, welcome: Welcome)
    requires Good(w, m) && Follows(w, m, e, now) && Uniform(m.slots, e.action) && now.winner != NOBODY
    requires welcome.to in welcome.names && welcome.members == now.members
    requires welcome.names == Added(e.action) && welcome.hash == e.hash && welcome.snapshot == m.slots
    ensures CanJoin(w.p, w.draw, welcome)
  {
    assert Resize(m.slots, w.p.processers) == m.slots;
    RemoveNobody(m.slots, Removed(e.action));
    DrawnElects(w, m, e, now);
  }

  lemma CanAdmit(w: World, net: Net, past: seq<Moment>, m: Welcome, late: Name)
    requires NetInv(w, net, past, late) && past[|net.s.log|].winner != NOBODY && m in net.s.welcomes
    ensures Enabled(w, net.s, Joined(m)) && m.epoch == |net.s.log|
  {
    var i := m.epoch - 1;
    WelcomeFacts(past, net.s, m);
    AlwaysGood(w, net.s.log, past, i);
    StepAt(w, net.s.log, past, i);
    WelcomeCanJoin(w, past[i], net.s.log[i], past[i + 1], m);
  }

  /** The holder of the token can always commit an update. */
  lemma CanUpdate(w: World, net: Net, past: seq<Moment>, n: Name, hash: Bytes)
    requires Protocol.Inv(w, net.s, past) && n in net.s.tokens
    ensures MayStep(w, net, Commits(n, Update, hash))
  {
    TokenHolder(past, net.s, n);
    AlwaysGood(w, net.s.log, past, |net.s.log|);
    var r := net.s.nodes[n].r;
    assert NewMembers(r, Update) == r.members;
    assert n in r.members;
    var left := AfterRemovals(n, r.slots, OwnRemovals(Update));
    var (next, rng) := Grown(w.p, w.draw, left, hash, |r.members|, []);
    assert Acceptable(next, [], Roll(w.draw, rng, Min(w.p.committers, |r.members|), 0));
  }

  // ---------------------------------------------------------------- what is left to do

  ghost function Waiting(net: Net): set<Name> {
    set x | x in net.s.nodes && net.s.nodes[x].r.live && x !in net.subscribed
  }

  ghost function Undelivered(net: Net): set<(Name, nat)> {
    set x, i: nat | x in net.s.nodes && i < |net.s.log| && net.s.nodes[x].cursor <= i :: (x, i)
  }

  ghost function Unheard(net: Net): set<(Name, Name)> {
    set x, a | x in net.s.nodes && a in net.acks && a.at == net.s.nodes[x].cursor && a.sender !in net.Gone(x) ::
      (x, a.sender)
  }

  ghost predicate Shrinks(net: Net, net': Net) {
    || net'.s.welcomes < net.s.welcomes
    || (net'.s.welcomes == net.s.welcomes &&
        (|| Waiting(net') < Waiting(net)
         || (Waiting(net') == Waiting(net) &&
             (|| Undelivered(net') < Undelivered(net)
              || (Undelivered(net') == Undelivered(net) && Unheard(net') < Unheard(net))))))
  }

  lemma ReceivedShrinks(net: Net, net': Net, n: Name, r: Replica)
    requires HasReceived(net, net', n, r) && net'.s.welcomes == net.s.welcomes && net.s.nodes[n].cursor < |net.s.log|
    ensures Shrinks(net, net')
  {
    forall x | x != n ensures x in Waiting(net') <==> x in Waiting(net) {
      assert x in net'.subscribed - {n} <==> x in net.subscribed - {n};
    }
    assert Waiting(net') == Waiting(net);
    assert (n, net.s.nodes[n].cursor) in Undelivered(net);
    assert Undelivered(net') <= Undelivered(net) && (n, net.s.nodes[n].cursor) !in Undelivered(net');
  }

  lemma HeardShrinks(net: Net, net': Net, n: Name, x: Name)
    requires HasHeard(net, net', n, x) && net'.s.welcomes == net.s.welcomes
    ensures Shrinks(net, net')
  {
    assert Waiting(net') == Waiting(net) && Undelivered(net') == Undelivered(net);
    assert Ack(x, net.s.nodes[n].cursor) in net.acks;
    assert (n, x) in Unheard(net) && (n, x) !in Unheard(net');
    assert Unheard(net') <= Unheard(net);
  }

  lemma SubscribedShrinks(net: Net, net': Net, n: Name)
    requires HasSubscribed(net, net', n) && n !in net.subscribed && net.s.nodes[n].r.live
    ensures Shrinks(net, net')
  {
    assert n in Waiting(net) && n !in Waiting(net');
    assert Waiting(net') <= Waiting(net);
  }

  ghost predicate LateUnchanged(net: Net, net': Net, late: Name) {
    late != NOBODY && late in net.s.nodes ==> late in net'.s.nodes && net'.s.nodes[late] == net.s.nodes[late]
  }

  /** A step that publishes no commit and does not touch the late client. */
  ghost predicate OneStep(w: World, net: Net, step: Step, late: Name, net': Net) {
    && MayStep(w, net, step) && net' == Take(w, net, step) && Quiet(step, late) && net'.s.log == net.s.log
    && LateUnchanged(net, net', late)
  }

  /** Such a step, which leaves less to do. */
  ghost predicate Advances(w: World, net: Net, step: Step, late: Name) {
    MayStep(w, net, step) && OneStep(w, net, step, late, Take(w, net, step)) && Shrinks(net, Take(w, net, step))
  }

  lemma DeliverOrHear(w: World, net: Net, past: seq<Moment>, n: Name, late: Name) returns (step: Step)
    requires NetInv(w, net, past, late) && past[|net.s.log|].winner != NOBODY
    requires n in net.subscribed && n in net.s.nodes && net.s.nodes[n].cursor < |net.s.log|
    ensures Advances(w, net, step, late)
  {
    if CaughtUp(net, n) {
      step := Delivers(n);
      CanDeliver(w, net, past, n, late);
      DeliverAdvances(w, net, past, n, late);
    } else {
      var a :| a in net.acks && a.at == net.s.nodes[n].cursor && a.sender != n && a.sender !in net.Gone(n);
      step := Hears(n, a.sender);
      HearAdvances(w, net, past, n, a.sender, late);
    }
  }

  lemma HearAdvances(w: World, net: Net, past: seq<Moment>, n: Name, x: Name, late: Name)
    requires |past| == |net.s.log| + 1 && Disciplined(net, past, late) && MayStep(w, net, Hears(n, x))
    ensures Advances(w, net, Hears(n, x), late)
  {
    HearsChanges(w, net, n, x);
    HeardShrinks(net, Take(w, net, Hears(n, x)), n, x);
  }

  lemma DeliverAdvances(w: World, net: Net, past: seq<Moment>, n: Name, late: Name)
    requires Protocol.Inv(w, net.s, past) && Disciplined(net, past, late) && MayStep(w, net, Delivers(n))
    ensures Advances(w, net, Delivers(n), late)
  {
    if Concerns(net.s, n) {
      var (r, action) := Processed(w, net.s, n);
      ApplyDelivered(w, net.s, n, r, action);
      DeliversOther(w, net, n, r, action);
      ReceiveAdvances(w, net, past, n, r, late);
    } else {
      ApplySkipped(w, net.s, n);
      DeliversOwn(w, net, n);
      ReceiveAdvances(w, net, past, n, net.s.nodes[n].r, late);
    }
  }

  lemma ReceiveAdvances(w: World, net: Net, past: seq<Moment>, n: Name, r: Replica, late: Name)
    requires |past| == |net.s.log| + 1 && Disciplined(net, past, late) && MayStep(w, net, Delivers(n))
    requires var net' := AfterDelivery(w, net, n); HasReceived(net, net', n, r) && net'.s.welcomes == net.s.welcomes
    ensures Advances(w, net, Delivers(n), late)
  {
    ReceivedShrinks(net, AfterDelivery(w, net, n), n, r);
  }

  /** Nobody that is subscribed lags behind. */
  ghost predicate Level(net: Net) {
    forall n | n in net.subscribed :: n in net.s.nodes && net.s.nodes[n].cursor == |net.s.log|
  }

  lemma JoinAdvances(w: World, net: Net, past: seq<Moment>, m: Welcome, late: Name)
    requires NetInv(w, net, past, late) && past[|net.s.log|].winner != NOBODY && m in net.s.welcomes && Level(net)
    ensures Advances(w, net, Joins(m), late)
  {
    CanAdmit(w, net, past, m, late);
    NoOtherWelcome(net, past, m, late);
    NotYetSubscribed(net, past, m);
    AdmitAdvances(w, net, m, late);
  }

  lemma AdmitAdvances(w: World, net: Net, m: Welcome, late: Name)
    requires Enabled(w, net.s, Joined(m)) && m.to !in net.subscribed
    requires m.to in net.Newest() && (m.to in net.s.nodes ==> net.s.nodes[m.to].r.epoch <= m.epoch)
    requires (forall m' | m' in net.s.welcomes - {m} :: m'.to != m.to) && (late == NOBODY || late != m.to)
    ensures Advances(w, net, Joins(m), late)
  {
    JoinsChanges(w, net, m);
    JoinShrinks(net, AfterJoin(w, net, m), m, Join(w.p, w.draw, m).0, late);
  }

  lemma NotYetSubscribed(net: Net, past: seq<Moment>, m: Welcome)
    requires Sound(past, net.s) && m in net.s.welcomes && m.epoch == |net.s.log| && Level(net)
    requires forall n | n in net.subscribed :: UpToDate(net, n)
    ensures m.to !in net.subscribed
  {
    assert m.to in net.s.nodes ==> GoodNode(past, net.s, m.to);
    assert m.to in net.subscribed ==> UpToDate(net, m.to);
  }

  lemma JoinShrinks(net: Net, net': Net, m: Welcome, r: Replica, late: Name)
    requires HasJoined(net, net', m, r) && m in net.s.welcomes && (late == NOBODY || late != m.to)
    ensures Shrinks(net, net') && net'.s.log == net.s.log && LateUnchanged(net, net', late)
  {
    assert m !in net'.s.welcomes;
  }

  lemma SubscribeAdvances(w: World, net: Net, past: seq<Moment>, n: Name, late: Name)
    requires Sound(past, net.s) && Disciplined(net, past, late) && n in Waiting(net) && n != late
    ensures Advances(w, net, Subscribes(n), late)
  {
    assert GoodNode(past, net.s, n);
    SubscribesChanges(w, net, n);
    SubscribedShrinks(net, Take(w, net, Subscribes(n)), n);
  }

  /** Nothing is left to do for anybody but the late client. */
  ghost predicate Done(net: Net, late: Name) {
    && Level(net) && net.s.welcomes == {} && Waiting(net) <= {late}
    && forall n, a | n in net.subscribed && a in net.acks && a.at == |net.s.log| && a.sender != n ::
         a.sender in net.Gone(n)
  }

  lemma NextStep(w: World, net: Net, past: seq<Moment>, late: Name) returns (step: Step)
    requires NetInv(w, net, past, late) && past[|net.s.log|].winner != NOBODY && !Done(net, late)
    ensures Advances(w, net, step, late)
  {
    if n :| n in net.subscribed && n in net.s.nodes && net.s.nodes[n].cursor != |net.s.log| {
      assert GoodNode(past, net.s, n);
      step := DeliverOrHear(w, net, past, n, late);
    } else {
      assert forall n | n in net.subscribed :: UpToDate(net, n);
      if m :| m in net.s.welcomes {
        step := Joins(m);
        JoinAdvances(w, net, past, m, late);
      } else if n :| n in Waiting(net) && n != late {
        step := Subscribes(n);
        SubscribeAdvances(w, net, past, n, late);
      } else {
        var n, a :| n in net.subscribed && a in net.acks && a.at == |net.s.log| && a.sender != n
          && a.sender !in net.Gone(n);
        step := Hears(n, a.sender);
        HearAdvances(w, net, past, n, a.sender, late);
      }
    }
  }

  // ---------------------------------------------------------------- when nothing is left to do

  lemma AllHeard(net: Net, past: seq<Moment>, b: Name, late: Name)
    requires Sound(past, net.s) && Disciplined(net, past, late) && Present(net, past) && Done(net, late)
    requires b in net.subscribed
    ensures Named(net.Newest()) - {b} <= net.Gone(b) - {b}
  {
    forall x | x in Named(net.Newest()) - {b} ensures x in net.Gone(b) {
      assert x in net.Newest() && Expected(net, x);
      assert Invited(net) == {};
      assert x !in Waiting(net);
      assert Ack(x, |net.s.log|) in net.acks;
    }
  }

  /** The drawn member has arrived. */
  lemma WinnerIsThere(w: World, net: Net, past: seq<Moment>, late: Name)
    requires FullInv(w, net, past, late) && Done(net, late)
    requires past[|net.s.log|].winner != NOBODY && past[|net.s.log|].winner != late
    ensures var b := past[|net.s.log|].winner;
            && b in net.subscribed && b in net.s.nodes && net.s.nodes[b].cursor == |net.s.log|
            && net.s.nodes[b].r.live && net.s.nodes[b].r.epoch == |net.s.log|
  {
    var b := past[|net.s.log|].winner;
    WinnerIsActive(w, net.s.log, past, |net.s.log|);
    assert Invited(net) == {};
    assert Tracks(net, past, b);
    assert b in Waiting(net) <==> b !in net.subscribed;
    assert UpToDate(net, b);
  }

  lemma DoneHasToken(w: World, net: Net, past: seq<Moment>, late: Name)
    requires FullInv(w, net, past, late) && Done(net, late) && !Deaf(net, past)
    requires past[|net.s.log|].winner != NOBODY && past[|net.s.log|].winner != late
    ensures past[|net.s.log|].winner in net.s.tokens
  {
    var b := past[|net.s.log|].winner;
    WinnerIsThere(w, net, past, late);
    AllHeard(net, past, b, late);
    NewestDistinct(past, net);
    OthersCount(net.Newest(), b);
    SubsetSize(Named(net.Newest()) - {b}, net.Gone(b) - {b});
    assert Waits(net, past, b) && GoodNode(past, net.s, b);
    assert GoodGrant(past, net.s, Grant(|net.s.log|, b));
  }

  // ---------------------------------------------------------------- the way there

  predicate AllQuiet(run: seq<Step>, late: Name) {
    forall i | 0 <= i < |run| :: Quiet(run[i], late)
  }

  /** The run, its end and what does not change on the way. */
  ghost predicate Reaches(w: World, net: Net, run: seq<Step>, late: Name, net': Net) {
    && CanRun(w, net, run) && End(w, net, run) == net' && AllQuiet(run, late) && net'.s.log == net.s.log
    && LateUnchanged(net, net', late)
  }

  lemma Advance(w: World, net: Net, past: seq<Moment>, late: Name) returns (step: Step, net': Net)
    requires FullInv(w, net, past, late) && past[|net.s.log|].winner !in {NOBODY, late} && !Done(net, late)
    requires !Deaf(net, past)
    ensures OneStep(w, net, step, late, net') && FullInv(w, net', past, late) && Shrinks(net, net')
    ensures !Deaf(net', past)
  {
    step := NextStep(w, net, past, late);
    net' := Take(w, net, step);
    QuietPresent(w, net, past, step, late);
    QuietNotLost(w, net, past, step, late);
  }

  lemma Prepend(w: World, net: Net, step: Step, mid: Net, run: seq<Step>, late: Name, net': Net)
    requires OneStep(w, net, step, late, mid) && Reaches(w, mid, run, late, net')
    ensures Reaches(w, net, [step] + run, late, net')
  {
    assert ([step] + run)[1..] == run;
  }

  lemma {:induction false} Drain(w: World, net: Net, past: seq<Moment>, late: Name) returns (run: seq<Step>, net': Net)
    requires FullInv(w, net, past, late) && past[|net.s.log|].winner !in {NOBODY, late} && !Deaf(net, past)
    ensures Reaches(w, net, run, late, net') && FullInv(w, net', past, late) && Done(net', late) && !Deaf(net', past)
    decreases net.s.welcomes, Waiting(net), Undelivered(net), Unheard(net)
  {
    if Done(net, late) {
      run, net' := [], net;
    } else {
      var step, mid := Advance(w, net, past, late);
      run, net' := Drain(w, mid, past, late);
      Prepend(w, net, step, mid, run, late, net');
      run := [step] + run;
    }
  }

  // ---------------------------------------------------------------- nobody's turn

  predicate NoCommitBy(run: seq<Step>, n: Name) {
    forall i | 0 <= i < |run| && run[i].Commits? :: run[i].name != n
  }

  lemma StepInv(w: World, net: Net, past: seq<Moment>, step: Step)
    requires Protocol.Inv(w, net.s, past) && MayStep(w, net, step) && !step.Commits?
    ensures Protocol.Inv(w, Take(w, net, step).s, past)
  {
    match step
    case Delivers(n) => InvDelivered(w, net.s, past, n);
    case Joins(m) => InvJoined(w, net.s, past, m);
    case Subscribes(n) => InvMissed(w, net.s, past, n, |net.s.log|);
    case Hears(n, x) => InvAcked(w, net.s, past, n, x);
  }

  /** Only the member that is drawn can commit. */
  lemma OnlyWinnerCommits(w: World, net: Net, past: seq<Moment>, n: Name, a: Action, hash: Bytes)
    requires Protocol.Inv(w, net.s, past) && MayStep(w, net, Commits(n, a, hash))
    ensures n == past[|net.s.log|].winner && n != NOBODY
  {
    HolderIsDrawn(past, net.s, n);
  }

  lemma IdleStep(w: World, net: Net, past: seq<Moment>, step: Step)
    requires Protocol.Inv(w, net.s, past) && MayStep(w, net, step)
    requires past[|net.s.log|].winner == NOBODY || !(step.Commits? && step.name == past[|net.s.log|].winner)
    ensures Take(w, net, step).s.log == net.s.log && Protocol.Inv(w, Take(w, net, step).s, past)
  {
    if step.Commits? {
      OnlyWinnerCommits(w, net, past, step.name, step.action, step.hash);
    } else {
      StepInv(w, net, past, step);
    }
  }

  /** Without a commit of the member that is drawn, no commit is published. */
  lemma {:induction false} Idle(w: World, net: Net, past: seq<Moment>, run: seq<Step>)
    requires Protocol.Inv(w, net.s, past) && CanRun(w, net, run)
    requires past[|net.s.log|].winner == NOBODY || NoCommitBy(run, past[|net.s.log|].winner)
    ensures End(w, net, run).s.log == net.s.log && Protocol.Inv(w, End(w, net, run).s, past)
    decreases |run|
  {
    if run != [] {
      IdleStep(w, net, past, run[0]);
      Idle(w, Take(w, net, run[0]), past, run[1..]);
    }
  }

  // ---------------------------------------------------------------- the theorems

  lemma Tail(run: seq<Step>, more: seq<Step>)
    requires run != []
    ensures (run + more)[0] == run[0] && (run + more)[1..] == run[1..] + more
  {
  }

  lemma {:induction false} RunAppend(w: World, net: Net, run: seq<Step>, more: seq<Step>)
    requires CanRun(w, net, run) && CanRun(w, End(w, net, run), more)
    ensures CanRun(w, net, run + more) && End(w, net, run + more) == End(w, End(w, net, run), more)
    decreases |run|
  {
    if run == [] {
      assert run + more == more;
    } else {
      Tail(run, more);
      RunAppend(w, Take(w, net, run[0]), run[1..], more);
    }
  }

  lemma Single(w: World, net: Net, step: Step)
    requires MayStep(w, net, step)
    ensures CanRun(w, net, [step]) && End(w, net, [step]) == Take(w, net, step)
  {
    var run := [step];
    assert run[1..] == [];
  }

  lemma OneMoreCommit(w: World, net: Net, step: Step)
    requires MayStep(w, net, step) && step.Commits?
    ensures |Take(w, net, step).s.log| == |net.s.log| + 1
  {
  }

  /** A client that is late and not drawn by others subscribes first. */
  lemma LateFirst(w: World, net: Net, past: seq<Moment>, late: Name) returns (run: seq<Step>, net': Net)
    requires CarefulInv(w, net, past, late) && past[|net.s.log|].winner != NOBODY && !Deaf(net, past)
    ensures Reaches(w, net, run, NOBODY, net') && FullInv(w, net', past, NOBODY) && !Deaf(net', past)
  {
    if late == NOBODY {
      run, net' := [], net;
      NobodyIsNobody(net, past);
    } else {
      assert GoodNode(past, net.s, late);
      run, net' := [Subscribes(late)], Take(w, net, Subscribes(late));
      LateSubscribes(w, net, past, late);
      OneStepReaches(w, net, Subscribes(late), net');
    }
  }

  lemma OneStepReaches(w: World, net: Net, step: Step, net': Net)
    requires OneStep(w, net, step, NOBODY, net')
    ensures Reaches(w, net, [step], NOBODY, net')
  {
    Single(w, net, step);
  }

  lemma LateSubscribes(w: World, net: Net, past: seq<Moment>, late: Name)
    requires CarefulInv(w, net, past, late) && late == past[|net.s.log|].winner != NOBODY && !Deaf(net, past)
    requires MayStep(w, net, Subscribes(late))
    ensures var net' := Take(w, net, Subscribes(late));
            && FullInv(w, net', past, NOBODY) && !Deaf(net', past) && net'.s.log == net.s.log
            && LateUnchanged(net, net', NOBODY)
  {
    SubscribesKeeps(w, net, past, late, late, NOBODY);
    SubscribesPresent(w, net, past, late, late);
    LateSubscribesKeepsLost(w, net, past, late);
    SubscribesChanges(w, net, late);
  }

  /** The member that is drawn can get the token without any further commit, and being subscribed. */
  ghost predicate Gets(w: World, net: Net, more: seq<Step>, b: Name) {
    && CanRun(w, net, more) && AllQuiet(more, NOBODY)
    && var net' := End(w, net, more);
    && net'.s.log == net.s.log && b in net'.s.tokens && b in net'.subscribed
    && MayStep(w, net', Commits(b, Update, []))
  }

  lemma DrainGets(w: World, net: Net, past: seq<Moment>) returns (more: seq<Step>)
    requires FullInv(w, net, past, NOBODY) && past[|net.s.log|].winner != NOBODY && !Deaf(net, past)
    ensures Gets(w, net, more, past[|net.s.log|].winner)
  {
    var net';
    more, net' := Drain(w, net, past, NOBODY);
    DoneHasToken(w, net', past, NOBODY);
    WinnerIsThere(w, net', past, NOBODY);
    CanUpdate(w, net', past, past[|net.s.log|].winner, []);
  }

  lemma GetsLater(w: World, net: Net, first: seq<Step>, mid: Net, second: seq<Step>, b: Name)
    requires Reaches(w, net, first, NOBODY, mid) && Gets(w, mid, second, b)
    ensures Gets(w, net, first + second, b)
  {
    RunAppend(w, net, first, second);
  }

  /** After every careful run: whoever is drawn can get the token, unless an acknowledgement is lost for it. */
  lemma TurnComes(w: World, run: seq<Step>, past: seq<Moment>) returns (more: seq<Step>)
    requires w.Valid() && CanRun(w, Start(w), run) && Careful(w, Start(w), run)
    requires Chronicle(w, End(w, Start(w), run).s.log, past) && past[|past| - 1].winner != NOBODY
    requires !Deaf(End(w, Start(w), run), past)
    ensures Gets(w, End(w, Start(w), run), more, past[|past| - 1].winner)
  {
    var net := End(w, Start(w), run);
    var past', late := DisciplineHolds(w, run);
    OneHistory(w, net.s.log, past, past');
    var first, mid := LateFirst(w, net, past, late);
    var second := DrainGets(w, mid, past);
    GetsLater(w, net, first, mid, second, past[|past| - 1].winner);
    more := first + second;
  }

  ghost predicate GoesOn(w: World, net: Net, more: seq<Step>) {
    CanRun(w, net, more) && |End(w, net, more).s.log| > |net.s.log|
  }

  /** After every careful run, another commit can follow if and only if somebody is drawn that has lost nothing. */
  lemma GroupGoesOn(w: World, run: seq<Step>, past: seq<Moment>)
    requires w.Valid() && CanRun(w, Start(w), run) && Careful(w, Start(w), run)
    requires Chronicle(w, End(w, Start(w), run).s.log, past)
    ensures (exists more :: GoesOn(w, End(w, Start(w), run), more))
            <==> past[|past| - 1].winner != NOBODY && !Deaf(End(w, Start(w), run), past)
  {
    var net := End(w, Start(w), run);
    if past[|past| - 1].winner != NOBODY && !Deaf(net, past) {
      var more := TurnComes(w, run, past);
      ThenCommits(w, net, more, Commits(past[|past| - 1].winner, Update, []));
    } else {
      var past', late := DisciplineHolds(w, run);
      OneHistory(w, net.s.log, past, past');
      NothingFollows(w, net, past, late);
    }
  }

  lemma NothingFollows(w: World, net: Net, past: seq<Moment>, late: Name)
    requires CarefulInv(w, net, past, late) && (past[|net.s.log|].winner == NOBODY || Deaf(net, past))
    ensures !exists more :: GoesOn(w, net, more)
  {
    forall more | CanRun(w, net, more) ensures !GoesOn(w, net, more) {
      if past[|net.s.log|].winner == NOBODY {
        Idle(w, net, past, more);
      } else {
        LostForGood(w, net, past, more, late);
      }
    }
  }

  lemma ThenCommits(w: World, net: Net, more: seq<Step>, commit: Step)
    requires CanRun(w, net, more) && End(w, net, more).s.log == net.s.log
    requires commit.Commits? && MayStep(w, End(w, net, more), commit)
    ensures GoesOn(w, net, more + [commit])
  {
    Single(w, End(w, net, more), commit);
    OneMoreCommit(w, End(w, net, more), commit);
    RunAppend(w, net, more, [commit]);
  }
}
