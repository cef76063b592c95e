/**
 Runs of the updater together with the MQTT client and the broker. The client sends queued subscriptions in
 order, each under a packet id that no subscription in flight has; the broker acknowledges those in flight.
 */
module Ledger {
  import opened Basics
  import opened Threads
  import opened Updater

  /** Who subscribed to what. */
  datatype Sub = Sub(user: User, topic: Topic)

  /** The updater's fields; what the client has queued and in flight; what the broker has acknowledged. */
  datatype State = State(
    subscriptions: map<User, seq<Topic>>,
    pending: seq<Pending>,
    chains: map<User, Chain>,
    acks: seq<Request>,
    queued: seq<Sub>,
    inFlight: map<nat, Sub>,
    completed: seq<Sub>)

  datatype Event =
    | Subscribed(sub: Sub)
    | Unsubscribed(sub: Sub)
    | Sent(id: nat)
    | Acknowledged(id: nat)
    | Published(topic: Topic, message: Bytes)
    | Moved(user: User, step: Threads.Event)

  function Init(users: set<User>): State {
    State(map u | u in users :: [], [], map u | u in users :: IDLE, [], [], map[], [])
  }

  predicate Enabled(s: State, e: Event) {
    match e
    case Subscribed(sub) => sub.user in s.subscriptions
    case Unsubscribed(_) => true
    case Sent(id) => s.queued != [] && id !in s.inFlight
    case Acknowledged(id) => id in s.inFlight
    case Published(_, _) => true
    case Moved(u, step) => u in s.chains && !step.Spawn? && Threads.Enabled(s.chains[u], step)
  }

  function Apply(s: State, e: Event): State
    requires Enabled(s, e)
  {
    match e
    case Subscribed(sub) =>
      s.(subscriptions := s.subscriptions[sub.user := s.subscriptions[sub.user] + [sub.topic]],
         pending := s.pending + [Pending(sub.user, sub.topic, None)],
         queued := s.queued + [sub])
    case Unsubscribed(sub) =>
      if sub.user in s.subscriptions then
        s.(subscriptions := s.subscriptions[sub.user := WithoutTopic(s.subscriptions[sub.user], sub.topic)])
      else s
    case Sent(id) =>
      s.(pending := Assign(s.pending, id), queued := s.queued[1..], inFlight := s.inFlight[id := s.queued[0]])
    case Acknowledged(id) =>
      var i := FirstWith(s.pending, id);
      s.(pending := Without(s.pending, id),
         acks := s.acks + if i < |s.pending| then AckFor(s.pending[i].user, s.pending[i].topic) else [],
         inFlight := s.inFlight - {id},
         completed := s.completed + [s.inFlight[id]])
    case Published(topic, message) => s.(chains := Delivered(s.chains, s.subscriptions, topic, message))
    case Moved(u, step) => s.(chains := s.chains[u := Threads.Apply(s.chains[u], step)])
  }

  predicate Feasible(users: set<User>, run: seq<Event>)
    decreases |run|, 0
  {
    run != [] ==>
      var front, last := run[..|run| - 1], run[|run| - 1];
      Feasible(users, front) && Enabled(After(users, front), last)
  }

  function After(users: set<User>, run: seq<Event>): State
    requires Feasible(users, run)
    decreases |run|, 1
  {
    if run == [] then Init(users) else Apply(After(users, run[..|run| - 1]), run[|run| - 1])
  }

  // ---------------------------------------------------------------- matching

  /** The entry of a pending subscription that is in flight. */
  predicate Matched(s: State, x: Pending) {
    x.id.Some? && x.id.value in s.inFlight && s.inFlight[x.id.value] == Sub(x.user, x.topic)
  }

  /** The first k entries are in flight. */
  ghost predicate Assigned(s: State, k: nat) {
    k <= |s.pending| && forall i | 0 <= i < k :: Matched(s, s.pending[i])
  }

  /** Entries from k on have no packet id yet and are the queued ones, in order. */
  predicate Unassigned(pending: seq<Pending>, queued: seq<Sub>, k: nat) {
    && |pending| == k + |queued|
    && forall i | k <= i < |pending| :: pending[i] == Pending(queued[i - k].user, queued[i - k].topic, None)
  }

  ghost predicate DistinctIds(pending: seq<Pending>, k: nat) {
    k <= |pending| && forall i | 0 <= i < k :: pending[i].id !in Ids(pending[..i])
  }

  /** Entries with a packet id first, each for its own subscription in flight; then the queued ones in order. */
  ghost predicate Inv(s: State) {
    var k := |s.pending| - |s.queued|;
    && k >= 0 && Assigned(s, k) && Unassigned(s.pending, s.queued, k) && DistinctIds(s.pending, k)
    && (forall id | id in s.inFlight :: Some(id) in Ids(s.pending))
  }

  ghost function Ids(pending: seq<Pending>): set<Option<nat>> {
    set x | x in pending :: x.id
  }

  lemma FirstUnassignedAt(s: State)
    requires Inv(s) && s.queued != []
    ensures FirstUnassigned(s.pending) == |s.pending| - |s.queued|
  {
    var k := |s.pending| - |s.queued|;
    assert s.pending[k].id.None?;
    assert forall i | 0 <= i < k :: Matched(s, s.pending[i]);
  }

  lemma SubscribedKeeps(s: State, sub: Sub)
    requires Inv(s) && Enabled(s, Subscribed(sub))
    ensures Inv(Apply(s, Subscribed(sub)))
  {
    var t := Apply(s, Subscribed(sub));
    var k := |s.pending| - |s.queued|;
    forall i | 0 <= i < k ensures Matched(t, t.pending[i]) && t.pending[i].id !in Ids(t.pending[..i]) {
      assert t.pending[..i] == s.pending[..i] && Matched(s, s.pending[i]);
    }
    IdsGrow(s.pending, t.pending);
  }

  lemma IdsGrow(pending: seq<Pending>, more: seq<Pending>)
    requires forall x | x in pending && x.id.Some? :: x in more
    ensures forall id | id in Ids(pending) && id.Some? :: id in Ids(more)
  {
  }

  /** The first queued subscription gets a fresh packet id. */
  lemma DistinctAssigned(pending: seq<Pending>, k: nat, x: Pending)
    requires k < |pending| && DistinctIds(pending, k) && x.id !in Ids(pending[..k])
    ensures DistinctIds(pending[k := x], k + 1)
  {
    var next := pending[k := x];
    forall i | 0 <= i < k + 1 ensures next[i].id !in Ids(next[..i]) {
      assert next[..i] == pending[..i];
    }
  }

  lemma AssignedMore(s: State, t: State, k: nat, id: nat, x: Pending)
    requires Assigned(s, k) && k < |s.pending| && id !in s.inFlight && x.id == Some(id)
    requires t.pending == s.pending[k := x] && t.inFlight == s.inFlight[id := Sub(x.user, x.topic)]
    ensures Assigned(t, k + 1)
  {
    forall i | 0 <= i < k + 1 ensures Matched(t, t.pending[i]) {
      assert i < k ==> Matched(s, s.pending[i]);
    }
  }

  lemma SentKeeps(s: State, id: nat)
    requires Inv(s) && Enabled(s, Sent(id))
    ensures Inv(Apply(s, Sent(id)))
  {
    FirstUnassignedAt(s);
    SentAs(s, Apply(s, Sent(id)), |s.pending| - |s.queued|, id);
  }

  lemma SentAs(s: State, t: State, k: nat, id: nat)
    requires Inv(s) && s.queued != [] && id !in s.inFlight && k == |s.pending| - |s.queued|
    requires t.pending == s.pending[k := s.pending[k].(id := Some(id))]
    requires t.queued == s.queued[1..] && t.inFlight == s.inFlight[id := s.queued[0]]
    ensures Inv(t)
  {
    var x := s.pending[k].(id := Some(id));
    FreshId(s, k, id);
    DistinctAssigned(s.pending, k, x);
    AssignedMore(s, t, k, id, x);
    IdsStay(s.pending, k, x);
  }

  lemma FreshId(s: State, k: nat, id: nat)
    requires Assigned(s, k) && id !in s.inFlight
    ensures Some(id) !in Ids(s.pending[..k])
  {
    assert forall i | 0 <= i < k :: Matched(s, s.pending[i]);
  }

  lemma IdsStay(pending: seq<Pending>, k: nat, x: Pending)
    requires k < |pending| && pending[k].id.None?
    ensures x.id in Ids(pending[k := x])
    ensures forall id | id in Ids(pending) && id.Some? :: id in Ids(pending[k := x])
  {
    assert pending[k := x][k] == x;
    forall y | y in pending && y.id.Some? ensures y in pending[k := x] {
      var j :| 0 <= j < |pending| && pending[j] == y;
      assert pending[k := x][j] == y;
    }
    IdsGrow(pending, pending[k := x]);
  }

  lemma {:induction false} WithoutSplit(a: seq<Pending>, b: seq<Pending>, id: nat)
    ensures Without(a + b, id) == Without(a, id) + Without(b, id)
  {
    if a == [] {
      assert a + b == b;
    } else {
      assert (a + b)[1..] == a[1..] + b;
      WithoutSplit(a[1..], b, id);
    }
  }

  lemma WithoutOne(pending: seq<Pending>, id: nat, i: nat)
    requires i < |pending| && pending[i].id == Some(id)
    requires forall j | 0 <= j < |pending| && j != i :: pending[j].id != Some(id)
    ensures FirstWith(pending, id) == i && Without(pending, id) == pending[..i] + pending[i + 1..]
  {
    var before, after := pending[..i], pending[i + 1..];
    assert pending == before + ([pending[i]] + after);
    WithoutBetween(before, pending[i], after, id);
  }

  lemma WithoutBetween(before: seq<Pending>, x: Pending, after: seq<Pending>, id: nat)
    requires x.id == Some(id) && (forall y | y in before :: y.id != Some(id))
    requires forall y | y in after :: y.id != Some(id)
    ensures Without(before + ([x] + after), id) == before + after
  {
    WithoutSplit(before, [x] + after, id);
    assert ([x] + after)[1..] == after;
    AllKept(before, id);
    AllKept(after, id);
  }

  /** Where the entry of an acknowledged subscription is. */
  lemma Entry(s: State, id: nat) returns (i: nat)
    requires Inv(s) && id in s.inFlight
    ensures i < |s.pending| - |s.queued|
    ensures s.pending[i] == Pending(s.inFlight[id].user, s.inFlight[id].topic, Some(id))
    ensures forall j | 0 <= j < |s.pending| :: s.pending[j].id == Some(id) <==> j == i
  {
    var k := |s.pending| - |s.queued|;
    assert Some(id) in Ids(s.pending);
    i :| 0 <= i < |s.pending| && s.pending[i].id == Some(id);
    assert Matched(s, s.pending[i]);
    forall j | 0 <= j < |s.pending| ensures s.pending[j].id == Some(id) <==> j == i {
      if i < j < k {
        assert s.pending[j].id !in Ids(s.pending[..j]);
        assert s.pending[i] in s.pending[..j];
      } else if j < i {
        assert s.pending[i].id !in Ids(s.pending[..i]);
        assert s.pending[j] in s.pending[..i];
      }
    }
  }

  /** A SubAck completes exactly the subscription it is for, and its entry leaves the table. */
  lemma SubAckMatches(s: State, id: nat) returns (i: nat)
    requires Inv(s) && Enabled(s, Acknowledged(id))
    ensures i < |s.pending| - |s.queued|
    ensures s.pending[i] == Pending(s.inFlight[id].user, s.inFlight[id].topic, Some(id))
    ensures Apply(s, Acknowledged(id)).pending == s.pending[..i] + s.pending[i + 1..]
    ensures Apply(s, Acknowledged(id)).acks == s.acks + AckFor(s.inFlight[id].user, s.inFlight[id].topic)
    ensures forall j | 0 <= j < |s.pending| :: s.pending[j].id == Some(id) <==> j == i
  {
    i := Entry(s, id);
    WithoutOne(s.pending, id, i);
  }

  lemma DropOne(pending: seq<Pending>, k: nat, i: nat, rest: seq<Pending>)
    requires i < k && DistinctIds(pending, k) && rest == pending[..i] + pending[i + 1..]
    ensures DistinctIds(rest, k - 1)
  {
    forall j | 0 <= j < k - 1 ensures rest[j].id !in Ids(rest[..j]) {
      var j' := if j < i then j else j + 1;
      assert rest[j] == pending[j'];
      forall x | x in rest[..j] ensures x in pending[..j'] {
        var l :| 0 <= l < j && rest[l] == x;
        assert x == pending[..j'][if l < i then l else l + 1];
      }
    }
  }

  lemma AssignedShifts(s: State, t: State, k: nat, id: nat, i: nat)
    requires Assigned(s, k) && i < k
    requires t.pending == s.pending[..i] + s.pending[i + 1..] && t.inFlight == s.inFlight - {id}
    requires forall j | 0 <= j < k && j != i :: s.pending[j].id != Some(id)
    ensures Assigned(t, k - 1)
  {
    forall j | 0 <= j < k - 1 ensures Matched(t, t.pending[j]) {
      var j' := if j < i then j else j + 1;
      assert t.pending[j] == s.pending[j'] && Matched(s, s.pending[j']);
    }
  }

  lemma UnassignedShifts(pending: seq<Pending>, queued: seq<Sub>, k: nat, i: nat, rest: seq<Pending>)
    requires Unassigned(pending, queued, k) && i < k && rest == pending[..i] + pending[i + 1..]
    ensures Unassigned(rest, queued, k - 1)
  {
    forall j | k - 1 <= j < |rest|
      ensures rest[j] == Pending(queued[j - (k - 1)].user, queued[j - (k - 1)].topic, None)
    {
      assert rest[j] == pending[j + 1];
    }
  }

  lemma Shifted(s: State, t: State, id: nat, i: nat)
    requires Inv(s) && i < |s.pending| - |s.queued| && s.pending[i].id == Some(id)
    requires t.pending == s.pending[..i] + s.pending[i + 1..] && t.queued == s.queued && t.inFlight == s.inFlight - {id}
    requires forall j | 0 <= j < |s.pending| && j != i :: s.pending[j].id != Some(id)
    ensures Inv(t)
  {
    var k := |s.pending| - |s.queued|;
    DropOne(s.pending, k, i, t.pending);
    AssignedShifts(s, t, k, id, i);
    UnassignedShifts(s.pending, s.queued, k, i, t.pending);
    Covered(s.pending, t.pending, i);
  }

  lemma AcknowledgedKeeps(s: State, id: nat)
    requires Inv(s) && Enabled(s, Acknowledged(id))
    ensures Inv(Apply(s, Acknowledged(id)))
  {
    var i := SubAckMatches(s, id);
    Shifted(s, Apply(s, Acknowledged(id)), id, i);
  }

  lemma Covered(pending: seq<Pending>, rest: seq<Pending>, i: nat)
    requires i < |pending| && rest == pending[..i] + pending[i + 1..]
    ensures Ids(pending) <= Ids(rest) + {pending[i].id}
  {
    forall x | x in pending && x.id != pending[i].id ensures x in rest {
      var j :| 0 <= j < |pending| && pending[j] == x;
      assert x == rest[if j < i then j else j - 1];
    }
  }

  lemma StepKeeps(s: State, e: Event)
    requires Inv(s) && Enabled(s, e)
    ensures Inv(Apply(s, e))
  {
    match e
    case Subscribed(sub) => SubscribedKeeps(s, sub);
    case Sent(id) => SentKeeps(s, id);
    case Acknowledged(id) => AcknowledgedKeeps(s, id);
    case _ => OtherKeeps(s, Apply(s, e));
  }

  lemma OtherKeeps(s: State, t: State)
    requires Inv(s) && t.pending == s.pending && t.queued == s.queued && t.inFlight == s.inFlight
    ensures Inv(t)
  {
    assert forall i | 0 <= i < |s.pending| :: Matched(s, s.pending[i]) ==> Matched(t, s.pending[i]);
  }

  // ---------------------------------------------------------------- the theorems

  /** The acknowledgements due for completed subscriptions. */
  function AcksFor(completed: seq<Sub>): seq<Request> {
    if completed == [] then []
    else
      var last := completed[|completed| - 1];
      AcksFor(completed[..|completed| - 1]) + AckFor(last.user, last.topic)
  }

  function Asked(run: seq<Event>): multiset<Sub> {
    if run == [] then multiset{}
    else Asked(run[..|run| - 1]) + if run[|run| - 1].Subscribed? then multiset{run[|run| - 1].sub} else multiset{}
  }

  function Subs(pending: seq<Pending>): (r: seq<Sub>)
    ensures |r| == |pending| && forall i | 0 <= i < |r| :: r[i] == Sub(pending[i].user, pending[i].topic)
  {
    seq(|pending|, i requires 0 <= i < |pending| => Sub(pending[i].user, pending[i].topic))
  }

  /** In every run: one acknowledgement for each completed group subscription, in order, under the right names. */
  lemma {:induction false} OneAckPerSubscription(users: set<User>, run: seq<Event>)
    requires Feasible(users, run)
    ensures Inv(After(users, run)) && After(users, run).acks == AcksFor(After(users, run).completed)
    decreases |run|
  {
    if run != [] {
      var s, e := After(users, run[..|run| - 1]), run[|run| - 1];
      OneAckPerSubscription(users, run[..|run| - 1]);
      StepKeeps(s, e);
      if e.Acknowledged? {
        var _ := SubAckMatches(s, e.id);
        assert Apply(s, e).completed[..|s.completed|] == s.completed;
      }
    }
  }

  lemma SubsDrop(pending: seq<Pending>, i: nat)
    requires i < |pending|
    ensures multiset(Subs(pending)) == multiset(Subs(pending[..i] + pending[i + 1..])) + multiset{Subs(pending)[i]}
  {
    var all := Subs(pending);
    assert Subs(pending[..i] + pending[i + 1..]) == all[..i] + all[i + 1..];
    assert all == all[..i] + [all[i]] + all[i + 1..];
  }

  /** One step moves a subscription from pending to completed, or adds the one that is asked for. */
  lemma StepConserves(s: State, e: Event)
    requires Inv(s) && Enabled(s, e)
    ensures var t := Apply(s, e);
            multiset(t.completed) + multiset(Subs(t.pending))
            == multiset(s.completed) + multiset(Subs(s.pending)) + if e.Subscribed? then multiset{e.sub} else multiset{}
  {
    var t := Apply(s, e);
    match e
    case Subscribed(sub) => assert Subs(t.pending) == Subs(s.pending) + [sub];
    case Sent(id) => assert Subs(t.pending) == Subs(s.pending);
    case Acknowledged(id) =>
      var i := SubAckMatches(s, id);
      SubsDrop(s.pending, i);
    case _ =>
  }

  /** In every run each subscription that was asked for is either pending or completed, exactly once. */
  lemma {:induction false} NoSubscriptionLost(users: set<User>, run: seq<Event>)
    requires Feasible(users, run)
    ensures var s := After(users, run); Asked(run) == multiset(s.completed) + multiset(Subs(s.pending))
    decreases |run|
  {
    if run != [] {
      var s := After(users, run[..|run| - 1]);
      OneAckPerSubscription(users, run[..|run| - 1]);
      NoSubscriptionLost(users, run[..|run| - 1]);
      StepConserves(s, run[|run| - 1]);
    }
  }

  /** What the user asked for last: to be subscribed, or not to be. */
  predicate WishesFor(run: seq<Event>, sub: Sub) {
    run != [] &&
    var last := run[|run| - 1];
    (last == Subscribed(sub) || (last != Unsubscribed(sub) && WishesFor(run[..|run| - 1], sub)))
  }

  lemma StepWishes(s: State, e: Event, sub: Sub)
    requires Enabled(s, e)
    ensures Wanted(Apply(s, e).subscriptions, sub.user, sub.topic)
            <==> e == Subscribed(sub) || (e != Unsubscribed(sub) && Wanted(s.subscriptions, sub.user, sub.topic))
  {
  }

  /** In every run a user gets a topic exactly if its last request about the topic was to subscribe. */
  lemma {:induction false} WantedIsWished(users: set<User>, run: seq<Event>, sub: Sub)
    requires Feasible(users, run)
    ensures Wanted(After(users, run).subscriptions, sub.user, sub.topic) <==> WishesFor(run, sub)
    decreases |run|
  {
    if run != [] {
      WantedIsWished(users, run[..|run| - 1], sub);
      StepWishes(After(users, run[..|run| - 1]), run[|run| - 1], sub);
    }
  }

  /** The messages published on topics that the user had last asked to be subscribed to. */
  function Inbox(run: seq<Event>, u: User): seq<Bytes> {
    if run == [] then []
    else
      var front, last := run[..|run| - 1], run[|run| - 1];
      Inbox(front, u) + if last.Published? && WishesFor(front, Sub(u, last.topic)) then [last.message] else []
  }

  ghost predicate Healthy(s: State, users: set<User>) {
    s.subscriptions.Keys == s.chains.Keys == users && forall u | u in users :: Threads.Inv(s.chains[u])
  }

  lemma StaysHealthy(s: State, users: set<User>, e: Event)
    requires Healthy(s, users) && Enabled(s, e)
    ensures Healthy(Apply(s, e), users)
  {
    forall u | u in users ensures Threads.Inv(Apply(s, e).chains[u]) {
      if e.Moved? && e.user == u {
        Threads.StepKeeps(s.chains[u], e.step);
      } else if e.Published? {
        Threads.StepKeeps(s.chains[u], Spawn(e.message));
      }
    }
  }

  lemma StepMessages(s: State, e: Event, u: User)
    requires u in s.chains && Enabled(s, e)
    ensures u in Apply(s, e).chains
    ensures Messages(Apply(s, e).chains[u])
            == Messages(s.chains[u]) + if e.Published? && Wanted(s.subscriptions, u, e.topic) then [e.message] else []
  {
    var c, d := s.chains[u], Apply(s, e).chains[u];
    if e.Published? && Wanted(s.subscriptions, u, e.topic) {
      assert Messages(d) == Messages(c) + [e.message];
    } else {
      assert Messages(d) == Messages(c);
    }
  }

  lemma {:induction false} ChainsAreInboxes(users: set<User>, run: seq<Event>, u: User)
    requires Feasible(users, run) && u in users
    ensures Healthy(After(users, run), users) && Messages(After(users, run).chains[u]) == Inbox(run, u)
    decreases |run|
  {
    if run != [] {
      var s, e := After(users, run[..|run| - 1]), run[|run| - 1];
      ChainsAreInboxes(users, run[..|run| - 1], u);
      StaysHealthy(s, users, e);
      StepMessages(s, e, u);
      if e.Published? {
        WantedIsWished(users, run[..|run| - 1], Sub(u, e.topic));
      }
    }
  }

  /** In every run and every interleaving, a user's messages are parsed in the order of their publication. */
  lemma ParsedInInboxOrder(users: set<User>, run: seq<Event>, u: User)
    requires Feasible(users, run) && u in users
    ensures var s := After(users, run);
            u in s.chains && Threads.Inv(s.chains[u]) && Parsed(s.chains[u]) <= Inbox(run, u)
  {
    ChainsAreInboxes(users, run, u);
    ParsedIsPrefix(After(users, run).chains[u]);
  }
}
