/** Welcomes and their reservations at the delivery service, over every sequence of requests. */
module Welcomes {
  import opened Delivery
  import opened DeliveryRuns

  // ---------------------------------------------------------------- posting a Welcome

  function Hashes(secrets: seq<Hash>): set<Hash> {
    set h | h in secrets
  }

  /** The reservations, with their clients, that a Welcome with these hashes can use. */
  function Reservations(clients: map<Id, Client>, hashes: set<Hash>): set<(Id, Hash)> {
    set id, h | id in clients && h in clients[id].reserved && h in hashes :: (id, h)
  }

  /** An order in which a map with these keys can be walked. */
  predicate Covers(order: seq<Id>, keys: set<Id>) {
    (forall id | id in keys :: id in order) && forall id | id in order :: id in keys
  }

  predicate Postable(s: Server, m: GroupMessage) {
    m.body.Welcome? && !s.poisoned
  }

  /** One post uses up exactly one reservation, whatever the order; it answers 204 exactly if there is none. */
  lemma PostTakesOne(s: Server, m: GroupMessage, order: seq<Id>)
    requires Postable(s, m) && Covers(order, s.clients.Keys)
    ensures var hashes := Hashes(m.body.secrets);
            var (t, status) := SendWelcome(s, m, order);
            var claim := FirstClaim(s.clients, order, m.body.secrets);
            && Postable(t, m) && t.clients.Keys == s.clients.Keys
            && (status == NoContent <==> Reservations(s.clients, hashes) == {})
            && (status == NoContent ==> t == s)
            && (status != NoContent ==>
                  && claim.Some? && claim.value in Reservations(s.clients, hashes)
                  && Reservations(t.clients, hashes) == Reservations(s.clients, hashes) - {claim.value})
  {
    var hashes := Hashes(m.body.secrets);
    var t := SendWelcome(s, m, order).0;
    var claim := FirstClaim(s.clients, order, m.body.secrets);
    if claim.None? {
      forall id, h | id in s.clients && h in hashes ensures h !in s.clients[id].reserved {
      }
    } else {
      assert claim.value in Reservations(s.clients, hashes);
    }
  }

  function PostAll(s: Server, m: GroupMessage, orders: seq<seq<Id>>): Server
    decreases |orders|
  {
    if orders == [] then s else PostAll(SendWelcome(s, m, orders[0]).0, m, orders[1..])
  }

  /** Posting a Welcome as often as it has reservations, or more often, uses them all up. */
  lemma {:induction false} PostsUseAll(s: Server, m: GroupMessage, orders: seq<seq<Id>>)
    requires Postable(s, m) && forall order | order in orders :: Covers(order, s.clients.Keys)
    requires |orders| >= |Reservations(s.clients, Hashes(m.body.secrets))|
    ensures Reservations(PostAll(s, m, orders).clients, Hashes(m.body.secrets)) == {}
    decreases |orders|
  {
    if orders != [] {
      assert orders[0] in orders && forall order | order in orders[1..] :: order in orders;
      PostTakesOne(s, m, orders[0]);
      var t := SendWelcome(s, m, orders[0]).0;
      PostsUseAll(t, m, orders[1..]);
    }
  }

  lemma OneMore(c: Client, h: Hash, m: GroupMessage, d: Client)
    requires h in c.reserved && d.reserved <= c.reserved - {h}
    requires d.welcomes == c.welcomes + [m] + Repeat(m, |(c.reserved - {h}) - d.reserved|)
    ensures d.welcomes == c.welcomes + Repeat(m, |c.reserved - d.reserved|)
  {
    var rest := (c.reserved - {h}) - d.reserved;
    assert c.reserved - d.reserved == rest + {h};
    assert [m] + Repeat(m, |rest|) == Repeat(m, |rest| + 1);
  }

  /** Each client gets one copy for each of its reservations that was used. */
  lemma {:induction false} CopiesMatchReservations(s: Server, m: GroupMessage, orders: seq<seq<Id>>, id: Id)
    requires Postable(s, m) && id in s.clients && forall order | order in orders :: Covers(order, s.clients.Keys)
    ensures id in PostAll(s, m, orders).clients
    ensures var hashes := Hashes(m.body.secrets);
            var c, d := s.clients[id], PostAll(s, m, orders).clients[id];
            && d.reserved <= c.reserved && c.reserved - d.reserved <= hashes
            && d == c.(reserved := d.reserved, welcomes := c.welcomes + Repeat(m, |c.reserved - d.reserved|))
    decreases |orders|
  {
    if orders != [] {
      assert orders[0] in orders && forall order | order in orders[1..] :: order in orders;
      PostTakesOne(s, m, orders[0]);
      var t := SendWelcome(s, m, orders[0]).0;
      CopiesMatchReservations(t, m, orders[1..], id);
      var d := PostAll(s, m, orders).clients[id];
      if t.clients[id] != s.clients[id] {
        OneMore(s.clients[id], FirstClaim(s.clients, orders[0], m.body.secrets).value.1, m, d);
      }
    } else {
      assert s.clients[id].welcomes + Repeat(m, 0) == s.clients[id].welcomes;
    }
  }

  lemma {:induction false} OneReservationEach(clients: map<Id, Client>, secrets: seq<Hash>, owner: Hash -> Id)
    requires forall i, j | 0 <= i < j < |secrets| :: secrets[i] != secrets[j]
    requires forall h | h in secrets :: forall id :: id in clients && h in clients[id].reserved <==> id == owner(h)
    ensures |Reservations(clients, Hashes(secrets))| == |secrets|
  {
    if secrets == [] {
      assert Reservations(clients, Hashes(secrets)) == {};
    } else {
      var h, rest := secrets[0], secrets[1..];
      OneReservationEach(clients, rest, owner);
      assert h in secrets && owner(h) in clients && h in clients[owner(h)].reserved;
      assert Hashes(secrets) == {h} + Hashes(rest) && h !in Hashes(rest);
      assert Reservations(clients, Hashes(secrets)) == Reservations(clients, Hashes(rest)) + {(owner(h), h)};
    }
  }

  /**
   Posting a Welcome once for each of its hashes, each reserved by one client, gives every client one copy for
   each of its reservations; later posts of it are answered with 204 and change nothing.
   */
  lemma EveryReservationServed(s: Server, m: GroupMessage, owner: Hash -> Id, orders: seq<seq<Id>>, id: Id,
                               again: seq<Id>)
    requires Postable(s, m) && id in s.clients
    requires var secrets := m.body.secrets;
             && |orders| == |secrets| && (forall i, j | 0 <= i < j < |secrets| :: secrets[i] != secrets[j])
             && forall h | h in secrets :: forall c :: c in s.clients && h in s.clients[c].reserved <==> c == owner(h)
    requires Covers(again, s.clients.Keys) && forall order | order in orders :: Covers(order, s.clients.Keys)
    ensures var t := PostAll(s, m, orders);
            && id in t.clients
            && t.clients[id].welcomes
               == s.clients[id].welcomes + Repeat(m, |s.clients[id].reserved * Hashes(m.body.secrets)|)
            && SendWelcome(t, m, again) == (t, NoContent)
  {
    var hashes := Hashes(m.body.secrets);
    var t := PostAll(s, m, orders);
    OneReservationEach(s.clients, m.body.secrets, owner);
    PostsUseAll(s, m, orders);
    CopiesMatchReservations(s, m, orders, id);
    StillPostable(s, m, orders);
    PostTakesOne(t, m, again);
    var c, d := s.clients[id], t.clients[id];
    assert forall h | h in d.reserved && h in hashes :: (id, h) in Reservations(t.clients, hashes);
    assert c.reserved - d.reserved == c.reserved * hashes;
  }

  lemma {:induction false} StillPostable(s: Server, m: GroupMessage, orders: seq<seq<Id>>)
    requires Postable(s, m)
    ensures Postable(PostAll(s, m, orders), m) && PostAll(s, m, orders).clients.Keys == s.clients.Keys
    decreases |orders|
  {
    if orders != [] {
      StillPostable(SendWelcome(s, m, orders[0]).0, m, orders[1..]);
    }
  }

  // ---------------------------------------------------------------- reservations over a run

  /** The Welcomes that a request queues for a client. */
  function NewWelcomes(s: Server, r: Request, id: Id): seq<GroupMessage> {
    if r.Welcomed? && Postable(s, r.m) then
      var claim := FirstClaim(s.clients, r.order, r.m.body.secrets);
      if claim.Some? && claim.value.0 == id then [r.m] else []
    else []
  }

  /** The Welcomes queued for a client since its registration. */
  function WelcomesQueued(mutex: bool, run: seq<Request>, id: Id): seq<GroupMessage> {
    if run == [] then []
    else
      var front, last := run[..|run| - 1], run[|run| - 1];
      var s := After(mutex, front);
      if Renews(s, last, id) then [] else WelcomesQueued(mutex, front, id) + NewWelcomes(s, last, id)
  }

  /** How often a key package of the client was handed out since its registration. */
  function Consumptions(mutex: bool, run: seq<Request>, id: Id): nat {
    if run == [] then 0
    else
      var front, last := run[..|run| - 1], run[|run| - 1];
      var s := After(mutex, front);
      if Renews(s, last, id) then 0
      else Consumptions(mutex, front, id) + if last == Consumed(id) && ConsumeKeyPackage(s, id).1 == Ok then 1 else 0
  }

  lemma SentKeepsReserved(s: Server, m: GroupMessage, id: Id)
    requires id in SendMessage(s, m).0.clients
    ensures id in s.clients && SendMessage(s, m).0.clients[id].reserved == s.clients[id].reserved
  {
    if Accepted(s, m) {
      NobodyNew(s.clients, m.recipients + [m.sender], m);
      PushAllEffect(s.clients, m.recipients + [m.sender], m, id);
    }
  }

  lemma WelcomedUsesReserved(s: Server, m: GroupMessage, order: seq<Id>, id: Id)
    requires id in SendWelcome(s, m, order).0.clients
    ensures id in s.clients
    ensures |SendWelcome(s, m, order).0.clients[id].reserved| + |NewWelcomes(s, Welcomed(m, order), id)|
            == |s.clients[id].reserved|
  {
    if NewWelcomes(s, Welcomed(m, order), id) != [] {
      var c, h := s.clients[id], FirstClaim(s.clients, order, m.body.secrets).value.1;
      assert c.reserved == (c.reserved - {h}) + {h};
    }
  }

  lemma ConsumedReserves(s: Server, id: Id)
    requires id in s.clients
    ensures id in ConsumeKeyPackage(s, id).0.clients
    ensures |ConsumeKeyPackage(s, id).0.clients[id].reserved|
            <= |s.clients[id].reserved| + if ConsumeKeyPackage(s, id).1 == Ok then 1 else 0
  {
    var c := s.clients[id];
    if |c.keyPackages| > 1 {
      var h := c.keyPackages[|c.keyPackages| - 1];
      assert c.reserved + {h} == c.reserved || |c.reserved + {h}| == |c.reserved| + 1;
    }
  }

  lemma StepReserved(s: Server, mutex: bool, r: Request, id: Id)
    requires !Renews(s, r, id) && id in Apply(s, mutex, r).clients
    ensures id in s.clients
    ensures |Apply(s, mutex, r).clients[id].reserved| + |NewWelcomes(s, r, id)|
            <= |s.clients[id].reserved| + if r == Consumed(id) && ConsumeKeyPackage(s, id).1 == Ok then 1 else 0
  {
    match r
    case Sent(m) => SentKeepsReserved(s, m, id);
    case Welcomed(m, order) => WelcomedUsesReserved(s, m, order, id);
    case Consumed(x) =>
      if x == id {
        assert id in s.clients;
        ConsumedReserves(s, id);
      }
    case _ =>
  }

  /** A client is never queued more Welcomes than its key packages were handed out. */
  lemma {:induction false} WelcomesBounded(mutex: bool, run: seq<Request>, id: Id)
    requires id in After(mutex, run).clients
    ensures |WelcomesQueued(mutex, run, id)| + |After(mutex, run).clients[id].reserved| <= Consumptions(mutex, run, id)
    decreases |run|
  {
    var front, last := run[..|run| - 1], run[|run| - 1];
    var s := After(mutex, front);
    if !Renews(s, last, id) {
      StepReserved(s, mutex, last, id);
      WelcomesBounded(mutex, front, id);
    }
  }

  // ---------------------------------------------------------------- Welcomes over a run

  /** The Welcomes in a list of messages. */
  function Invitations(ms: seq<GroupMessage>): seq<GroupMessage> {
    if ms == [] then [] else (if ms[0].body.Welcome? then [ms[0]] else []) + Invitations(ms[1..])
  }

  lemma {:induction false} InvitationsSplit(a: seq<GroupMessage>, b: seq<GroupMessage>)
    requires (forall m | m in a :: m.body.Welcome?) && (forall m | m in b :: !m.body.Welcome?)
    ensures Invitations(a + b) == a
  {
    if a != [] {
      assert (a + b)[1..] == a[1..] + b && a[0] in a;
      InvitationsSplit(a[1..], b);
    } else if b != [] {
      assert a + b == b && b[1..] == [] + b[1..] && b[0] in b;
      InvitationsSplit([], b[1..]);
    }
  }

  function NewInvitations(s: Server, r: Request, id: Id): seq<GroupMessage> {
    if r == Received(id) then Invitations(Receive(s, id).2) else []
  }

  /** The Welcomes that the client has fetched since its registration. */
  function WelcomesFetched(mutex: bool, run: seq<Request>, id: Id): seq<GroupMessage> {
    if run == [] then []
    else
      var front, last := run[..|run| - 1], run[|run| - 1];
      var s := After(mutex, front);
      if Renews(s, last, id) then [] else WelcomesFetched(mutex, front, id) + NewInvitations(s, last, id)
  }

  lemma StepWelcomes(s: Server, mutex: bool, r: Request, id: Id)
    requires !Renews(s, r, id) && id in Apply(s, mutex, r).clients && id in s.clients && Sorted(s.clients[id])
    ensures NewInvitations(s, r, id) + Apply(s, mutex, r).clients[id].welcomes
            == s.clients[id].welcomes + NewWelcomes(s, r, id)
  {
    if r.Sent? && Accepted(s, r.m) {
      PushAllEffect(s.clients, r.m.recipients + [r.m.sender], r.m, id);
    } else if r == Received(id) && !s.poisoned {
      InvitationsSplit(s.clients[id].welcomes, s.clients[id].msgs);
    }
  }

  /** Every Welcome queued for a client was fetched by it, or is still queued, in order and once. */
  lemma {:induction false} NoWelcomeLost(mutex: bool, run: seq<Request>, id: Id)
    requires id in After(mutex, run).clients
    ensures WelcomesFetched(mutex, run, id) + After(mutex, run).clients[id].welcomes == WelcomesQueued(mutex, run, id)
    decreases |run|
  {
    var front, last := run[..|run| - 1], run[|run| - 1];
    var s := After(mutex, front);
    if !Renews(s, last, id) {
      StepQueue(s, mutex, last, id);
      NothingLost(mutex, front, id);
      NoWelcomeLost(mutex, front, id);
      StepWelcomes(s, mutex, last, id);
      Regrouped(WelcomesFetched(mutex, front, id), NewInvitations(s, last, id), After(mutex, run).clients[id].welcomes,
                s.clients[id].welcomes, NewWelcomes(s, last, id), WelcomesQueued(mutex, front, id));
    }
  }
}
