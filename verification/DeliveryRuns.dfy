/** What holds of the delivery service over every sequence of requests. */
module DeliveryRuns {
  import opened Basics
  import opened Delivery

  datatype Request =
    | Registered(id: Id, keyPackages: seq<Hash>)
    | Published(id: Id, keyPackages: seq<Hash>)
    | Consumed(id: Id)
    | Sent(m: GroupMessage)
    | Received(id: Id)
    | Welcomed(m: GroupMessage, order: seq<Id>)
    | InfoGot(id: Id)
    | InfoPosted(id: Id, info: Bytes)
    | WasReset

  function Apply(s: Server, mutex: bool, r: Request): Server {
    match r
    case Registered(id, kps) => Register(s, id, kps).0
    case Published(id, kps) => PublishKeyPackages(s, id, kps).0
    case Consumed(id) => ConsumeKeyPackage(s, id).0
    case Sent(m) => SendMessage(s, m).0
    case Received(id) => Receive(s, id).0
    case Welcomed(m, order) => SendWelcome(s, m, order).0
    case InfoGot(id) => GetGroupInfo(s, mutex, id).0
    case InfoPosted(id, info) => PostGroupInfo(s, id, info).0
    case WasReset => Reset(s).0
  }

  function After(mutex: bool, run: seq<Request>): Server {
    if run == [] then EMPTY else Apply(After(mutex, run[..|run| - 1]), mutex, run[|run| - 1])
  }

  // ---------------------------------------------------------------- queues

  /** The request gives the client a new entry, or removes all clients. */
  predicate Renews(s: Server, r: Request, id: Id) {
    !s.poisoned && (r.WasReset? || (r.Registered? && r.id == id))
  }

  function Repeat(m: GroupMessage, n: nat): (r: seq<GroupMessage>)
    ensures |r| == n && forall x | x in r :: x == m
  {
    seq(n, _ => m)
  }

  /** How many copies a client gets: its occurrences before the first unregistered name. */
  function Copies(clients: map<Id, Client>, to: seq<Id>, id: Id): nat {
    if to == [] || to[0] !in clients then 0
    else (if to[0] == id then 1 else 0) + Copies(clients, to[1..], id)
  }

  predicate Accepted(s: Server, m: GroupMessage) {
    !s.poisoned && (m.body.Handshake? || m.body.Application?) && !Stale(s.groups, m.body)
  }

  /** The copies that a request appends for a client. */
  function NewCopies(s: Server, r: Request, id: Id): seq<GroupMessage> {
    if r.Sent? && Accepted(s, r.m) then Repeat(r.m, Copies(s.clients, r.m.recipients + [r.m.sender], id)) else []
  }

  /** The copies appended for a client since its registration, in the order of acceptance. */
  function Appended(mutex: bool, run: seq<Request>, id: Id): seq<GroupMessage> {
    if run == [] then []
    else
      var front, last := run[..|run| - 1], run[|run| - 1];
      var s := After(mutex, front);
      if Renews(s, last, id) then []
      else Appended(mutex, front, id) + NewCopies(s, last, id)
  }

  /** The messages that the client has fetched since its registration. */
  function Fetched(mutex: bool, run: seq<Request>, id: Id): seq<GroupMessage> {
    if run == [] then []
    else
      var front, last := run[..|run| - 1], run[|run| - 1];
      var s := After(mutex, front);
      if Renews(s, last, id) then []
      else Fetched(mutex, front, id)
           + NewFetched(s, last, id)
  }

  /** What is not a Welcome in a list of messages. */
  function Messages(ms: seq<GroupMessage>): seq<GroupMessage> {
    if ms == [] then [] else (if ms[0].body.Welcome? then [] else [ms[0]]) + Messages(ms[1..])
  }

  /** Queues hold what they are for. */
  ghost predicate Sorted(c: Client) {
    (forall m | m in c.msgs :: !m.body.Welcome?) && forall m | m in c.welcomes :: m.body.Welcome?
  }

  lemma {:induction false} PushAllEffect(clients: map<Id, Client>, to: seq<Id>, m: GroupMessage, id: Id)
    requires id in clients
    ensures var after := PushAll(clients, to, m).0;
            && after.Keys == clients.Keys
            && after[id] == clients[id].(msgs := clients[id].msgs + Repeat(m, Copies(clients, to, id)))
    decreases |to|
  {
    if to != [] && to[0] in clients {
      var next := Push(clients, to[0], m);
      PushAllEffect(next, to[1..], m, id);
      SameCopies(clients, next, to[1..], id);
      var n := Copies(clients, to[1..], id);
      assert [m] + Repeat(m, n) == Repeat(m, n + 1);
      assert (clients[id].msgs + [m]) + Repeat(m, n) == clients[id].msgs + ([m] + Repeat(m, n));
    } else {
      assert clients[id].msgs + Repeat(m, 0) == clients[id].msgs;
    }
  }

  lemma {:induction false} SameCopies(a: map<Id, Client>, b: map<Id, Client>, to: seq<Id>, id: Id)
    requires a.Keys == b.Keys
    ensures Copies(a, to, id) == Copies(b, to, id)
  {
    if to != [] {
      assert to[0] in a <==> to[0] in b;
      SameCopies(a, b, to[1..], id);
    }
  }

  lemma StepQueue(s: Server, mutex: bool, r: Request, id: Id)
    requires !Renews(s, r, id) && id in Apply(s, mutex, r).clients
    ensures id in s.clients
    ensures var c, d := s.clients[id], Apply(s, mutex, r).clients[id];
            d.msgs == if r == Received(id) && !s.poisoned then [] else c.msgs + NewCopies(s, r, id)
    ensures Sorted(s.clients[id]) ==> Sorted(Apply(s, mutex, r).clients[id])
  {
    if r.Sent? && Accepted(s, r.m) {
      var to := r.m.recipients + [r.m.sender];
      if id !in s.clients {
        NobodyNew(s.clients, to, r.m);
      }
      PushAllEffect(s.clients, to, r.m, id);
    }
  }

  lemma {:induction false} NobodyNew(clients: map<Id, Client>, to: seq<Id>, m: GroupMessage)
    ensures PushAll(clients, to, m).0.Keys == clients.Keys
    decreases |to|
  {
    if to != [] && to[0] in clients {
      NobodyNew(Push(clients, to[0], m), to[1..], m);
    }
  }

  lemma {:induction false} MessagesSplit(a: seq<GroupMessage>, b: seq<GroupMessage>)
    requires (forall m | m in a :: m.body.Welcome?) && (forall m | m in b :: !m.body.Welcome?)
    ensures Messages(a + b) == b
  {
    if a != [] {
      assert (a + b)[1..] == a[1..] + b;
      assert a[0] in a;
      MessagesSplit(a[1..], b);
    } else if b != [] {
      assert a + b == b && b[1..] == [] + b[1..];
      assert b[0] in b;
      MessagesSplit([], b[1..]);
    }
  }

  /** What a request lets the client fetch. */
  function NewFetched(s: Server, r: Request, id: Id): seq<GroupMessage> {
    if r == Received(id) then Messages(Receive(s, id).2) else []
  }

  lemma StepConserves(s: Server, mutex: bool, r: Request, id: Id)
    requires !Renews(s, r, id) && id in Apply(s, mutex, r).clients && id in s.clients && Sorted(s.clients[id])
    ensures Sorted(Apply(s, mutex, r).clients[id])
    ensures NewFetched(s, r, id) + Apply(s, mutex, r).clients[id].msgs == s.clients[id].msgs + NewCopies(s, r, id)
  {
    StepQueue(s, mutex, r, id);
    if r == Received(id) && !s.poisoned {
      MessagesSplit(s.clients[id].welcomes, s.clients[id].msgs);
    }
  }

  lemma Regrouped(fetched: seq<GroupMessage>, more: seq<GroupMessage>, after: seq<GroupMessage>,
                  before: seq<GroupMessage>, copies: seq<GroupMessage>, appended: seq<GroupMessage>)
    requires fetched + before == appended && more + after == before + copies
    ensures (fetched + more) + after == appended + copies
  {
    assert (fetched + more) + after == fetched + (more + after);
    assert fetched + (before + copies) == (fetched + before) + copies;
  }

  /** Everything appended for a client was fetched by it, or is still queued, in order and once. */
  lemma {:induction false} NothingLost(mutex: bool, run: seq<Request>, id: Id)
    requires id in After(mutex, run).clients
    ensures Sorted(After(mutex, run).clients[id])
    ensures Fetched(mutex, run, id) + After(mutex, run).clients[id].msgs == Appended(mutex, run, id)
    decreases |run|
  {
    var front, last := run[..|run| - 1], run[|run| - 1];
    var s := After(mutex, front);
    if !Renews(s, last, id) {
      StepQueue(s, mutex, last, id);
      NothingLost(mutex, front, id);
      StepConserves(s, mutex, last, id);
      Regrouped(Fetched(mutex, front, id), NewFetched(s, last, id), After(mutex, run).clients[id].msgs,
                s.clients[id].msgs, NewCopies(s, last, id), Appended(mutex, front, id));
    }
  }

  // ---------------------------------------------------------------- epochs

  predicate SameGroup(m: GroupMessage, n: GroupMessage) {
    m.body.Handshake? && n.body.Handshake? && m.body.group == n.body.group
  }

  /** Handshake messages of a group are in the order of their epochs. */
  ghost predicate InOrder(ms: seq<GroupMessage>) {
    forall i, j | 0 <= i < j < |ms| && SameGroup(ms[i], ms[j]) :: ms[i].body.epoch <= ms[j].body.epoch
  }

  ghost predicate Below(ms: seq<GroupMessage>, groups: map<Id, nat>) {
    forall m | m in ms && m.body.Handshake? :: m.body.group in groups && m.body.epoch <= groups[m.body.group]
  }

  lemma InOrderAppend(ms: seq<GroupMessage>, groups: map<Id, nat>, m: GroupMessage, n: nat)
    requires InOrder(ms) && Below(ms, groups) && !Stale(groups, m.body)
    ensures InOrder(ms + Repeat(m, n))
  {
    var all := ms + Repeat(m, n);
    forall i, j | 0 <= i < j < |all| && SameGroup(all[i], all[j]) ensures all[i].body.epoch <= all[j].body.epoch {
      if j >= |ms| {
        assert all[j] == m;
        assert i < |ms| ==> all[i] == ms[i] && ms[i] in ms;
        assert i >= |ms| ==> all[i] == m;
      }
    }
  }

  /** The epoch kept for a group only grows, until a reset. */
  lemma StepGroups(s: Server, mutex: bool, r: Request)
    requires r.WasReset? ==> s.poisoned
    ensures forall g | g in s.groups :: g in Apply(s, mutex, r).groups && s.groups[g] <= Apply(s, mutex, r).groups[g]
    ensures r.Sent? && Accepted(s, r.m) && r.m.body.Handshake? ==>
              r.m.body.group in Apply(s, mutex, r).groups && Apply(s, mutex, r).groups[r.m.body.group] == r.m.body.epoch
  {
  }

  lemma StepBelow(s: Server, mutex: bool, r: Request, id: Id, ms: seq<GroupMessage>)
    requires Below(ms, s.groups) && InOrder(ms) && !Renews(s, r, id)
    ensures Below(ms + NewCopies(s, r, id), Apply(s, mutex, r).groups) && InOrder(ms + NewCopies(s, r, id))
  {
    StepGroups(s, mutex, r);
    if r.Sent? && Accepted(s, r.m) {
      InOrderAppend(ms, s.groups, r.m, Copies(s.clients, r.m.recipients + [r.m.sender], id));
    } else {
      assert ms + NewCopies(s, r, id) == ms;
    }
  }

  lemma {:induction false} EpochsBelow(mutex: bool, run: seq<Request>, id: Id)
    ensures Below(Appended(mutex, run, id), After(mutex, run).groups) && InOrder(Appended(mutex, run, id))
    decreases |run|
  {
    if run != [] {
      var front, last := run[..|run| - 1], run[|run| - 1];
      var s := After(mutex, front);
      if !Renews(s, last, id) {
        EpochsBelow(mutex, front, id);
        StepBelow(s, mutex, last, id, Appended(mutex, front, id));
      }
    }
  }

  /** A client gets the handshake messages of a group, fetched or queued, with non-decreasing epochs. */
  lemma EpochsNeverFall(mutex: bool, run: seq<Request>, id: Id)
    requires id in After(mutex, run).clients
    ensures InOrder(Fetched(mutex, run, id) + After(mutex, run).clients[id].msgs)
  {
    EpochsBelow(mutex, run, id);
    NothingLost(mutex, run, id);
  }

  // ---------------------------------------------------------------- refusals

  /** The epochs of a group's handshake messages that were accepted since the last reset. */
  function Seen(mutex: bool, run: seq<Request>, group: Id): set<nat> {
    if run == [] then {}
    else
      var front, last := run[..|run| - 1], run[|run| - 1];
      var s := After(mutex, front);
      if last.WasReset? && !s.poisoned then {}
      else Seen(mutex, front, group) + NewEpochs(s, last, group)
  }

  function NewEpochs(s: Server, r: Request, group: Id): set<nat> {
    if r.Sent? && Accepted(s, r.m) && r.m.body.Handshake? && r.m.body.group == group then {r.m.body.epoch} else {}
  }

  /** The epoch kept for a group is the largest of these. */
  ghost predicate Largest(groups: map<Id, nat>, group: Id, epochs: set<nat>) {
    if group in groups then groups[group] in epochs && forall e | e in epochs :: e <= groups[group] else epochs == {}
  }

  lemma StepLargest(s: Server, mutex: bool, r: Request, group: Id, epochs: set<nat>)
    requires Largest(s.groups, group, epochs) && !(r.WasReset? && !s.poisoned)
    ensures Largest(Apply(s, mutex, r).groups, group, epochs + NewEpochs(s, r, group))
  {
  }

  lemma {:induction false} LargestSeen(mutex: bool, run: seq<Request>, group: Id)
    ensures Largest(After(mutex, run).groups, group, Seen(mutex, run, group))
    decreases |run|
  {
    if run != [] {
      var front, last := run[..|run| - 1], run[|run| - 1];
      if !(last.WasReset? && !After(mutex, front).poisoned) {
        LargestSeen(mutex, front, group);
        StepLargest(After(mutex, front), mutex, last, group, Seen(mutex, front, group));
      }
    }
  }

  /** A handshake message of a larger epoch of the group was accepted since the last reset. */
  ghost predicate Overtaken(mutex: bool, run: seq<Request>, m: GroupMessage) {
    m.body.Handshake? && exists e :: e in Seen(mutex, run, m.body.group) && e > m.body.epoch
  }

  /**
   Over every sequence of requests: a handshake message is refused exactly if one of a larger epoch of its group was
   accepted since the last reset. One of an equal epoch is accepted.
   */
  lemma RefusedExactly(mutex: bool, run: seq<Request>, m: GroupMessage)
    requires m.body.Handshake? && !After(mutex, run).poisoned
    ensures SendMessage(After(mutex, run), m).1 == Conflict <==> Overtaken(mutex, run, m)
  {
    var groups, g := After(mutex, run).groups, m.body.group;
    LargestSeen(mutex, run, g);
    ConflictIsStale(After(mutex, run), m);
    assert g in groups ==> groups[g] in Seen(mutex, run, g);
  }

  lemma ConflictIsStale(s: Server, m: GroupMessage)
    requires m.body.Handshake? && !s.poisoned
    ensures SendMessage(s, m).1 == Conflict <==> Stale(s.groups, m.body)
  {
  }
}
