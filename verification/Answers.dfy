/**
 What the delivery service answers, by the requests before: each status and content is told from the history alone,
 over every sequence of requests.
 */
module Answers {
  import opened Basics
  import opened Delivery
  import opened DeliveryRuns
  import opened Welcomes
  import opened GroupInfoLock
  import opened Registrations

  // ---------------------------------------------------------------- sending

  ghost predicate Known(mutex: bool, run: seq<Request>, id: Id) {
    Packages(mutex, run, id).Some?
  }

  lemma {:induction false} AllPushed(clients: map<Id, Client>, to: seq<Id>, m: GroupMessage)
    ensures PushAll(clients, to, m).1 <==> forall id | id in to :: id in clients
    decreases |to|
  {
    if to != [] {
      assert forall id | id in to :: id == to[0] || id in to[1..];
      if to[0] in clients {
        AllPushed(Push(clients, to[0], m), to[1..], m);
      }
    }
  }

  lemma AcceptedAnswered(mutex: bool, run: seq<Request>, m: GroupMessage)
    requires NoneCrashes(run) && !Crashes(Sent(m)) && !Overtaken(mutex, run, m)
    ensures SendMessage(After(mutex, run), m).1
            == if Known(mutex, run, m.sender) && forall id | id in m.recipients :: Known(mutex, run, id) then Ok
               else NotFound
  {
    var s, to := After(mutex, run), m.recipients + [m.sender];
    PoisonedExactly(mutex, run);
    if m.body.Handshake? {
      RefusedExactly(mutex, run, m);
      ConflictIsStale(s, m);
    }
    AllPushed(s.clients, to, m);
    forall id ensures Known(mutex, run, id) <==> id in s.clients {
      PackagesExactly(mutex, run, id);
    }
    assert forall id :: id in to <==> id in m.recipients || id == m.sender;
  }

  /** 500 after a crash, a crash, 409, 200 or 404: exactly when. */
  lemma SentAnswered(mutex: bool, run: seq<Request>, m: GroupMessage)
    ensures SendMessage(After(mutex, run), m).1
            == if !NoneCrashes(run) then ServerError
               else if Crashes(Sent(m)) then Aborted
               else if Overtaken(mutex, run, m) then Conflict
               else if Known(mutex, run, m.sender) && forall id | id in m.recipients :: Known(mutex, run, id) then Ok
               else NotFound
  {
    PoisonedExactly(mutex, run);
    if NoneCrashes(run) && !Crashes(Sent(m)) {
      if Overtaken(mutex, run, m) {
        RefusedExactly(mutex, run, m);
      } else {
        AcceptedAnswered(mutex, run, m);
      }
    }
  }

  // ---------------------------------------------------------------- fetching

  lemma Remainder(done: seq<GroupMessage>, left: seq<GroupMessage>, all: seq<GroupMessage>)
    requires done + left == all
    ensures |done| <= |all| && left == all[|done|..]
  {
  }

  /** A known client gets the Welcomes that it has not fetched yet, and then the messages, each in their order. */
  lemma FetchAnswered(mutex: bool, run: seq<Request>, id: Id)
    requires NoneCrashes(run)
    ensures var (_, status, out) := Receive(After(mutex, run), id);
            if Known(mutex, run, id) then
              && status == Ok && |WelcomesFetched(mutex, run, id)| <= |WelcomesQueued(mutex, run, id)|
              && |Fetched(mutex, run, id)| <= |Appended(mutex, run, id)|
              && out == WelcomesQueued(mutex, run, id)[|WelcomesFetched(mutex, run, id)|..]
                        + Appended(mutex, run, id)[|Fetched(mutex, run, id)|..]
            else status == NotFound && out == []
  {
    var s := After(mutex, run);
    PoisonedExactly(mutex, run);
    PackagesExactly(mutex, run, id);
    if id in s.clients {
      NothingLost(mutex, run, id);
      NoWelcomeLost(mutex, run, id);
      Remainder(Fetched(mutex, run, id), s.clients[id].msgs, Appended(mutex, run, id));
      Remainder(WelcomesFetched(mutex, run, id), s.clients[id].welcomes, WelcomesQueued(mutex, run, id));
    }
  }

  /** After a crash nothing is fetched and nothing changes. */
  lemma NothingAfterCrash(mutex: bool, run: seq<Request>, id: Id, hashes: seq<Hash>)
    requires !NoneCrashes(run)
    ensures var s := After(mutex, run);
            && Receive(s, id) == (s, ServerError, []) && Register(s, id, hashes) == (s, ServerError)
            && PublishKeyPackages(s, id, hashes) == (s, ServerError) && ConsumeKeyPackage(s, id) == (s, ServerError)
            && Reset(s) == (s, ServerError)
  {
    PoisonedExactly(mutex, run);
  }

  /** A reset succeeds exactly if there was no crash; a group info can always be posted. */
  lemma ResetAnswered(mutex: bool, run: seq<Request>, id: Id, info: Bytes)
    ensures Reset(After(mutex, run)).1 == if NoneCrashes(run) then Ok else ServerError
    ensures PostGroupInfo(After(mutex, run), id, info).1 == Ok
  {
    PoisonedExactly(mutex, run);
  }

  // ---------------------------------------------------------------- key packages

  /** The last of at least two key packages is handed out and reserved, and stays; otherwise nothing changes. */
  ghost predicate HandsOutLast(s: Server, id: Id, known: Option<seq<Hash>>) {
    var (t, status) := ConsumeKeyPackage(s, id);
    if known.Some? && |known.value| >= 2 then
      var last := known.value[|known.value| - 1];
      && status == Ok && HandedOut(s, id) == Some(last) && id in s.clients
      && t == s.(clients := s.clients[id := s.clients[id].(reserved := s.clients[id].reserved + {last})])
    else status == NoContent && t == s && HandedOut(s, id).None?
  }

  lemma ConsumeAnswered(s: Server, id: Id, known: Option<seq<Hash>>)
    requires !s.poisoned && known == if id in s.clients then Some(s.clients[id].keyPackages) else None
    ensures HandsOutLast(s, id, known)
  {
  }

  lemma PackageAnswered(mutex: bool, run: seq<Request>, id: Id)
    requires NoneCrashes(run)
    ensures HandsOutLast(After(mutex, run), id, Packages(mutex, run, id))
  {
    PoisonedExactly(mutex, run);
    PackagesExactly(mutex, run, id);
    ConsumeAnswered(After(mutex, run), id, Packages(mutex, run, id));
  }

  lemma PublishAnswered(mutex: bool, run: seq<Request>, id: Id, more: seq<Hash>)
    requires NoneCrashes(run)
    ensures PublishKeyPackages(After(mutex, run), id, more).1 == if Known(mutex, run, id) then Ok else NotFound
  {
    PoisonedExactly(mutex, run);
    PackagesExactly(mutex, run, id);
  }

  // ---------------------------------------------------------------- Welcomes

  /** The first secret that any client has reserved, and the first client in the order that has it. */
  lemma {:induction false} HolderIsFirst(clients: map<Id, Client>, order: seq<Id>, h: Hash) returns (i: nat)
    requires FirstHolder(clients, order, h).Some?
    ensures i < |order| && order[i] == FirstHolder(clients, order, h).value
    ensures forall j | 0 <= j < i && order[j] in clients :: h !in clients[order[j]].reserved
  {
    if order[0] in clients && h in clients[order[0]].reserved {
      i := 0;
    } else {
      i := HolderIsFirst(clients, order[1..], h);
      i := i + 1;
    }
  }

  lemma {:induction false} ClaimIsFirst(clients: map<Id, Client>, order: seq<Id>, secrets: seq<Hash>)
    returns (i: nat, k: nat)
    requires FirstClaim(clients, order, secrets).Some?
    ensures k < |secrets| && i < |order| && FirstClaim(clients, order, secrets) == Some((order[i], secrets[k]))
    ensures forall l, id | 0 <= l < k && id in order && id in clients :: secrets[l] !in clients[id].reserved
    ensures forall j | 0 <= j < i && order[j] in clients :: secrets[k] !in clients[order[j]].reserved
  {
    if FirstHolder(clients, order, secrets[0]).Some? {
      k := 0;
      i := HolderIsFirst(clients, order, secrets[0]);
    } else {
      i, k := ClaimIsFirst(clients, order, secrets[1..]);
      k := k + 1;
    }
  }

  /** A Welcome is delivered exactly if somebody has one of its hashes reserved. */
  lemma WelcomeAnswered(mutex: bool, run: seq<Request>, m: GroupMessage, order: seq<Id>)
    requires Covers(order, After(mutex, run).clients.Keys)
    ensures SendWelcome(After(mutex, run), m, order).1
            == if !m.body.Welcome? then Aborted
               else if !NoneCrashes(run) then ServerError
               else if Reservations(After(mutex, run).clients, Hashes(m.body.secrets)) == {} then NoContent
               else Ok
  {
    PoisonedExactly(mutex, run);
    if m.body.Welcome? && NoneCrashes(run) {
      PostTakesOne(After(mutex, run), m, order);
    }
  }

  // ---------------------------------------------------------------- group infos

  /** Somebody has asked for the group info since it was posted last. */
  predicate AskedSince(run: seq<Request>, id: Id) {
    run != [] &&
    var last := run[|run| - 1];
    !(last.InfoPosted? && last.id == id) && (last == InfoGot(id) || AskedSince(run[..|run| - 1], id))
  }

  ghost predicate InfoTold(s: Server, id: Id, locked: bool, posted: Option<Bytes>) {
    if locked then id in s.groupInfo && s.groupInfo[id].None?
    else if posted.Some? then id in s.groupInfo && s.groupInfo[id] == posted
    else id !in s.groupInfo
  }

  lemma StepTold(s: Server, mutex: bool, r: Request, id: Id, locked: bool, posted: Option<Bytes>)
    requires InfoTold(s, id, locked, posted)
    ensures var now := r.InfoPosted? && r.id == id;
            InfoTold(Apply(s, mutex, r), id, !now && ((mutex && r == InfoGot(id)) || locked),
                     if now then Some(r.info) else posted)
  {
  }

  lemma {:induction false} InfoByHistory(mutex: bool, run: seq<Request>, id: Id)
    ensures InfoTold(After(mutex, run), id, mutex && AskedSince(run, id), LastPosted(run, id))
    decreases |run|
  {
    if run != [] {
      var front, last := run[..|run| - 1], run[|run| - 1];
      InfoByHistory(mutex, front, id);
      StepTold(After(mutex, front), mutex, last, id, mutex && AskedSince(front, id), LastPosted(front, id));
    }
  }

  /** With the lock, only the first to ask after a post gets the group info; without it, everybody does. */
  lemma InfoAnswered(mutex: bool, run: seq<Request>, id: Id)
    ensures var (_, status, info) := GetGroupInfo(After(mutex, run), mutex, id);
            if mutex && AskedSince(run, id) then status == Forbidden && info == []
            else if LastPosted(run, id).Some? then status == Ok && info == LastPosted(run, id).value
            else status == NoContent && info == []
  {
    InfoByHistory(mutex, run, id);
  }
}
