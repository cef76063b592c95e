/**
 What a caller of the delivery service can rely on between requests: when the service stops answering, what a
 registration and a reset discard, which key package is handed out, and that its Welcome arrives.
 */
module Registrations {
  import opened Basics
  import opened Delivery
  import opened DeliveryRuns
  import opened Welcomes

  lemma AfterOne(mutex: bool, run: seq<Request>, r: Request)
    ensures After(mutex, run + [r]) == Apply(After(mutex, run), mutex, r)
  {
    assert (run + [r])[..|run|] == run;
  }

  lemma AfterMore(mutex: bool, run: seq<Request>, more: seq<Request>)
    requires more != []
    ensures var front, last := more[..|more| - 1], more[|more| - 1];
            After(mutex, run + more) == Apply(After(mutex, run + front), mutex, last)
  {
    assert (run + more)[..|run + more| - 1] == run + more[..|more| - 1];
  }

  // ---------------------------------------------------------------- panics

  /** A message sent that is neither a handshake nor an application message makes its handler panic. */
  predicate Crashes(r: Request) {
    r.Sent? && (r.m.body.Welcome? || r.m.body.Other?)
  }

  ghost predicate NoneCrashes(run: seq<Request>) {
    forall r | r in run :: !Crashes(r)
  }

  lemma StepPoison(s: Server, mutex: bool, r: Request)
    ensures Apply(s, mutex, r).poisoned <==> s.poisoned || Crashes(r)
  {
  }

  /** The service answers 500 to every request on clients and messages exactly if such a message was ever sent. */
  lemma {:induction false} PoisonedExactly(mutex: bool, run: seq<Request>)
    ensures After(mutex, run).poisoned <==> !NoneCrashes(run)
    decreases |run|
  {
    if run != [] {
      var front, last := run[..|run| - 1], run[|run| - 1];
      PoisonedExactly(mutex, front);
      StepPoison(After(mutex, front), mutex, last);
      assert run == front + [last];
      assert NoneCrashes(run) <==> NoneCrashes(front) && !Crashes(last);
    }
  }

  // ---------------------------------------------------------------- resets

  /** Two services that differ at most in their group infos. */
  predicate SameButInfo(s: Server, t: Server) {
    s.clients == t.clients && s.groups == t.groups && s.poisoned == t.poisoned
  }

  lemma StepSame(s: Server, t: Server, mutex: bool, r: Request)
    requires SameButInfo(s, t)
    ensures SameButInfo(Apply(s, mutex, r), Apply(t, mutex, r))
  {
  }

  /** After a reset the service does whatever a new one would do, except for the group infos. */
  lemma {:induction false} ResetStartsOver(mutex: bool, run: seq<Request>, more: seq<Request>)
    requires NoneCrashes(run)
    ensures SameButInfo(After(mutex, run + [WasReset] + more), After(mutex, more))
    decreases |more|
  {
    if more == [] {
      PoisonedExactly(mutex, run);
      AfterOne(mutex, run, WasReset);
      assert run + [WasReset] + [] == run + [WasReset];
    } else {
      var front, last := more[..|more| - 1], more[|more| - 1];
      ResetStartsOver(mutex, run, front);
      AfterMore(mutex, run + [WasReset], more);
      StepSame(After(mutex, run + [WasReset] + front), After(mutex, front), mutex, last);
    }
  }

  /** The requests of a run that are about group infos. */
  function InfoRequests(run: seq<Request>): seq<Request> {
    if run == [] then []
    else
      var last := run[|run| - 1];
      InfoRequests(run[..|run| - 1]) + if last.InfoGot? || last.InfoPosted? then [last] else []
  }

  lemma StepInfos(s: Server, t: Server, mutex: bool, r: Request)
    requires s.groupInfo == t.groupInfo
    ensures Apply(s, mutex, r).groupInfo
            == if r.InfoGot? || r.InfoPosted? then Apply(t, mutex, r).groupInfo else t.groupInfo
  {
  }

  /** No other request, a reset and a panic included, has an influence on the group infos. */
  lemma {:induction false} InfosStandAlone(mutex: bool, run: seq<Request>)
    ensures After(mutex, run).groupInfo == After(mutex, InfoRequests(run)).groupInfo
    decreases |run|
  {
    if run != [] {
      var front, last := run[..|run| - 1], run[|run| - 1];
      InfosStandAlone(mutex, front);
      StepInfos(After(mutex, front), After(mutex, InfoRequests(front)), mutex, last);
      if last.InfoGot? || last.InfoPosted? {
        AfterOne(mutex, InfoRequests(front), last);
      } else {
        assert InfoRequests(run) == InfoRequests(front);
      }
    }
  }

  // ---------------------------------------------------------------- registrations

  /**
   A registration discards what was queued and reserved for the client also when it is answered with 409, that is
   exactly if the client was registered. For nobody else anything changes.
   */
  lemma RegistrationStartsOver(mutex: bool, run: seq<Request>, id: Id, keyPackages: seq<Hash>, hashes: set<Hash>)
    requires NoneCrashes(run)
    ensures var s, t := After(mutex, run), After(mutex, run + [Registered(id, keyPackages)]);
            && Register(s, id, keyPackages).1 == (if Packages(mutex, run, id).Some? then Conflict else Ok)
            && Receive(t, id).1 == Ok && Receive(t, id).2 == []
            && Reservations(t.clients, hashes) == (set x | x in Reservations(s.clients, hashes) && x.0 != id)
            && forall other | other != id ::
                 Receive(t, other).1 == Receive(s, other).1 && Receive(t, other).2 == Receive(s, other).2
  {
    PoisonedExactly(mutex, run);
    AfterOne(mutex, run, Registered(id, keyPackages));
    PackagesExactly(mutex, run, id);
  }

  // ---------------------------------------------------------------- key packages

  /** The key packages registered and published for a client since its registration; none without one. */
  function Packages(mutex: bool, run: seq<Request>, id: Id): Option<seq<Hash>> {
    if run == [] then None
    else
      var before, last := Packages(mutex, run[..|run| - 1], id), run[|run| - 1];
      if After(mutex, run[..|run| - 1]).poisoned then before
      else
        match last
        case WasReset => None
        case Registered(x, hashes) => if x == id then Some(hashes) else before
        case Published(x, hashes) => if x == id && before.Some? then Some(before.value + hashes) else before
        case _ => before
  }

  lemma StepPackages(s: Server, mutex: bool, r: Request, id: Id)
    requires !(r.Registered? || r.Published? || r.WasReset?)
    ensures id in Apply(s, mutex, r).clients <==> id in s.clients
    ensures id in s.clients ==> Apply(s, mutex, r).clients[id].keyPackages == s.clients[id].keyPackages
  {
    if r.Sent? && Accepted(s, r.m) {
      var to := r.m.recipients + [r.m.sender];
      NobodyNew(s.clients, to, r.m);
      if id in s.clients {
        PushAllEffect(s.clients, to, r.m, id);
      }
    }
  }

  /** No key package is ever used up: a client has all that it registered with and published. */
  lemma {:induction false} PackagesExactly(mutex: bool, run: seq<Request>, id: Id)
    ensures var clients := After(mutex, run).clients;
            Packages(mutex, run, id) == if id in clients then Some(clients[id].keyPackages) else None
    decreases |run|
  {
    if run != [] {
      var front, last := run[..|run| - 1], run[|run| - 1];
      PackagesExactly(mutex, front, id);
      if !(last.Registered? || last.Published? || last.WasReset?) {
        StepPackages(After(mutex, front), mutex, last, id);
      }
    }
  }

  /** The key package that a consumption hands out. */
  function HandedOut(s: Server, id: Id): (r: Option<Hash>)
    ensures r.Some? <==> ConsumeKeyPackage(s, id).1 == Ok
    ensures r.Some? ==> id in s.clients && r.value in ConsumeKeyPackage(s, id).0.clients[id].reserved
  {
    if s.poisoned || id !in s.clients || |s.clients[id].keyPackages| <= 1 then None
    else Some(s.clients[id].keyPackages[|s.clients[id].keyPackages| - 1])
  }

  /** The request neither registers the client, nor publishes key packages for it, nor resets the service. */
  predicate Leaves(r: Request, id: Id) {
    !r.WasReset? && !(r.Registered? && r.id == id) && !(r.Published? && r.id == id)
  }

  /** However often it is consumed, a client's key package stays the same until it registers or publishes again. */
  lemma {:induction false} SamePackageAgain(mutex: bool, run: seq<Request>, more: seq<Request>, id: Id)
    requires NoneCrashes(run + more) && forall r | r in more :: Leaves(r, id)
    ensures HandedOut(After(mutex, run + more), id) == HandedOut(After(mutex, run), id)
    decreases |more|
  {
    if more == [] {
      assert run + [] == run;
    } else {
      var front, last := more[..|more| - 1], more[|more| - 1];
      assert last in more && forall r | r in front :: r in more;
      assert forall r | r in run + front :: r in run + more;
      SamePackageAgain(mutex, run, front, id);
      AfterMore(mutex, run, more);
      PoisonedExactly(mutex, run + front);
      assert last in run + more;
      StepHandsOut(After(mutex, run + front), mutex, last, id);
    }
  }

  lemma StepHandsOut(s: Server, mutex: bool, r: Request, id: Id)
    requires !s.poisoned && !Crashes(r) && Leaves(r, id)
    ensures HandedOut(Apply(s, mutex, r), id) == HandedOut(s, id)
  {
    StepPoison(s, mutex, r);
    if !(r.Registered? || r.Published?) {
      StepPackages(s, mutex, r, id);
    }
  }

  // ---------------------------------------------------------------- Welcomes

  predicate Reserved(s: Server, id: Id, h: Hash) {
    id in s.clients && h in s.clients[id].reserved
  }

  /** The request could take the reservation away. */
  predicate Claims(r: Request, id: Id, h: Hash) {
    r.WasReset? || (r.Registered? && r.id == id) || (r.Welcomed? && r.m.body.Welcome? && h in r.m.body.secrets)
  }

  lemma StepReserves(s: Server, mutex: bool, r: Request, id: Id, h: Hash)
    requires Reserved(s, id, h) && !Claims(r, id, h)
    ensures Reserved(Apply(s, mutex, r), id, h)
  {
    if r.Sent? && Accepted(s, r.m) {
      PushAllEffect(s.clients, r.m.recipients + [r.m.sender], r.m, id);
    }
  }

  lemma {:induction false} StaysReserved(mutex: bool, run: seq<Request>, more: seq<Request>, id: Id, h: Hash)
    requires Reserved(After(mutex, run), id, h) && forall r | r in more :: !Claims(r, id, h)
    ensures Reserved(After(mutex, run + more), id, h)
    decreases |more|
  {
    if more == [] {
      assert run + [] == run;
    } else {
      var front, last := more[..|more| - 1], more[|more| - 1];
      assert last in more && forall r | r in front :: r in more;
      StaysReserved(mutex, run, front, id, h);
      AfterMore(mutex, run, more);
      StepReserves(After(mutex, run + front), mutex, last, id, h);
    }
  }

  /**
   From the key package to the Welcome: once a key package of a client was handed out, whatever requests follow
   that do not take its reservation, the Welcome for it and for no other reservation is what the client fetches.
   */
  lemma WelcomeArrives(mutex: bool, run: seq<Request>, id: Id, more: seq<Request>, m: GroupMessage, order: seq<Id>)
    requires NoneCrashes(run + [Consumed(id)] + more) && HandedOut(After(mutex, run), id).Some?
    requires var h := HandedOut(After(mutex, run), id).value;
             var s := After(mutex, run + [Consumed(id)] + more);
             && (forall r | r in more :: !Claims(r, id, h))
             && m.body.Welcome? && h in m.body.secrets && Covers(order, s.clients.Keys)
             && forall x, g | Reserved(s, x, g) && g in m.body.secrets :: x == id && g == h
    ensures var s := After(mutex, run + [Consumed(id)] + more);
            var (t, status) := SendWelcome(s, m, order);
            && status == Ok && m in Receive(t, id).2
            && !Reserved(t, id, HandedOut(After(mutex, run), id).value)
            && forall other | other != id :: Receive(t, other).2 == Receive(s, other).2
  {
    var h, start := HandedOut(After(mutex, run), id).value, run + [Consumed(id)];
    var s := After(mutex, start + more);
    AfterOne(mutex, run, Consumed(id));
    StaysReserved(mutex, start, more, id, h);
    PoisonedExactly(mutex, start + more);
    var claim := FirstClaim(s.clients, order, m.body.secrets);
    assert claim.Some? ==> Reserved(s, claim.value.0, claim.value.1);
  }
}
