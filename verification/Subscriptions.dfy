/**
 Runs in which subscribing takes time, for the creator of the group as for the others: a client gets what is
 published on the group's topic from the completion of its subscription on, and its acknowledgement is published
 then (or at once, if the Welcome leaves it inactive). The topic is totally ordered, acknowledgements included.
 The token does not wait for the holder's own subscription. In careful runs nobody misses a commit (`Guard`), and
 `Rash` says what happens in others. A client processes a Welcome only while it is not subscribed.
 */
module Subscriptions {
  import opened Basics
  import opened Slots
  import opened History
  import opened Client
  import opened Protocol

  /** An acknowledgement in the group's topic, published after the first `at` commits. */
  datatype Ack = Ack(sender: Name, at: nat)

  /**
   `gone`: whose acknowledgements are behind a client since the last commit that was delivered to it: it got them,
   or they were published before it was subscribed.
   */
  datatype Net = Net(creator: Name, s: State, subscribed: set<Name>, acks: set<Ack>, gone: map<Name, set<Name>>) {
    function Gone(n: Name): set<Name> {
      if n in gone then gone[n] else {}
    }

    /** The members added by the last commit; at first, the creator. */
    function Newest(): seq<Name> {
      if s.log == [] then [creator] else Added(s.log[|s.log| - 1].action)
    }

    function AckedAt(i: nat): set<Name> {
      set a | a in acks && a.at == i :: a.sender
    }
  }

  datatype Step =
    | Commits(name: Name, action: Action, hash: Bytes)
    | Delivers(name: Name)
    | Joins(welcome: Welcome)
    | Subscribes(name: Name)
    | Hears(name: Name, sender: Name)

  /** All acknowledgements of others before the next commit have been delivered to a client. */
  ghost predicate CaughtUp(net: Net, n: Name)
    requires n in net.s.nodes
  {
    forall a | a in net.acks && a.at == net.s.nodes[n].cursor && a.sender != n :: a.sender in net.Gone(n)
  }

  ghost predicate MayStep(w: World, net: Net, step: Step) {
    var s := net.s;
    match step
    case Commits(n, a, hash) => Enabled(w, s, Committed(n, a, hash)) && Uniform(s.nodes[n].r.slots, a)
    case Delivers(n) => n in net.subscribed && Enabled(w, s, Delivered(n)) && CaughtUp(net, n)
    case Joins(m) => m.to !in net.subscribed && Enabled(w, s, Joined(m))
    case Subscribes(n) => n !in net.subscribed && Enabled(w, s, Missed(n, |s.log|)) && s.nodes[n].r.live
    case Hears(n, x) =>
      n in net.subscribed && n in s.nodes && Ack(x, s.nodes[n].cursor) in net.acks && x !in net.Gone(n)
  }

  ghost function Take(w: World, net: Net, step: Step): Net
    requires MayStep(w, net, step)
  {
    match step
    case Commits(n, a, hash) => net.(s := Apply(w, net.s, Committed(n, a, hash)))
    case Delivers(n) => AfterDelivery(w, net, n)
    case Joins(m) => AfterJoin(w, net, m)
    case Subscribes(n) =>
      net.(s := Apply(w, net.s, Missed(n, |net.s.log|)), subscribed := net.subscribed + {n},
           acks := net.acks + {Ack(n, |net.s.log|)}, gone := net.gone[n := net.AckedAt(|net.s.log|)])
    case Hears(n, x) =>
      net.(s := Apply(w, net.s, Acked(n, x)), gone := net.gone[n := net.Gone(n) + {x}])
  }

  /** A client that drops the group unsubscribes. */
  ghost function AfterDelivery(w: World, net: Net, n: Name): Net
    requires Enabled(w, net.s, Delivered(n))
  {
    var t := Apply(w, net.s, Delivered(n));
    net.(s := t, gone := net.gone[n := {}],
         subscribed := if t.nodes[n].r.live then net.subscribed else net.subscribed - {n})
  }

  /** A client that the Welcome leaves inactive acknowledges at once. */
  ghost function AfterJoin(w: World, net: Net, m: Welcome): Net
    requires Enabled(w, net.s, Joined(m))
  {
    var t := Apply(w, net.s, Joined(m));
    net.(s := t, gone := net.gone[m.to := {}],
         acks := if t.nodes[m.to].r.live then net.acks else net.acks + {Ack(m.to, |net.s.log|)})
  }

  /** A subscriber that holds the group in an epoch whose commit, by another client, will not reach it. */
  ghost predicate HasMissed(net: Net, n: Name) {
    && n in net.subscribed && n in net.s.nodes
    && var node := net.s.nodes[n];
    && node.r.live && node.r.epoch < node.cursor <= |net.s.log| && net.s.log[node.r.epoch].author != n
  }

  // ---------------------------------------------------------------- the invariant

  /** Everything from the epoch of a subscribed client on reaches it, and it has heard what was before. */
  ghost predicate UpToDate(net: Net, n: Name) {
    && n in net.s.nodes
    && var node := net.s.nodes[n];
    && node.r.live && node.cursor <= node.r.epoch <= |net.s.log|
    && (forall i | node.cursor <= i < node.r.epoch :: net.s.log[i].author == n)
    && (forall a | a in net.acks && node.cursor <= a.at < node.r.epoch && a.sender != n ::
          a.at == node.cursor && a.sender in net.Gone(n))
    && (forall x | x in net.Gone(n) :: Ack(x, node.cursor) in net.acks)
  }

  /** A client that holds the group but is not subscribed yet was added by the last commit, and has not acknowledged. */
  ghost predicate Arriving(net: Net, n: Name)
    requires n in net.s.nodes
  {
    && net.s.nodes[n].r.epoch == |net.s.log| && n in net.Newest()
    && Ack(n, |net.s.log|) !in net.acks && net.Gone(n) == {}
  }

  /** How many acknowledgements of the members added last a client has heard. */
  ghost function Count(net: Net, n: Name): nat
    requires n in net.s.nodes
  {
    if net.s.nodes[n].cursor == |net.s.log| then |net.Gone(n) - {n}| else 0
  }

  /** It is the client's turn, and it stands at the newest epoch. */
  ghost predicate HasTurn(net: Net, past: seq<Moment>, n: Name)
    requires |past| == |net.s.log| + 1
  {
    && n in net.s.nodes && n == past[|net.s.log|].winner
    && net.s.nodes[n].r.live && net.s.nodes[n].r.epoch == |net.s.log|
  }

  /** The client whose turn it is waits for all members added last that it has not heard yet, at least. */
  ghost predicate Waits(net: Net, past: seq<Moment>, n: Name)
    requires |past| == |net.s.log| + 1
  {
    HasTurn(net, past, n) ==>
      var pending, others := net.s.nodes[n].r.pending, Others(net.Newest(), n);
      pending <= others <= pending + Count(net, n)
  }

  /** A client that committed before it was subscribed, and still is not. */
  ghost predicate Tardy(net: Net, late: Name) {
    && late in net.s.nodes && late !in net.subscribed && late !in net.Newest()
    && net.s.nodes[late].r.live && net.s.nodes[late].r.epoch == |net.s.log| && net.s.nodes[late].cursor < |net.s.log|
  }

  /** Whose acknowledgements there are since the last commit: of those that it added, and of whoever was late. */
  ghost predicate MayAck(net: Net, past: seq<Moment>, n: Name)
    requires |past| == |net.s.log| + 1
  {
    n in net.Newest() || past[|net.s.log|].winner == n || past[|net.s.log|].winner == NOBODY
  }

  /** `late`: a tardy client; nobody, if there is none. */
  ghost predicate Disciplined(net: Net, past: seq<Moment>, late: Name)
    requires |past| == |net.s.log| + 1
  {
    var s := net.s;
    && (forall n | n in net.subscribed :: UpToDate(net, n))
    && (forall n | n in s.nodes && s.nodes[n].r.live && n !in net.subscribed && n != late :: Arriving(net, n))
    && (forall n | n in s.nodes :: Waits(net, past, n))
    && (forall m | m in s.welcomes :: m.epoch == |s.log| && Ack(m.to, |s.log|) !in net.acks)
    && (forall a | a in net.acks :: a.at <= |s.log| && (a.at == |s.log| ==> MayAck(net, past, a.sender)))
    && (forall i | 0 <= i < |s.log| :: s.log[i].author in s.nodes && i < s.nodes[s.log[i].author].r.epoch)
    && (late == NOBODY || Tardy(net, late))
  }

  ghost predicate NetInv(w: World, net: Net, past: seq<Moment>, late: Name) {
    Protocol.Inv(w, net.s, past) && net.creator == w.creator && Disciplined(net, past, late)
  }

  // ---------------------------------------------------------------- whoever holds the token has heard everybody

  lemma OneAside(rest: set<Name>, x: Name, me: Name)
    requires x !in rest
    ensures |({x} + rest) - {me}| == (if x == me then 0 else 1) + |rest - {me}|
  {
    if x == me {
      assert ({x} + rest) - {me} == rest - {me};
    } else {
      assert ({x} + rest) - {me} == {x} + (rest - {me});
    }
  }

  lemma {:induction false} OthersCount(names: seq<Name>, me: Name)
    requires Distinct(names)
    ensures Others(names, me) == |Named(names) - {me}|
  {
    if names == [] {
      assert Named(names) - {me} == {};
    } else {
      OthersCount(names[1..], me);
      NamedSplit(names);
      OneAside(Named(names[1..]), names[0], me);
    }
  }

  lemma {:induction false} SameSize(a: set<Name>, b: set<Name>)
    requires a <= b && |a| == |b|
    ensures a == b
  {
    assert b == a + (b - a) && a !! (b - a);
  }

  lemma NewestDistinct(past: seq<Moment>, net: Net)
    requires Sound(past, net.s)
    ensures Distinct(net.Newest())
  {
    if net.s.log != [] {
      assert GoodEntry(past, net.s.log, |net.s.log| - 1);
    } else {
      assert net.Newest() == [net.creator];
    }
  }

  /** Acknowledgements since the last commit come from members that it added, or from the client whose turn it is. */
  lemma AckedAreNew(net: Net, past: seq<Moment>, n: Name, late: Name)
    requires |past| == |net.s.log| + 1 && Disciplined(net, past, late) && n == past[|net.s.log|].winner != NOBODY
    ensures net.AckedAt(|net.s.log|) - {n} <= Named(net.Newest()) - {n}
  {
    forall x | x in net.AckedAt(|net.s.log|) - {n} ensures x in net.Newest() {
      assert Ack(x, |net.s.log|) in net.acks;
    }
  }

  lemma HeardAreNew(net: Net, past: seq<Moment>, n: Name, late: Name)
    requires |past| == |net.s.log| + 1 && Disciplined(net, past, late) && n in net.subscribed
    requires n == past[|net.s.log|].winner != NOBODY && net.s.nodes[n].cursor == |net.s.log|
    ensures net.Gone(n) - {n} <= Named(net.Newest()) - {n}
  {
    assert UpToDate(net, n);
    AckedAreNew(net, past, n, late);
    forall x | x in net.Gone(n) ensures x in net.AckedAt(|net.s.log|) {
      assert Ack(x, |net.s.log|) in net.acks;
    }
  }

  lemma TokenHeardAll(net: Net, past: seq<Moment>, n: Name, late: Name)
    requires Sound(past, net.s) && Disciplined(net, past, late) && n in net.subscribed && n in net.s.tokens
    ensures forall x | x in net.Newest() && x != n :: Ack(x, |net.s.log|) in net.acks
    ensures forall a | a in net.acks && a.at == |net.s.log| && a.sender != n ::
              n in net.s.nodes && net.s.nodes[n].cursor == |net.s.log| && a.sender in net.Gone(n)
  {
    var names := net.Newest();
    assert GoodToken(past, net.s, n) && GoodNode(past, net.s, n);
    assert Waits(net, past, n) && UpToDate(net, n);
    NewestDistinct(past, net);
    OthersCount(names, n);
    if net.s.nodes[n].cursor == |net.s.log| {
      HeardAreNew(net, past, n, late);
      SubsetSize(net.Gone(n) - {n}, Named(names) - {n});
      SameSize(net.Gone(n) - {n}, Named(names) - {n});
    } else {
      assert Named(names) - {n} == {};
    }
    forall x | x in names && x != n ensures Ack(x, |net.s.log|) in net.acks {
      assert x in Named(names) - {n};
    }
    forall a | a in net.acks && a.at == |net.s.log| && a.sender != n
      ensures net.s.nodes[n].cursor == |net.s.log| && a.sender in net.Gone(n)
    {
      assert a.sender in Named(names) - {n};
    }
  }

  // ---------------------------------------------------------------- steps that publish no commit

  /** One client changes; it may publish its acknowledgement, and a Welcome may be used up. */
  ghost predicate Changes(net: Net, net': Net, n: Name) {
    var s, t := net.s, net'.s;
    && net'.creator == net.creator && t.log == s.log && t.welcomes <= s.welcomes
    && n in t.nodes && t.nodes == s.nodes[n := t.nodes[n]]
    && (n in s.nodes ==> s.nodes[n].r.epoch <= t.nodes[n].r.epoch)
    && net'.subscribed - {n} == net.subscribed - {n}
    && (forall x | x != n :: net'.Gone(x) == net.Gone(x))
    && (net'.acks == net.acks
        || (net'.acks == net.acks + {Ack(n, |s.log|)} && forall m | m in t.welcomes :: m.to != n))
  }

  lemma Elsewhere(net: Net, net': Net, n: Name, x: Name)
    requires Changes(net, net', n) && x != n && x in net.s.nodes
    ensures UpToDate(net, x) ==> UpToDate(net', x)
    ensures Arriving(net, x) ==> Arriving(net', x)
    ensures Count(net', x) == Count(net, x)
  {
    assert net'.s.nodes[x] == net.s.nodes[x];
  }

  ghost predicate Settled(net: Net, past: seq<Moment>, n: Name, late: Name)
    requires n in net.s.nodes && |past| == |net.s.log| + 1
  {
    && (n in net.subscribed ==> UpToDate(net, n))
    && (net.s.nodes[n].r.live && n !in net.subscribed && n != late ==> Arriving(net, n))
    && Waits(net, past, n)
  }

  /** Who is late after a step of n: the same as before, or nobody any more. */
  ghost predicate LateStays(n: Name, late: Name, late': Name) {
    if n == late then late' == NOBODY else late' == late
  }

  lemma NodesStay(net: Net, net': Net, past: seq<Moment>, n: Name, x: Name, late: Name, late': Name)
    requires |past| == |net.s.log| + 1 && Disciplined(net, past, late) && Changes(net, net', n)
    requires Settled(net', past, n, late') && LateStays(n, late, late') && x in net'.s.nodes
    ensures Settled(net', past, x, late')
  {
    if x != n {
      assert net'.s.nodes[x] == net.s.nodes[x] && Waits(net, past, x);
      assert x in net'.subscribed <==> x in net.subscribed - {n};
      Elsewhere(net, net', n, x);
    }
  }

  lemma StaysDisciplined(net: Net, net': Net, past: seq<Moment>, n: Name, late: Name, late': Name)
    requires |past| == |net.s.log| + 1 && Disciplined(net, past, late) && Changes(net, net', n)
    requires Settled(net', past, n, late') && LateStays(n, late, late')
    requires net'.acks == net.acks || MayAck(net, past, n)
    ensures Disciplined(net', past, late')
  {
    AllSettled(net, net', past, n, late, late');
    AcksStay(net, net', past, n, late);
    if late' != NOBODY {
      TardyStays(net, net', n, late');
    }
    AuthorsStay(net, net', past, n, late);
  }

  lemma AllSettled(net: Net, net': Net, past: seq<Moment>, n: Name, late: Name, late': Name)
    requires |past| == |net.s.log| + 1 && Disciplined(net, past, late) && Changes(net, net', n)
    requires Settled(net', past, n, late') && LateStays(n, late, late')
    ensures forall x | x in net'.subscribed :: UpToDate(net', x)
    ensures forall x | x in net'.s.nodes && net'.s.nodes[x].r.live && x !in net'.subscribed && x != late' ::
              Arriving(net', x)
    ensures forall x | x in net'.s.nodes :: Waits(net', past, x)
  {
    forall x | x in net'.subscribed ensures x in net'.s.nodes {
      assert x != n ==> x in net.subscribed - {n} && UpToDate(net, x);
    }
    forall x | x in net'.s.nodes ensures Settled(net', past, x, late') {
      NodesStay(net, net', past, n, x, late, late');
    }
    assert forall x | x in net'.s.nodes :: Settled(net', past, x, late') ==> Waits(net', past, x);
  }

  lemma AcksStay(net: Net, net': Net, past: seq<Moment>, n: Name, late: Name)
    requires |past| == |net.s.log| + 1 && Disciplined(net, past, late) && Changes(net, net', n)
    requires net'.acks == net.acks || MayAck(net, past, n)
    ensures forall m | m in net'.s.welcomes :: m.epoch == |net'.s.log| && Ack(m.to, |net'.s.log|) !in net'.acks
    ensures forall a | a in net'.acks :: a.at <= |net'.s.log| && (a.at == |net'.s.log| ==> MayAck(net', past, a.sender))
  {
  }

  lemma TardyStays(net: Net, net': Net, n: Name, late: Name)
    requires Changes(net, net', n) && n != late && Tardy(net, late)
    ensures Tardy(net', late)
  {
    assert late in net'.subscribed ==> late in net'.subscribed - {n};
  }

  lemma AuthorsStay(net: Net, net': Net, past: seq<Moment>, n: Name, late: Name)
    requires |past| == |net.s.log| + 1 && Disciplined(net, past, late) && Changes(net, net', n)
    ensures var t := net'.s;
            forall i | 0 <= i < |t.log| :: t.log[i].author in t.nodes && i < t.nodes[t.log[i].author].r.epoch
  {
    forall i | 0 <= i < |net.s.log|
      ensures net.s.log[i].author in net'.s.nodes && i < net'.s.nodes[net.s.log[i].author].r.epoch
    {
      assert net.s.log[i].author in net.s.nodes;
    }
  }

  lemma OneMore(heard: set<Name>, names: seq<Name>, n: Name, x: Name)
    requires Distinct(names) && heard - {n} <= Named(names) - {n} && x in names && x !in heard && x != n
    ensures |heard + {x} - {n}| == |heard - {n}| + 1 <= Others(names, n)
  {
    OthersCount(names, n);
    assert heard + {x} - {n} == (heard - {n}) + {x};
    SubsetSize((heard - {n}) + {x}, Named(names) - {n});
  }

  /** A client that hears an acknowledgement after the last commit was still waiting for it. */
  lemma StillWaiting(net: Net, past: seq<Moment>, n: Name, x: Name, late: Name)
    requires Sound(past, net.s) && Disciplined(net, past, late) && n in net.subscribed && n in net.s.nodes
    requires net.s.nodes[n].cursor == |net.s.log| && Ack(x, |net.s.log|) in net.acks && x !in net.Gone(n) && x != n
    requires n == past[|net.s.log|].winner != NOBODY
    ensures |net.Gone(n) + {x} - {n}| == |net.Gone(n) - {n}| + 1 <= Others(net.Newest(), n)
  {
    HeardAreNew(net, past, n, late);
    NewestDistinct(past, net);
    AckIsNew(net, past, n, x, late);
    OneMore(net.Gone(n), net.Newest(), n, x);
  }

  lemma AckIsNew(net: Net, past: seq<Moment>, n: Name, x: Name, late: Name)
    requires |past| == |net.s.log| + 1 && Disciplined(net, past, late) && Ack(x, |net.s.log|) in net.acks
    requires n == past[|net.s.log|].winner != NOBODY && x != n
    ensures x in net.Newest()
  {
  }

  lemma SubsetSize(a: set<Name>, b: set<Name>)
    requires a <= b
    ensures |a| <= |b|
  {
    assert b == a + (b - a) && a !! (b - a);
  }

  /** What a heard acknowledgement changes. */
  ghost predicate HasHeard(net: Net, net': Net, n: Name, x: Name) {
    && Changes(net, net', n) && n in net.s.nodes && n in net.subscribed
    && net'.s.nodes[n] == net.s.nodes[n].(r := Acknowledge(n, net.s.nodes[n].r, x).0)
    && net'.Gone(n) == net.Gone(n) + {x} && net'.acks == net.acks && net'.subscribed == net.subscribed
    && Ack(x, net.s.nodes[n].cursor) in net.acks && x !in net.Gone(n)
  }

  lemma HearsChanges(w: World, net: Net, n: Name, x: Name)
    requires MayStep(w, net, Hears(n, x))
    ensures HasHeard(net, Take(w, net, Hears(n, x)), n, x)
  {
  }

  lemma HearsWaits(net: Net, net': Net, past: seq<Moment>, n: Name, x: Name, late: Name)
    requires Sound(past, net.s) && Disciplined(net, past, late) && HasHeard(net, net', n, x)
    ensures Waits(net', past, n)
  {
    assert UpToDate(net, n) && Waits(net, past, n) && GoodNode(past, net.s, n);
    if net.s.nodes[n].cursor == |net.s.log| && n == past[|net.s.log|].winner {
      if x != n {
        StillWaiting(net, past, n, x, late);
      }
      HeardCounts(net, net', past, n, x);
    }
  }

  lemma HeardCounts(net: Net, net': Net, past: seq<Moment>, n: Name, x: Name)
    requires |past| == |net.s.log| + 1 && HasHeard(net, net', n, x) && Waits(net, past, n)
    requires net.s.nodes[n].cursor == |net.s.log|
    requires x != n ==> |net.Gone(n) + {x} - {n}| == |net.Gone(n) - {n}| + 1
    ensures Waits(net', past, n)
  {
    assert x == n ==> net.Gone(n) + {x} - {n} == net.Gone(n) - {n};
  }

  lemma HearsSettled(net: Net, net': Net, past: seq<Moment>, n: Name, x: Name, late: Name)
    requires Sound(past, net.s) && Disciplined(net, past, late) && HasHeard(net, net', n, x)
    ensures Settled(net', past, n, late)
  {
    HearsWaits(net, net', past, n, x, late);
    assert UpToDate(net, n);
  }

  /** What completing a subscription changes. */
  ghost predicate HasSubscribed(net: Net, net': Net, n: Name) {
    && n in net.s.nodes && net'.s == net.s.(nodes := net.s.nodes[n := net.s.nodes[n].(cursor := |net.s.log|)])
    && net'.creator == net.creator && net'.gone == net.gone[n := net.AckedAt(|net.s.log|)]
    && net'.subscribed == net.subscribed + {n} && net'.acks == net.acks + {Ack(n, |net.s.log|)}
  }

  lemma SubscribesChanges(w: World, net: Net, n: Name)
    requires MayStep(w, net, Subscribes(n))
    ensures HasSubscribed(net, Take(w, net, Subscribes(n)), n)
  {
  }

  /** A member that was just added is only drawn if it is the only one. */
  lemma DrawnIsOld(w: World, m: Moment, e: Entry, now: Moment)
    requires Follows(w, m, e, now) && now.winner in Added(e.action) && now.winner != NOBODY
    ensures Added(e.action) == [now.winner]
  {
    var names := Added(e.action);
    assert |names| > 1 ==> now.winner !in names;
  }

  lemma DrawnAlone(w: World, log: seq<Entry>, past: seq<Moment>, i: nat)
    requires Chronicle(w, log, past) && i < |log|
    requires past[i + 1].winner in Added(log[i].action) && past[i + 1].winner != NOBODY
    ensures Added(log[i].action) == [past[i + 1].winner]
  {
    StepAt(w, log, past, i);
    DrawnIsOld(w, past[i], log[i], past[i + 1]);
  }

  lemma DrawnNewest(w: World, net: Net, past: seq<Moment>)
    requires Chronicle(w, net.s.log, past) && net.creator == w.creator
    requires past[|net.s.log|].winner in net.Newest() && past[|net.s.log|].winner != NOBODY
    ensures net.Newest() == [past[|net.s.log|].winner]
  {
    if net.s.log != [] {
      DrawnAlone(w, net.s.log, past, |net.s.log| - 1);
    }
  }

  /** Nobody is heard before the subscription is complete. */
  lemma NothingHeard(net: Net, past: seq<Moment>, n: Name, late: Name)
    requires |past| == |net.s.log| + 1 && Disciplined(net, past, late)
    requires n in net.s.nodes && n !in net.subscribed && net.s.nodes[n].r.live && n != NOBODY
    ensures Count(net, n) == 0
  {
    if n != late {
      assert Arriving(net, n);
      assert net.Gone(n) - {n} == {};
    }
  }

  lemma SubscribesWaits(net: Net, net': Net, past: seq<Moment>, n: Name)
    requires |past| == |net.s.log| + 1 && Waits(net, past, n) && HasSubscribed(net, net', n) && Count(net, n) == 0
    ensures Waits(net', past, n)
  {
    assert net'.s.nodes[n].r == net.s.nodes[n].r;
  }

  lemma SubscribedIsUpToDate(net: Net, net': Net, n: Name)
    requires HasSubscribed(net, net', n) && net.s.nodes[n].r.live && net.s.nodes[n].r.epoch == |net.s.log|
    ensures UpToDate(net', n)
  {
    assert forall x | x in net'.Gone(n) :: Ack(x, |net.s.log|) in net.acks;
  }

  lemma SubscribesSettled(net: Net, net': Net, past: seq<Moment>, n: Name, late: Name, late': Name)
    requires Sound(past, net.s) && Disciplined(net, past, late) && HasSubscribed(net, net', n)
    requires n !in net.subscribed && net.s.nodes[n].r.live && LateStays(n, late, late')
    ensures Changes(net, net', n) && Settled(net', past, n, late')
  {
    assert GoodNode(past, net.s, n);
    assert n != late ==> Arriving(net, n);
    SubscribedIsUpToDate(net, net', n);
    NothingHeard(net, past, n, late);
    SubscribesWaits(net, net', past, n);
  }

  lemma NewestIfDrawn(w: World, net: Net, past: seq<Moment>, n: Name, late: Name)
    requires NetInv(w, net, past, late) && n in net.s.nodes && net.s.nodes[n].r.live && n !in net.subscribed
    requires n != late
    ensures n == past[|net.s.log|].winner ==> net.Newest() == [n]
  {
    assert Arriving(net, n) && GoodNode(past, net.s, n);
    if n == past[|net.s.log|].winner {
      DrawnNewest(w, net, past);
    }
  }

  /** What processing a Welcome changes. */
  ghost predicate HasJoined(net: Net, net': Net, m: Welcome, r: Replica) {
    && Changes(net, net', m.to) && net'.s.nodes[m.to] == Node(r, |net.s.log|) && r.epoch == m.epoch
    && net'.Gone(m.to) == {} && m.to !in net'.subscribed && net'.s.welcomes == net.s.welcomes - {m}
    && net'.acks == if r.live then net.acks else net.acks + {Ack(m.to, |net.s.log|)}
  }

  lemma OnlyWelcome(past: seq<Moment>, s: State, m: Welcome, m': Welcome)
    requires Sound(past, s) && m in s.welcomes && m' in s.welcomes && m'.to == m.to && m'.epoch == m.epoch
    ensures m' == m
  {
    WelcomeFacts(past, s, m);
    WelcomeFacts(past, s, m');
  }

  lemma NoOtherWelcome(net: Net, past: seq<Moment>, m: Welcome, late: Name)
    requires Sound(past, net.s) && Disciplined(net, past, late) && m in net.s.welcomes
    ensures m.to in net.Newest() && (m.to in net.s.nodes ==> net.s.nodes[m.to].r.epoch <= m.epoch)
    ensures forall m' | m' in net.s.welcomes - {m} :: m'.to != m.to
  {
    WelcomeIsNewest(past, net, m);
    assert m.to in net.s.nodes ==> GoodNode(past, net.s, m.to);
    forall m' | m' in net.s.welcomes - {m} ensures m'.to != m.to {
      if m'.to == m.to {
        OnlyWelcome(past, net.s, m, m');
      }
    }
  }

  lemma JoinsChanges(w: World, net: Net, m: Welcome)
    requires m.to !in net.subscribed && Enabled(w, net.s, Joined(m))
    requires m.to in net.Newest() && (m.to in net.s.nodes ==> net.s.nodes[m.to].r.epoch <= m.epoch)
    requires forall m' | m' in net.s.welcomes - {m} :: m'.to != m.to
    ensures HasJoined(net, AfterJoin(w, net, m), m, Join(w.p, w.draw, m).0)
  {
  }

  lemma JoinsSettled(net: Net, net': Net, past: seq<Moment>, m: Welcome, r: Replica, action: NextAction, late: Name)
    requires Sound(past, net.s) && Disciplined(net, past, late) && m in net.s.welcomes && HasJoined(net, net', m, r)
    requires m.epoch < |past| && Landed(past[m.epoch], m.names, m.to, r, action)
    ensures Settled(net', past, m.to, late) && m.to != late
  {
    JoinerIsNew(net, past, m, late);
    JoinerSettled(net, net', past, m, r, action, late);
  }

  lemma JoinerIsNew(net: Net, past: seq<Moment>, m: Welcome, late: Name)
    requires Sound(past, net.s) && Disciplined(net, past, late) && m in net.s.welcomes
    ensures m.epoch == |net.s.log| && m.names == net.Newest() && m.to in net.Newest() && m.to != late
    ensures Ack(m.to, |net.s.log|) !in net.acks
  {
    WelcomeIsNewest(past, net, m);
  }

  lemma WelcomeIsNewest(past: seq<Moment>, net: Net, m: Welcome)
    requires Sound(past, net.s) && m in net.s.welcomes && m.epoch == |net.s.log|
    ensures m.names == net.Newest() && m.to in net.Newest() && m.to != NOBODY
  {
    WelcomeFacts(past, net.s, m);
  }

  lemma JoinerSettled(net: Net, net': Net, past: seq<Moment>, m: Welcome, r: Replica, action: NextAction, late: Name)
    requires |past| == |net.s.log| + 1 && HasJoined(net, net', m, r) && m.epoch == |net.s.log|
    requires Landed(past[m.epoch], m.names, m.to, r, action) && m.names == net.Newest() && m.to in net.Newest()
    requires Ack(m.to, |net.s.log|) !in net.acks
    ensures Settled(net', past, m.to, late)
  {
    if r.live {
      JoinerArrives(net, net', m, r);
    }
    JoinerWaits(net, net', past, m, r, action);
  }

  lemma JoinerArrives(net: Net, net': Net, m: Welcome, r: Replica)
    requires HasJoined(net, net', m, r) && m.epoch == |net.s.log| && m.to in net.Newest() && r.live
    requires Ack(m.to, |net.s.log|) !in net.acks
    ensures Arriving(net', m.to)
  {
  }

  lemma JoinerWaits(net: Net, net': Net, past: seq<Moment>, m: Welcome, r: Replica, action: NextAction)
    requires HasJoined(net, net', m, r) && m.epoch == |net.s.log| && |past| == |net.s.log| + 1
    requires Landed(past[m.epoch], m.names, m.to, r, action) && m.names == net.Newest()
    ensures Waits(net', past, m.to)
  {
    assert net'.Gone(m.to) - {m.to} == {};
  }

  /** The next commit for a subscribed client is its own, or is for its epoch. */
  lemma NextIsForIt(net: Net, past: seq<Moment>, n: Name, late: Name)
    requires Sound(past, net.s) && Disciplined(net, past, late) && n in net.subscribed
    requires n in net.s.nodes && net.s.nodes[n].cursor < |net.s.log|
    ensures UpToDate(net, n)
    ensures var node := net.s.nodes[n];
            if node.cursor < node.r.epoch then net.s.log[node.cursor].author == n && !Concerns(net.s, n)
            else Concerns(net.s, n)
  {
    var i := net.s.nodes[n].cursor;
    assert UpToDate(net, n) && GoodEntry(past, net.s.log, i);
    assert net.s.log[i].author in net.s.nodes && i < net.s.nodes[net.s.log[i].author].r.epoch;
  }

  /** What delivering a commit changes. */
  ghost predicate HasReceived(net: Net, net': Net, n: Name, r: Replica) {
    && Changes(net, net', n) && n in net.s.nodes && n in net.subscribed
    && net'.s.nodes[n] == Node(r, net.s.nodes[n].cursor + 1) && net'.Gone(n) == {} && net'.acks == net.acks
    && (n in net'.subscribed <==> r.live)
  }

  lemma DeliversOwn(w: World, net: Net, n: Name)
    requires n in net.subscribed && Enabled(w, net.s, Delivered(n)) && !Concerns(net.s, n)
    ensures HasReceived(net, AfterDelivery(w, net, n), n, net.s.nodes[n].r)
  {
  }

  lemma DeliversOther(w: World, net: Net, n: Name, r: Replica, action: NextAction)
    requires n in net.subscribed && Enabled(w, net.s, Delivered(n)) && Concerns(net.s, n)
    requires (r, action) == Processed(w, net.s, n)
    ensures HasReceived(net, AfterDelivery(w, net, n), n, r) && r.epoch == net.s.nodes[n].r.epoch + 1
  {
    ApplyDelivered(w, net.s, n, r, action);
  }

  lemma OwnSettled(net: Net, net': Net, past: seq<Moment>, n: Name, late: Name)
    requires Sound(past, net.s) && Disciplined(net, past, late) && n in net.s.nodes
    requires HasReceived(net, net', n, net.s.nodes[n].r)
    requires net.s.nodes[n].cursor < |net.s.log| && !Concerns(net.s, n)
    ensures Settled(net', past, n, late)
  {
    NextIsForIt(net, past, n, late);
    assert Waits(net, past, n);
  }

  lemma OtherSettled(net: Net, net': Net, past: seq<Moment>, n: Name, r: Replica, action: NextAction, late: Name)
    requires Sound(past, net.s) && Disciplined(net, past, late) && HasReceived(net, net', n, r)
    requires net.s.nodes[n].cursor < |net.s.log| && Concerns(net.s, n) && r.epoch == net.s.nodes[n].r.epoch + 1
    requires Landed(past[net.s.nodes[n].cursor + 1], Added(net.s.log[net.s.nodes[n].cursor].action), n, r, action)
    ensures Settled(net', past, n, late)
  {
    NextIsForIt(net, past, n, late);
    if r.live {
      OtherUpToDate(net, net', n, r);
    }
    OtherWaits(net, net', past, n, r, action);
  }

  lemma OtherUpToDate(net: Net, net': Net, n: Name, r: Replica)
    requires HasReceived(net, net', n, r) && UpToDate(net, n) && r.epoch == net.s.nodes[n].r.epoch + 1
    requires net.s.nodes[n].cursor == net.s.nodes[n].r.epoch < |net.s.log| && r.live
    ensures UpToDate(net', n)
  {
  }

  lemma OtherWaits(net: Net, net': Net, past: seq<Moment>, n: Name, r: Replica, action: NextAction)
    requires |past| == |net.s.log| + 1 && HasReceived(net, net', n, r) && net.s.nodes[n].cursor < |net.s.log|
    requires r.epoch == net.s.nodes[n].cursor + 1
    requires Landed(past[net.s.nodes[n].cursor + 1], Added(net.s.log[net.s.nodes[n].cursor].action), n, r, action)
    ensures Waits(net', past, n)
  {
    assert net'.Gone(n) - {n} == {};
  }

  // ---------------------------------------------------------------- a new commit

  /** What a commit changes, for the committer's replica after it. */
  ghost predicate HasCommitted(net: Net, net': Net, n: Name, a: Action, hash: Bytes, r: Replica) {
    var s, t := net.s, net'.s;
    && net'.creator == net.creator && net'.acks == net.acks && net'.gone == net.gone
    && net'.subscribed == net.subscribed
    && n in s.nodes && n in s.tokens
    && t.log == s.log + [Entry(|s.log|, n, a, hash)]
    && t.nodes == s.nodes[n := s.nodes[n].(r := r)] && r.live && r.epoch == |s.log| + 1
    && t.welcomes == s.welcomes + WelcomesOf(s.nodes[n].r, a, hash) && s.nodes[n].r.epoch == |s.log|
  }

  lemma CommitsChanges(w: World, net: Net, past: seq<Moment>, n: Name, a: Action, hash: Bytes)
    requires Sound(past, net.s) && MayStep(w, net, Commits(n, a, hash))
    ensures HasCommitted(net, Take(w, net, Commits(n, a, hash)), n, a, hash,
                         Confirm(w.p, w.draw, n, net.s.nodes[n].r, a, hash).0)
  {
    TokenHolder(past, net.s, n);
  }

  /** A client that holds the token without being subscribed, and is not late, is the only one that was added last. */
  lemma TokenAlone(net: Net, past: seq<Moment>, n: Name, late: Name)
    requires Sound(past, net.s) && Disciplined(net, past, late) && n in net.s.tokens && n !in net.subscribed
    requires n != late
    ensures net.Newest() == [n] && Ack(n, |net.s.log|) !in net.acks
  {
    var names := net.Newest();
    assert GoodToken(past, net.s, n) && GoodNode(past, net.s, n);
    assert Arriving(net, n) && Waits(net, past, n);
    NewestDistinct(past, net);
    OthersCount(names, n);
    DistinctCount(names);
    assert net.Gone(n) - {n} == {};
    assert Named(names) - {n} == {};
    assert Named(names) == {n};
    assert forall x | x in names :: x in Named(names);
  }

  /** A late client that holds the token has added nobody. */
  lemma LateTokenAlone(net: Net, past: seq<Moment>, n: Name)
    requires Sound(past, net.s) && Disciplined(net, past, n) && n in net.s.tokens
    ensures net.Newest() == []
  {
    var names := net.Newest();
    assert GoodToken(past, net.s, n) && GoodNode(past, net.s, n);
    assert Tardy(net, n) && Waits(net, past, n);
    NewestDistinct(past, net);
    OthersCount(names, n);
    assert Named(names) - {n} == {};
    assert forall x | x in names :: x in Named(names) - {n};
  }

  /** Whoever holds the token: the others that the last commit added have acknowledged, and it has heard them. */
  lemma TokenHeard(net: Net, past: seq<Moment>, n: Name, late: Name)
    requires Sound(past, net.s) && Disciplined(net, past, late) && n in net.s.tokens && late in {NOBODY, n}
    ensures forall x | x in net.Newest() && x != n :: Ack(x, |net.s.log|) in net.acks
    ensures forall a | a in net.acks && a.at == |net.s.log| && a.sender != n ::
              n in net.s.nodes && net.s.nodes[n].cursor == |net.s.log| && a.sender in net.Gone(n)
  {
    assert GoodToken(past, net.s, n) && GoodNode(past, net.s, n);
    if n in net.subscribed {
      TokenHeardAll(net, past, n, late);
    } else if n != late {
      TokenAlone(net, past, n, late);
    } else {
      LateTokenAlone(net, past, n);
    }
  }

  lemma NoWelcomeLeft(net: Net, past: seq<Moment>, n: Name, late: Name)
    requires Sound(past, net.s) && Disciplined(net, past, late) && n in net.s.tokens && late in {NOBODY, n}
    ensures net.s.welcomes == {}
  {
    TokenHeard(net, past, n, late);
    TokenHolder(past, net.s, n);
    forall m | m in net.s.welcomes ensures false {
      WelcomeStillAwaited(net, past, m, n, late);
    }
  }

  /** The addressee of a Welcome is new, has not acknowledged, and is not the holder of the token. */
  lemma WelcomeStillAwaited(net: Net, past: seq<Moment>, m: Welcome, n: Name, late: Name)
    requires Sound(past, net.s) && Disciplined(net, past, late) && m in net.s.welcomes
    requires n in net.s.nodes && net.s.nodes[n].r.epoch == |net.s.log|
    ensures m.to in net.Newest() && Ack(m.to, |net.s.log|) !in net.acks && m.to != n
  {
    WelcomeFacts(past, net.s, m);
    assert GoodNode(past, net.s, n);
  }

  /** Nobody else is left behind: all have subscribed. */
  lemma NobodyArriving(net: Net, past: seq<Moment>, n: Name, late: Name)
    requires Sound(past, net.s) && Disciplined(net, past, late) && n in net.s.tokens && late in {NOBODY, n}
    ensures forall x | x in net.s.nodes && net.s.nodes[x].r.live && x != n :: x in net.subscribed
  {
    TokenHeard(net, past, n, late);
    forall x | x in net.s.nodes && net.s.nodes[x].r.live && x != n ensures x in net.subscribed {
      assert GoodNode(past, net.s, x);
      assert x !in net.subscribed ==> Arriving(net, x);
    }
  }

  lemma CommitterUpToDate(net: Net, net': Net, past: seq<Moment>, n: Name, a: Action, hash: Bytes, r: Replica,
                          late: Name)
    requires Sound(past, net.s) && Disciplined(net, past, late) && HasCommitted(net, net', n, a, hash, r)
    requires n in net.subscribed
    ensures UpToDate(net', n)
  {
    TokenHolder(past, net.s, n);
    TokenHeardAll(net, past, n, late);
    assert UpToDate(net, n);
    var node := net'.s.nodes[n];
    forall i | node.cursor <= i < node.r.epoch ensures net'.s.log[i].author == n {
      assert i < |net.s.log| ==> net.s.log[i].author == n;
    }
  }

  lemma OthersUpToDate(net: Net, net': Net, n: Name, a: Action, hash: Bytes, r: Replica, x: Name)
    requires HasCommitted(net, net', n, a, hash, r) && UpToDate(net, x) && x != n
    ensures UpToDate(net', x)
  {
    assert net'.s.nodes[x] == net.s.nodes[x];
    var node := net.s.nodes[x];
    forall i | node.cursor <= i < node.r.epoch ensures net'.s.log[i].author == x {
      assert net.s.log[i].author == x;
    }
  }

  /** The client that has committed without being subscribed, if so. */
  ghost function LateAfter(net: Net, n: Name): Name {
    if n in net.subscribed then NOBODY else n
  }

  lemma CommitsWaits(net: Net, net': Net, past: seq<Moment>, n: Name, a: Action, hash: Bytes, r: Replica, now: Moment,
                     action: NextAction, x: Name)
    requires Sound(past, net.s) && HasCommitted(net, net', n, a, hash, r)
    requires Confirmed(n, now, Added(a), r, action) && x in net'.s.nodes
    ensures Waits(net', past + [now], x)
  {
    if x != n {
      assert net'.s.nodes[x] == net.s.nodes[x] && GoodNode(past, net.s, x);
    } else {
      assert GoodNode(past, net.s, n);
    }
  }

  lemma CommitsDisciplined(net: Net, net': Net, past: seq<Moment>, n: Name, a: Action, hash: Bytes, r: Replica,
                           now: Moment, action: NextAction, late: Name)
    requires Sound(past, net.s) && Disciplined(net, past, late) && HasCommitted(net, net', n, a, hash, r)
    requires late in {NOBODY, n}
    requires Confirmed(n, now, Added(a), r, action) && n !in Added(a) && NOBODY !in Added(a)
    ensures Disciplined(net', past + [now], LateAfter(net, n))
  {
    var t := net'.s;
    forall x | x in net'.subscribed ensures UpToDate(net', x) {
      if x != n {
        OthersUpToDate(net, net', n, a, hash, r, x);
      } else {
        CommitterUpToDate(net, net', past, n, a, hash, r, late);
      }
    }
    forall x | x in t.nodes ensures Waits(net', past + [now], x) {
      CommitsWaits(net, net', past, n, a, hash, r, now, action, x);
    }
    CommitsOthers(net, net', past, n, a, hash, r, late);
    CommitsAuthors(net, net', past, n, a, hash, r, late);
    CommitsFresh(net, net', past, n, a, hash, r, late);
    assert GoodNode(past, net.s, n);
  }

  /** All Welcomes are for the new commit, and nobody has acknowledged it. */
  lemma CommitsFresh(net: Net, net': Net, past: seq<Moment>, n: Name, a: Action, hash: Bytes, r: Replica, late: Name)
    requires Sound(past, net.s) && Disciplined(net, past, late) && HasCommitted(net, net', n, a, hash, r)
    requires late in {NOBODY, n}
    ensures forall m | m in net'.s.welcomes :: m.epoch == |net'.s.log|
    ensures forall b | b in net'.acks :: b.at < |net'.s.log|
  {
    NoWelcomeLeft(net, past, n, late);
  }

  lemma CommitsOthers(net: Net, net': Net, past: seq<Moment>, n: Name, a: Action, hash: Bytes, r: Replica, late: Name)
    requires Sound(past, net.s) && Disciplined(net, past, late) && HasCommitted(net, net', n, a, hash, r)
    requires late in {NOBODY, n}
    ensures forall x | x in net'.s.nodes && net'.s.nodes[x].r.live && x != n :: x in net'.subscribed
  {
    NobodyArriving(net, past, n, late);
    forall x | x in net'.s.nodes && net'.s.nodes[x].r.live && x != n ensures x in net'.subscribed {
      assert net'.s.nodes[x] == net.s.nodes[x];
    }
  }

  lemma CommitsAuthors(net: Net, net': Net, past: seq<Moment>, n: Name, a: Action, hash: Bytes, r: Replica, late: Name)
    requires |past| == |net.s.log| + 1 && Disciplined(net, past, late) && HasCommitted(net, net', n, a, hash, r)
    ensures var t := net'.s;
            forall i | 0 <= i < |t.log| :: t.log[i].author in t.nodes && i < t.nodes[t.log[i].author].r.epoch
  {
    var s, t := net.s, net'.s;
    forall i | 0 <= i < |t.log| ensures t.log[i].author in t.nodes && i < t.nodes[t.log[i].author].r.epoch {
      assert i < |s.log| ==> t.log[i] == s.log[i] && s.log[i].author in s.nodes;
    }
  }

  // ---------------------------------------------------------------- each step keeps the invariant

  lemma CommitsKeeps(w: World, net: Net, past: seq<Moment>, n: Name, a: Action, hash: Bytes, late: Name)
    returns (now: Moment)
    requires NetInv(w, net, past, late) && late in {NOBODY, n} && MayStep(w, net, Commits(n, a, hash))
    ensures NetInv(w, Take(w, net, Commits(n, a, hash)), past + [now], LateAfter(net, n))
  {
    var (r, action) := Confirm(w.p, w.draw, n, net.s.nodes[n].r, a, hash);
    now := InvCommitted(w, net.s, past, n, a, hash);
    CommitsChanges(w, net, past, n, a, hash);
    assert n !in Named(Added(a));
    CommitsDisciplined(net, Take(w, net, Commits(n, a, hash)), past, n, a, hash, r, now, action, late);
  }

  lemma OtherDelivered(net: Net, net': Net, past: seq<Moment>, n: Name, r: Replica, action: NextAction, late: Name)
    requires Sound(past, net.s) && Disciplined(net, past, late) && HasReceived(net, net', n, r)
    requires net.s.nodes[n].cursor < |net.s.log| && Concerns(net.s, n) && r.epoch == net.s.nodes[n].r.epoch + 1
    requires Landed(past[net.s.nodes[n].cursor + 1], Added(net.s.log[net.s.nodes[n].cursor].action), n, r, action)
    ensures Disciplined(net', past, late)
  {
    OtherSettled(net, net', past, n, r, action, late);
    StaysDisciplined(net, net', past, n, late, late);
  }

  lemma OtherLands(w: World, net: Net, past: seq<Moment>, n: Name, r: Replica, action: NextAction)
    requires Protocol.Inv(w, net.s, past) && n in net.subscribed && Enabled(w, net.s, Delivered(n))
    requires Concerns(net.s, n)
    requires (r, action) == Processed(w, net.s, n)
    ensures HasReceived(net, AfterDelivery(w, net, n), n, r) && r.epoch == net.s.nodes[n].r.epoch + 1
    ensures Landed(past[net.s.nodes[n].cursor + 1], Added(net.s.log[net.s.nodes[n].cursor].action), n, r, action)
  {
    DeliveredArrives(w, net.s, past, n, r, action);
    DeliversOther(w, net, n, r, action);
  }

  lemma OwnDelivered(w: World, net: Net, past: seq<Moment>, n: Name, late: Name)
    requires Sound(past, net.s) && Disciplined(net, past, late)
    requires n in net.subscribed && Enabled(w, net.s, Delivered(n)) && !Concerns(net.s, n)
    ensures Disciplined(AfterDelivery(w, net, n), past, late)
  {
    var net' := AfterDelivery(w, net, n);
    DeliversOwn(w, net, n);
    OwnSettled(net, net', past, n, late);
    StaysDisciplined(net, net', past, n, late, late);
  }

  lemma DeliversDisciplined(w: World, net: Net, past: seq<Moment>, n: Name, late: Name)
    requires NetInv(w, net, past, late) && n in net.subscribed && Enabled(w, net.s, Delivered(n))
    ensures Disciplined(AfterDelivery(w, net, n), past, late)
  {
    if Concerns(net.s, n) {
      var (r, action) := Processed(w, net.s, n);
      OtherLands(w, net, past, n, r, action);
      OtherDelivered(net, AfterDelivery(w, net, n), past, n, r, action, late);
    } else {
      OwnDelivered(w, net, past, n, late);
    }
  }

  lemma DeliversKeeps(w: World, net: Net, past: seq<Moment>, n: Name, late: Name)
    requires NetInv(w, net, past, late) && MayStep(w, net, Delivers(n))
    ensures NetInv(w, Take(w, net, Delivers(n)), past, late)
  {
    DeliversDisciplined(w, net, past, n, late);
    InvDelivered(w, net.s, past, n);
  }

  lemma JoinsKeeps(w: World, net: Net, past: seq<Moment>, m: Welcome, late: Name)
    requires NetInv(w, net, past, late) && MayStep(w, net, Joins(m))
    ensures NetInv(w, Take(w, net, Joins(m)), past, late)
  {
    var net' := Take(w, net, Joins(m));
    var (r, action) := Join(w.p, w.draw, m);
    NoOtherWelcome(net, past, m, late);
    JoinsChanges(w, net, m);
    JoinedArrives(w, net.s, past, m);
    JoinsSettled(net, net', past, m, r, action, late);
    StaysDisciplined(net, net', past, m.to, late, late);
    InvJoined(w, net.s, past, m);
  }

  lemma SubscribesKeeps(w: World, net: Net, past: seq<Moment>, n: Name, late: Name, late': Name)
    requires NetInv(w, net, past, late) && MayStep(w, net, Subscribes(n)) && LateStays(n, late, late')
    requires MayAck(net, past, n)
    ensures NetInv(w, Take(w, net, Subscribes(n)), past, late')
  {
    SubscribesChanges(w, net, n);
    SubscribesSettled(net, Take(w, net, Subscribes(n)), past, n, late, late');
    StaysDisciplined(net, Take(w, net, Subscribes(n)), past, n, late, late');
    InvMissed(w, net.s, past, n, |net.s.log|);
  }

  lemma HearsKeeps(w: World, net: Net, past: seq<Moment>, n: Name, x: Name, late: Name)
    requires NetInv(w, net, past, late) && MayStep(w, net, Hears(n, x))
    ensures NetInv(w, Take(w, net, Hears(n, x)), past, late)
  {
    var net' := Take(w, net, Hears(n, x));
    HearsChanges(w, net, n, x);
    HearsSettled(net, net', past, n, x, late);
    StaysDisciplined(net, net', past, n, late, late);
    InvAcked(w, net.s, past, n, x);
  }

  /** A step that publishes no commit and is not taken by the late client. */
  predicate Quiet(step: Step, late: Name) {
    !step.Commits? && !(step.Subscribes? && step.name == late)
  }

  lemma QuietKeeps(w: World, net: Net, past: seq<Moment>, step: Step, late: Name)
    requires NetInv(w, net, past, late) && MayStep(w, net, step) && Quiet(step, late)
    ensures NetInv(w, Take(w, net, step), past, late)
  {
    match step
    case Delivers(n) => DeliversKeeps(w, net, past, n, late);
    case Joins(m) => JoinsKeeps(w, net, past, m, late);
    case Subscribes(n) =>
      assert Arriving(net, n);
      SubscribesKeeps(w, net, past, n, late, late);
    case Hears(n, x) => HearsKeeps(w, net, past, n, x, late);
  }

  // ---------------------------------------------------------------- runs

  /** The creator has asked for its subscription and holds the first token. */
  ghost function Start(w: World): Net
    requires w.Valid()
  {
    Net(w.creator, Init(w), {}, {}, map[])
  }

  /** The steps can be taken one after the other. */
  ghost predicate CanRun(w: World, net: Net, run: seq<Step>)
    decreases |run|
  {
    run != [] ==> MayStep(w, net, run[0]) && CanRun(w, Take(w, net, run[0]), run[1..])
  }

  ghost function End(w: World, net: Net, run: seq<Step>): Net
    requires CanRun(w, net, run)
    decreases |run|
  {
    if run == [] then net else End(w, Take(w, net, run[0]), run[1..])
  }

  /** Clients commit only when they are subscribed. */
  ghost predicate Patient(w: World, net: Net, run: seq<Step>)
    requires CanRun(w, net, run)
    decreases |run|
  {
    run != [] ==>
      && (run[0].Commits? ==> run[0].name in net.subscribed)
      && Patient(w, Take(w, net, run[0]), run[1..])
  }

  /** Whom a commit draws, as its author computes it. */
  ghost function DrawnBy(w: World, n: Name, r: Replica, a: Action, hash: Bytes): Name
    requires CanConfirm(w.p, w.draw, n, r, a, hash)
  {
    Drawn(w.p, w.draw, AfterRemovals(n, r.slots, OwnRemovals(a)), hash, |NewMembers(r, a)|, Added(a)).1
  }

  ghost predicate CarefulStep(w: World, net: Net, step: Step)
    requires MayStep(w, net, step)
  {
    step.Commits? ==>
      || step.name in net.subscribed
      || DrawnBy(w, step.name, net.s.nodes[step.name].r, step.action, step.hash) in {step.name, NOBODY}
  }

  /** A client that is not subscribed commits only what draws itself again, or nobody. */
  ghost predicate Careful(w: World, net: Net, run: seq<Step>)
    requires CanRun(w, net, run)
    decreases |run|
  {
    run != [] ==> CarefulStep(w, net, run[0]) && Careful(w, Take(w, net, run[0]), run[1..])
  }

  lemma {:induction false} PatientIsCareful(w: World, net: Net, run: seq<Step>)
    requires CanRun(w, net, run) && Patient(w, net, run)
    ensures Careful(w, net, run)
    decreases |run|
  {
    if run != [] {
      PatientIsCareful(w, Take(w, net, run[0]), run[1..]);
    }
  }

  /** The history draws whom the author computes. */
  lemma DrawnByAuthor(w: World, s: State, past: seq<Moment>, n: Name, a: Action, hash: Bytes, now: Moment)
    requires Protocol.Inv(w, s, past) && Enabled(w, s, Committed(n, a, hash)) && Uniform(s.nodes[n].r.slots, a)
    requires Follows(w, past[|s.log|], Entry(|s.log|, n, a, hash), now)
    ensures now.winner == DrawnBy(w, n, s.nodes[n].r, a, hash)
  {
    TokenHolder(past, s, n);
    WinnerIsActive(w, s.log, past, |s.log|);
    RemovalsAgree(past[|s.log|].slots, a);
  }

  lemma StartInv(w: World)
    requires w.Valid()
    ensures NetInv(w, Start(w), [Genesis(w)], NOBODY)
  {
    InvInit(w);
    CreatorCommitsFirst(w);
    var net := Start(w);
    assert net.Newest() == [w.creator];
    assert Arriving(net, w.creator);
    assert [w.creator][1..] == [];
    assert net.Gone(w.creator) - {w.creator} == {};
  }

  lemma NobodyIsNobody(net: Net, past: seq<Moment>)
    requires Sound(past, net.s)
    ensures NOBODY !in net.s.nodes
  {
    assert NOBODY in net.s.nodes ==> GoodNode(past, net.s, NOBODY);
  }
}
