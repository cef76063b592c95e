/**
 The MQTT updater: which users get a message, and which user's subscription a SubAck completes.
 `Ledger` adds what the MQTT client and the broker know, and states the matching over whole runs.
 */
module Updater {
  import opened Basics
  import opened Threads

  type User = string
  type Topic = string

  const GROUP_PREFIX: string := "cgka/group/"

  /** A subscription without its SubAck, and its packet id once the packet was sent. */
  datatype Pending = Pending(user: User, topic: Topic, id: Option<nat>)

  /** `WelcomeAcknowledgement` */
  datatype Ack = Ack(sender: User, group: string)

  /** What the updater asks of the MQTT client. */
  datatype Request =
    | Subscribe(topic: Topic)
    | Unsubscribe(topic: Topic)
    | Publish(topic: Topic, ack: Ack)

  // ---------------------------------------------------------------- group names

  /** `trim_start_matches`: the prefix is removed as often as it occurs. */
  function TrimStart(s: string, prefix: string): (r: string)
    requires prefix != []
    ensures !(prefix <= r)
    decreases |s|
  {
    if prefix <= s then TrimStart(s[|prefix|..], prefix) else s
  }

  // ---------------------------------------------------------------- pending subscriptions

  function FirstUnassigned(pending: seq<Pending>): (i: nat)
    ensures i <= |pending|
    ensures forall j | 0 <= j < i :: pending[j].id.Some?
    ensures i < |pending| ==> pending[i].id.None?
  {
    if pending == [] || pending[0].id.None? then 0 else 1 + FirstUnassigned(pending[1..])
  }

  function Assign(pending: seq<Pending>, id: nat): (r: seq<Pending>)
    ensures |r| == |pending|
  {
    var i := FirstUnassigned(pending);
    if i < |pending| then pending[i := pending[i].(id := Some(id))] else pending
  }

  function FirstWith(pending: seq<Pending>, id: nat): (i: nat)
    ensures i <= |pending|
    ensures forall j | 0 <= j < i :: pending[j].id != Some(id)
    ensures i < |pending| ==> pending[i].id == Some(id)
  {
    if pending == [] || pending[0].id == Some(id) then 0 else 1 + FirstWith(pending[1..], id)
  }

  function Without(pending: seq<Pending>, id: nat): (r: seq<Pending>)
    ensures forall x :: x in r <==> x in pending && x.id != Some(id)
  {
    if pending == [] then []
    else if pending[0].id == Some(id) then Without(pending[1..], id)
    else [pending[0]] + Without(pending[1..], id)
  }

  /** The acknowledgement for a completed subscription to a group topic. */
  function AckFor(user: User, topic: Topic): seq<Request> {
    if GROUP_PREFIX <= topic then
      var group := TrimStart(topic, GROUP_PREFIX);
      [Publish(GROUP_PREFIX + group, Ack(user, group))]
    else []
  }

  /** The acknowledgement names the group and goes to its topic exactly if the name does not start with the prefix. */
  lemma GroupRecovered(user: User, group: string)
    ensures AckFor(user, GROUP_PREFIX + group) == [Publish(GROUP_PREFIX + group, Ack(user, group))]
            <==> !(GROUP_PREFIX <= group)
  {
    assert (GROUP_PREFIX + group)[|GROUP_PREFIX|..] == group;
    assert TrimStart(GROUP_PREFIX + group, GROUP_PREFIX) == TrimStart(group, GROUP_PREFIX);
    assert !(GROUP_PREFIX <= group) ==> TrimStart(group, GROUP_PREFIX) == group;
  }

  function Times(prefix: string, n: nat): string {
    if n == 0 then [] else prefix + Times(prefix, n - 1)
  }

  /** Copies of the prefix are removed from the front, and nothing else. */
  lemma {:induction false} TrimmedCopies(s: string, prefix: string) returns (n: nat)
    requires prefix != []
    ensures s == Times(prefix, n) + TrimStart(s, prefix)
    decreases |s|
  {
    if prefix <= s {
      var m := TrimmedCopies(s[|prefix|..], prefix);
      n := m + 1;
      assert s == prefix + s[|prefix|..];
      assert prefix + (Times(prefix, m) + TrimStart(s, prefix)) == Times(prefix, n) + TrimStart(s, prefix);
    } else {
      n := 0;
      assert s == [] + s;
    }
  }

  /** A subscription to a topic is acknowledged, once and by its user, exactly if it is a group's. */
  lemma OnlyGroupsAcknowledged(user: User, topic: Topic)
    ensures |AckFor(user, topic)| == if GROUP_PREFIX <= topic then 1 else 0
    ensures forall r | r in AckFor(user, topic) ::
              r.Publish? && r.ack.sender == user && r.topic == GROUP_PREFIX + r.ack.group
  {
  }

  // ---------------------------------------------------------------- delivery

  function WithoutTopic(topics: seq<Topic>, topic: Topic): (r: seq<Topic>)
    ensures forall t :: t in r <==> t in topics && t != topic
  {
    if topics == [] then []
    else if topics[0] == topic then WithoutTopic(topics[1..], topic)
    else [topics[0]] + WithoutTopic(topics[1..], topic)
  }

  predicate Wanted(subscriptions: map<User, seq<Topic>>, u: User, topic: Topic) {
    u in subscriptions && topic in subscriptions[u]
  }

  /** Every user subscribed to the topic gets one thread for the message. */
  function Delivered(chains: map<User, Chain>, subscriptions: map<User, seq<Topic>>, topic: Topic,
                     message: Bytes): map<User, Chain> {
    map u | u in chains :: if Wanted(subscriptions, u, topic) then Apply(chains[u], Spawn(message)) else chains[u]
  }

  class MqttUpdater {
    var subscriptions: map<User, seq<Topic>>
    var pending: seq<Pending>
    var chains: map<User, Chain>
    /** Everything asked of the MQTT client so far. */
    var requests: seq<Request>

    ghost predicate Valid()
      reads this
    {
      subscriptions.Keys == chains.Keys
    }

    constructor (users: set<User>)
      ensures Valid() && subscriptions.Keys == users
      ensures forall u | u in users :: subscriptions[u] == [] && chains[u] == IDLE
      ensures pending == [] && requests == []
    {
      subscriptions := map u | u in users :: [];
      chains := map u | u in users :: IDLE;
      pending := [];
      requests := [];
    }

    /** `MQTTQueueMessage::Unsubscribe`: the broker is told once nobody here wants the topic. */
    method HandleUnsubscribe(user: User, topic: Topic)
      requires Valid()
      modifies this`subscriptions, this`requests
      ensures Valid()
      ensures forall u, t ::
                Wanted(subscriptions, u, t) <==> old(Wanted(subscriptions, u, t)) && !(u == user && t == topic)
      ensures requests == old(requests)
              + if exists u | u in subscriptions :: topic in subscriptions[u] then [] else [Unsubscribe(topic)]
    {
      if user in subscriptions {
        subscriptions := subscriptions[user := WithoutTopic(subscriptions[user], topic)];
      }
      var subscribed := false;
      var rest := subscriptions.Keys;
      while rest != {}
        invariant rest <= subscriptions.Keys
        invariant !subscribed
        invariant forall u | u in subscriptions && u !in rest :: topic !in subscriptions[u]
      {
        var u :| u in rest;
        if topic in subscriptions[u] {
          subscribed := true;
          break;
        }
        rest := rest - {u};
      }
      if !subscribed {
        requests := requests + [Unsubscribe(topic)];
      }
    }

    /** `Outgoing::Subscribe`: the packet id goes to the oldest entry without one. */
    method HandleOutgoing(id: nat)
      modifies this`pending
      ensures pending == Assign(old(pending), id)
    {
      var i := 0;
      while i < |pending| && pending[i].id.Some?
        invariant 0 <= i <= FirstUnassigned(pending) && pending == old(pending)
      {
        i := i + 1;
      }
      if i < |pending| {
        pending := pending[i := pending[i].(id := Some(id))];
      }
    }

    /** `Packet::SubAck` */
    method HandleSubAck(id: nat)
      modifies this`pending, this`requests
      ensures pending == Without(old(pending), id)
      ensures var i := FirstWith(old(pending), id);
              requests == old(requests)
                + if i < |old(pending)| then AckFor(old(pending)[i].user, old(pending)[i].topic) else []
    {
      var i := FirstWith(pending, id);
      if i < |pending| {
        var found := pending[i];
        pending := Without(pending, id);
        requests := requests + AckFor(found.user, found.topic);
      } else {
        AllKept(pending, id);
      }
    }

    /** `deliver_to_users`, for any order in which the map is walked. */
    method DeliverToUsers(topic: Topic, message: Bytes)
      requires Valid()
      modifies this`chains
      ensures Valid()
      ensures chains == Delivered(old(chains), subscriptions, topic, message)
    {
      var rest := subscriptions.Keys;
      ghost var was := chains;
      ghost var after := Delivered(chains, subscriptions, topic, message);
      while rest != {}
        invariant rest <= chains.Keys == was.Keys == subscriptions.Keys
        invariant forall u | u in was :: chains[u] == if u in rest then was[u] else after[u]
      {
        var u :| u in rest;
        if topic in subscriptions[u] {
          chains := chains[u := Apply(chains[u], Spawn(message))];
        }
        rest := rest - {u};
      }
    }
  }

  lemma {:induction false} AllKept(pending: seq<Pending>, id: nat)
    requires FirstWith(pending, id) == |pending|
    ensures Without(pending, id) == pending
  {
    if pending != [] {
      AllKept(pending[1..], id);
    }
  }
}
