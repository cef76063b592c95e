/**
 The delivery service: one function per request handler, giving the state after it and the answer, and the object with
 the handlers that loop. A handler runs with its locks held, so requests take effect one by one.
 */
module Delivery {
  import opened Basics

  type Id = Bytes
  type Hash = Bytes

  /** What the service reads of an MLS message; the rest of it is `payload`. */
  datatype Body =
    | Handshake(group: Id, epoch: nat)
    | Application
    | Welcome(secrets: seq<Hash>)
    | Other

  datatype GroupMessage = GroupMessage(body: Body, payload: Bytes, sender: Id, recipients: seq<Id>)

  datatype Client = Client(id: Id, keyPackages: seq<Hash>, reserved: set<Hash>, msgs: seq<GroupMessage>,
                           welcomes: seq<GroupMessage>)

  /** `poisoned`: a handler panicked while it held the locks of `clients` and `groups`. */
  datatype Server = Server(clients: map<Id, Client>, groups: map<Id, nat>, groupInfo: map<Id, Option<Bytes>>,
                           poisoned: bool)

  /** HTTP 200, 204, 403, 404, 409, 500; `Aborted`: the handler panicked. */
  datatype Status = Ok | NoContent | Forbidden | NotFound | Conflict | ServerError | Aborted

  const EMPTY: Server := Server(map[], map[], map[], false)

  /** A registration carries a name and key packages; the queues are new. An old entry is replaced in any case. */
  function Register(s: Server, id: Id, keyPackages: seq<Hash>): (Server, Status) {
    if s.poisoned then (s, ServerError)
    else (s.(clients := s.clients[id := Client(id, keyPackages, {}, [], [])]), if id in s.clients then Conflict else Ok)
  }

  function Reset(s: Server): (Server, Status) {
    if s.poisoned then (s, ServerError) else (s.(clients := map[], groups := map[]), Ok)
  }

  function PublishKeyPackages(s: Server, id: Id, more: seq<Hash>): (Server, Status) {
    if s.poisoned then (s, ServerError)
    else if id !in s.clients then (s, NotFound)
    else (s.(clients := s.clients[id := s.clients[id].(keyPackages := s.clients[id].keyPackages + more)]), Ok)
  }

  /** The last key package is handed out and reserved but stays; the only one is not handed out. */
  function ConsumeKeyPackage(s: Server, id: Id): (Server, Status) {
    if s.poisoned then (s, ServerError)
    else if id !in s.clients || |s.clients[id].keyPackages| <= 1 then (s, NoContent)
    else
      var c := s.clients[id];
      (s.(clients := s.clients[id := c.(reserved := c.reserved + {c.keyPackages[|c.keyPackages| - 1]})]), Ok)
  }

  // ---------------------------------------------------------------- messages

  function Push(clients: map<Id, Client>, id: Id, m: GroupMessage): map<Id, Client>
    requires id in clients
  {
    clients[id := clients[id].(msgs := clients[id].msgs + [m])]
  }

  /** Copies go to the recipients in order, up to the first one that is not registered. */
  function PushAll(clients: map<Id, Client>, to: seq<Id>, m: GroupMessage): (map<Id, Client>, bool) {
    if to == [] then (clients, true)
    else if to[0] !in clients then (clients, false)
    else PushAll(Push(clients, to[0], m), to[1..], m)
  }

  /** A handshake message of an epoch before one seen in its group is refused. */
  predicate Stale(groups: map<Id, nat>, b: Body) {
    b.Handshake? && b.group in groups && groups[b.group] > b.epoch
  }

  function SendMessage(s: Server, m: GroupMessage): (Server, Status) {
    if s.poisoned then (s, ServerError)
    else if m.body.Welcome? || m.body.Other? then (s.(poisoned := true), Aborted)
    else if Stale(s.groups, m.body) then (s, Conflict)
    else
      var groups := if m.body.Handshake? then s.groups[m.body.group := m.body.epoch] else s.groups;
      var (clients, all) := PushAll(s.clients, m.recipients + [m.sender], m);
      (s.(clients := clients, groups := groups), if all then Ok else NotFound)
  }

  /** Welcomes first, then messages; both queues are emptied. */
  function Receive(s: Server, id: Id): (Server, Status, seq<GroupMessage>) {
    if s.poisoned then (s, ServerError, [])
    else if id !in s.clients then (s, NotFound, [])
    else
      var c := s.clients[id];
      (s.(clients := s.clients[id := c.(msgs := [], welcomes := [])]), Ok, c.welcomes + c.msgs)
  }

  // ---------------------------------------------------------------- welcomes

  /** The first client, in the order the map is walked, that has the hash reserved. */
  function FirstHolder(clients: map<Id, Client>, order: seq<Id>, h: Hash): (r: Option<Id>)
    ensures r.Some? ==> r.value in order && r.value in clients && h in clients[r.value].reserved
    ensures r.None? ==> forall id | id in order && id in clients :: h !in clients[id].reserved
  {
    if order == [] then None
    else if order[0] in clients && h in clients[order[0]].reserved then Some(order[0])
    else FirstHolder(clients, order[1..], h)
  }

  /** The first secret that somebody has reserved, with that client. */
  function FirstClaim(clients: map<Id, Client>, order: seq<Id>, secrets: seq<Hash>): (r: Option<(Id, Hash)>)
    ensures r.Some? ==> r.value.1 in secrets && r.value.0 in clients && r.value.1 in clients[r.value.0].reserved
    ensures r.None? ==> forall id, h | id in order && id in clients && h in secrets :: h !in clients[id].reserved
  {
    if secrets == [] then None
    else
      var holder := FirstHolder(clients, order, secrets[0]);
      assert forall h | h in secrets :: h == secrets[0] || h in secrets[1..];
      if holder.Some? then Some((holder.value, secrets[0])) else FirstClaim(clients, order, secrets[1..])
  }

  /** One reservation is used up and its client gets the Welcome. `order` is the order the map is walked in. */
  function SendWelcome(s: Server, m: GroupMessage, order: seq<Id>): (Server, Status) {
    if !m.body.Welcome? then (s, Aborted)
    else if s.poisoned then (s, ServerError)
    else
      var claim := FirstClaim(s.clients, order, m.body.secrets);
      if claim.None? then (s, NoContent)
      else (s.(clients := Queued(s.clients, claim.value.0, claim.value.1, m)), Ok)
  }

  function Queued(clients: map<Id, Client>, id: Id, h: Hash, m: GroupMessage): map<Id, Client>
    requires id in clients
  {
    clients[id := clients[id].(reserved := clients[id].reserved - {h}, welcomes := clients[id].welcomes + [m])]
  }

  // ---------------------------------------------------------------- group info

  function GetGroupInfo(s: Server, mutex: bool, id: Id): (Server, Status, Bytes) {
    var locked := if mutex then s.(groupInfo := s.groupInfo[id := None]) else s;
    if id !in s.groupInfo then (locked, NoContent, [])
    else if s.groupInfo[id].None? then (s, Forbidden, [])
    else (locked, Ok, s.groupInfo[id].value)
  }

  function PostGroupInfo(s: Server, id: Id, info: Bytes): (Server, Status) {
    (s.(groupInfo := s.groupInfo[id := Some(info)]), Ok)
  }

  // ---------------------------------------------------------------- the object

  class DeliveryService {
    const groupInfoMutex: bool
    var clients: map<Id, Client>
    var groups: map<Id, nat>
    var groupInfo: map<Id, Option<Bytes>>
    var poisoned: bool

    constructor (groupInfoMutex: bool)
      ensures View() == EMPTY && this.groupInfoMutex == groupInfoMutex
    {
      this.groupInfoMutex := groupInfoMutex;
      clients, groups, groupInfo, poisoned := map[], map[], map[], false;
    }

    function View(): Server
      reads this
    {
      Server(clients, groups, groupInfo, poisoned)
    }

    method MsgSend(m: GroupMessage) returns (status: Status)
      modifies this
      ensures (View(), status) == SendMessage(old(View()), m)
    {
      if poisoned {
        return ServerError;
      }
      if m.body.Welcome? || m.body.Other? {
        poisoned := true;
        return Aborted;
      }
      if m.body.Handshake? {
        if m.body.group in groups && groups[m.body.group] > m.body.epoch {
          return Conflict;
        }
        groups := groups[m.body.group := m.body.epoch];
      }
      ghost var updated := groups;
      var i := 0;
      while i < |m.recipients|
        invariant 0 <= i <= |m.recipients|
        invariant PushAll(clients, m.recipients[i..] + [m.sender], m)
                  == PushAll(old(clients), m.recipients + [m.sender], m)
        invariant groups == updated && groupInfo == old(groupInfo) && !poisoned
      {
        ghost var rest := m.recipients[i..] + [m.sender];
        assert rest[0] == m.recipients[i] && rest[1..] == m.recipients[i + 1..] + [m.sender];
        if m.recipients[i] !in clients {
          return NotFound;
        }
        clients := Push(clients, m.recipients[i], m);
        i := i + 1;
      }
      assert m.recipients[i..] + [m.sender] == [m.sender];
      if m.sender !in clients {
        return NotFound;
      }
      clients := Push(clients, m.sender, m);
      assert [m.sender][1..] == [];
      status := Ok;
    }

    /** The two nested loops over the Welcome's secrets and the registered clients. */
    method PostWelcome(m: GroupMessage, order: seq<Id>) returns (status: Status)
      requires forall id :: id in order <==> id in clients
      modifies this`clients
      ensures (View(), status) == SendWelcome(old(View()), m, order)
    {
      if !m.body.Welcome? {
        return Aborted;
      }
      if poisoned {
        return ServerError;
      }
      var secrets := m.body.secrets;
      var i := 0;
      while i < |secrets|
        invariant 0 <= i <= |secrets| && clients == old(clients)
        invariant FirstClaim(clients, order, secrets[i..]) == FirstClaim(clients, order, secrets)
      {
        assert secrets[i..][1..] == secrets[i + 1..];
        var j := 0;
        while j < |order|
          invariant 0 <= j <= |order| && clients == old(clients)
          invariant FirstHolder(clients, order[j..], secrets[i]) == FirstHolder(clients, order, secrets[i])
        {
          assert order[j..][1..] == order[j + 1..] && order[j] in order;
          if secrets[i] in clients[order[j]].reserved {
            clients := Queued(clients, order[j], secrets[i], m);
            return Ok;
          }
          j := j + 1;
        }
        i := i + 1;
      }
      status := NoContent;
    }
  }
}
