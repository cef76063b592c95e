/**
 One client's state for one group and its reactions: to its own commit, to a commit it receives,
 to a Welcome and to an acknowledgement. `User` is the object whose methods the handlers are.
 */
module Client {
  import opened Basics
  import opened Slots
  import opened History
  import opened Orchestration

  /** `live`: the client holds the MLS group. The table and counter stay when the group is dropped. */
  datatype Replica = Replica(live: bool, epoch: nat, members: set<Name>, slots: seq<Name>, pending: nat)

  /** A Welcome with the MLS state it leads to, the committer's table before the commit, and the recipients. */
  datatype Welcome = Welcome(to: Name, epoch: nat, members: set<Name>, hash: Bytes,
                             snapshot: seq<Name>, names: seq<Name>)

  ghost function AfterRemovals(me: Name, slots: seq<Name>, gone: seq<Name>): (r: seq<Name>)
    ensures |r| == |slots|
  {
    if me in slots then RemoveAll(slots, gone) else slots
  }

  /** The client's own draw comes to an end, unless the commit makes it inactive. */
  ghost predicate Responds(p: Parameters, draw: Draw, me: Name, slots: seq<Name>, hash: Bytes, total: nat,
                           names: seq<Name>) {
    && p.Valid() && |slots| == p.processers && total >= 1
    && (me in Grown(p, draw, slots, hash, total, names).0 ==> Elects(p, draw, slots, hash, total, names))
  }

  ghost function NewMembers(r: Replica, a: Action): set<Name> {
    Changed(r.members, a)
  }

  // ---------------------------------------------------------------- own commit

  ghost predicate CanConfirm(p: Parameters, draw: Draw, me: Name, r: Replica, a: Action, hash: Bytes) {
    Responds(p, draw, me, AfterRemovals(me, r.slots, OwnRemovals(a)), hash, |NewMembers(r, a)|, Added(a))
  }

  /** `confirm_commit`: the committer merges its own commit. An evicted committer keeps the group. */
  ghost function Confirm(p: Parameters, draw: Draw, me: Name, r: Replica, a: Action, hash: Bytes): (Replica, NextAction)
    requires CanConfirm(p, draw, me, r, a, hash)
  {
    var left := AfterRemovals(me, r.slots, OwnRemovals(a));
    var members := NewMembers(r, a);
    var reaction := React(p, draw, me, left, r.pending, hash, |members|, Added(a));
    (Replica(r.live, r.epoch + 1, members, reaction.slots, reaction.pending), reaction.action)
  }

  // ---------------------------------------------------------------- a commit from the topic

  /** The member count by arithmetic on the count before the merge. */
  ghost function CountAfter(r: Replica, a: Action): int {
    |r.members| + |Added(a)| - |Removed(a)|
  }

  ghost predicate CanProcess(p: Parameters, draw: Draw, me: Name, r: Replica, e: Entry) {
    && CountAfter(r, e.action) >= 0
    && Responds(p, draw, me, AfterRemovals(me, r.slots, Removed(e.action)), e.hash, CountAfter(r, e.action),
                Added(e.action))
  }

  /** The commit branch of `process_protocol_message`: a removed or inactive client drops the group. */
  ghost function Process(p: Parameters, draw: Draw, me: Name, r: Replica, e: Entry): (Replica, NextAction)
    requires CanProcess(p, draw, me, r, e)
  {
    var left := AfterRemovals(me, r.slots, Removed(e.action));
    Settle(me, r, e.action, React(p, draw, me, left, r.pending, e.hash, CountAfter(r, e.action), Added(e.action)))
  }

  ghost function Settle(me: Name, r: Replica, a: Action, reaction: Reaction): (Replica, NextAction) {
    var dropped := me in Removed(a) || reaction.action == Inactive;
    (Replica(!dropped, r.epoch + 1, NewMembers(r, a), reaction.slots, reaction.pending),
     if dropped then Inactive else reaction.action)
  }

  // ---------------------------------------------------------------- a Welcome

  ghost predicate CanJoin(p: Parameters, draw: Draw, m: Welcome) {
    Responds(p, draw, m.to, Resize(m.snapshot, p.processers), m.hash, |m.members|, m.names)
  }

  /** The Welcome branch of `process_in_message`: start from the snapshot and replay the commit. */
  ghost function Join(p: Parameters, draw: Draw, m: Welcome): (Replica, NextAction)
    requires CanJoin(p, draw, m)
  {
    var reaction := React(p, draw, m.to, Resize(m.snapshot, p.processers), 0, m.hash, |m.members|, m.names);
    (Replica(reaction.action != Inactive, m.epoch, m.members, reaction.slots, reaction.pending), reaction.action)
  }

  // ---------------------------------------------------------------- an acknowledgement

  ghost function Acknowledge(me: Name, r: Replica, sender: Name): (Replica, NextAction) {
    if sender == me || r.pending == 0 then (r, Listen)
    else (r.(pending := r.pending - 1), if r.pending == 1 then Commit else Listen)
  }

  /** The acknowledgements of a sequence of senders: the state after them, and where Commit was signalled. */
  ghost function AckRun(me: Name, r: Replica, senders: seq<Name>): (Replica, seq<nat>) {
    if senders == [] then (r, [])
    else
      var (before, signals) := AckRun(me, r, senders[..|senders| - 1]);
      var (after, action) := Acknowledge(me, before, senders[|senders| - 1]);
      (after, if action == Commit then signals + [|senders| - 1] else signals)
  }

  /** A win with n other new members signals Commit exactly once, at the n-th acknowledgement from another client. */
  lemma {:induction false} OneSignalPerWin(me: Name, r: Replica, senders: seq<Name>)
    requires r.pending > 0
    ensures var n := Others(senders, me);
            var (after, signals) := AckRun(me, r, senders);
            && after == r.(pending := if n < r.pending then r.pending - n else 0)
            && (n < r.pending ==> signals == [])
            && (n >= r.pending ==>
                  && |signals| == 1 && signals[0] < |senders| && senders[signals[0]] != me
                  && Others(senders[..signals[0] + 1], me) == r.pending)
  {
    if senders != [] {
      var front, last := senders[..|senders| - 1], senders[|senders| - 1];
      OneSignalPerWin(me, r, front);
      OthersSnoc(senders, me);
      var (_, signals) := AckRun(me, r, front);
      if Others(front, me) >= r.pending {
        assert senders[..signals[0] + 1] == front[..signals[0] + 1];
      } else if Others(senders, me) == r.pending {
        assert senders[..|senders|] == senders;
      }
    }
  }

  lemma {:induction false} OthersSnoc(names: seq<Name>, me: Name)
    requires names != []
    ensures Others(names, me) == Others(names[..|names| - 1], me) + if names[|names| - 1] != me then 1 else 0
  {
    if |names| > 1 {
      var front := names[..|names| - 1];
      assert front[1..] == names[1..][..|names| - 2];
      OthersSnoc(names[1..], me);
    } else {
      assert names[1..] == [] && names[..0] == [];
    }
  }

  lemma ConfirmIs(p: Parameters, draw: Draw, me: Name, r: Replica, a: Action, hash: Bytes, reaction: Reaction)
    requires CanConfirm(p, draw, me, r, a, hash)
    requires reaction == React(p, draw, me, AfterRemovals(me, r.slots, OwnRemovals(a)), r.pending, hash,
                               |NewMembers(r, a)|, Added(a))
    ensures Confirm(p, draw, me, r, a, hash)
            == (Replica(r.live, r.epoch + 1, NewMembers(r, a), reaction.slots, reaction.pending), reaction.action)
  {
  }

  lemma ProcessIs(p: Parameters, draw: Draw, me: Name, r: Replica, e: Entry, reaction: Reaction)
    requires CanProcess(p, draw, me, r, e)
    requires reaction == React(p, draw, me, AfterRemovals(me, r.slots, Removed(e.action)), r.pending, e.hash,
                               CountAfter(r, e.action), Added(e.action))
    ensures Process(p, draw, me, r, e) == Settle(me, r, e.action, reaction)
  {
  }

  // ---------------------------------------------------------------- the object

  /** A user with its orchestrator for one group; `signals` counts the tokens sent to its agent. */
  class User {
    const username: Name
    const orchestrator: Orchestrator
    var live: bool
    var epoch: nat
    var members: set<Name>
    var signals: nat

    ghost predicate Valid()
      reads this, orchestrator
    {
      orchestrator.Valid() && orchestrator.name == username
    }

    ghost function View(): Replica
      reads this, orchestrator
    {
      Replica(live, epoch, members, orchestrator.knownMembers, orchestrator.pendingAcks)
    }

    /** The Welcome branch. */
    constructor (parameters: Parameters, draw: Draw, m: Welcome)
      requires CanJoin(parameters, draw, m)
      ensures Valid() && fresh(orchestrator) && username == m.to
      ensures orchestrator.parameters == parameters && orchestrator.draw == draw
      ensures (View(), if signals == 1 then Commit else if live then Listen else Inactive) == Join(parameters, draw, m)
      ensures signals <= 1
    {
      var o := new Orchestrator(m.to, parameters, draw, m.snapshot);
      var action := o.ProcessCommit(m.hash, |m.members|, m.names);
      username := m.to;
      orchestrator := o;
      live := action != Inactive;
      epoch := m.epoch;
      members := m.members;
      signals := if action == Commit then 1 else 0;
    }

    /** The orchestrator's part of handling a commit. */
    method RunOrchestrator(gone: seq<Name>, hash: Bytes, total: nat, names: seq<Name>) returns (action: NextAction)
      requires Valid()
      requires Responds(orchestrator.parameters, orchestrator.draw, username,
                        AfterRemovals(username, orchestrator.knownMembers, gone), hash, total, names)
      modifies orchestrator
      ensures Valid()
      ensures Reaction(orchestrator.knownMembers, orchestrator.pendingAcks, action)
              == React(orchestrator.parameters, orchestrator.draw, username,
                       AfterRemovals(username, old(orchestrator.knownMembers), gone),
                       old(orchestrator.pendingAcks), hash, total, names)
    {
      orchestrator.RemoveMembers(gone);
      action := orchestrator.ProcessCommit(hash, total, names);
    }

    method ConfirmCommit(a: Action, hash: Bytes) returns (action: NextAction)
      requires Valid() && CanConfirm(orchestrator.parameters, orchestrator.draw, username, View(), a, hash)
      modifies this, orchestrator
      ensures Valid()
      ensures (View(), action) == Confirm(orchestrator.parameters, orchestrator.draw, username, old(View()), a, hash)
      ensures signals == old(signals) + if action == Commit then 1 else 0
    {
      var merged := members - Named(Removed(a)) + Named(Added(a));
      ghost var before := View();
      action := RunOrchestrator(OwnRemovals(a), hash, |merged|, Added(a));
      ghost var reaction := Reaction(orchestrator.knownMembers, orchestrator.pendingAcks, action);
      ConfirmIs(orchestrator.parameters, orchestrator.draw, username, before, a, hash, reaction);
      members, epoch := merged, epoch + 1;
      if action == Commit {
        signals := signals + 1;
      }
    }

    method ProcessCommitMessage(e: Entry) returns (action: NextAction)
      requires Valid() && CanProcess(orchestrator.parameters, orchestrator.draw, username, View(), e)
      modifies this, orchestrator
      ensures Valid()
      ensures (View(), action) == Process(orchestrator.parameters, orchestrator.draw, username, old(View()), e)
      ensures signals == old(signals) + if action == Commit then 1 else 0
    {
      var added, removed := Added(e.action), Removed(e.action);
      var total: nat := |members| + |added| - |removed|;
      ghost var before := View();
      var outcome := RunOrchestrator(removed, e.hash, total, added);
      ghost var reaction := Reaction(orchestrator.knownMembers, orchestrator.pendingAcks, outcome);
      ProcessIs(orchestrator.parameters, orchestrator.draw, username, before, e, reaction);
      action := MergeCommit(e.action, outcome);
    }

    /** The rest of handling a commit, after the orchestrator's part. */
    method MergeCommit(a: Action, outcome: NextAction) returns (action: NextAction)
      requires Valid()
      modifies this
      ensures Valid()
      ensures (View(), action)
              == Settle(username, old(View()), a,
                        Reaction(orchestrator.knownMembers, orchestrator.pendingAcks, outcome))
      ensures signals == old(signals) + if action == Commit then 1 else 0
    {
      members, epoch := members - Named(Removed(a)) + Named(Added(a)), epoch + 1;
      live := username !in Removed(a) && outcome != Inactive;
      action := outcome;
      if !live {
        action := Inactive;
      } else if action == Commit {
        signals := signals + 1;
      }
    }

    method ProcessAck(sender: Name)
      requires Valid()
      modifies this`signals, orchestrator`pendingAcks
      ensures Valid()
      ensures View() == old(Acknowledge(username, View(), sender)).0
      ensures signals == old(signals) + if old(Acknowledge(username, View(), sender)).1 == Commit then 1 else 0
    {
      if sender == username {
        return;
      }
      var action := orchestrator.ProcessAck();
      if action == Commit {
        signals := signals + 1;
      }
    }
  }
}
