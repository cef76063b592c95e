/**
 The threads that the updater spawns for one user. Each waits for the thread spawned before it, locks the
 user and parses its message; a thread that panics with the lock held poisons the lock.
 The lock is shared with the user's agent. Any interleaving of the threads' steps is a run.
 */
module Threads {
  import opened Basics

  datatype Status =
    | Waiting   // has not yet seen the end of the previous thread
    | Ready     // about to lock the user
    | Parsing   // holds the lock
    | Finished
    | Crashed   // panicked while parsing
    | Aborted   // panicked before: the previous thread had panicked, or the lock was poisoned

  /** `previous`: the handle that the updater held for the user when this thread was spawned. */
  datatype Thread = Thread(message: Bytes, previous: Option<nat>, status: Status)

  datatype Holder = Nobody | Worker(index: nat) | Agent

  /** `parsed` lists the threads that called `parse_message`, in the order of the calls. */
  datatype Chain = Chain(threads: seq<Thread>, handle: Option<nat>, holder: Holder, poisoned: bool, parsed: seq<nat>)

  datatype Event =
    | Spawn(message: Bytes)
    | Join(index: nat)
    | Lock(index: nat)
    | Return(index: nat)
    | Panic(index: nat)
    | AgentLocks
    | AgentReleases
    | AgentPanics

  const IDLE: Chain := Chain([], None, Nobody, false, [])

  predicate Ended(s: Status) {
    s in {Finished, Crashed, Aborted}
  }

  /** An event can happen. Joining waits for the end of the other thread, locking for the lock to be free. */
  predicate Enabled(c: Chain, e: Event) {
    match e
    case Spawn(_) => true
    case Join(i) =>
      && i < |c.threads| && c.threads[i].status == Waiting
      && (c.threads[i].previous.Some? ==>
            var p := c.threads[i].previous.value; p < |c.threads| && Ended(c.threads[p].status))
    case Lock(i) => i < |c.threads| && c.threads[i].status == Ready && c.holder == Nobody
    case Return(i) => i < |c.threads| && c.threads[i].status == Parsing
    case Panic(i) => i < |c.threads| && c.threads[i].status == Parsing
    case AgentLocks => c.holder == Nobody
    case AgentReleases => c.holder == Agent
    case AgentPanics => c.holder == Agent
  }

  function Become(c: Chain, i: nat, s: Status): Chain
    requires i < |c.threads|
  {
    c.(threads := c.threads[i := c.threads[i].(status := s)])
  }

  function Apply(c: Chain, e: Event): Chain
    requires Enabled(c, e)
  {
    match e
    case Spawn(m) => c.(threads := c.threads + [Thread(m, c.handle, Waiting)], handle := Some(|c.threads|))
    case Join(i) =>
      var t := c.threads[i];
      Become(c, i, if t.previous.Some? && c.threads[t.previous.value].status != Finished then Aborted else Ready)
    case Lock(i) =>
      if c.poisoned then Become(c, i, Aborted)
      else Become(c, i, Parsing).(holder := Worker(i), parsed := c.parsed + [i])
    case Return(i) => Become(c, i, Finished).(holder := Nobody)
    case Panic(i) => Become(c, i, Crashed).(holder := Nobody, poisoned := true)
    case AgentLocks => c.(holder := Agent)
    case AgentReleases => c.(holder := Nobody)
    case AgentPanics => c.(holder := Nobody, poisoned := true)
  }

  predicate Feasible(c: Chain, run: seq<Event>)
    decreases |run|
  {
    run != [] ==> Enabled(c, run[0]) && Feasible(Apply(c, run[0]), run[1..])
  }

  function After(c: Chain, run: seq<Event>): Chain
    requires Feasible(c, run)
    decreases |run|
  {
    if run == [] then c else After(Apply(c, run[0]), run[1..])
  }

  // ---------------------------------------------------------------- the invariant

  /** The threads are chained in the order they were spawned. */
  ghost predicate Linked(c: Chain) {
    && c.handle == (if c.threads == [] then None else Some(|c.threads| - 1))
    && forall i | 0 <= i < |c.threads| :: c.threads[i].previous == if i == 0 then None else Some(i - 1)
  }

  /** The status of thread i when k threads have called `parse_message`. */
  ghost predicate Placed(c: Chain, i: nat, k: nat)
    requires i < |c.threads|
  {
    var s := c.threads[i].status;
    && (i + 1 < k ==> s == Finished)
    && (i + 1 == k ==> s in {Parsing, Finished, Crashed})
    && (i >= k ==> s in {Waiting, Ready, Aborted})
    && (s == Ready ==> i == k && (i > 0 ==> c.threads[i - 1].status == Finished))
    && (s == Aborted ==> c.poisoned)
    && (s == Crashed ==> c.poisoned)
    && (s == Parsing <==> c.holder == Worker(i))
  }

  ghost predicate Inv(c: Chain) {
    && Linked(c)
    && |c.parsed| <= |c.threads|
    && (forall k | 0 <= k < |c.parsed| :: c.parsed[k] == k)
    && (forall i: nat | i < |c.threads| :: Placed(c, i, |c.parsed|))
    && (c.holder.Worker? ==> c.holder.index < |c.threads|)
  }

  lemma StepKeeps(c: Chain, e: Event)
    requires Inv(c) && Enabled(c, e)
    ensures Inv(Apply(c, e))
  {
    match e
    case Spawn(m) => SpawnKeeps(c, m);
    case Join(i) => JoinKeeps(c, i);
    case Lock(i) => LockKeeps(c, i);
    case Return(i) => LeaveKeeps(c, i);
    case Panic(i) => LeaveKeeps(c, i);
    case _ =>
      var d := Apply(c, e);
      forall j: nat | j < |d.threads| ensures Placed(d, j, |d.parsed|) {
        assert Placed(c, j, |c.parsed|);
      }
  }

  lemma SpawnKeeps(c: Chain, m: Bytes)
    requires Inv(c)
    ensures Inv(Apply(c, Spawn(m)))
  {
    var d := Apply(c, Spawn(m));
    forall j: nat | j < |c.threads| ensures Placed(d, j, |d.parsed|) {
      assert Placed(c, j, |c.parsed|);
    }
    assert Placed(d, |c.threads|, |d.parsed|);
  }

  lemma LeaveKeeps(c: Chain, i: nat)
    requires Inv(c) && Enabled(c, Return(i))
    ensures Inv(Apply(c, Return(i))) && Inv(Apply(c, Panic(i)))
  {
    var d, d' := Apply(c, Return(i)), Apply(c, Panic(i));
    assert Placed(c, i, |c.parsed|);
    forall j: nat | j < |c.threads| ensures Placed(d, j, |d.parsed|) && Placed(d', j, |d'.parsed|) {
      assert Placed(c, j, |c.parsed|);
    }
  }

  lemma JoinKeeps(c: Chain, i: nat)
    requires Inv(c) && Enabled(c, Join(i))
    ensures Inv(Apply(c, Join(i)))
  {
    var d := Apply(c, Join(i));
    assert Placed(c, i, |c.parsed|);
    assert i > 0 ==> Placed(c, i - 1, |c.parsed|);
    forall j: nat | j < |d.threads| ensures Placed(d, j, |d.parsed|) {
      assert Placed(c, j, |c.parsed|);
      assert j > 0 ==> Placed(c, j - 1, |c.parsed|);
    }
  }

  lemma LockKeeps(c: Chain, i: nat)
    requires Inv(c) && Enabled(c, Lock(i))
    ensures Inv(Apply(c, Lock(i)))
  {
    var d := Apply(c, Lock(i));
    assert Placed(c, i, |c.parsed|);
    forall j: nat | j < |d.threads| ensures Placed(d, j, |d.parsed|) {
      assert Placed(c, j, |c.parsed|);
      assert j > 0 ==> Placed(c, j - 1, |c.parsed|);
    }
  }

  lemma {:induction false} RunKeeps(c: Chain, run: seq<Event>)
    requires Inv(c) && Feasible(c, run)
    ensures Inv(After(c, run))
    decreases |run|
  {
    if run != [] {
      StepKeeps(c, run[0]);
      RunKeeps(Apply(c, run[0]), run[1..]);
    }
  }

  // ---------------------------------------------------------------- the theorems

  function Messages(c: Chain): seq<Bytes> {
    seq(|c.threads|, i requires 0 <= i < |c.threads| => c.threads[i].message)
  }

  /** The messages handed to `parse_message`, in the order of the calls. */
  ghost function Parsed(c: Chain): seq<Bytes>
    requires Inv(c)
  {
    seq(|c.parsed|, k requires 0 <= k < |c.parsed| => c.threads[c.parsed[k]].message)
  }

  lemma ParsedIsPrefix(c: Chain)
    requires Inv(c)
    ensures Parsed(c) <= Messages(c)
  {
    assert forall k | 0 <= k < |c.parsed| :: Parsed(c)[k] == Messages(c)[k];
  }

  /** The messages of the spawned threads of a run. */
  function Spawned(run: seq<Event>): seq<Bytes> {
    if run == [] then [] else (if run[0].Spawn? then [run[0].message] else []) + Spawned(run[1..])
  }

  lemma {:induction false} MessagesAreSpawned(c: Chain, run: seq<Event>)
    requires Feasible(c, run)
    ensures Messages(After(c, run)) == Messages(c) + Spawned(run)
    decreases |run|
  {
    if run != [] {
      MessagesAreSpawned(Apply(c, run[0]), run[1..]);
      assert Messages(Apply(c, run[0])) == Messages(c) + if run[0].Spawn? then [run[0].message] else [];
    }
  }

  /** In every interleaving the messages are parsed in the order in which they were handed to threads. */
  lemma ParsedInOrder(run: seq<Event>)
    requires Feasible(IDLE, run)
    ensures Inv(After(IDLE, run)) && Parsed(After(IDLE, run)) <= Spawned(run)
  {
    RunKeeps(IDLE, run);
    AllSpawned(run);
    ParsedIsPrefix(After(IDLE, run));
  }

  lemma AllSpawned(run: seq<Event>)
    requires Feasible(IDLE, run)
    ensures Messages(After(IDLE, run)) == Spawned(run)
  {
    MessagesAreSpawned(IDLE, run);
    assert Messages(IDLE) + Spawned(run) == Spawned(run);
  }

  predicate Panics(e: Event) {
    e.Panic? || e.AgentPanics?
  }

  /** The lock is poisoned exactly if somebody panicked while holding it, a thread or the agent. */
  lemma {:induction false} PoisonedByPanic(c: Chain, run: seq<Event>)
    requires Feasible(c, run)
    ensures After(c, run).poisoned <==> c.poisoned || exists i | 0 <= i < |run| :: Panics(run[i])
    decreases |run|
  {
    if run != [] {
      PoisonedByPanic(Apply(c, run[0]), run[1..]);
      assert forall i | 0 < i < |run| :: run[i] == run[1..][i - 1];
      if i :| 0 <= i < |run[1..]| && Panics(run[1..][i]) {
        assert Panics(run[i + 1]);
      }
    }
  }

  /** Once the lock is poisoned no further message is parsed. */
  lemma {:induction false} NothingAfterPanic(c: Chain, run: seq<Event>)
    requires c.poisoned && Feasible(c, run)
    ensures After(c, run).poisoned && After(c, run).parsed == c.parsed
    decreases |run|
  {
    if run != [] {
      NothingAfterPanic(Apply(c, run[0]), run[1..]);
    }
  }

  lemma {:induction false} CrashedStays(c: Chain, run: seq<Event>, i: nat)
    requires Feasible(c, run) && i < |c.threads| && c.threads[i].status == Crashed
    ensures i < |After(c, run).threads| && After(c, run).threads[i].status == Crashed
    decreases |run|
  {
    if run != [] {
      CrashedStays(Apply(c, run[0]), run[1..], i);
    }
  }

  /**
   A thread that panics while it parses is the last that parses. In whatever follows, the threads before it have
   finished, and every thread after it, spawned before or later, still waits or has aborted.
   */
  lemma PanicIsFinal(run: seq<Event>, i: nat, later: seq<Event>)
    requires Feasible(IDLE, run) && Enabled(After(IDLE, run), Panic(i))
    requires Feasible(Apply(After(IDLE, run), Panic(i)), later)
    ensures var c, d := After(IDLE, run), After(Apply(After(IDLE, run), Panic(i)), later);
            && d.parsed == c.parsed && |d.parsed| == i + 1 <= |d.threads|
            && (forall j: nat | j < i :: d.threads[j].status == Finished)
            && d.threads[i].status == Crashed
            && forall j: nat | i < j < |d.threads| :: d.threads[j].status in {Waiting, Aborted}
  {
    var c := After(IDLE, run);
    var crashed := Apply(c, Panic(i));
    RunKeeps(IDLE, run);
    assert Placed(c, i, |c.parsed|);
    StepKeeps(c, Panic(i));
    NothingAfterPanic(crashed, later);
    CrashedStays(crashed, later, i);
    RunKeeps(crashed, later);
    var d := After(crashed, later);
    forall j: nat | j < |d.threads|
      ensures (j < i ==> d.threads[j].status == Finished) && (i < j ==> d.threads[j].status in {Waiting, Aborted})
    {
      assert Placed(d, j, |d.parsed|);
    }
  }

  // ---------------------------------------------------------------- one at a time

  /** Somebody gets the user: a thread that parses, or the agent. */
  predicate Enters(c: Chain, e: Event) {
    e.AgentLocks? || (e.Lock? && !c.poisoned)
  }

  predicate Leaves(e: Event) {
    e.Return? || e.Panic? || e.AgentReleases? || e.AgentPanics?
  }

  lemma {:induction false} Prefix(c: Chain, run: seq<Event>, i: nat)
    requires Feasible(c, run) && i <= |run|
    ensures Feasible(c, run[..i]) && Feasible(After(c, run[..i]), run[i..])
    ensures i < |run| ==> Enabled(After(c, run[..i]), run[i])
    decreases |run|
  {
    if i > 0 {
      Prefix(Apply(c, run[0]), run[1..], i - 1);
      assert run[..i][1..] == run[1..][..i - 1] && run[i..] == run[1..][i - 1..];
    } else {
      assert run[..0] == [] && run[0..] == run;
    }
  }

  /** Nobody gets the user while somebody has it. */
  lemma {:induction false} HeldUntilLeft(c: Chain, run: seq<Event>, j: nat)
    requires Feasible(c, run) && j < |run| && c.holder != Nobody && forall i | 0 <= i < j :: !Leaves(run[i])
    ensures Feasible(c, run[..j]) && After(c, run[..j]).holder == c.holder && !Enters(After(c, run[..j]), run[j])
    decreases |run|
  {
    Prefix(c, run, j);
    if j > 0 {
      HeldUntilLeft(Apply(c, run[0]), run[1..], j - 1);
      assert run[..j][1..] == run[1..][..j - 1];
    } else {
      assert run[..0] == [];
    }
  }

  /** In every run, after a thread or the agent got the user nobody gets it before that one is done with it. */
  lemma {:induction false} OneAtATime(c: Chain, run: seq<Event>, i: nat, j: nat)
    requires Feasible(c, run) && i < j < |run| && Feasible(c, run[..i]) && Enters(After(c, run[..i]), run[i])
    requires forall k | i < k < j :: !Leaves(run[k])
    ensures Feasible(c, run[..j]) && !Enters(After(c, run[..j]), run[j])
    decreases |run|
  {
    var rest := run[1..];
    assert run[..j][1..] == rest[..j - 1];
    if i == 0 {
      assert run[..0] == [];
      HeldUntilLeft(Apply(c, run[0]), rest, j - 1);
    } else {
      assert run[..i][1..] == rest[..i - 1];
      OneAtATime(Apply(c, run[0]), rest, i - 1, j - 1);
    }
  }

  // ---------------------------------------------------------------- progress

  predicate CanMove(c: Chain, i: nat) {
    Enabled(c, Join(i)) || Enabled(c, Lock(i)) || Enabled(c, Return(i))
  }

  ghost predicate AllEnded(c: Chain) {
    forall i: nat | i < |c.threads| :: Ended(c.threads[i].status)
  }

  /** In every reachable state in which the agent does not hold the lock, all threads have ended or one can move. */
  lemma NeverStuck(run: seq<Event>)
    requires Feasible(IDLE, run) && After(IDLE, run).holder != Agent
    ensures AllEnded(After(IDLE, run)) || exists i: nat :: CanMove(After(IDLE, run), i)
  {
    var c := After(IDLE, run);
    RunKeeps(IDLE, run);
    if c.holder.Worker? {
      assert Placed(c, c.holder.index, |c.parsed|);
      assert CanMove(c, c.holder.index);
    } else {
      FirstCanMove(c, 0);
    }
  }

  /** With the lock free, the first thread that has not ended can move. */
  lemma {:induction false} FirstCanMove(c: Chain, i: nat)
    requires Inv(c) && c.holder == Nobody && i <= |c.threads|
    requires forall j: nat | j < i :: Ended(c.threads[j].status)
    ensures AllEnded(c) || exists j: nat :: CanMove(c, j)
    decreases |c.threads| - i
  {
    if i < |c.threads| {
      assert Placed(c, i, |c.parsed|) && c.threads[i].previous == if i == 0 then None else Some(i - 1);
      if Ended(c.threads[i].status) {
        FirstCanMove(c, i + 1);
      } else {
        assert CanMove(c, i);
      }
    }
  }

  /** If nothing panicked and all threads have ended, every message has been parsed, in the order of the spawns. */
  lemma AllParsed(run: seq<Event>)
    requires Feasible(IDLE, run) && AllEnded(After(IDLE, run)) && !After(IDLE, run).poisoned
    ensures Inv(After(IDLE, run)) && Parsed(After(IDLE, run)) == Spawned(run)
  {
    var c := After(IDLE, run);
    ParsedInOrder(run);
    AllSpawned(run);
    assert |c.parsed| < |c.threads| ==> Placed(c, |c.parsed|, |c.parsed|);
  }
}
