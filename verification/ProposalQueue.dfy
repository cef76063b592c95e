/**
 The proposal queue of a group: proposals under one label, the list of their references under another.
 It is a first-in first-out list of (reference, proposal) as long as no reference is queued while it is present.
 */
module ProposalQueue {
  import opened Basics
  import opened FlatStore

  const CURRENT_VERSION: Version := 1

  type Group = Bytes
  type Ref = Bytes
  type Proposal = Bytes

  function RefsKey(j: Json, g: Group): Bytes {
    StorageKey(ProposalQueueRefs, j.value(g), CURRENT_VERSION)
  }

  function ProposalKey(j: Json, g: Group, r: Ref): Bytes {
    StorageKey(QueuedProposal, j.pair(g, r), CURRENT_VERSION)
  }

  // ---------------------------------------------------------------- locked steps

  function WriteProposal(j: Json, values: Values, g: Group, r: Ref, p: Proposal): Values {
    Flat(j, values, Call(QueuedProposal, j.pair(g, r), CURRENT_VERSION, Write(j.value(p)))).0
  }

  function AppendRef(j: Json, values: Values, g: Group, r: Ref): Values {
    Flat(j, values, Call(ProposalQueueRefs, j.value(g), CURRENT_VERSION, Append(j.value(r)))).0
  }

  function RemoveRef(j: Json, values: Values, g: Group, r: Ref): Values {
    Flat(j, values, Call(ProposalQueueRefs, j.value(g), CURRENT_VERSION, RemoveItem(j.value(r)))).0
  }

  function DeleteProposal(j: Json, values: Values, g: Group, r: Ref): Values {
    Flat(j, values, Call(QueuedProposal, j.pair(g, r), CURRENT_VERSION, Delete)).0
  }

  /** The keys removed here carry no label. */
  function RemovePairs(j: Json, values: Values, g: Group, refs: seq<Ref>): Values {
    if refs == [] then values else RemovePairs(j, values - {j.pair(g, refs[0])}, g, refs[1..])
  }

  // ---------------------------------------------------------------- operations

  function Queue(j: Json, values: Values, g: Group, r: Ref, p: Proposal): Values {
    AppendRef(j, WriteProposal(j, values, g, r, p), g, r)
  }

  function Remove(j: Json, values: Values, g: Group, r: Ref): Values {
    DeleteProposal(j, RemoveRef(j, values, g, r), g, r)
  }

  /** `queued_proposal_refs`; `None`: the list, or an item of it, cannot be read. */
  function Refs(j: Json, values: Values, g: Group): Option<seq<Ref>> {
    var answer := Flat(j, values, Call(ProposalQueueRefs, j.value(g), CURRENT_VERSION, ReadList)).1;
    if answer.Items? then Some(answer.list) else None
  }

  function Clear(j: Json, values: Values, g: Group): Option<Values> {
    var refs := Refs(j, values, g);
    if refs.None? then None else Some(RemovePairs(j, values, g, refs.value) - {RefsKey(j, g)})
  }

  /** Each reference with its proposal; `None`: one is missing, which makes the source panic, or cannot be read. */
  function Lookups(j: Json, values: Values, g: Group, refs: seq<Ref>): Option<seq<(Ref, Proposal)>> {
    if refs == [] then Some([])
    else
      var found := ValueIn(j, Lookup(values, ProposalKey(j, g, refs[0])));
      var p := if found.Found? then found.value else None;
      var rest := Lookups(j, values, g, refs[1..]);
      if p.None? || rest.None? then None else Some([(refs[0], p.value)] + rest.value)
  }

  function QueuedProposals(j: Json, values: Values, g: Group): Option<seq<(Ref, Proposal)>> {
    var refs := Refs(j, values, g);
    if refs.None? then None else Lookups(j, values, g, refs.value)
  }

  // ---------------------------------------------------------------- the methods

  method QueueProposal(store: MemoryStorage, g: Group, r: Ref, p: Proposal) returns (answer: Answer)
    modifies store`values
    ensures store.values == Queue(store.json, old(store.values), g, r, p)
  {
    store.WriteValue(QueuedProposal, store.json.pair(g, r), CURRENT_VERSION, store.json.value(p));
    answer := store.UpdateList(ProposalQueueRefs, store.json.value(g), CURRENT_VERSION, Append(store.json.value(r)));
  }

  method RemoveProposal(store: MemoryStorage, g: Group, r: Ref) returns (answer: Answer)
    modifies store`values
    ensures answer == Done ==> store.values == Remove(store.json, old(store.values), g, r)
    ensures answer != Done ==> store.values == RemoveRef(store.json, old(store.values), g, r)
  {
    answer := store.UpdateList(ProposalQueueRefs, store.json.value(g), CURRENT_VERSION,
                               RemoveItem(store.json.value(r)));
    if answer == Done {
      store.DeleteValue(QueuedProposal, store.json.pair(g, r), CURRENT_VERSION);
    }
  }

  method ReadRefs(store: MemoryStorage, g: Group) returns (refs: Option<seq<Ref>>)
    ensures refs == Refs(store.json, store.values, g)
  {
    var answer := store.ReadItems(ProposalQueueRefs, store.json.value(g), CURRENT_VERSION);
    refs := if answer.Items? then Some(answer.list) else None;
  }

  function Prefixed(done: seq<(Ref, Proposal)>, rest: Option<seq<(Ref, Proposal)>>): (r: Option<seq<(Ref, Proposal)>>)
    ensures done == [] ==> r == rest
  {
    if rest.None? then None
    else
      assert done == [] ==> done + rest.value == rest.value;
      Some(done + rest.value)
  }

  method ReadQueuedProposals(store: MemoryStorage, g: Group) returns (out: Option<seq<(Ref, Proposal)>>)
    ensures out == QueuedProposals(store.json, store.values, g)
  {
    var refs := ReadRefs(store, g);
    if refs.None? {
      return None;
    }
    ghost var j, values := store.json, store.values;
    var done: seq<(Ref, Proposal)> := [];
    assert refs.value[0..] == refs.value;
    var i := 0;
    while i < |refs.value|
      invariant 0 <= i <= |refs.value|
      invariant Lookups(j, values, g, refs.value) == Prefixed(done, Lookups(j, values, g, refs.value[i..]))
    {
      assert refs.value[i..][1..] == refs.value[i + 1..];
      var answer := store.ReadValue(QueuedProposal, store.json.pair(g, refs.value[i]), CURRENT_VERSION);
      var p := if answer.Found? then answer.value else None;
      if p.None? {
        return None;
      }
      var entry := (refs.value[i], p.value);
      assert forall rest: seq<(Ref, Proposal)> :: done + ([entry] + rest) == done + [entry] + rest;
      done := done + [entry];
      i := i + 1;
    }
    assert refs.value[i..] == [] && done + [] == done;
    out := Some(done);
  }

  method ClearProposalQueue(store: MemoryStorage, g: Group) returns (cleared: bool)
    modifies store`values
    ensures var after := Clear(store.json, old(store.values), g);
            cleared == after.Some? && store.values == if cleared then after.value else old(store.values)
  {
    var refs := ReadRefs(store, g);
    if refs.None? {
      return false;
    }
    var i := 0;
    while i < |refs.value|
      invariant 0 <= i <= |refs.value|
      invariant RemovePairs(store.json, store.values, g, refs.value[i..])
                == RemovePairs(store.json, old(store.values), g, refs.value)
    {
      assert refs.value[i..][1..] == refs.value[i + 1..];
      store.values := store.values - {store.json.pair(g, refs.value[i])};
      i := i + 1;
    }
    assert refs.value[i..] == [];
    store.values := store.values - {RefsKey(store.json, g)};
    cleared := true;
  }

  // ---------------------------------------------------------------- the list it stands for

  type Fifo = seq<(Ref, Proposal)>

  function RefsOf(q: Fifo): (r: seq<Ref>)
    ensures |r| == |q| && forall i | 0 <= i < |q| :: r[i] == q[i].0
  {
    seq(|q|, i requires 0 <= i < |q| => q[i].0)
  }

  function Encoded(j: Json, refs: seq<Ref>): (r: seq<Bytes>)
    ensures |r| == |refs| && forall i | 0 <= i < |r| :: r[i] == j.value(refs[i])
  {
    seq(|refs|, i requires 0 <= i < |refs| => j.value(refs[i]))
  }

  /** The list of references as it is stored. */
  predicate Lists(j: Json, values: Values, g: Group, refs: seq<Ref>) {
    var cell := Lookup(values, RefsKey(j, g));
    cell == Some(j.list(Encoded(j, refs))) || (cell == None && refs == [])
  }

  /** Every reference in the queue has its proposal stored. */
  ghost predicate Stores(j: Json, values: Values, g: Group, q: Fifo) {
    forall x | x in q :: Lookup(values, ProposalKey(j, g, x.0)) == Some(j.value(x.1))
  }

  ghost predicate Holds(j: Json, values: Values, g: Group, q: Fifo) {
    Lists(j, values, g, RefsOf(q)) && Stores(j, values, g, q)
  }

  lemma {:induction false} ParseEncoded(j: Json, refs: seq<Ref>)
    requires j.Lawful()
    ensures ParseAll(j, Encoded(j, refs)) == Some(refs)
  {
    if refs != [] {
      assert Encoded(j, refs)[1..] == Encoded(j, refs[1..]);
      ParseEncoded(j, refs[1..]);
      assert refs == [refs[0]] + refs[1..];
    }
  }

  lemma RefsRead(j: Json, values: Values, g: Group, refs: seq<Ref>)
    requires j.Lawful() && Lists(j, values, g, refs)
    ensures Refs(j, values, g) == Some(refs)
  {
    ParseEncoded(j, refs);
  }

  lemma {:induction false} LookupsRead(j: Json, values: Values, g: Group, q: Fifo)
    requires j.Lawful() && Stores(j, values, g, q)
    ensures Lookups(j, values, g, RefsOf(q)) == Some(q)
  {
    if q != [] {
      assert q[0] in q;
      assert RefsOf(q)[1..] == RefsOf(q[1..]);
      LookupsRead(j, values, g, q[1..]);
      assert q == [q[0]] + q[1..];
    }
  }

  /** What a queue holds is read in its order. */
  lemma ReadsQueue(j: Json, values: Values, g: Group, q: Fifo)
    requires j.Lawful() && Holds(j, values, g, q)
    ensures QueuedProposals(j, values, g) == Some(q)
  {
    RefsRead(j, values, g, RefsOf(q));
    LookupsRead(j, values, g, q);
  }

  // ---------------------------------------------------------------- keys

  lemma RefsKeys(j: Json, g: Group, g': Group)
    requires j.Lawful()
    ensures RefsKey(j, g) == RefsKey(j, g') <==> g == g'
  {
    StorageKeyInjective(ProposalQueueRefs, j.value(g), 1, ProposalQueueRefs, j.value(g'), 1);
    assert j.parseValue(j.value(g)) == Some(g) && j.parseValue(j.value(g')) == Some(g');
  }

  lemma ProposalKeys(j: Json, g: Group, r: Ref, g': Group, r': Ref)
    requires j.Lawful()
    ensures ProposalKey(j, g, r) == ProposalKey(j, g', r') <==> (g, r) == (g', r')
  {
    StorageKeyInjective(QueuedProposal, j.pair(g, r), 1, QueuedProposal, j.pair(g', r'), 1);
    assert j.parsePair(j.pair(g, r)) == Some((g, r)) && j.parsePair(j.pair(g', r')) == Some((g', r'));
  }

  lemma LabelsApart(j: Json, g: Group, g': Group, r: Ref)
    ensures RefsKey(j, g) != ProposalKey(j, g', r)
  {
    StorageKeyInjective(ProposalQueueRefs, j.value(g), 1, QueuedProposal, j.pair(g', r), 1);
  }

  lemma NoBracket(l: Label)
    ensures Text(l) != [] && Text(l)[0] as int % 256 != '[' as int
  {
  }

  /** A pair written without a label is not a storage key. */
  lemma Unlabelled(j: Json, g: Group, r: Ref, l: Label, key: Bytes, v: Version)
    requires j.Lawful()
    ensures j.pair(g, r) != StorageKey(l, key, v)
  {
    NoBracket(l);
    assert j.pair(g, r)[0] == Ascii("[")[0] == '[' as int;
    assert StorageKey(l, key, v)[0] == Ascii(Text(l))[0];
  }

  // ---------------------------------------------------------------- what each locked step keeps

  type Queues = Group -> Fifo

  function With(queues: Queues, g: Group, q: Fifo): Queues {
    (x: Group) => if x == g then q else queues(x)
  }

  ghost predicate Represents(j: Json, values: Values, queues: Queues) {
    forall g :: Holds(j, values, g, queues(g))
  }

  lemma ProposalWritten(j: Json, values: Values, queues: Queues, g: Group, r: Ref, p: Proposal)
    requires j.Lawful() && Represents(j, values, queues) && r !in RefsOf(queues(g))
    ensures Represents(j, WriteProposal(j, values, g, r, p), queues)
    ensures Lookup(WriteProposal(j, values, g, r, p), ProposalKey(j, g, r)) == Some(j.value(p))
  {
    var after := WriteProposal(j, values, g, r, p);
    forall x ensures Holds(j, after, x, queues(x)) {
      assert Holds(j, values, x, queues(x));
      LabelsApart(j, x, g, r);
      forall e | e in queues(x) ensures Lookup(after, ProposalKey(j, x, e.0)) == Some(j.value(e.1)) {
        ProposalKeys(j, g, r, x, e.0);
        assert e.0 in RefsOf(queues(x)) by {
          var i :| 0 <= i < |queues(x)| && queues(x)[i] == e;
          assert RefsOf(queues(x))[i] == e.0;
        }
      }
    }
  }

  lemma ProposalDeleted(j: Json, values: Values, queues: Queues, g: Group, r: Ref)
    requires j.Lawful() && Represents(j, values, queues) && r !in RefsOf(queues(g))
    ensures Represents(j, DeleteProposal(j, values, g, r), queues)
  {
    var after := DeleteProposal(j, values, g, r);
    forall x ensures Holds(j, after, x, queues(x)) {
      assert Holds(j, values, x, queues(x));
      LabelsApart(j, x, g, r);
      forall e | e in queues(x) ensures Lookup(after, ProposalKey(j, x, e.0)) == Some(j.value(e.1)) {
        ProposalKeys(j, g, r, x, e.0);
        assert e.0 in RefsOf(queues(x)) by {
          var i :| 0 <= i < |queues(x)| && queues(x)[i] == e;
          assert RefsOf(queues(x))[i] == e.0;
        }
      }
    }
  }

  /** The list of one group changes; what its new entries need is stored. */
  lemma ListChanged(j: Json, values: Values, queues: Queues, g: Group, after: Values, q: Fifo)
    requires j.Lawful() && Represents(j, values, queues)
    requires forall k | k != RefsKey(j, g) :: Lookup(after, k) == Lookup(values, k)
    requires Lists(j, after, g, RefsOf(q)) && Stores(j, values, g, q)
    ensures Represents(j, after, With(queues, g, q))
  {
    forall x ensures Holds(j, after, x, With(queues, g, q)(x)) {
      assert Holds(j, values, x, queues(x));
      RefsKeys(j, g, x);
      forall e | e in With(queues, g, q)(x) ensures Lookup(after, ProposalKey(j, x, e.0)) == Some(j.value(e.1)) {
        LabelsApart(j, g, x, e.0);
      }
    }
  }

  lemma RefAppended(j: Json, values: Values, queues: Queues, g: Group, r: Ref, p: Proposal)
    requires j.Lawful() && Represents(j, values, queues)
    requires Lookup(values, ProposalKey(j, g, r)) == Some(j.value(p))
    ensures Represents(j, AppendRef(j, values, g, r), With(queues, g, queues(g) + [(r, p)]))
  {
    var q := queues(g);
    assert Holds(j, values, g, q);
    assert Encoded(j, RefsOf(q)) + [j.value(r)] == Encoded(j, RefsOf(q + [(r, p)]));
    assert Encoded(j, []) == [];
    ListChanged(j, values, queues, g, AppendRef(j, values, g, r), q + [(r, p)]);
  }

  /** The queue without the first entry of a reference. */
  function Dropped(q: Fifo, r: Ref): Fifo {
    if q == [] then [] else if q[0].0 == r then q[1..] else [q[0]] + Dropped(q[1..], r)
  }

  lemma EncodedTail(j: Json, q: Fifo)
    requires q != []
    ensures Encoded(j, RefsOf(q)) == [j.value(q[0].0)] + Encoded(j, RefsOf(q[1..]))
  {
  }

  lemma {:induction false} DroppedEncoded(j: Json, q: Fifo, r: Ref)
    requires j.Lawful()
    ensures WithoutFirst(Encoded(j, RefsOf(q)), j.value(r)) == Encoded(j, RefsOf(Dropped(q, r)))
  {
    if q == [] {
      assert Encoded(j, RefsOf(q)) == [];
    } else {
      assert j.parseValue(j.value(r)) == Some(r) && j.parseValue(j.value(q[0].0)) == Some(q[0].0);
      EncodedTail(j, q);
      assert Encoded(j, RefsOf(q))[1..] == Encoded(j, RefsOf(q[1..]));
      if q[0].0 != r {
        DroppedEncoded(j, q[1..], r);
        assert ([q[0]] + Dropped(q[1..], r))[1..] == Dropped(q[1..], r);
        EncodedTail(j, [q[0]] + Dropped(q[1..], r));
      }
    }
  }

  lemma {:induction false} DroppedIsPart(q: Fifo, r: Ref)
    ensures forall e | e in Dropped(q, r) :: e in q
  {
    if q != [] {
      DroppedIsPart(q[1..], r);
    }
  }

  lemma RefRemoved(j: Json, values: Values, queues: Queues, g: Group, r: Ref)
    requires j.Lawful() && Represents(j, values, queues)
    ensures Represents(j, RemoveRef(j, values, g, r), With(queues, g, Dropped(queues(g), r)))
  {
    var q := queues(g);
    assert Holds(j, values, g, q);
    DroppedEncoded(j, q, r);
    DroppedIsPart(q, r);
    assert Encoded(j, []) == [];
    ListChanged(j, values, queues, g, RemoveRef(j, values, g, r), Dropped(q, r));
  }

  /** Removing unlabelled pairs changes no entry. */
  lemma {:induction false} PairsRemoved(j: Json, values: Values, g: Group, refs: seq<Ref>, l: Label, key: Bytes,
                                        v: Version)
    requires j.Lawful()
    ensures Lookup(RemovePairs(j, values, g, refs), StorageKey(l, key, v)) == Lookup(values, StorageKey(l, key, v))
    decreases |refs|
  {
    if refs != [] {
      Unlabelled(j, g, refs[0], l, key, v);
      PairsRemoved(j, values - {j.pair(g, refs[0])}, g, refs[1..], l, key, v);
    }
  }

  /** Exactly the unlabelled pairs of the references are removed. */
  lemma {:induction false} PairsGone(j: Json, values: Values, g: Group, refs: seq<Ref>, k: Bytes)
    ensures Lookup(RemovePairs(j, values, g, refs), k)
            == if exists r :: r in refs && k == j.pair(g, r) then None else Lookup(values, k)
    decreases |refs|
  {
    if refs != [] {
      PairsGone(j, values - {j.pair(g, refs[0])}, g, refs[1..], k);
      assert forall r :: r in refs <==> r == refs[0] || r in refs[1..];
    }
  }

  /** Clearing a queue deletes no proposal, of this group or of others. */
  lemma ProposalsStay(j: Json, values: Values, g: Group, x: Group, r: Ref)
    requires j.Lawful() && Clear(j, values, g).Some?
    ensures Lookup(Clear(j, values, g).value, ProposalKey(j, x, r)) == Lookup(values, ProposalKey(j, x, r))
  {
    PairsRemoved(j, values, g, Refs(j, values, g).value, QueuedProposal, j.pair(x, r), CURRENT_VERSION);
    LabelsApart(j, g, x, r);
  }

  /** The proposals stay behind, but the queue is empty; other groups keep theirs. */
  lemma QueueCleared(j: Json, values: Values, queues: Queues, g: Group)
    requires j.Lawful() && Represents(j, values, queues)
    ensures Clear(j, values, g).Some? && Represents(j, Clear(j, values, g).value, With(queues, g, []))
    ensures forall x, r ::
              Lookup(Clear(j, values, g).value, ProposalKey(j, x, r)) == Lookup(values, ProposalKey(j, x, r))
  {
    var refs := RefsOf(queues(g));
    assert Holds(j, values, g, queues(g));
    RefsRead(j, values, g, refs);
    var mid := RemovePairs(j, values, g, refs);
    forall x ensures Holds(j, mid, x, queues(x)) {
      assert Holds(j, values, x, queues(x));
      PairsRemoved(j, values, g, refs, ProposalQueueRefs, j.value(x), 1);
      forall e | e in queues(x) ensures Lookup(mid, ProposalKey(j, x, e.0)) == Some(j.value(e.1)) {
        PairsRemoved(j, values, g, refs, QueuedProposal, j.pair(x, e.0), 1);
      }
    }
    ListChanged(j, mid, queues, g, mid - {RefsKey(j, g)}, []);
    forall x, r
      ensures Lookup(Clear(j, values, g).value, ProposalKey(j, x, r)) == Lookup(values, ProposalKey(j, x, r))
    {
      ProposalsStay(j, values, g, x, r);
    }
  }

  // ---------------------------------------------------------------- runs

  datatype Op =
    | Queued(group: Group, ref: Ref, proposal: Proposal)
    | Removed(group: Group, ref: Ref)
    | Cleared(group: Group)

  /** The queues after the operations. */
  function Expected(run: seq<Op>): Queues {
    if run == [] then (g: Group) => []
    else Stepped(Expected(run[..|run| - 1]), run[|run| - 1])
  }

  function Stepped(queues: Queues, op: Op): Queues {
    match op
    case Queued(g, r, p) => With(queues, g, queues(g) + [(r, p)])
    case Removed(g, r) => With(queues, g, Dropped(queues(g), r))
    case Cleared(g) => With(queues, g, [])
  }

  function Next(j: Json, values: Values, op: Op): Values {
    match op
    case Queued(g, r, p) => Queue(j, values, g, r, p)
    case Removed(g, r) => Remove(j, values, g, r)
    case Cleared(g) =>
      var after := Clear(j, values, g);
      if after.None? then values else after.value
  }

  /** The store after the operations. */
  function After(j: Json, run: seq<Op>): Values {
    if run == [] then map[] else Next(j, After(j, run[..|run| - 1]), run[|run| - 1])
  }

  /** No reference is queued while it is present in the group's queue. */
  ghost predicate Fresh(run: seq<Op>) {
    run != [] ==>
      var front, last := run[..|run| - 1], run[|run| - 1];
      Fresh(front) && (last.Queued? ==> last.ref !in RefsOf(Expected(front)(last.group)))
  }

  ghost predicate Unique(q: Fifo) {
    forall i, j | 0 <= i < j < |q| :: q[i].0 != q[j].0
  }

  lemma {:induction false} DroppedUnique(q: Fifo, r: Ref)
    requires Unique(q)
    ensures Unique(Dropped(q, r)) && r !in RefsOf(Dropped(q, r)) && forall e | e in Dropped(q, r) :: e in q
  {
    if q != [] {
      DroppedUnique(q[1..], r);
      var rest := Dropped(q[1..], r);
      if q[0].0 != r {
        forall i | 0 <= i < |rest| ensures rest[i].0 != q[0].0 {
          assert rest[i] in q[1..];
        }
      }
    }
  }

  lemma StaysUnique(queues: Queues, op: Op)
    requires forall g :: Unique(queues(g))
    requires op.Queued? ==> op.ref !in RefsOf(queues(op.group))
    ensures forall g :: Unique(Stepped(queues, op)(g))
  {
    var q := queues(op.group);
    if op.Queued? {
      assert RefsOf(q) + [op.ref] == RefsOf(q + [(op.ref, op.proposal)]);
      assert forall i | 0 <= i < |q| :: RefsOf(q)[i] != op.ref;
      assert Unique(q + [(op.ref, op.proposal)]);
    } else if op.Removed? {
      DroppedUnique(q, op.ref);
    }
  }

  lemma StepAgrees(j: Json, values: Values, queues: Queues, op: Op)
    requires j.Lawful() && Represents(j, values, queues) && forall g :: Unique(queues(g))
    requires op.Queued? ==> op.ref !in RefsOf(queues(op.group))
    ensures Represents(j, Next(j, values, op), Stepped(queues, op))
  {
    match op
    case Queued(g, r, p) =>
      ProposalWritten(j, values, queues, g, r, p);
      RefAppended(j, WriteProposal(j, values, g, r, p), queues, g, r, p);
    case Removed(g, r) =>
      DroppedUnique(queues(g), r);
      RefRemoved(j, values, queues, g, r);
      ProposalDeleted(j, RemoveRef(j, values, g, r), With(queues, g, Dropped(queues(g), r)), g, r);
    case Cleared(g) => QueueCleared(j, values, queues, g);
  }

  /** The store stands for the expected queues, whose references are unique. */
  lemma {:induction false} RunsAgree(j: Json, run: seq<Op>)
    requires j.Lawful() && Fresh(run)
    ensures Represents(j, After(j, run), Expected(run)) && forall g :: Unique(Expected(run)(g))
    decreases |run|
  {
    if run != [] {
      RunsAgree(j, run[..|run| - 1]);
      StaysUnique(Expected(run[..|run| - 1]), run[|run| - 1]);
      StepAgrees(j, After(j, run[..|run| - 1]), Expected(run[..|run| - 1]), run[|run| - 1]);
    }
  }

  /** After every such run the proposals are read without a panic and in the order of the queue. */
  lemma QueueIsFifo(j: Json, run: seq<Op>, g: Group)
    requires j.Lawful() && Fresh(run)
    ensures QueuedProposals(j, After(j, run), g) == Some(Expected(run)(g))
  {
    RunsAgree(j, run);
    ReadsQueue(j, After(j, run), g, Expected(run)(g));
  }

  /** Between the two locked steps of an operation, a reader sees the queue before queueing, or after removing. */
  lemma ReadBetweenSteps(j: Json, run: seq<Op>, op: Op, g: Group)
    requires j.Lawful() && Fresh(run + [op])
    ensures op.Queued? ==>
              QueuedProposals(j, WriteProposal(j, After(j, run), op.group, op.ref, op.proposal), g)
                == Some(Expected(run)(g))
    ensures op.Removed? ==>
              QueuedProposals(j, RemoveRef(j, After(j, run), op.group, op.ref), g) == Some(Expected(run + [op])(g))
  {
    assert (run + [op])[..|run|] == run;
    RunsAgree(j, run);
    var values, queues := After(j, run), Expected(run);
    if op.Queued? {
      ProposalWritten(j, values, queues, op.group, op.ref, op.proposal);
      ReadsQueue(j, WriteProposal(j, values, op.group, op.ref, op.proposal), g, queues(g));
    } else if op.Removed? {
      RefRemoved(j, values, queues, op.group, op.ref);
      ReadsQueue(j, RemoveRef(j, values, op.group, op.ref), g, Stepped(queues, op)(g));
    }
  }

  // ---------------------------------------------------------------- a reference queued twice

  lemma {:induction false} MissingProposal(j: Json, values: Values, g: Group, refs: seq<Ref>, r: Ref)
    requires r in refs && Lookup(values, ProposalKey(j, g, r)) == None
    ensures Lookups(j, values, g, refs) == None
  {
    if refs[0] != r {
      MissingProposal(j, values, g, refs[1..], r);
    }
  }

  /** Dropping the first of two entries of a reference leaves the other. */
  lemma {:induction false} StillListed(q: Fifo, r: Ref, p: Proposal)
    requires r in RefsOf(q)
    ensures r in RefsOf(Dropped(q + [(r, p)], r))
  {
    var all := q + [(r, p)];
    if q[0].0 == r {
      assert RefsOf(all[1..])[|q| - 1] == r;
    } else {
      assert RefsOf(q)[1..] == RefsOf(q[1..]) && all[1..] == q[1..] + [(r, p)];
      StillListed(q[1..], r, p);
      var rest := Dropped(all[1..], r);
      var i :| 0 <= i < |rest| && RefsOf(rest)[i] == r;
      assert RefsOf([q[0]] + rest)[i + 1] == r;
    }
  }

  /** The list after queueing and removing a reference, whether it was present or not. */
  lemma ListedAfter(j: Json, values: Values, g: Group, q: Fifo, r: Ref, p: Proposal)
    requires j.Lawful() && Lists(j, values, g, RefsOf(q))
    ensures Lists(j, Remove(j, Queue(j, values, g, r, p), g, r), g, RefsOf(Dropped(q + [(r, p)], r)))
    ensures Lookup(Remove(j, Queue(j, values, g, r, p), g, r), ProposalKey(j, g, r)) == None
  {
    LabelsApart(j, g, g, r);
    ListedQueued(j, values, g, q, r, p);
    ListedRemoved(j, Queue(j, values, g, r, p), g, q + [(r, p)], r);
  }

  lemma ListedQueued(j: Json, values: Values, g: Group, q: Fifo, r: Ref, p: Proposal)
    requires j.Lawful() && Lists(j, values, g, RefsOf(q))
    ensures Lists(j, Queue(j, values, g, r, p), g, RefsOf(q + [(r, p)]))
  {
    LabelsApart(j, g, g, r);
    assert Encoded(j, RefsOf(q)) + [j.value(r)] == Encoded(j, RefsOf(q + [(r, p)]));
    assert Encoded(j, []) == [];
  }

  lemma ListedRemoved(j: Json, values: Values, g: Group, q: Fifo, r: Ref)
    requires j.Lawful() && Lists(j, values, g, RefsOf(q))
    ensures Lists(j, Remove(j, values, g, r), g, RefsOf(Dropped(q, r)))
  {
    LabelsApart(j, g, g, r);
    DroppedEncoded(j, q, r);
    assert Encoded(j, []) == [];
  }

  /** Queueing a reference and removing it again leaves a readable queue exactly if it was not present before. */
  lemma RequeueThenRemove(j: Json, run: seq<Op>, g: Group, r: Ref, p: Proposal)
    requires j.Lawful() && Fresh(run)
    ensures QueuedProposals(j, After(j, run + [Queued(g, r, p), Removed(g, r)]), g).Some?
            <==> r !in RefsOf(Expected(run)(g))
  {
    var twice := run + [Queued(g, r, p), Removed(g, r)];
    assert twice[..|run| + 1] == run + [Queued(g, r, p)] && (run + [Queued(g, r, p)])[..|run|] == run;
    if r !in RefsOf(Expected(run)(g)) {
      assert Fresh(run + [Queued(g, r, p)]) && Fresh(twice);
      QueueIsFifo(j, twice, g);
    } else {
      RunsAgree(j, run);
      assert After(j, twice) == Remove(j, Queue(j, After(j, run), g, r, p), g, r);
      assert Holds(j, After(j, run), g, Expected(run)(g));
      Unreadable(j, After(j, run), g, Expected(run)(g), r, p);
    }
  }

  lemma Unreadable(j: Json, values: Values, g: Group, q: Fifo, r: Ref, p: Proposal)
    requires j.Lawful() && Lists(j, values, g, RefsOf(q)) && r in RefsOf(q)
    ensures QueuedProposals(j, Remove(j, Queue(j, values, g, r, p), g, r), g).None?
  {
    var after, left := Remove(j, Queue(j, values, g, r, p), g, r), RefsOf(Dropped(q + [(r, p)], r));
    ListedAfter(j, values, g, q, r, p);
    StillListed(q, r, p);
    RefsRead(j, after, g, left);
    MissingProposal(j, after, g, left, r);
  }
}
