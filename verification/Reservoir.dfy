/**
 What one commit does to the slot table, for every sample and every draw: the table stays packed,
 members are evicted only from a full table, and which slots each policy can touch.
 */
module Reservoir {
  import opened Slots

  /** A name in front of a packed table without it. */
  lemma PackedCons(x: Name, rest: seq<Name>, k: nat)
    requires x != NOBODY && x !in rest && Packed(rest, k)
    ensures Packed([x] + rest, k + 1)
  {
    var slots := [x] + rest;
    assert slots[..k + 1] == [x] + rest[..k];
    assert forall i | 0 < i < |slots| :: slots[i] == rest[i - 1];
    assert forall i | 0 <= i < k :: rest[..k][i] in rest;
  }

  /** One addition: what it keeps, whom it evicts, and when the new member gets a slot. */
  lemma AddOneEffect(p: Parameters, slots: seq<Name>, name: Name, sample: nat)
    requires Table(p, slots) && name != NOBODY && name !in slots
    ensures Table(p, AddOne(p, slots, name, sample))
    ensures var k := Filled(slots);
            var next := AddOne(p, slots, name, sample);
            && (name in next <==> k < p.committers || sample < p.processers)
            && Active(next) <= Active(slots) + {name}
            && (Active(slots) <= Active(next) <==> !(k == p.processers && sample < p.processers))
            && Filled(next) == if k < p.processers && name in next then k + 1 else k
  {
    var k := Filled(slots);
    var next := AddOne(p, slots, name, sample);
    if k < p.committers {
      assert next[..k + 1] == slots[..k] + [name];
      PlaceAtEnd(slots, k, name);
    } else if sample < p.processers {
      if k == p.processers {
        PlaceOver(slots, k, sample, name);
      } else if sample < k {
        PlaceAtEnd(slots, k, name);
        PlaceSwapped(slots, k, sample, name);
      } else {
        PlaceAtEnd(slots, k, name);
      }
    }
  }

  lemma PlaceAtEnd(slots: seq<Name>, k: nat, name: Name)
    requires Packed(slots, k) && k < |slots| && name != NOBODY && name !in slots
    ensures var next := slots[k := name];
            Packed(next, k + 1) && Filled(next) == k + 1 && Active(next) == Active(slots) + {name}
  {
    var next := slots[k := name];
    assert next[..k + 1] == slots[..k] + [name];
    assert forall i | 0 <= i < k :: slots[..k][i] in slots;
    FilledWhenPacked(next, k + 1);
    assert next[k] == name;
    forall x | x in Active(slots) ensures x in next {
      var i :| 0 <= i < |slots| && slots[i] == x;
      assert next[i] == x;
    }
  }

  lemma PlaceOver(slots: seq<Name>, k: nat, at: nat, name: Name)
    requires Packed(slots, k) && at < k && name != NOBODY && name !in slots
    ensures var next := slots[at := name];
            && Packed(next, k) && Filled(next) == k && name in next
            && Active(next) == Active(slots) - {slots[at]} + {name}
  {
    var next := slots[at := name];
    assert next[at] == name;
    assert next[..k] == slots[..k][at := name];
    assert forall i | 0 <= i < k :: slots[..k][i] in slots;
    FilledWhenPacked(next, k);
    forall x | x in Active(slots) - {slots[at]} ensures x in next {
      var i :| 0 <= i < |slots| && slots[i] == x;
      assert next[i] == x;
    }
    forall x | x in Active(next) && x != name ensures x in Active(slots) - {slots[at]} {
      var i :| 0 <= i < |slots| && next[i] == x;
      assert i != at && i < k;
      assert slots[..k][i] != slots[..k][at];
    }
  }

  lemma PlaceSwapped(slots: seq<Name>, k: nat, at: nat, name: Name)
    requires Packed(slots, k) && at < k < |slots| && name != NOBODY && name !in slots
    ensures var next := slots[k := slots[at]][at := name];
            && Packed(next, k + 1) && Filled(next) == k + 1 && name in next
            && Active(next) == Active(slots) + {name}
  {
    var over := slots[at := name];
    PlaceOver(slots, k, at, name);
    assert slots[at] !in Active(over) && slots[at] != NOBODY;
    PlaceAtEnd(over, k, slots[at]);
    assert slots[k := slots[at]][at := name] == over[k := slots[at]];
    assert slots[k := slots[at]][at := name][at] == name;
  }

  ghost predicate Joinable(slots: seq<Name>, names: seq<Name>) {
    Distinct(names) && NOBODY !in names && forall x | x in names :: x !in slots
  }

  lemma JoinableRest(p: Parameters, slots: seq<Name>, names: seq<Name>, sample: nat)
    requires Table(p, slots) && Joinable(slots, names) && names != []
    ensures Joinable(AddOne(p, slots, names[0], sample), names[1..])
  {
    var next := AddOne(p, slots, names[0], sample);
    AddOneEffect(p, slots, names[0], sample);
    forall x | x in names[1..] ensures x !in next && x != NOBODY {
      var i :| 0 <= i < |names[1..]| && names[1..][i] == x;
      assert names[i + 1] == x && names[0] != x;
      assert x in names;
      assert x in next ==> x in Active(next);
    }
  }

  /** What one addition after another can do to the table. */
  ghost predicate Extends(p: Parameters, slots: seq<Name>, names: seq<Name>, next: seq<Name>) {
    && Table(p, next)
    && Active(next) <= Active(slots) + Named(names)
    && Filled(slots) <= Filled(next)
    && Min(p.committers, Filled(slots) + |names|) <= Filled(next) <= Filled(slots) + |names|
    && (Filled(slots) + |names| <= p.processers ==> Active(slots) <= Active(next))
  }

  lemma ExtendsFirst(p: Parameters, slots: seq<Name>, name: Name, sample: nat)
    requires Table(p, slots) && name != NOBODY && name !in slots
    ensures Extends(p, slots, [name], AddOne(p, slots, name, sample))
  {
    AddOneEffect(p, slots, name, sample);
    assert name in [name];
  }

  lemma ExtendsMore(p: Parameters, slots: seq<Name>, names: seq<Name>, mid: seq<Name>, next: seq<Name>)
    requires names != [] && Extends(p, slots, [names[0]], mid) && Extends(p, mid, names[1..], next)
    ensures Extends(p, slots, names, next)
  {
    NamedSplit(names);
  }

  /** All additions of one commit, for every draw. */
  lemma {:induction false} AddAllEffect(p: Parameters, draw: Draw, rng: Rng, slots: seq<Name>, total: nat,
                                        names: seq<Name>)
    requires Table(p, slots) && Joinable(slots, names) && total >= 1
    ensures Extends(p, slots, names, AddAll(p, draw, rng, slots, total, names).0)
    decreases |names|
  {
    if names != [] {
      var (sample, after) := Sample(p, draw, rng, total);
      var mid := AddOne(p, slots, names[0], sample);
      ExtendsFirst(p, slots, names[0], sample);
      JoinableRest(p, slots, names, sample);
      AddAllEffect(p, draw, after, mid, total, names[1..]);
      ExtendsMore(p, slots, names, mid, AddAll(p, draw, after, mid, total, names[1..]).0);
    }
  }

  // ---------------------------------------------------------------- removals

  lemma {:induction false} RetainKeeps(slots: seq<Name>, gone: seq<Name>, x: Name)
    ensures x in Retain(slots, gone) <==> x in slots && x !in gone
  {
    if slots != [] {
      RetainKeeps(slots[1..], gone, x);
      assert x in slots <==> x == slots[0] || x in slots[1..];
    }
  }

  lemma {:induction false} RetainPacked(slots: seq<Name>, gone: seq<Name>, k: nat)
    requires Packed(slots, k)
    ensures Packed(Retain(slots, gone), Filled(Retain(slots, gone)))
  {
    if slots == [] || k == 0 {
      forall x | x in Retain(slots, gone) ensures x == NOBODY {
        RetainKeeps(slots, gone, x);
      }
      NoneActive(Retain(slots, gone));
    } else {
      assert slots[1..][..k - 1] == slots[..k][1..];
      RetainPacked(slots[1..], gone, k - 1);
      if slots[0] !in gone {
        NotAgain(slots, k);
        RetainKeeps(slots[1..], gone, slots[0]);
        FilledCons(slots[0], Retain(slots[1..], gone));
        assert Retain(slots, gone) == [slots[0]] + Retain(slots[1..], gone);
      } else {
        assert Retain(slots, gone) == Retain(slots[1..], gone);
      }
    }
  }

  lemma FilledCons(x: Name, rest: seq<Name>)
    requires x != NOBODY && x !in rest && Packed(rest, Filled(rest))
    ensures Packed([x] + rest, Filled([x] + rest))
  {
    PackedCons(x, rest, Filled(rest));
    FilledWhenPacked([x] + rest, Filled(rest) + 1);
  }

  lemma NotAgain(slots: seq<Name>, k: nat)
    requires Packed(slots, k) && k > 0
    ensures slots[0] !in slots[1..]
  {
    forall i | 0 < i < |slots| ensures slots[i] != slots[0] {
      if i < k {
        DistinctPair(slots[..k], 0, i);
      }
    }
  }

  lemma RetainEffect(slots: seq<Name>, gone: seq<Name>, k: nat)
    requires Packed(slots, k)
    ensures Packed(Retain(slots, gone), Filled(Retain(slots, gone)))
    ensures forall x :: x in Retain(slots, gone) <==> x in slots && x !in gone
  {
    RetainPacked(slots, gone, k);
    forall x ensures x in Retain(slots, gone) <==> x in slots && x !in gone {
      RetainKeeps(slots, gone, x);
    }
  }

  lemma NoneActive(slots: seq<Name>)
    requires forall x | x in slots :: x == NOBODY
    ensures Packed(slots, Filled(slots))
  {
    assert forall i | 0 <= i < |slots| :: slots[i] in slots;
    assert Packed(slots, 0);
    FilledWhenPacked(slots, 0);
  }

  /** Removal works slot by slot, so the others keep their order. */
  lemma {:induction false} RetainSplit(a: seq<Name>, b: seq<Name>, gone: seq<Name>)
    ensures Retain(a + b, gone) == Retain(a, gone) + Retain(b, gone)
  {
    if a == [] {
      assert a + b == b;
    } else {
      assert (a + b)[1..] == a[1..] + b;
      RetainSplit(a[1..], b, gone);
    }
  }

  /** Removing members: exactly they go, and the table stays packed. */
  lemma RemoveAllEffect(p: Parameters, slots: seq<Name>, gone: seq<Name>)
    requires Table(p, slots) && NOBODY !in gone
    ensures var next := RemoveAll(slots, gone);
            && Table(p, next)
            && Active(next) == Active(slots) - Named(gone)
            && Filled(next) == Filled(slots) - |Active(slots) * Named(gone)|
  {
    var kept := Retain(slots, gone);
    var next := RemoveAll(slots, gone);
    var g := Named(gone);
    RetainEffect(slots, gone, Filled(slots));
    var k := Filled(kept);
    assert next[..k] == kept[..k];
    assert Packed(next, k);
    FilledWhenPacked(next, k);
    forall x | x in kept ensures x in next {
      var i :| 0 <= i < |kept| && kept[i] == x;
      assert next[i] == x;
    }
    assert Active(next) == Active(slots) - g;
    ActiveCount(slots, Filled(slots));
    ActiveCount(next, k);
    assert Active(slots) - g == Active(slots) - (Active(slots) * g);
  }

  /** Removing nobody that is active changes nothing. */
  lemma {:induction false} RemoveNobody(slots: seq<Name>, gone: seq<Name>)
    requires forall x | x in gone :: x !in slots
    ensures RemoveAll(slots, gone) == slots
  {
    RetainEverybody(slots, gone);
  }

  lemma {:induction false} RetainEverybody(slots: seq<Name>, gone: seq<Name>)
    requires forall x | x in slots :: x !in gone
    ensures Retain(slots, gone) == slots
  {
    if slots != [] {
      assert slots[0] in slots;
      assert forall x | x in slots[1..] :: x in slots;
      RetainEverybody(slots[1..], gone);
    }
  }

  // ---------------------------------------------------------------- what each policy can touch

  /** Policy First never displaces a member among the first committers, whatever is drawn. */
  lemma {:induction false} FirstKeepsFront(p: Parameters, draw: Draw, rng: Rng, slots: seq<Name>, total: nat,
                                           names: seq<Name>)
    requires Table(p, slots) && Joinable(slots, names) && total >= 1 && p.policy.First?
    ensures var front := Min(Filled(slots), Min(p.committers, total - 1));
            AddAll(p, draw, rng, slots, total, names).0[..front] == slots[..front]
    decreases |names|
  {
    if names != [] {
      var (sample, after) := Sample(p, draw, rng, total);
      var next := AddOne(p, slots, names[0], sample);
      var front := Min(Filled(slots), Min(p.committers, total - 1));
      assert sample >= Min(p.committers, total - 1);
      assert next[..front] == slots[..front];
      AddOneEffect(p, slots, names[0], sample);
      JoinableRest(p, slots, names, sample);
      FirstKeepsFront(p, draw, after, next, total, names[1..]);
      var r := AddAll(p, draw, after, next, total, names[1..]).0;
      assert r[..front] == r[..Min(Filled(next), Min(p.committers, total - 1))][..front];
    }
  }

  /** The first of the new members gets the first free committer slot, and keeps it. */
  lemma FirstFillsFree(p: Parameters, draw: Draw, rng: Rng, slots: seq<Name>, total: nat, names: seq<Name>)
    requires Table(p, slots) && Joinable(slots, names) && names != [] && p.policy.First?
    requires Filled(slots) + |names| <= total && Filled(slots) < p.committers
    ensures AddAll(p, draw, rng, slots, total, names).0[Filled(slots)] == names[0]
  {
    var k := Filled(slots);
    var (sample, after) := Sample(p, draw, rng, total);
    var next := AddOne(p, slots, names[0], sample);
    AddOneEffect(p, slots, names[0], sample);
    JoinableRest(p, slots, names, sample);
    assert next[k] == names[0];
    if names[1..] == [] {
      assert AddAll(p, draw, after, next, total, []).0 == next;
    } else {
      FirstKeepsFront(p, draw, after, next, total, names[1..]);
      var r := AddAll(p, draw, after, next, total, names[1..]).0;
      var front := Min(Filled(next), Min(p.committers, total - 1));
      assert r[..front][k] == next[..front][k];
    }
  }

  /** Under policy First a new member becomes a committer if and only if a committer slot was free. */
  lemma FirstNewCommitters(p: Parameters, draw: Draw, rng: Rng, slots: seq<Name>, total: nat, names: seq<Name>)
    requires Table(p, slots) && Joinable(slots, names) && names != [] && p.policy.First?
    requires Filled(slots) + |names| <= total
    ensures (exists x | x in names :: x in AddAll(p, draw, rng, slots, total, names).0[..p.committers])
            <==> Filled(slots) < p.committers
  {
    var next := AddAll(p, draw, rng, slots, total, names).0;
    if Filled(slots) < p.committers {
      FirstFillsFree(p, draw, rng, slots, total, names);
      assert next[..p.committers][Filled(slots)] == names[0] && names[0] in names;
    } else {
      FirstKeepsFront(p, draw, rng, slots, total, names);
      assert next[..p.committers] == slots[..p.committers];
      assert forall x | x in slots[..p.committers] :: x in slots;
    }
  }

  /** Policy Last puts the newest member in slot 0 exactly when the committers are full (or nobody was there). */
  lemma {:induction false} LastInFront(p: Parameters, draw: Draw, rng: Rng, slots: seq<Name>, total: nat,
                                       names: seq<Name>)
    requires Table(p, slots) && Joinable(slots, names) && total >= 1 && p.policy.Last? && names != []
    ensures var k := Filled(slots) + |names|;
            var next := AddAll(p, draw, rng, slots, total, names).0;
            next[0] == names[|names| - 1] <==> k > p.committers || k == 1
    decreases |names|
  {
    var next := AddOne(p, slots, names[0], 0);
    AddOneEffect(p, slots, names[0], 0);
    JoinableRest(p, slots, names, 0);
    if names[1..] == [] {
      assert names[0] in names && slots[0] in slots;
      assert AddAll(p, draw, rng, slots, total, names).0 == next;
    } else {
      LastInFront(p, draw, rng, next, total, names[1..]);
    }
  }

  /** With k slots filled before: the other committers stay, and free committer slots are filled in order. */
  ghost predicate Laid(p: Parameters, slots: seq<Name>, k: nat, names: seq<Name>, next: seq<Name>)
    requires p.Valid() && |slots| == |next| == p.processers
  {
    && (forall j | 1 <= j < Min(k, p.committers) :: next[j] == slots[j])
    && (forall j | k <= j < Min(p.committers, k + |names|) :: next[j] == names[j - k])
    && (k + |names| <= p.committers ==> next[0] == slots[0])
  }

  /** A free committer slot was filled. */
  lemma LaidFree(p: Parameters, slots: seq<Name>, k: nat, names: seq<Name>, next: seq<Name>)
    requires p.Valid() && |slots| == |next| == p.processers && 1 <= k < p.committers && names != []
    requires Laid(p, slots[k := names[0]], k + 1, names[1..], next)
    ensures Laid(p, slots, k, names, next)
  {
    forall j | k <= j < Min(p.committers, k + |names|) ensures next[j] == names[j - k] {
      assert j > k ==> next[j] == names[1..][j - (k + 1)];
    }
  }

  /** All committer slots were filled: only slot 0 and later ones have changed. */
  lemma LaidFull(p: Parameters, slots: seq<Name>, mid: seq<Name>, k: nat, k': nat, names: seq<Name>, next: seq<Name>)
    requires p.Valid() && |slots| == |next| == |mid| == p.processers && p.committers <= k <= k' && names != []
    requires forall j | 1 <= j < p.committers :: mid[j] == slots[j]
    requires Laid(p, mid, k', names[1..], next)
    ensures Laid(p, slots, k, names, next)
  {
  }

  /** Policy Last leaves the other committers alone and fills free committer slots in order. */
  lemma {:induction false} LastLayout(p: Parameters, draw: Draw, rng: Rng, slots: seq<Name>, total: nat,
                                      names: seq<Name>)
    requires Table(p, slots) && Joinable(slots, names) && total >= 1 && p.policy.Last? && Filled(slots) >= 1
    ensures Laid(p, slots, Filled(slots), names, AddAll(p, draw, rng, slots, total, names).0)
    decreases |names|
  {
    if names != [] {
      var k := Filled(slots);
      var mid := AddOne(p, slots, names[0], 0);
      AddOneEffect(p, slots, names[0], 0);
      JoinableRest(p, slots, names, 0);
      LastLayout(p, draw, rng, mid, total, names[1..]);
      var next := AddAll(p, draw, rng, mid, total, names[1..]).0;
      if k < p.committers {
        LaidFree(p, slots, k, names, next);
      } else {
        LaidFull(p, slots, mid, k, Filled(mid), names, next);
      }
    }
  }

  // ---------------------------------------------------------------- the reroll loop

  ghost predicate SomeoneAcceptable(slots: seq<Name>, names: seq<Name>, range: nat)
    requires range <= |slots|
  {
    exists j: nat | j < range :: Acceptable(slots, names, j)
  }

  /** Some generator lets the reroll loop end iff a slot in range does not hold a new member. */
  lemma RerollCanEnd(rng: Rng, range: nat, slots: seq<Name>, names: seq<Name>)
    requires 1 <= range <= |slots|
    ensures (exists draw: Draw :: Settles(draw, rng, range, slots, names)) <==> SomeoneAcceptable(slots, names, range)
  {
    if SomeoneAcceptable(slots, names, range) {
      var j: nat :| j < range && Acceptable(slots, names, j);
      var draw: Draw := (r: Rng, lo: nat, hi: nat) => if lo <= j < hi then j else lo;
      assert Roll(draw, rng, range, 0) == j;
      assert Settles(draw, rng, range, slots, names);
    }
    if draw: Draw :| Settles(draw, rng, range, slots, names) {
      var n: nat :| Acceptable(slots, names, Roll(draw, rng, range, n));
      assert SomeoneAcceptable(slots, names, range);
    }
  }

  /** Under policy First the loop can always end. */
  lemma FirstCanEnd(p: Parameters, draw: Draw, rng: Rng, slots: seq<Name>, total: nat, names: seq<Name>)
    requires Table(p, slots) && Joinable(slots, names) && p.policy.First?
    requires 1 <= Filled(slots) && Filled(slots) + |names| <= total
    ensures SomeoneAcceptable(AddAll(p, draw, rng, slots, total, names).0, names, Min(p.committers, total))
  {
    var next := AddAll(p, draw, rng, slots, total, names).0;
    if |names| > 1 {
      FirstKeepsFront(p, draw, rng, slots, total, names);
      var front := Min(Filled(slots), Min(p.committers, total - 1));
      assert next[0] == next[..front][0] == slots[..front][0] == slots[0];
      assert slots[0] in slots;
    }
    assert Acceptable(next, names, 0);
  }

  /** Under policy Last, with several new members, it can end iff an old member keeps a committer slot. */
  lemma LastCanEnd(p: Parameters, draw: Draw, rng: Rng, slots: seq<Name>, total: nat, names: seq<Name>)
    requires Table(p, slots) && Joinable(slots, names) && p.policy.Last? && |names| > 1
    requires 1 <= Filled(slots) && Filled(slots) + |names| <= total
    ensures SomeoneAcceptable(AddAll(p, draw, rng, slots, total, names).0, names, Min(p.committers, total))
            <==> Min(Filled(slots), p.committers) >= 2 || Filled(slots) + |names| <= p.committers
  {
    var k := Filled(slots);
    var next := AddAll(p, draw, rng, slots, total, names).0;
    LastLayout(p, draw, rng, slots, total, names);
    LastInFront(p, draw, rng, slots, total, names);
    assert slots[0] in slots && names[|names| - 1] in names;
    if k + |names| <= p.committers {
      assert Acceptable(next, names, 0);
    } else if Min(k, p.committers) >= 2 {
      assert slots[1] in slots;
      assert Acceptable(next, names, 1);
    } else {
      forall j: nat | j < Min(p.committers, total) ensures !Acceptable(next, names, j) {
        assert j == 0 || next[j] == names[j - k];
      }
    }
  }

  /** The draw can fall on a free slot iff fewer slots are occupied than the draw ranges over. */
  lemma EmptyWinner(p: Parameters, rng: Rng, slots: seq<Name>, total: nat, names: seq<Name>)
    requires Table(p, slots) && total >= 1 && NOBODY !in names
    ensures (exists draw: Draw :: FallsOnNobody(draw, rng, Min(p.committers, total), slots, names))
            <==> Filled(slots) < Min(p.committers, total)
  {
    var range := Min(p.committers, total);
    var k := Filled(slots);
    if k < range {
      var draw: Draw := (r: Rng, lo: nat, hi: nat) => if lo <= k < hi then k else lo;
      assert Roll(draw, rng, range, 0) == k;
      assert StopsAt(draw, rng, range, slots, names, 0);
      assert FallsOnNobody(draw, rng, range, slots, names);
    }
  }

  ghost predicate FallsOnNobody(draw: Draw, rng: Rng, range: nat, slots: seq<Name>, names: seq<Name>)
    requires 1 <= range <= |slots|
  {
    && Settles(draw, rng, range, slots, names)
    && slots[Roll(draw, rng, range, Rerolls(draw, rng, range, slots, names))] == NOBODY
  }
}
