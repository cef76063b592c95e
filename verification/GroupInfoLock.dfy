/** The group-info lock of the delivery service. */
module GroupInfoLock {
  import opened Basics
  import opened Delivery
  import opened DeliveryRuns

  /** The i-th request of a run is answered with the group info, or with 204 because none is known. */
  predicate GrantedAt(run: seq<Request>, i: nat, id: Id)
    requires i < |run|
  {
    run[i] == InfoGot(id) && GetGroupInfo(After(true, run[..i]), true, id).1 in {Ok, NoContent}
  }

  predicate PostedAt(run: seq<Request>, k: nat, id: Id)
    requires k < |run|
  {
    run[k].InfoPosted? && run[k].id == id
  }

  predicate Locked(s: Server, id: Id) {
    id in s.groupInfo && s.groupInfo[id].None?
  }

  /** Only a post for the group unlocks it; a reset does not. */
  lemma StepLocked(s: Server, r: Request, id: Id)
    requires Locked(s, id) && !(r.InfoPosted? && r.id == id)
    ensures Locked(Apply(s, true, r), id)
  {
  }

  lemma GrantLocks(s: Server, id: Id)
    requires GetGroupInfo(s, true, id).1 in {Ok, NoContent}
    ensures Locked(Apply(s, true, InfoGot(id)), id)
  {
  }

  /** After a grant the group info stays locked until the next post. */
  lemma {:induction false} StaysLocked(run: seq<Request>, i: nat, j: nat, id: Id)
    requires i < j <= |run| && GrantedAt(run, i, id)
    requires forall k | i < k < j :: !PostedAt(run, k, id)
    ensures Locked(After(true, run[..j]), id)
    decreases j
  {
    assert run[..j][..j - 1] == run[..j - 1];
    if i < j - 1 {
      StaysLocked(run, i, j - 1, id);
      assert !PostedAt(run, j - 1, id);
      StepLocked(After(true, run[..j - 1]), run[j - 1], id);
    } else {
      GrantLocks(After(true, run[..i]), id);
    }
  }

  /** Between two grants for a group, its group info is posted. */
  lemma GrantsSeparated(run: seq<Request>, i: nat, j: nat, id: Id)
    requires i < j < |run| && GrantedAt(run, i, id) && GrantedAt(run, j, id)
    ensures exists k | i < k < j :: PostedAt(run, k, id)
  {
    if forall k | i < k < j :: !PostedAt(run, k, id) {
      StaysLocked(run, i, j, id);
      assert false;
    }
  }

  function LastPosted(run: seq<Request>, id: Id): Option<Bytes> {
    if run == [] then None
    else
      var last := run[|run| - 1];
      if last.InfoPosted? && last.id == id then Some(last.info) else LastPosted(run[..|run| - 1], id)
  }

  lemma StepInfo(s: Server, mutex: bool, r: Request, id: Id)
    ensures var info := Apply(s, mutex, r).groupInfo;
            if r.InfoPosted? && r.id == id then id in info && info[id] == Some(r.info)
            else id in info && info[id].Some? ==> id in s.groupInfo && info[id] == s.groupInfo[id]
  {
  }

  /** With or without the lock, and whatever was reset: the group info answered is the one posted last. */
  lemma {:induction false} InfoIsLatest(mutex: bool, run: seq<Request>, id: Id)
    ensures var (_, status, info) := GetGroupInfo(After(mutex, run), mutex, id);
            status == Ok ==> LastPosted(run, id) == Some(info)
    decreases |run|
  {
    if run != [] {
      InfoIsLatest(mutex, run[..|run| - 1], id);
      StepInfo(After(mutex, run[..|run| - 1]), mutex, run[|run| - 1], id);
    }
  }
}
