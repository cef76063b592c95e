/**
 The `Orchestrator` of one group at one client, with its fields updated in place.
 Its methods are proved against the functions of `Slots`.
 */
module Orchestration {
  import opened Basics
  import opened Slots

  class Orchestrator {
    const name: Name
    const parameters: Parameters
    const draw: Draw
    var pendingAcks: nat
    var knownMembers: seq<Name>

    ghost predicate Valid()
      reads this
    {
      parameters.Valid() && |knownMembers| == parameters.processers
    }

    constructor (name: Name, parameters: Parameters, draw: Draw, snapshot: seq<Name>)
      requires parameters.Valid()
      ensures Valid()
      ensures this.name == name && this.parameters == parameters && this.draw == draw
      ensures pendingAcks == 0 && knownMembers == Resize(snapshot, parameters.processers)
    {
      this.name := name;
      this.parameters := parameters;
      this.draw := draw;
      pendingAcks := 0;
      knownMembers := Resize(snapshot, parameters.processers);
    }

    method ProcessCommit(hash: Bytes, total: nat, newMembers: seq<Name>) returns (action: NextAction)
      requires Valid() && total >= 1
      requires name in Grown(parameters, draw, knownMembers, hash, total, newMembers).0
               ==> Elects(parameters, draw, knownMembers, hash, total, newMembers)
      modifies this
      ensures Valid()
      ensures Reaction(knownMembers, pendingAcks, action)
              == React(parameters, draw, name, old(knownMembers), old(pendingAcks), hash, total, newMembers)
    {
      var rng := Rng(SeedArray(hash), []);
      for i := 0 to |newMembers|
        invariant Valid() && pendingAcks == old(pendingAcks)
        invariant AddAll(parameters, draw, rng, knownMembers, total, newMembers[i..])
                  == Grown(parameters, draw, old(knownMembers), hash, total, newMembers)
      {
        var filled := Filled(knownMembers);
        var (sample, after) := Sample(parameters, draw, rng, total);
        rng := after;
        ghost var before := knownMembers;
        if filled < parameters.committers {
          knownMembers := knownMembers[filled := newMembers[i]];
        } else if sample < parameters.processers {
          var previous := knownMembers[sample];
          if previous != NOBODY && filled < parameters.processers {
            knownMembers := knownMembers[filled := previous];
          }
          knownMembers := knownMembers[Min(filled, sample) := newMembers[i]];
        }
        assert knownMembers == AddOne(parameters, before, newMembers[i], sample);
        assert newMembers[i..][0] == newMembers[i] && newMembers[i..][1..] == newMembers[i + 1..];
      }
      if name !in knownMembers {
        return Inactive;
      }
      var position := FirstIndex(knownMembers, name);
      var range := Min(parameters.committers, total);
      var who := draw(rng, 0, range);
      ghost var rerolls := Rerolls(draw, rng, range, knownMembers, newMembers);
      ghost var n: nat := 0;
      ghost var start := rng;
      assert start.asked + seq(0, _ => (0, range)) == start.asked;
      while |newMembers| > 1 && knownMembers[who] in newMembers
        invariant n <= rerolls
        invariant rng == Rng(start.seed, start.asked + seq(n, _ => (0, range)))
        invariant who == Roll(draw, start, range, n)
        decreases rerolls - n
      {
        rng := Rng(rng.seed, rng.asked + [(0, range)]);
        n := n + 1;
        assert rng.asked == start.asked + seq(n, _ => (0, range));
        who := draw(rng, 0, range);
      }
      assert n == rerolls;
      if position == who {
        pendingAcks := Others(newMembers, name);
        action := if pendingAcks == 0 then Commit else Listen;
      } else {
        action := Listen;
      }
    }

    method RemoveMembers(gone: seq<Name>)
      requires Valid()
      modifies this`knownMembers
      ensures Valid()
      ensures knownMembers
              == if name in old(knownMembers) then RemoveAll(old(knownMembers), gone) else old(knownMembers)
    {
      if name !in knownMembers {
        return;
      }
      knownMembers := Resize(Retain(knownMembers, gone), parameters.processers);
    }

    method ProcessAck() returns (action: NextAction)
      modifies this`pendingAcks
      ensures pendingAcks == if old(pendingAcks) == 0 then 0 else old(pendingAcks) - 1
      ensures action == if old(pendingAcks) == 1 then Commit else Listen
    {
      if pendingAcks == 0 {
        return Listen;
      }
      pendingAcks := pendingAcks - 1;
      action := if pendingAcks == 0 then Commit else Listen;
    }
  }
}
