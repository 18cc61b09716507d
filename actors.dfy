/** The simulator's actor registry, reduced to what the scenarios observe:
    every request spawns a new actor, named by an opaque id that was never
    handed out before. */
module Actors {
  import opened Geometry

  type ActorId = nat

  /** What the registry was asked to spawn: a blueprint name and a transform. */
  datatype Spawned = Spawned(blueprint: string, transform: Transform)

  class ActorRegistry {
    /** Every spawn request so far, in order; actor `id` is `spawned[id]`. */
    var spawned: seq<Spawned>

    constructor ()
      ensures spawned == []
    {
      spawned := [];
    }

    /** `request_new_actor`: spawns `blueprint` at `transform` and returns a
        fresh id, distinct from every id returned earlier. */
    method RequestNewActor(blueprint: string, transform: Transform) returns (id: ActorId)
      modifies this
      ensures id == |old(spawned)|
      ensures spawned == old(spawned) + [Spawned(blueprint, transform)]
    {
      id := |spawned|;
      spawned := spawned + [Spawned(blueprint, transform)];
    }

    /** Every id in `ids` names an actor already in the registry, as the ego
        vehicles do before a scenario spawns anything. */
    predicate Contains(ids: seq<ActorId>)
      reads this
    {
      forall e :: e in ids ==> e < |spawned|
    }
  }

  /** The ids `from`, `from + 1`, ..., `from + n - 1`, in that order. */
  function Ids(from: nat, n: nat): (r: seq<ActorId>)
    ensures |r| == n
  {
    if n == 0 then [] else Ids(from, n - 1) + [from + n - 1]
  }

  /** The `i`-th of them is `from + i`. */
  lemma {:induction false} IdsAt(from: nat, n: nat, i: nat)
    requires i < n
    ensures Ids(from, n)[i] == from + i
  {
    if i < n - 1 {
      IdsAt(from, n - 1, i);
    }
  }

  /** No id of the run `Ids(from, n)` is below `from`. */
  lemma {:induction false} IdsAtLeast(from: nat, n: nat)
    ensures forall a :: a in Ids(from, n) ==> from <= a
  {
    if n > 0 {
      IdsAtLeast(from, n - 1);
    }
  }

  /** A run of ids handed out after `from` requests is disjoint from any ids
      that were already in the registry. */
  lemma IdsAvoid(from: nat, n: nat, existing: seq<ActorId>)
    requires forall e :: e in existing ==> e < from
    ensures forall a :: a in Ids(from, n) ==> a !in existing
  {
    IdsAtLeast(from, n);
  }

  /** Consecutive runs of ids concatenate. */
  lemma {:induction false} IdsAppend(from: nat, m: nat, n: nat)
    ensures Ids(from, m) + Ids(from + m, n) == Ids(from, m + n)
  {
    if n > 0 {
      IdsAppend(from, m, n - 1);
    }
  }

  /** Concatenation is associative; stated once so that proofs about
      growing lists can rewrite with it instead of comparing elements. */
  lemma AppendAssoc<T>(a: seq<T>, b: seq<T>, c: seq<T>)
    ensures (a + b) + c == a + (b + c)
  {
  }

  /** Two consecutive runs of fresh ids appended to `a` are one run. */
  lemma IdsExtend(a: seq<ActorId>, b: seq<ActorId>, c: seq<ActorId>, from: nat, m: nat, n: nat)
    requires b == a + Ids(from, m)
    requires c == b + Ids(from + m, n)
    ensures c == a + Ids(from, m + n)
  {
    AppendAssoc(a, Ids(from, m), Ids(from + m, n));
    IdsAppend(from, m, n);
  }
}
