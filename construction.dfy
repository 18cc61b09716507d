/** The construction-setup scenario: a traffic-warning sign and debris placed
    from per-prop offsets, three sides of construction cones walked around the
    start transform, and a behaviour tree that places every actor, waits,
    removes them all and ends once the ego vehicle has driven its distance. */
module Construction {
  import opened Geometry
  import opened Actors
  import opened Behavior

  /** One entry of `_initial_offset`. The `cones` entry has no `z` in the
      source; it is never read for the cones, so 0 stands in for it. */
  datatype Offset = Offset(yaw: real, k: real, z: real)

  const ConeBlueprint := "static.prop.constructioncone"
  const PerpAngle := 90.0
  const NSides := 3
  const SideLengths: seq<real> := [4.0, 6.0, 3.0]
  const ZIncrement := 0.1

  /** `_prop_names`. */
  const PropNames: map<string, string> :=
    map["warning_sign" := "static.prop.trafficwarning", "debris" := "static.prop.dirtdebris02"]

  /** `_initial_offset`, in its insertion order. */
  function InitialOffset(laneWidth: real): seq<(string, Offset)> {
    [ ("cones", Offset(180.0, laneWidth / 2.0, 0.0)),
      ("warning_sign", Offset(180.0, 5.0, 0.0)),
      ("debris", Offset(0.0, 2.0, 1.0)) ]
  }

  // ---------------------------------------------------------------- one side

  /** The number of times the `create_cones_side` loop runs for `length`:
      the least natural number that is at least `length`. */
  function ConeCount(length: real): (n: nat)
    ensures length <= n as real
    ensures n == 0 || (n - 1) as real < length
  {
    if length <= 0.0 then 0
    else if length.Floor as real == length then length.Floor
    else length.Floor + 1
  }

  /** Cone `d` of a side: `d` units along `forward` from the start, raised by
      `zInc`, with the start's rotation. */
  function ConeAt(start: Transform, forward: Vec3, zInc: real, d: nat): Transform {
    Transform(Add(Add(start.location, Scale(d as real, forward)), Up(zInc)), start.rotation)
  }

  /** Cones 1 to `n` of a side, in placement order. */
  function ConesUpTo(start: Transform, forward: Vec3, zInc: real, n: nat): (r: seq<Transform>)
    ensures |r| == n
  {
    if n == 0 then [] else ConesUpTo(start, forward, zInc, n - 1) + [ConeAt(start, forward, zInc, n)]
  }

  /** The transforms `create_cones_side` appends. */
  function ConeRow(start: Transform, forward: Vec3, zInc: real, length: real): seq<Transform> {
    ConesUpTo(start, forward, zInc, ConeCount(length))
  }

  /** Spawn requests for a row of cones. */
  function AsCones(ts: seq<Transform>): (r: seq<Spawned>)
    ensures |r| == |ts|
  {
    if ts == [] then [] else AsCones(ts[..|ts| - 1]) + [Spawned(ConeBlueprint, ts[|ts| - 1])]
  }

  /** A cone is placed at distance `d` exactly when `d >= 1` and the loop
      guard `d - 1 < length` held before that step. */
  lemma ConeCountPlacesEachDistance(length: real, d: int)
    ensures (1 <= d <= ConeCount(length)) <==> (1 <= d && ((d - 1) as real) < length)
  {
  }

  /** For a positive length the count is its ceiling; for the source's
      integer side lengths it is the length itself. */
  lemma ConeCountOfNatural(m: nat)
    ensures ConeCount(m as real) == m
  {
  }

  /** The `i`-th entry of a row of cones is cone `i + 1`. */
  lemma {:induction false} ConesUpToAt(start: Transform, forward: Vec3, zInc: real, n: nat, i: nat)
    requires i < n
    ensures ConesUpTo(start, forward, zInc, n)[i] == ConeAt(start, forward, zInc, i + 1)
  {
    if i < n - 1 {
      ConesUpToAt(start, forward, zInc, n - 1, i);
    }
  }

  // ------------------------------------------------------------ whole setup

  /** A prop's transform, in closed form: `k` along the forward vector of the
      start turned by the prop's yaw, raised by `z`, and facing the start's
      yaw plus the prop's yaw plus 90 degrees. */
  function PropTransform(start: Transform, value: Offset, fwd: ForwardFn): Transform {
    Transform(
      Add(Add(start.location, Scale(value.k, fwd(Turned(start.rotation, value.yaw)))), Up(value.z)),
      Turned(start.rotation, value.yaw + PerpAngle))
  }

  /** The spawn requests of the prop loop over `offsets`: one per entry other
      than `cones`, in entry order. */
  function PropSpawns(start: Transform, offsets: seq<(string, Offset)>, fwd: ForwardFn): seq<Spawned>
    requires forall e :: e in offsets ==> e.0 == "cones" || e.0 in PropNames
  {
    if offsets == [] then []
    else
      var last := offsets[|offsets| - 1];
      PropSpawns(start, offsets[..|offsets| - 1], fwd)
        + (if last.0 == "cones" then [] else [Spawned(PropNames[last.0], PropTransform(start, last.1, fwd))])
  }

  /** Where the cone walk starts: the `cones` offset's `k` (half a lane
      width) along the start's forward turned by 90 degrees, then turned by
      the offset's yaw as well. */
  function WalkStart(start: Transform, laneWidth: real, fwd: ForwardFn): Transform {
    var cones := InitialOffset(laneWidth)[0].1;
    var turned := Turned(start.rotation, PerpAngle);
    Transform(Add(start.location, Scale(cones.k, fwd(turned))), Turned(turned, cones.yaw))
  }

  /** One step of the walk: advance `length` along the current forward vector
      and turn by 90 degrees. The source asks the transform for its forward
      vector here and the rotation elsewhere; a transform's forward vector is
      that of its rotation, so both are `fwd(t.rotation)`. */
  function Advance(t: Transform, length: real, fwd: ForwardFn): Transform {
    Transform(Add(t.location, Scale(length, fwd(t.rotation))), Turned(t.rotation, PerpAngle))
  }

  /** The walk's transform before side `i`, after `i` steps from `side0`. */
  function Corner(side0: Transform, lengths: seq<real>, fwd: ForwardFn, i: nat): Transform
    requires i <= |lengths|
  {
    if i == 0 then side0 else Advance(Corner(side0, lengths, fwd, i - 1), lengths[i - 1], fwd)
  }

  /** The cones of the first `n` sides, in placement order. */
  function WalkCones(side0: Transform, lengths: seq<real>, fwd: ForwardFn, zInc: real, n: nat): seq<Transform>
    requires n <= |lengths|
  {
    if n == 0 then []
    else
      var c := Corner(side0, lengths, fwd, n - 1);
      WalkCones(side0, lengths, fwd, zInc, n - 1) + ConeRow(c, fwd(c.rotation), zInc, lengths[n - 1])
  }

  /** Everything `_create_construction_setup` spawns, in order: the props,
      then the cones of the three sides. */
  function SetupSpawns(start: Transform, laneWidth: real, fwd: ForwardFn): seq<Spawned> {
    PropSpawns(start, InitialOffset(laneWidth), fwd)
      + AsCones(WalkCones(WalkStart(start, laneWidth, fwd), SideLengths, fwd, ZIncrement, NSides))
  }

  /** The transforms of a list of spawn requests. */
  function TransformsOf(s: seq<Spawned>): (r: seq<Transform>)
    ensures |r| == |s|
    ensures forall i :: 0 <= i < |s| ==> r[i] == s[i].transform
  {
    if s == [] then [] else TransformsOf(s[..|s| - 1]) + [s[|s| - 1].transform]
  }

  /** The prop loop skips `cones`: it spawns the warning sign, then the debris,
      each at its closed-form prop transform. */
  lemma PropsSkipCones(start: Transform, laneWidth: real, fwd: ForwardFn)
    ensures PropSpawns(start, InitialOffset(laneWidth), fwd) ==
      [ Spawned("static.prop.trafficwarning", PropTransform(start, Offset(180.0, 5.0, 0.0), fwd)),
        Spawned("static.prop.dirtdebris02", PropTransform(start, Offset(0.0, 2.0, 1.0), fwd)) ]
  {
    var o := InitialOffset(laneWidth);
    var warning := Spawned("static.prop.trafficwarning", PropTransform(start, Offset(180.0, 5.0, 0.0), fwd));
    var debris := Spawned("static.prop.dirtdebris02", PropTransform(start, Offset(0.0, 2.0, 1.0), fwd));
    assert o[..1][..0] == [];
    assert PropSpawns(start, o[..1], fwd) == [];
    assert o[..2][..1] == o[..1];
    assert PropSpawns(start, o[..2], fwd) == [warning];
    assert o[..2] == o[..|o| - 1];
    assert PropSpawns(start, o, fwd) == [warning, debris];
  }

  /** A prop ends facing the start's yaw plus its own yaw plus 90 degrees. */
  lemma PropYaw(start: Transform, value: Offset, fwd: ForwardFn)
    ensures PropTransform(start, value, fwd).rotation.yaw == start.rotation.yaw + value.yaw + 90.0
  {
  }

  /** Before side `i` the walk faces `i` quarter turns past where it began. */
  lemma {:induction false} CornerYaw(side0: Transform, lengths: seq<real>, fwd: ForwardFn, i: nat)
    requires i <= |lengths|
    ensures Corner(side0, lengths, fwd, i).rotation == Turned(side0.rotation, 90.0 * i as real)
  {
    if i > 0 {
      CornerYaw(side0, lengths, fwd, i - 1);
    }
  }

  /** For a natural side length the next corner lies where the side's last
      cone stands, minus the cone's vertical increment. */
  lemma CornerMeetsLastCone(c: Transform, m: nat, fwd: ForwardFn, zInc: real)
    requires m > 0
    ensures |ConeRow(c, fwd(c.rotation), zInc, m as real)| == m
    ensures Advance(c, m as real, fwd).location ==
      var last := ConeRow(c, fwd(c.rotation), zInc, m as real)[m - 1].location;
      last.(z := last.z - zInc)
  {
    ConeCountOfNatural(m);
    ConesUpToAt(c, fwd(c.rotation), zInc, m, m - 1);
  }

  /** The cones of the first `n` sides number the sum of their counts. */
  lemma {:induction false} WalkConesLength(side0: Transform, lengths: seq<real>, fwd: ForwardFn, zInc: real, n: nat)
    requires n <= |lengths|
    ensures |WalkCones(side0, lengths, fwd, zInc, n)| == CountSum(lengths[..n])
  {
    if n > 0 {
      WalkConesLength(side0, lengths, fwd, zInc, n - 1);
      assert lengths[..n][..n - 1] == lengths[..n - 1];
    }
  }

  /** The total number of cones for the given side lengths. */
  function CountSum(lengths: seq<real>): nat {
    if lengths == [] then 0 else CountSum(lengths[..|lengths| - 1]) + ConeCount(lengths[|lengths| - 1])
  }

  /** With sides 4, 6 and 3 the setup spawns 13 cones and 2 props: 15 actors. */
  lemma SetupSpawnsFifteen(start: Transform, laneWidth: real, fwd: ForwardFn)
    ensures |SetupSpawns(start, laneWidth, fwd)| == 15
    ensures |WalkCones(WalkStart(start, laneWidth, fwd), SideLengths, fwd, ZIncrement, NSides)| == 13
  {
    PropsSkipCones(start, laneWidth, fwd);
    WalkConesLength(WalkStart(start, laneWidth, fwd), SideLengths, fwd, ZIncrement, NSides);
    ConeCountOfNatural(4);
    ConeCountOfNatural(6);
    ConeCountOfNatural(3);
    var l := SideLengths;
    assert l[..1][..0] == [];
    assert CountSum(l[..1]) == 4;
    assert l[..2][..1] == l[..1];
    assert CountSum(l[..2]) == 10;
    assert l[..3][..2] == l[..2];
    assert CountSum(l[..3]) == 13;
  }

  /** The walk starts half a lane to the side, facing 270 degrees past the
      start, and before side `i` faces `270 + 90 * i` degrees past it. */
  lemma WalkCornerYaw(start: Transform, laneWidth: real, fwd: ForwardFn, i: nat)
    requires i <= |SideLengths|
    ensures Corner(WalkStart(start, laneWidth, fwd), SideLengths, fwd, i).rotation.yaw
      == start.rotation.yaw + 270.0 + 90.0 * i as real
  {
    CornerYaw(WalkStart(start, laneWidth, fwd), SideLengths, fwd, i);
  }

  // ------------------------------------------------------------ the scenario

  class ConstructionSetupCrossing {
    const egoVehicles: seq<ActorId>
    /** The distance the ego vehicle drives before the scenario ends; a field
        of the parent scenario, given here at construction. */
    const egoVehicleDistanceDriven: real
    /** The transform each supporting actor is set to, index-aligned with
        `otherActors`. */
    var transforms: seq<Transform>
    var otherActors: seq<ActorId>

    /** The two lists are index-aligned: actor `i` was spawned at transform
        `i`, and the ids are fresh, in spawn order. */
    ghost predicate Aligned(world: ActorRegistry)
      reads this, world
    {
      |transforms| == |otherActors|
      && (forall i :: 0 <= i < |otherActors| ==>
            otherActors[i] < |world.spawned| && world.spawned[otherActors[i]].transform == transforms[i])
      && (forall i, j :: 0 <= i < j < |otherActors| ==> otherActors[i] < otherActors[j])
    }

    constructor (egoVehicles: seq<ActorId>, egoVehicleDistanceDriven: real)
      ensures this.egoVehicles == egoVehicles
      ensures this.egoVehicleDistanceDriven == egoVehicleDistanceDriven
      ensures transforms == [] && otherActors == []
    {
      this.egoVehicles := egoVehicles;
      this.egoVehicleDistanceDriven := egoVehicleDistanceDriven;
      transforms := [];
      otherActors := [];
    }

    /** Spawns `blueprint` at `transform` and records the pair. */
    method Place(world: ActorRegistry, blueprint: string, transform: Transform)
      requires Aligned(world)
      requires world.Contains(egoVehicles)
      modifies this, world
      ensures Aligned(world)
      ensures world.spawned == old(world.spawned) + [Spawned(blueprint, transform)]
      ensures transforms == old(transforms) + [transform]
      ensures otherActors == old(otherActors) + [|old(world.spawned)|]
      ensures forall a :: a in otherActors[|old(otherActors)|..] ==> a !in egoVehicles
    {
      var actor := world.RequestNewActor(blueprint, transform);
      transforms := transforms + [transform];
      otherActors := otherActors + [actor];
      assert otherActors[|old(otherActors)|..] == [actor];
    }

    /** `create_cones_side`: one cone per loop step, at distances 1, 2, ...
        while the distance so far is below `coneLength`. */
    method CreateConesSide(world: ActorRegistry, startTransform: Transform, forwardVector: Vec3,
                           zInc: real, coneLength: real)
      requires Aligned(world)
      requires world.Contains(egoVehicles)
      modifies this, world
      ensures Aligned(world)
      ensures transforms == old(transforms) + ConeRow(startTransform, forwardVector, zInc, coneLength)
      ensures world.spawned == old(world.spawned) + AsCones(ConeRow(startTransform, forwardVector, zInc, coneLength))
      ensures otherActors == old(otherActors) + Ids(|old(world.spawned)|, ConeCount(coneLength))
      ensures forall a :: a in otherActors[|old(otherActors)|..] ==> a !in egoVehicles
    {
      ghost var base := |world.spawned|;
      ghost var cones: seq<Transform> := [];
      var dist: nat := 0;
      var coneOffset: nat := 1;
      while (dist as real) < coneLength
        invariant Aligned(world)
        invariant world.Contains(egoVehicles)
        invariant dist == 0 || (dist - 1) as real < coneLength
        invariant cones == ConesUpTo(startTransform, forwardVector, zInc, dist) && |cones| == dist
        invariant transforms == old(transforms) + cones
        invariant world.spawned == old(world.spawned) + AsCones(cones)
        invariant otherActors == old(otherActors) + Ids(base, dist)
        decreases coneLength - dist as real
      {
        dist := dist + coneOffset;
        var forwardDist := Add(Vec3(0.0, 0.0, 0.0), Scale(dist as real, forwardVector));
        var location := Add(startTransform.location, forwardDist);
        location := location.(z := location.z + zInc);
        var transform := Transform(location, startTransform.rotation);
        assert transform == ConeAt(startTransform, forwardVector, zInc, dist);
        assert cones + [transform] == ConesUpTo(startTransform, forwardVector, zInc, dist);
        assert |world.spawned| == base + dist - 1;
        assert Ids(base, dist) == Ids(base, dist - 1) + [base + dist - 1];
        Place(world, ConeBlueprint, transform);
        AsConesSnoc(cones, transform);
        AppendAssoc(old(world.spawned), AsCones(cones), [Spawned(ConeBlueprint, transform)]);
        AppendAssoc(old(transforms), cones, [transform]);
        AppendAssoc(old(otherActors), Ids(base, dist - 1), [base + dist - 1]);
        cones := cones + [transform];
      }
      ConeCountIsLoopExit(coneLength, dist);
      assert otherActors[|old(otherActors)|..] == Ids(base, dist);
      IdsAvoid(base, dist, egoVehicles);
    }

    /** `_create_construction_setup`: the props first, then the three sides
        of cones, turning 90 degrees after each. */
    method CreateConstructionSetup(world: ActorRegistry, startTransform: Transform, laneWidth: real, fwd: ForwardFn)
      requires Aligned(world)
      requires world.Contains(egoVehicles)
      modifies this, world
      ensures Aligned(world)
      ensures world.spawned == old(world.spawned) + SetupSpawns(startTransform, laneWidth, fwd)
      ensures transforms == old(transforms) + TransformsOf(SetupSpawns(startTransform, laneWidth, fwd))
      ensures otherActors == old(otherActors) + Ids(|old(world.spawned)|, 15)
      ensures forall a :: a in otherActors[|old(otherActors)|..] ==> a !in egoVehicles
    {
      var initialOffset := InitialOffset(laneWidth);
      CreateProps(world, startTransform, initialOffset, fwd);
      ghost var props := PropSpawns(startTransform, initialOffset, fwd);
      ghost var base := |old(world.spawned)|;
      ghost var actors1 := otherActors;
      assert |world.spawned| == base + |props|;

      var sideTransform := Transform(startTransform.location, startTransform.rotation);
      sideTransform := sideTransform.(rotation := Turned(sideTransform.rotation, PerpAngle));
      sideTransform := sideTransform.(location :=
        Add(sideTransform.location, Scale(initialOffset[0].1.k, fwd(sideTransform.rotation))));
      sideTransform := sideTransform.(rotation := Turned(sideTransform.rotation, initialOffset[0].1.yaw));
      assert sideTransform == WalkStart(startTransform, laneWidth, fwd);
      CreateConeWalk(world, sideTransform, SideLengths, NSides, fwd);
      ghost var cones := WalkCones(sideTransform, SideLengths, fwd, ZIncrement, NSides);
      assert otherActors == actors1 + Ids(base + |props|, |cones|);
      ghost var all := SetupSpawns(startTransform, laneWidth, fwd);
      assert all == props + AsCones(cones);
      SetupSpawnsFifteen(startTransform, laneWidth, fwd);
      assert |props| == 2 && |cones| == 13;
      TransformsOfAppend(props, AsCones(cones));
      TransformsOfAsCones(cones);
      AppendAssoc(old(world.spawned), props, AsCones(cones));
      AppendAssoc(old(transforms), TransformsOf(props), cones);
      IdsExtend(old(otherActors), actors1, otherActors, base, |props|, |cones|);
      assert otherActors[|old(otherActors)|..] == Ids(base, 15);
      IdsAvoid(base, 15, egoVehicles);
    }

    /** The prop loop of `_create_construction_setup`: every entry except
        `cones` is spawned at its prop transform, in entry order. */
    method CreateProps(world: ActorRegistry, startTransform: Transform, offsets: seq<(string, Offset)>, fwd: ForwardFn)
      requires Aligned(world)
      requires world.Contains(egoVehicles)
      requires forall e :: e in offsets ==> e.0 == "cones" || e.0 in PropNames
      modifies this, world
      ensures Aligned(world)
      ensures world.spawned == old(world.spawned) + PropSpawns(startTransform, offsets, fwd)
      ensures transforms == old(transforms) + TransformsOf(PropSpawns(startTransform, offsets, fwd))
      ensures otherActors == old(otherActors) + Ids(|old(world.spawned)|, |PropSpawns(startTransform, offsets, fwd)|)
      ensures forall a :: a in otherActors[|old(otherActors)|..] ==> a !in egoVehicles
    {
      ghost var base := |world.spawned|;
      ghost var props: seq<Spawned> := [];
      for i := 0 to |offsets|
        invariant Aligned(world)
        invariant world.Contains(egoVehicles)
        invariant props == PropSpawns(startTransform, offsets[..i], fwd)
        invariant world.spawned == old(world.spawned) + props
        invariant transforms == old(transforms) + TransformsOf(props)
        invariant otherActors == old(otherActors) + Ids(base, |props|)
      {
        var key := offsets[i].0;
        var value := offsets[i].1;
        assert offsets[..i + 1][..i] == offsets[..i];
        if key == "cones" {
          continue;
        }
        var transform := Transform(startTransform.location, startTransform.rotation);
        transform := transform.(rotation := Turned(transform.rotation, value.yaw));
        transform := transform.(location := Add(transform.location, Scale(value.k, fwd(transform.rotation))));
        transform := transform.(location := transform.location.(z := transform.location.z + value.z));
        transform := transform.(rotation := Turned(transform.rotation, PerpAngle));
        assert transform == PropTransform(startTransform, value, fwd);
        ghost var entry := Spawned(PropNames[key], transform);
        ghost var id := base + |props|;
        assert |world.spawned| == id;
        assert Ids(base, |props| + 1) == Ids(base, |props|) + [id];
        Place(world, PropNames[key], transform);
        TransformsOfAppend(props, [entry]);
        AppendAssoc(old(world.spawned), props, [entry]);
        AppendAssoc(old(transforms), TransformsOf(props), [transform]);
        AppendAssoc(old(otherActors), Ids(base, |props|), [id]);
        props := props + [entry];
      }
      assert offsets[..|offsets|] == offsets;
      assert otherActors[|old(otherActors)|..] == Ids(base, |props|);
      IdsAvoid(base, |props|, egoVehicles);
    }

    /** The cone loop of `_create_construction_setup` over the first `n`
        side lengths: for each side, a row of cones along the current forward
        vector, then advance by the side's length and turn 90 degrees. */
    method CreateConeWalk(world: ActorRegistry, side0: Transform, lengths: seq<real>, n: nat, fwd: ForwardFn)
      requires n <= |lengths|
      requires Aligned(world)
      requires world.Contains(egoVehicles)
      modifies this, world
      ensures Aligned(world)
      ensures world.spawned == old(world.spawned) + AsCones(WalkCones(side0, lengths, fwd, ZIncrement, n))
      ensures transforms == old(transforms) + WalkCones(side0, lengths, fwd, ZIncrement, n)
      ensures otherActors == old(otherActors) + Ids(|old(world.spawned)|, |WalkCones(side0, lengths, fwd, ZIncrement, n)|)
      ensures forall a :: a in otherActors[|old(otherActors)|..] ==> a !in egoVehicles
    {
      var sideTransform := side0;
      ghost var base := |world.spawned|;
      ghost var cones: seq<Transform> := [];
      for i := 0 to n
        invariant Aligned(world)
        invariant world.Contains(egoVehicles)
        invariant sideTransform == Corner(side0, lengths, fwd, i)
        invariant cones == WalkCones(side0, lengths, fwd, ZIncrement, i)
        invariant world.spawned == old(world.spawned) + AsCones(cones)
        invariant transforms == old(transforms) + cones
        invariant otherActors == old(otherActors) + Ids(base, |cones|)
      {
        ghost var row := ConeRow(sideTransform, fwd(sideTransform.rotation), ZIncrement, lengths[i]);
        ghost var spawned1, transforms1, actors1 := world.spawned, transforms, otherActors;
        CreateConesSide(world, sideTransform, fwd(sideTransform.rotation), ZIncrement, lengths[i]);
        RowAppended(old(world.spawned), old(transforms), old(otherActors), base, cones, row,
                    spawned1, transforms1, actors1, world.spawned, transforms, otherActors);
        assert WalkCones(side0, lengths, fwd, ZIncrement, i + 1) == cones + row;
        cones := cones + row;
        sideTransform := sideTransform.(location := Add(sideTransform.location, Scale(lengths[i], fwd(sideTransform.rotation))));
        sideTransform := sideTransform.(rotation := Turned(sideTransform.rotation, PerpAngle));
      }
      assert otherActors[|old(otherActors)|..] == Ids(base, |cones|);
      IdsAvoid(base, |cones|, egoVehicles);
    }

    /** `_create_behavior`: a succeed-on-one Parallel whose single child is a
        Sequence of one setter per actor (actor `i` with transform `i`), a
        15-second timeout, one destroy per actor in the same order, and the
        ego vehicle's drive-distance end condition. */
    method CreateBehavior() returns (root: Node)
      requires |egoVehicles| > 0
      requires |otherActors| <= |transforms|
      ensures root.ParallelSuccessOnOne? && |root.children| == 1 && root.children[0].Sequence?
      ensures var steps := root.children[0].children;
        var n := |otherActors|;
        |steps| == 2 * n + 2
        && (forall i :: 0 <= i < n ==> steps[i] == TransformSetter(otherActors[i], transforms[i]))
        && steps[n] == TimeOut(15.0)
        && (forall i :: 0 <= i < n ==> steps[n + 1 + i] == ActorDestroy(otherActors[i]))
        && steps[2 * n + 1] == DriveDistance(egoVehicles[0], egoVehicleDistanceDriven, None)
    {
      var actorStand := TimeOut(15.0);
      var n := |otherActors|;

      var actorsRemoved: seq<Node> := [];
      for i := 0 to n
        invariant |actorsRemoved| == i
        invariant forall k :: 0 <= k < i ==> actorsRemoved[k] == ActorDestroy(otherActors[k])
      {
        actorsRemoved := actorsRemoved + [ActorDestroy(otherActors[i])];
      }
      var endCondition := DriveDistance(egoVehicles[0], egoVehicleDistanceDriven, None);

      var steps: seq<Node> := [];
      for i := 0 to n
        invariant |steps| == i
        invariant forall k :: 0 <= k < i ==> steps[k] == TransformSetter(otherActors[k], transforms[k])
      {
        steps := steps + [TransformSetter(otherActors[i], transforms[i])];
      }
      steps := steps + [actorStand];
      for i := 0 to n
        invariant |steps| == n + 1 + i
        invariant forall k :: 0 <= k < n ==> steps[k] == TransformSetter(otherActors[k], transforms[k])
        invariant steps[n] == TimeOut(15.0)
        invariant forall k :: 0 <= k < i ==> steps[n + 1 + k] == ActorDestroy(otherActors[k])
      {
        steps := steps + [actorsRemoved[i]];
      }
      steps := steps + [endCondition];
      root := ParallelSuccessOnOne([Sequence(steps)]);
    }
  }

  /** When the `create_cones_side` loop stops, it has run `ConeCount` times. */
  lemma ConeCountIsLoopExit(length: real, dist: nat)
    requires length <= dist as real
    requires dist == 0 || (dist - 1) as real < length
    ensures dist == ConeCount(length)
  {
  }

  lemma {:induction false} TransformsOfAppend(a: seq<Spawned>, b: seq<Spawned>)
    ensures TransformsOf(a + b) == TransformsOf(a) + TransformsOf(b)
  {
  }

  lemma AsConesSnoc(a: seq<Transform>, t: Transform)
    ensures AsCones(a + [t]) == AsCones(a) + [Spawned(ConeBlueprint, t)]
  {
  }

  lemma {:induction false} AsConesAppend(a: seq<Transform>, b: seq<Transform>)
    ensures AsCones(a + b) == AsCones(a) + AsCones(b)
  {
    if b != [] {
      var c := b[..|b| - 1];
      var t := b[|b| - 1];
      assert b == c + [t];
      assert a + b == (a + c) + [t];
      AsConesAppend(a, c);
      AsConesSnoc(a + c, t);
      AsConesSnoc(c, t);
    } else {
      assert a + b == a;
    }
  }

  lemma {:induction false} TransformsOfAsCones(ts: seq<Transform>)
    ensures TransformsOf(AsCones(ts)) == ts
  {
    if ts != [] {
      var c := ts[..|ts| - 1];
      assert ts == c + [ts[|ts| - 1]];
      AsConesSnoc(c, ts[|ts| - 1]);
      TransformsOfAppend(AsCones(c), [Spawned(ConeBlueprint, ts[|ts| - 1])]);
      TransformsOfAsCones(c);
    }
  }

  /** Appending a row of cones to lists that already record `cones` after
      `s0`, `t0` and `a0` gives lists that record `cones + row`. */
  lemma RowAppended(s0: seq<Spawned>, t0: seq<Transform>, a0: seq<ActorId>, base: nat,
                    cones: seq<Transform>, row: seq<Transform>,
                    s1: seq<Spawned>, t1: seq<Transform>, a1: seq<ActorId>,
                    s2: seq<Spawned>, t2: seq<Transform>, a2: seq<ActorId>)
    requires |s0| == base
    requires s1 == s0 + AsCones(cones) && t1 == t0 + cones && a1 == a0 + Ids(base, |cones|)
    requires s2 == s1 + AsCones(row) && t2 == t1 + row && a2 == a1 + Ids(|s1|, |row|)
    ensures s2 == s0 + AsCones(cones + row)
    ensures t2 == t0 + (cones + row)
    ensures a2 == a0 + Ids(base, |cones + row|)
  {
    AsConesAppend(cones, row);
    AppendAssoc(s0, AsCones(cones), AsCones(row));
    AppendAssoc(t0, cones, row);
    IdsExtend(a0, a1, a2, base, |cones|, |row|);
  }
}
