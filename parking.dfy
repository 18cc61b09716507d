/** The parking-lot scenario: three supporting actors placed relative to the
    ego vehicle's starting transform, a fixed behaviour sequence for the
    walker, and one collision criterion on the ego vehicle. */
module Parking {
  import opened Geometry
  import opened Actors
  import opened Behavior

  /** One entry of `actors_info`: forward offset `k`, perpendicular offset `j`,
      vertical offset `z` and the yaw relative to the reference. */
  datatype PlacementSpec = PlacementSpec(yaw: real, k: real, j: real, z: real)

  /** `actors_info`, in its insertion order. */
  function ActorsInfo(): seq<(string, PlacementSpec)> {
    [ ("walker.*", PlacementSpec(270.0, 10.0, 5.0, 0.0)),
      ("static.prop.container", PlacementSpec(90.0, 25.0, 0.0, 0.0)),
      ("static.prop.shoppingcart", PlacementSpec(0.0, 2.0, 15.0, 2.0)) ]
  }

  /** The fixed turn used to find the perpendicular direction. */
  const PerpAngle := 90.0

  /** Where `spawn_actor` puts an actor, in closed form: `k` along the
      reference's forward vector, `j` along the forward vector turned by 90
      degrees, `z` straight up; the yaw is the reference's plus the spec's,
      pitch and roll are the reference's. */
  function Placement(start: Transform, spec: PlacementSpec, fwd: ForwardFn): Transform {
    Transform(
      Add(Add(Add(start.location, Scale(spec.k, fwd(start.rotation))),
              Scale(spec.j, fwd(Turned(start.rotation, PerpAngle)))),
          Up(spec.z)),
      Turned(start.rotation, spec.yaw))
  }

  /** The spawn requests `_initialize_actors` makes, in order. */
  function InitialSpawns(start: Transform, fwd: ForwardFn): seq<Spawned> {
    seq(|ActorsInfo()|, i requires 0 <= i < |ActorsInfo()| =>
      Spawned(ActorsInfo()[i].0, Placement(start, ActorsInfo()[i].1, fwd)))
  }

  /** With no forward and no perpendicular offset the actor stands on the
      reference location raised by `spec.z`, turned by `spec.yaw`. */
  lemma PlacementWithoutOffsets(start: Transform, spec: PlacementSpec, fwd: ForwardFn)
    requires spec.k == 0.0 && spec.j == 0.0
    ensures Placement(start, spec, fwd).location == start.location.(z := start.location.z + spec.z)
    ensures Placement(start, spec, fwd).rotation == start.rotation.(yaw := start.rotation.yaw + spec.yaw)
  {
  }

  /** The intermediate 90-degree turn leaves no trace: the final rotation
      depends on the reference and `spec.yaw` only, and the location does not
      depend on `spec.yaw` at all. */
  lemma PlacementYawIndependent(start: Transform, s1: PlacementSpec, s2: PlacementSpec, fwd: ForwardFn)
    requires s1.k == s2.k && s1.j == s2.j && s1.z == s2.z
    ensures Placement(start, s1, fwd).location == Placement(start, s2, fwd).location
    ensures Placement(start, s1, fwd).rotation.yaw - Placement(start, s2, fwd).rotation.yaw == s1.yaw - s2.yaw
    ensures Placement(start, s1, fwd).rotation.pitch == start.rotation.pitch
    ensures Placement(start, s1, fwd).rotation.roll == start.rotation.roll
  {
  }

  /** The first actor spawned is the walker, 10 ahead and 5 to the side of the
      reference, facing 270 degrees from it. */
  lemma WalkerSpawnedFirst(start: Transform, fwd: ForwardFn)
    ensures InitialSpawns(start, fwd)[0].blueprint == "walker.*"
    ensures InitialSpawns(start, fwd)[0].transform.location ==
      Add(Add(start.location, Scale(10.0, fwd(start.rotation))),
          Scale(5.0, fwd(Turned(start.rotation, 90.0))))
    ensures InitialSpawns(start, fwd)[0].transform.rotation.yaw == start.rotation.yaw + 270.0
  {
  }

  class ParkingScenario {
    const egoVehicles: seq<ActorId>
    /** The ego vehicle's transform when the scenario was created. */
    const referenceTransform: Transform
    const egoVehicleDistanceDriven := 40.0
    const otherActorTargetVelocity := 4.0
    const otherActorMaxBrake := 1.0
    /** Timeout of the scenario in seconds. */
    const timeout: real
    /** The supporting actors this scenario spawned, in spawn order. */
    var otherActors: seq<ActorId>

    /** `__init__`: `egoTransform` is the first ego vehicle's transform, which
        the caller reads from the simulator. */
    constructor (egoVehicles: seq<ActorId>, egoTransform: Transform, timeout: real)
      requires |egoVehicles| > 0
      ensures this.egoVehicles == egoVehicles
      ensures referenceTransform == egoTransform
      ensures this.timeout == timeout
      ensures otherActors == []
    {
      this.egoVehicles := egoVehicles;
      referenceTransform := egoTransform;
      this.timeout := timeout;
      otherActors := [];
    }

    /** `spawn_actor`: builds a new transform from `start` step by step,
        spawns `actorName` there and appends the new actor. */
    method SpawnActor(world: ActorRegistry, actorName: string, spec: PlacementSpec,
                      start: Transform, fwd: ForwardFn)
      requires world.Contains(egoVehicles)
      modifies this, world
      ensures world.spawned == old(world.spawned) + [Spawned(actorName, Placement(start, spec, fwd))]
      ensures otherActors == old(otherActors) + [|old(world.spawned)|]
      ensures forall a :: a in otherActors[|old(otherActors)|..] ==> a !in egoVehicles
    {
      var transform := Transform(start.location, start.rotation);
      transform := transform.(location := Add(transform.location, Scale(spec.k, fwd(transform.rotation))));
      transform := transform.(rotation := Turned(transform.rotation, PerpAngle));
      transform := transform.(location := Add(transform.location, Scale(spec.j, fwd(transform.rotation))));
      transform := transform.(rotation := transform.rotation.(yaw := start.rotation.yaw + spec.yaw));
      transform := transform.(location := transform.location.(z := transform.location.z + spec.z));
      var actor := world.RequestNewActor(actorName, transform);
      otherActors := otherActors + [actor];
      assert otherActors[|old(otherActors)|..] == [actor];
    }

    /** `_initialize_actors`: one spawn per `actors_info` entry, in entry order. */
    method InitializeActors(world: ActorRegistry, fwd: ForwardFn)
      requires world.Contains(egoVehicles)
      modifies this, world
      ensures world.spawned == old(world.spawned) + InitialSpawns(referenceTransform, fwd)
      ensures otherActors == old(otherActors) + Ids(|old(world.spawned)|, |ActorsInfo()|)
      ensures forall a :: a in otherActors[|old(otherActors)|..] ==> a !in egoVehicles
    {
      var info := ActorsInfo();
      for i := 0 to |info|
        invariant world.Contains(egoVehicles)
        invariant world.spawned == old(world.spawned) + InitialSpawns(referenceTransform, fwd)[..i]
        invariant otherActors == old(otherActors) + Ids(|old(world.spawned)|, i)
      {
        SpawnActor(world, info[i].0, info[i].1, referenceTransform, fwd);
        assert InitialSpawns(referenceTransform, fwd)[..i + 1]
          == InitialSpawns(referenceTransform, fwd)[..i] + [InitialSpawns(referenceTransform, fwd)[i]];
      }
      assert InitialSpawns(referenceTransform, fwd)[..|info|] == InitialSpawns(referenceTransform, fwd);
      assert otherActors[|old(otherActors)|..] == Ids(|old(world.spawned)|, |info|);
      IdsAvoid(|old(world.spawned)|, |info|, egoVehicles);
    }

    /** `_create_behavior`: one Sequence holding, in order, the trigger, the
        walker's velocity, drive-distance and stop nodes, and the closing idle.
        The "keep velocity other" Parallel the source constructs is never
        attached, so it is not in the tree. */
    method CreateBehavior() returns (root: Node)
      requires |egoVehicles| > 0 && |otherActors| > 0
      ensures root == Sequence([
        TimeToArrival(egoVehicles[0], otherActors[0], 5.0),
        KeepVelocity(otherActors[0], 4.0, Some("walker velocity")),
        DriveDistance(otherActors[0], 10.0, Some("walker drive distance")),
        StopVehicle(otherActors[0], 1.0, Some("walker stop")),
        Idle(60.0)])
    {
      var egoStand := Idle(60.0);
      var distActorTravel := 10.0;
      var timeToReach := 5.0;
      var startCondition := TimeToArrival(egoVehicles[0], otherActors[0], timeToReach);
      var actorVelocity := KeepVelocity(otherActors[0], otherActorTargetVelocity, Some("walker velocity"));
      var actorDrive := DriveDistance(otherActors[0], distActorTravel, Some("walker drive distance"));
      var actorStop := StopVehicle(otherActors[0], otherActorMaxBrake, Some("walker stop"));
      var children: seq<Node> := [];
      children := children + [startCondition];
      children := children + [actorVelocity];
      children := children + [actorDrive];
      children := children + [actorStop];
      children := children + [egoStand];
      root := Sequence(children);
    }

    /** `_create_test_criteria`: a single collision test on the first ego vehicle. */
    method CreateTestCriteria() returns (criteria: seq<Criterion>)
      requires |egoVehicles| > 0
      ensures criteria == [CollisionTest(egoVehicles[0])]
    {
      criteria := [];
      var collisionCriterion := CollisionTest(egoVehicles[0]);
      criteria := criteria + [collisionCriterion];
    }
  }
}
