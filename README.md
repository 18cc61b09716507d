# Parking and construction-setup scenarios, modelled in Dafny

This project models the deterministic core of two driving scenarios for a
CARLA-based scenario runner:

- **Parking** (`srunner/scenarios/parking.py`). Three supporting actors (a
  walker, a container and a shopping cart) are placed relative to the ego
  vehicle's starting transform. A fixed behaviour sequence drives the walker.
  One collision criterion watches the ego vehicle.
- **Construction setup** (`srunner/scenarios/construction_crash_vehicle.py`).
  A traffic-warning sign and debris are placed from per-prop offsets. Three
  sides of construction cones are walked around the start transform. The
  behaviour tree sets every actor's transform, waits, destroys every actor
  and ends once the ego vehicle has driven its distance.

Modules, one per component:

- `Geometry` (`geometry.dfy`): locations, rotations and transforms over exact
  reals. The simulator's `get_forward_vector` is a parameter
  `fwd: Rotation -> Vec3` of every operation that uses it. Every property
  therefore holds for any forward map: it is affine in the offsets and does
  not depend on the trigonometry.
- `Actors` (`actors.dfy`): the simulator's actor registry.
  `ActorRegistry.RequestNewActor` records the spawn request and returns a
  fresh opaque id. `Ids(from, n)` is the run of ids handed out by `n`
  consecutive requests.
- `Behavior` (`behavior.dfy`): behaviour-tree nodes and test criteria as a
  datatype. Each constructor carries the parameters the scenario passes.
- `Parking` (`parking.dfy`): `Placement`, the closed form of `spawn_actor`'s
  arithmetic. The class `ParkingScenario` holds the `otherActors` list that
  `spawn_actor` appends to, and the tree and criteria builders.
- `Construction` (`construction.dfy`): the cone-count function and the
  closed forms of the cone, prop and cone-walk placements. The class
  `ConstructionSetupCrossing` holds the index-aligned `transforms` and
  `otherActors` lists. Its `Aligned(world)` invariant says that actor `i`
  was spawned at `transforms[i]` and that the ids are fresh, in spawn order.

The state-changing operations are methods. Each one rebuilds a local
transform step by step, as the Python does. Each is proved against a closed
form: the new registry contents, `transforms` and `otherActors` are stated as
the old ones plus a specification function of the inputs. The properties are
then lemmas about those functions.

Transforms are values. `carla.Transform(location, rotation)` copies its
arguments, so a placement never changes the reference it starts from. In the
model this is structural: a `Transform` argument cannot be changed by the
callee, and `referenceTransform` is a `const`.

## Model

| member | source | states |
|---|---|---|
| `Actors.ActorRegistry.RequestNewActor` | srunner/scenarios/parking.py:97-98 | each request spawns exactly one new actor at the given transform, under an id (the registry size) that no earlier request returned |
| `Actors.IdsAt` | srunner/scenarios/construction_crash_vehicle.py:71-75 | the `i`-th id of a run of consecutive requests is `from + i`, so the ids of a run are fresh and increasing |
| `Actors.IdsAppend` | srunner/scenarios/construction_crash_vehicle.py:113-117 | two consecutive runs of requests hand out one contiguous run of ids |
| `Actors.IdsAvoid` | srunner/scenarios/parking.py:97-100 | a run of ids handed out after `from` requests contains none of the ids already in the registry, such as the ego vehicles' |
| `Parking.PlacementWithoutOffsets` | srunner/scenarios/parking.py:91-95 | with `k = 0` and `j = 0` the actor stands on the reference location with only z raised by `spec.z`, and faces the reference yaw plus `spec.yaw` |
| `Parking.PlacementYawIndependent` | srunner/scenarios/parking.py:92-94 | the intermediate +90° turn leaves no trace: the location does not depend on `spec.yaw`, the final yaw differs exactly by the difference in `spec.yaw`, and pitch and roll are the reference's |
| `Parking.WalkerSpawnedFirst` | srunner/scenarios/parking.py:74-79 | the first spawn is the walker, at the reference plus 10 along forward plus 5 along the forward turned by 90°, facing reference yaw + 270 |
| `Parking.ParkingScenario.constructor` | srunner/scenarios/parking.py:44-67 | the reference is the `egoTransform` argument (the first ego vehicle's transform, which the caller reads), the timeout is the argument, and no supporting actor exists yet |
| `Parking.ParkingScenario.SpawnActor` | srunner/scenarios/parking.py:81-100 | the spawn lands at `ref.location + k·fwd(ref) + j·fwd(ref turned 90°) + (0,0,z)` with yaw `ref.yaw + spec.yaw`; exactly one fresh actor is appended to `otherActors` and earlier entries stay; when the ego vehicles are already in the registry the new actor is none of them |
| `Parking.ParkingScenario.InitializeActors` | srunner/scenarios/parking.py:69-79 | exactly three spawns, one per `actors_info` entry in entry order, each at its `Placement`; `otherActors` gains their three fresh ids in that order, none of them an ego vehicle |
| `Parking.ParkingScenario.CreateBehavior` | srunner/scenarios/parking.py:103-142 | the tree is one Sequence with exactly five children in order: `TimeToArrival(ego, walker, 5)`, `KeepVelocity(walker, 4)`, `DriveDistance(walker, 10)`, `StopVehicle(walker, 1.0)`, `Idle(60)`; the unattached Parallel is not in it |
| `Parking.ParkingScenario.CreateTestCriteria` | srunner/scenarios/parking.py:144-154 | the criteria list holds exactly one collision test, on the first ego vehicle |
| `Construction.ConeCount` | srunner/scenarios/construction_crash_vehicle.py:60-64 | the number of loop steps is the least natural number at least `cone_length`: 0 for a length ≤ 0, the ceiling otherwise |
| `Construction.ConeCountPlacesEachDistance` | srunner/scenarios/construction_crash_vehicle.py:60-64 | a cone is placed at distance `d` exactly when `d ≥ 1` and `d − 1 < cone_length` (both directions) |
| `Construction.ConeCountOfNatural` | srunner/scenarios/construction_crash_vehicle.py:88-91 | for a natural side length `m` exactly `m` cones are placed |
| `Construction.ConeCountIsLoopExit` | srunner/scenarios/construction_crash_vehicle.py:60-64 | the loop's exit condition together with its guard on the last step determines the step count as `ConeCount` |
| `Construction.ConesUpToAt` | srunner/scenarios/construction_crash_vehicle.py:65-69 | the `i`-th cone of a side is at `start.location + (i+1)·forward`, raised by `z_inc`, with the start's rotation |
| `Construction.PropsSkipCones` | srunner/scenarios/construction_crash_vehicle.py:94-105 | the prop loop skips `cones` and spawns exactly the warning sign and then the debris, with their blueprints, at their prop transforms |
| `Construction.PropYaw` | srunner/scenarios/construction_crash_vehicle.py:98-101 | a prop ends facing `start.yaw + value.yaw + 90` |
| `Construction.CornerYaw` | srunner/scenarios/construction_crash_vehicle.py:113-119 | before side `i` the walk has turned by exactly `90·i` degrees and kept pitch and roll |
| `Construction.WalkCornerYaw` | srunner/scenarios/construction_crash_vehicle.py:108-119 | the walk starts facing `start.yaw + 270` and before side `i` faces `start.yaw + 270 + 90·i` |
| `Construction.CornerMeetsLastCone` | srunner/scenarios/construction_crash_vehicle.py:113-118 | for a natural side length the next corner is the last cone's location minus the z increment |
| `Construction.WalkConesLength` | srunner/scenarios/construction_crash_vehicle.py:113-117 | the cones of the first `n` sides number the sum of the sides' cone counts |
| `Construction.SetupSpawnsFifteen` | srunner/scenarios/construction_crash_vehicle.py:88-119 | with sides 4, 6 and 3 the setup spawns 13 cones and 2 props, 15 in all |
| `Construction.ConstructionSetupCrossing.constructor` | srunner/scenarios/construction_crash_vehicle.py:34-44 | a new scenario starts with both lists empty |
| `Construction.ConstructionSetupCrossing.Place` | srunner/scenarios/construction_crash_vehicle.py:102-105 | one spawn appends the new fresh actor to `otherActors` and its transform to `transforms` together, keeping them aligned; the new actor is not an ego vehicle |
| `Construction.ConstructionSetupCrossing.CreateConesSide` | srunner/scenarios/construction_crash_vehicle.py:56-75 | `transforms` gains exactly `ConeRow` (cones 1 … `ConeCount(cone_length)`), the registry gains one cone blueprint per transform, `otherActors` gains their fresh ids, none of them an ego vehicle, and the lists stay aligned |
| `Construction.ConstructionSetupCrossing.CreateProps` | srunner/scenarios/construction_crash_vehicle.py:94-105 | one spawn per non-`cones` entry, in entry order, at its prop transform; the lists stay aligned and no new actor is an ego vehicle |
| `Construction.ConstructionSetupCrossing.CreateConeWalk` | srunner/scenarios/construction_crash_vehicle.py:113-119 | side `i` is a cone row from corner `i` along that corner's forward vector; the walk advances the side length and turns 90° after each side; the lists stay aligned and no new actor is an ego vehicle |
| `Construction.ConstructionSetupCrossing.CreateConstructionSetup` | srunner/scenarios/construction_crash_vehicle.py:77-119 | the registry gains exactly the props then the three cone sides (`SetupSpawns`), starting the walk at `start + (lane_width/2)·fwd(start turned 90°)` facing `start.yaw + 270`; `transforms` gains their transforms and `otherActors` 15 fresh ids, aligned, none of them an ego vehicle |
| `Construction.ConstructionSetupCrossing.CreateBehavior` | srunner/scenarios/construction_crash_vehicle.py:121-151 | the root is a SuccessOnOne Parallel with one Sequence child of `2n+2` steps: `n` setters pairing actor `i` with transform `i`, `TimeOut(15)`, `n` destroys in the same actor order, then `DriveDistance(ego, distance)` |

## Left out

- The simulator: actor physics (`set_simulate_physics`), rendering, map and
  waypoint queries (`get_map`, `get_waypoint`, `lane_width`,
  `get_location_in_distance_from_wp`). The construction scenario's
  `_initialize_actors` does only these queries and then calls
  `_create_construction_setup`. The model takes the start waypoint transform
  and the lane width as parameters of `CreateConstructionSetup`.
- The ego vehicles themselves. The scenario runner spawns them before the
  scenario starts. The model requires only that their ids are already in
  the registry (`ActorRegistry.Contains`), which is what makes every actor
  a scenario spawns distinct from them. The ego vehicle's
  `get_transform()` (parking.py:50) is a simulator query. The caller makes
  it and passes the result to the `ParkingScenario` constructor.
- The trigonometry of `get_forward_vector`. It is a parameter, so nothing
  depends on it.
- Floating-point rounding. Coordinates and angles are exact reals. In
  particular `Vector3D(0, 0, 0) + v` is exactly `v`.
- Yaw normalisation. The code never normalises yaw: it only adds to it, and
  the model does the same.
- How the behaviour nodes and criteria behave when ticked: trigger
  evaluation, velocity control, collision detection and the composites' tick
  policies. That library is not part of this model. Nodes are constructor
  tags with the parameters the scenario passes.
- Node display names, except the three the parking scenario passes
  explicitly. Those are `Some(name)`; `None` stands for the library's
  default.
- The parent scenario classes (`BasicScenario`, `StationaryObjectCrossing`)
  are not part of this model. Their fields arrive as constructor
  parameters: the ego vehicles, and for the construction scenario the
  ego vehicle's drive distance. The model also assumes the parent starts
  `other_actors` empty. The parent constructors call `_initialize_actors`
  and the tree builders; in the model a caller calls them.
- `__del__` / `remove_all_actors` (parking.py:156-160). It is finaliser
  cleanup in the parent class.
- Dead code that never reaches a tree or a list. This covers the
  `lane_width` computation in the construction `_create_behavior`,
  `_dist_to_trigger`, the unused `timeout` argument of the construction
  scenario, and the parking scenario's "keep velocity other" Parallel.
  That Parallel (parking.py:133-134) suggests the velocity and
  drive-distance nodes were meant to run under it. The code never attaches
  it and adds them, and the stop and idle nodes, straight to the Sequence
  (parking.py:137-141). The model follows the code.
- Dictionary iteration order. `actors_info` and `_initial_offset` are
  iterated in insertion order.
- The `cones` entry of `_initial_offset` has no `z` key in the source. It
  is skipped before `z` is read, so the model gives it a placeholder 0.
- Aliasing between py_trees composites. The construction scenario attaches
  the Sequence to the root before filling it. Composites are shared by
  reference, so the result is the same as building the Sequence's children
  first and wrapping them at the end, which is what the model does.
- Python's lookup errors. Where the source would raise, the model has a
  `requires` or a datatype field instead; the scenarios' own call sites
  never reach any of these.
  - The IndexError on an empty `ego_vehicles` (parking.py:50, 116, 151;
    construction_crash_vehicle.py:125, 135) becomes `|egoVehicles| > 0` in
    the `requires` of the `ParkingScenario` constructor, its
    `CreateBehavior` and `CreateTestCriteria`, and the construction
    `CreateBehavior`. The IndexError on an empty `other_actors`
    (parking.py:117-128) becomes `|otherActors| > 0` in the parking
    `CreateBehavior`.
  - The IndexError on a `transforms` list shorter than `other_actors`
    (construction_crash_vehicle.py:145) becomes
    `requires |otherActors| <= |transforms|`.
  - The KeyError on a missing offset key is ruled out by the
    `PlacementSpec` and `Offset` fields. The KeyError on an unknown prop
    key becomes the `requires` of `PropSpawns` and `CreateProps`.
- Default arguments (`timeout=200`, `z_inc=0`, `cone_length=0`). Every
  parameter is passed explicitly.
