/** Behaviour trees and test criteria as data. Each constructor stands for one
    node class of the scenario library, with the parameters a scenario passes
    to it; how the nodes behave when ticked is not part of this model. */
module Behavior {
  import opened Geometry
  import opened Actors

  datatype Option<T> = None | Some(value: T)

  datatype Node =
    /** `py_trees.composites.Sequence`: its children, in `add_child` order. */
    | Sequence(children: seq<Node>)
    /** `py_trees.composites.Parallel` with policy `SUCCESS_ON_ONE`. */
    | ParallelSuccessOnOne(children: seq<Node>)
    /** `InTimeToArrivalToVehicle(actor, other, time)`. */
    | TimeToArrival(actor: ActorId, other: ActorId, time: real)
    /** `KeepVelocity(actor, velocity, name)`. */
    | KeepVelocity(actor: ActorId, velocity: real, name: Option<string>)
    /** `DriveDistance(actor, distance, name)`. */
    | DriveDistance(actor: ActorId, distance: real, name: Option<string>)
    /** `StopVehicle(actor, brake, name)`. */
    | StopVehicle(actor: ActorId, brake: real, name: Option<string>)
    /** `Idle(duration)`. */
    | Idle(duration: real)
    /** `TimeOut(timeout)`. */
    | TimeOut(timeout: real)
    /** `ActorTransformSetter(actor, transform)`. */
    | TransformSetter(actor: ActorId, transform: Transform)
    /** `ActorDestroy(actor)`. */
    | ActorDestroy(actor: ActorId)

  /** A test criterion: `CollisionTest(actor)`. */
  datatype Criterion = CollisionTest(actor: ActorId)
}
