/** Composition of runtime poses with the application's reference frame. raymath.h is not
    part of this model: its Vector3Add and QuaternionMultiply are given here by their
    textbook definitions over exact reals (component-wise sum, Hamilton product). */
module RayMath {
  import opened OpenXr

  function Vector3Add(a: Vector3, b: Vector3): Vector3 {
    Vector3(a.x + b.x, a.y + b.y, a.z + b.z)
  }

  function QuaternionMultiply(a: Quaternion, b: Quaternion): Quaternion {
    Quaternion(
      a.x * b.w + a.w * b.x + a.y * b.z - a.z * b.y,
      a.y * b.w + a.w * b.y + a.z * b.x - a.x * b.z,
      a.z * b.w + a.w * b.z + a.x * b.y - a.y * b.x,
      a.w * b.w - a.x * b.x - a.y * b.y - a.z * b.z)
  }

  /** The initial reference frame composes as the identity. */
  lemma InitialFrameIsNeutral(v: Vector3, q: Quaternion)
    ensures Vector3Add(Origin, v) == v
    ensures QuaternionMultiply(IdentityRotation, q) == q
  {
  }
}

/** rlPose and GetViewPose / GetXrPose. */
module Poses {
  import opened OpenXr
  import opened RayMath

  /** rlPose: a position and an orientation, each with its own validity flag. */
  datatype Pose = Pose(position: Vector3, orientation: Quaternion, isPositionValid: bool, isOrientationValid: bool)

  /** The outcome of xrLocateSpace: on failure the location keeps its zero initialisation. */
  datatype LocateResult = LocateFailed | Located(location: SpaceLocation)

  function LocationOf(r: LocateResult): SpaceLocation {
    match r
    case LocateFailed => SpaceLocation(0, ZeroPose)
    case Located(location) => location
  }

  predicate PositionLocated(r: LocateResult) {
    LocationOf(r).locationFlags & PositionValidBit != 0
  }

  predicate OrientationLocated(r: LocateResult) {
    LocationOf(r).locationFlags & OrientationValidBit != 0
  }

  /** GetViewPose: each component is composed with the reference frame and marked valid
      when its bit is set in the location flags; otherwise it is zero (position) or the
      identity (orientation) and marked invalid. The two components are independent. */
  function ViewPose(refPosition: Vector3, refOrientation: Quaternion, r: LocateResult): (p: Pose)
    ensures p.isPositionValid <==> r.Located? && r.location.locationFlags & PositionValidBit != 0
    ensures p.isOrientationValid <==> r.Located? && r.location.locationFlags & OrientationValidBit != 0
    ensures p.isPositionValid ==> p.position == Vector3Add(refPosition, r.location.pose.position)
    ensures p.isOrientationValid ==> p.orientation == QuaternionMultiply(refOrientation, r.location.pose.orientation)
    ensures !p.isPositionValid ==> p.position == Origin
    ensures !p.isOrientationValid ==> p.orientation == IdentityRotation
  {
    var loc := LocationOf(r);
    var positionValid := PositionLocated(r);
    var orientationValid := OrientationLocated(r);
    Pose(
      if positionValid then Vector3Add(refPosition, loc.pose.position) else Origin,
      if orientationValid then QuaternionMultiply(refOrientation, loc.pose.orientation) else IdentityRotation,
      positionValid,
      orientationValid)
  }

  /** With the reference frame InitXr sets up, GetViewPose reports what the runtime
      located, component by component. */
  lemma ViewPoseAtInitialFrame(r: LocateResult)
    requires r.Located?
    ensures ViewPose(Origin, IdentityRotation, r).isPositionValid ==>
              ViewPose(Origin, IdentityRotation, r).position == r.location.pose.position
    ensures ViewPose(Origin, IdentityRotation, r).isOrientationValid ==>
              ViewPose(Origin, IdentityRotation, r).orientation == r.location.pose.orientation
  {
  }

  /** Moving the reference frame never changes what is valid, only where valid
      components are placed. */
  lemma ValidityIgnoresReferenceFrame(p1: Vector3, q1: Quaternion, p2: Vector3, q2: Quaternion, r: LocateResult)
    ensures ViewPose(p1, q1, r).isPositionValid == ViewPose(p2, q2, r).isPositionValid
    ensures ViewPose(p1, q1, r).isOrientationValid == ViewPose(p2, q2, r).isOrientationValid
  {
  }

  /** GetXrPose: the reference frame offsets, with both validity flags left false by the
      C compound literal. */
  function ReferencePose(refPosition: Vector3, refOrientation: Quaternion): (p: Pose)
    ensures p.position == refPosition && p.orientation == refOrientation
    ensures !p.isPositionValid && !p.isOrientationValid
  {
    Pose(refPosition, refOrientation, false, false)
  }
}
