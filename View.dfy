/** `DFSphereView`: the view that owns the tag views, their sphere coordinates, the
    ambient-spin axis, the last drag location, the inertia velocity and the paused
    flags of its two display links, and the callbacks that change them. */
module View {
  import opened Geometry
  import opened Projection
  import opened Layout
  import opened Motion

  /** The state a pan gesture recogniser reports. */
  datatype GestureState = Possible | Began | Changed | Ended | Cancelled | Failed

  /** A tag view as far as the sphere view touches it: its `tag` number and the
      attributes `setTagOf` gives it. */
  datatype TagView = TagView(tag: int, placement: Placement)

  class SphereView {
    /** The numeric library: square root, sine, cosine, pi and the quaternion action. */
    const lib: MathLib
    /** `frame.size.width` and `frame.size.height`. */
    const width: real
    const height: real

    var tags: seq<TagView>
    var coordinate: seq<Vec3>
    var normalDirection: Vec3
    var last: Point
    var velocity: real
    /** `timer.isPaused`: the link that drives `autoTurnRotation`. */
    var timerPaused: bool
    /** `inertia.isPaused`: the link that drives `inertiaStep`. */
    var inertiaPaused: bool

    /** Every tag has a coordinate: `setCloudTags` appends one per tag and nothing
        ever removes one. */
    ghost predicate Valid()
      reads this
    {
      width > 0.0 && |tags| <= |coordinate|
    }

    function DriveState(): Drive
      reads this
    {
      Drive(timerPaused, inertiaPaused, velocity)
    }

    /** Every tag shows the projection of its own coordinate. */
    ghost predicate Synced()
      reads this
      requires Valid()
    {
      forall i :: 0 <= i < |tags| ==> tags[i].placement == ProjectPoint(coordinate[i], width, height)
    }

    /** `init(frame:)` with `setup()`: no tags yet, and both display links created
        unpaused. */
    constructor (lib: MathLib, width: real, height: real)
      requires width > 0.0
      ensures Valid() && Synced()
      ensures this.lib == lib && this.width == width && this.height == height
      ensures tags == [] && coordinate == []
      ensures normalDirection == Zero && last == Point(0.0, 0.0)
      ensures DriveState() == Drive(false, false, 0.0)
    {
      this.lib := lib;
      this.width := width;
      this.height := height;
      tags := [];
      coordinate := [];
      normalDirection := Zero;
      last := Point(0.0, 0.0);
      velocity := 0.0;
      timerPaused := false;
      inertiaPaused := false;
    }

    /** `setCloudTags(array)` for views whose current state is `views`, with `a` and `b`
        the two random draws from [-5, 5) for the spin axis. The laid-out points are
        appended to `coordinate`, which is never cleared; each tag ends where its
        animation takes it, the projection of its point. */
    method SetCloudTags(views: seq<TagView>, a: real, b: real)
      requires Valid()
      requires -5.0 <= a < 5.0 && -5.0 <= b < 5.0
      modifies this`tags, this`coordinate, this`normalDirection, this`timerPaused
      ensures Valid()
      ensures coordinate == old(coordinate) + LayoutPoints(lib, |views|)
      ensures |tags| == |views|
      ensures forall i :: 0 <= i < |tags| ==>
        tags[i] == TagView(i, ProjectPoint(LayoutPoints(lib, |views|)[i], width, height))
      ensures forall i :: 0 <= i < |tags| ==>
        tags[i].placement == ProjectPoint(coordinate[|old(coordinate)| + i], width, height)
      ensures old(coordinate) == [] ==> Synced()
      ensures normalDirection == Vec3(a, b, 0.0)
      ensures DriveState() == TimerStarted(old(DriveState()))
      ensures Lawful(lib) && OnUnitSphere(old(coordinate)) ==> OnUnitSphere(coordinate)
    {
      tags := views;
      for i := 0 to |tags|
        invariant |tags| == |views| && coordinate == old(coordinate)
        invariant forall j :: 0 <= j < i ==> tags[j].tag == j
      {
        var view := tags[i];
        tags := tags[i := view.(tag := i, placement := view.placement.(center := Point(width / 2.0, height / 2.0)))];
      }
      ghost var points := LayoutPoints(lib, |tags|);
      for i := 0 to |tags|
        invariant |tags| == |views|
        invariant coordinate == old(coordinate) + points[..i]
        invariant forall j :: 0 <= j < i ==> tags[j] == TagView(j, ProjectPoint(points[j], width, height))
        invariant forall j :: i <= j < |tags| ==> tags[j].tag == j
      {
        var point := LayoutPoint(lib, |tags|, i);
        assert points[..i + 1] == points[..i] + [point];
        coordinate := coordinate + [point];
        SetTagOf(point, i);
      }
      assert points[..|tags|] == points;
      normalDirection := Vec3(a, b, 0.0);
      TimerStart();
      if Lawful(lib) && OnUnitSphere(old(coordinate)) {
        LayoutOnUnitSphere(lib, |views|);
        AppendKeepsUnitSphere(old(coordinate), points);
      }
    }

    /** `timerStart` */
    method TimerStart()
      modifies this`timerPaused
      ensures DriveState() == TimerStarted(old(DriveState()))
    {
      timerPaused := false;
    }

    /** `timerStop` */
    method TimerStop()
      modifies this`timerPaused
      ensures DriveState() == TimerStopped(old(DriveState()))
    {
      timerPaused := true;
    }

    /** `updateFrameOfPoint`: rotate `coordinate[index]` and show it on `tags[index]`;
        no other coordinate and no other tag changes. */
    method UpdateFrameOfPoint(index: nat, direction: Vec3, angle: real)
      requires Valid() && index < |tags|
      modifies this`coordinate, this`tags
      ensures Valid()
      ensures coordinate == old(coordinate)[index := RotateSphere(lib, old(coordinate)[index], direction, angle)]
      ensures tags == old(tags)[index := old(tags)[index].(placement := ProjectPoint(coordinate[index], width, height))]
      ensures Lawful(lib) && OnUnitSphere(old(coordinate)) ==> OnUnitSphere(coordinate)
    {
      var point := coordinate[index];
      var rPoint := RotateSphere(lib, point, direction, angle);
      if Lawful(lib) {
        RotateSphereKeepsLength(lib, point, direction, angle);
      }
      coordinate := coordinate[index := rPoint];
      SetTagOf(rPoint, index);
    }

    /** `setTagOf`: give `tags[index]` the projection of `point`. */
    method SetTagOf(point: Vec3, index: nat)
      requires index < |tags|
      modifies this`tags
      ensures tags == old(tags)[index := old(tags)[index].(placement := ProjectPoint(point, width, height))]
    {
      var view := tags[index];
      tags := tags[index := view.(placement := ProjectPoint(point, width, height))];
    }

    /** The loop `for i in 0..<tags.count { updateFrameOfPoint(i, direction, angle) }`
        that `autoTurnRotation`, `inertiaStep` and a `.changed` drag sample each run. */
    method UpdateAllFrames(direction: Vec3, angle: real)
      requires Valid()
      modifies this`coordinate, this`tags
      ensures Valid() && Synced()
      ensures coordinate == RotateAll(lib, old(coordinate), |old(tags)|, direction, angle)
      ensures |tags| == |old(tags)|
      ensures forall i :: 0 <= i < |tags| ==>
        tags[i] == old(tags)[i].(placement := ProjectPoint(coordinate[i], width, height))
      ensures Lawful(lib) && OnUnitSphere(old(coordinate)) ==> OnUnitSphere(coordinate)
    {
      for i := 0 to |tags|
        invariant Valid() && |tags| == |old(tags)|
        invariant coordinate == RotateAll(lib, old(coordinate), i, direction, angle)
        invariant forall j :: 0 <= j < i ==>
          tags[j] == old(tags)[j].(placement := ProjectPoint(coordinate[j], width, height))
        invariant forall j :: i <= j < |tags| ==> tags[j] == old(tags)[j]
      {
        RotateAllAt(lib, old(coordinate), i, direction, angle, i);
        UpdateFrameOfPoint(i, direction, angle);
      }
      if Lawful(lib) && OnUnitSphere(old(coordinate)) {
        RotateAllKeepsUnitSphere(lib, old(coordinate), |tags|, direction, angle);
      }
    }

    /** `autoTurnRotation`: one ambient-spin tick about `normalDirection`. */
    method AutoTurnRotation()
      requires Valid()
      modifies this`coordinate, this`tags
      ensures Valid() && Synced()
      ensures |tags| == |old(tags)|
      ensures coordinate == RotateAll(lib, old(coordinate), |tags|, normalDirection, SpinAngle)
      ensures forall i :: 0 <= i < |tags| ==> tags[i].tag == old(tags)[i].tag
      ensures Lawful(lib) && OnUnitSphere(old(coordinate)) ==> OnUnitSphere(coordinate)
    {
      UpdateAllFrames(normalDirection, SpinAngle);
    }

    /** `inertiaStart` */
    method InertiaStart()
      modifies this`timerPaused, this`inertiaPaused
      ensures DriveState() == InertiaStarted(old(DriveState()))
    {
      TimerStop();
      inertiaPaused := false;
    }

    /** `inertiaStop` */
    method InertiaStop()
      modifies this`timerPaused, this`inertiaPaused
      ensures DriveState() == InertiaStopped(old(DriveState()))
    {
      TimerStart();
      inertiaPaused := true;
    }

    /** `inertiaStep`, with `duration` the display link's frame duration. A tick that sees
        `velocity <= 0` stops inertia and moves nothing; any other tick takes 70 off
        `velocity` first and then rotates about `normalDirection` by the angle of the
        decremented velocity. */
    method InertiaStep(duration: real)
      requires Valid()
      modifies this`coordinate, this`tags, this`velocity, this`timerPaused, this`inertiaPaused
      ensures Valid() && |tags| == |old(tags)|
      ensures DriveState() == InertiaTicked(old(DriveState()))
      ensures old(velocity) <= 0.0 ==> coordinate == old(coordinate) && tags == old(tags)
      ensures old(velocity) > 0.0 ==>
        Synced() &&
        coordinate == RotateAll(lib, old(coordinate), |tags|, normalDirection,
                                InertiaAngle(velocity, width, duration))
      ensures |tags| == |old(tags)|
      ensures forall i :: 0 <= i < |tags| ==> tags[i].tag == old(tags)[i].tag
      ensures Lawful(lib) && OnUnitSphere(old(coordinate)) ==> OnUnitSphere(coordinate)
    {
      if velocity <= 0.0 {
        InertiaStop();
      } else {
        velocity := velocity - 70.0;
        var angle := InertiaAngle(velocity, width, duration);
        UpdateAllFrames(normalDirection, angle);
      }
    }

    /** `handlePanGesture` for a recogniser in `state`, at `location`, with release
        velocity `releaseVelocity`. `.began` records the location and calls `timerStop()`
        then `inertiaStop()`, so ambient spin runs during the drag; `.changed` turns the
        sphere about the drag axis by the drag angle and makes that axis the spin axis;
        `.ended` starts inertia at the release speed, even a zero one. */
    method HandlePanGesture(state: GestureState, location: Point, releaseVelocity: Point)
      requires Valid()
      modifies this`coordinate, this`tags, this`normalDirection, this`last
      modifies this`velocity, this`timerPaused, this`inertiaPaused
      ensures Valid() && |tags| == |old(tags)|
      ensures DriveState() ==
        PanDrive(state == Began, state == Ended, old(DriveState()), ReleaseSpeed(lib, releaseVelocity))
      ensures state == Changed ==>
        normalDirection == DragAxis(old(last), location) && last == location && Synced() &&
        coordinate == RotateAll(lib, old(coordinate), |tags|, DragAxis(old(last), location),
                                DragAngle(lib, old(last), location, width))
      ensures state == Began ==> last == location
      ensures state != Changed ==>
        coordinate == old(coordinate) && tags == old(tags) && normalDirection == old(normalDirection)
      ensures state != Began && state != Changed ==> last == old(last)
      ensures |tags| == |old(tags)|
      ensures forall i :: 0 <= i < |tags| ==> tags[i].tag == old(tags)[i].tag
      ensures Lawful(lib) && OnUnitSphere(old(coordinate)) ==> OnUnitSphere(coordinate)
    {
      if state == Began {
        last := location;
        TimerStop();
        InertiaStop();
      } else if state == Changed {
        var current := location;
        var direction := DragAxis(last, current);
        var angle := DragAngle(lib, last, current, width);
        UpdateAllFrames(direction, angle);
        normalDirection := direction;
        last := current;
      } else if state == Ended {
        velocity := ReleaseSpeed(lib, releaseVelocity);
        InertiaStart();
      }
    }
  }
}
