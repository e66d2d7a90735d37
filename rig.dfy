/** The per-frame camera update (groups-3d/src/components/ui/Rig.tsx). Outside fly mode
    the camera is placed at the three scroll values and turned toward the plane z = 0
    straight ahead of it; in fly mode the frame leaves the camera to the orbit controls. */
module Rig {
  import opened Types
  import opened Store

  /** Where the camera is and the point it is turned toward. */
  datatype Pose = Pose(position: Vec3, lookAt: Vec3)

  /** The pose a frame gives the camera, or None when the frame leaves it alone. */
  function FramePose(s: StoreState): (r: Option<Pose>)
    ensures r.None? <==> s.viewMode == Fly
    ensures r.Some? ==> r.value.position == Vec3(s.scrollX, s.scrollY, s.scrollZ)
    ensures r.Some? ==>
      && r.value.lookAt.x == r.value.position.x
      && r.value.lookAt.y == r.value.position.y
      && r.value.position.z - r.value.lookAt.z == s.scrollZ
  {
    if s.viewMode == Fly then None
    else
      var target := Vec3(s.scrollX, s.scrollY, s.scrollZ);
      Some(Pose(target, Vec3(target.x, target.y, 0.0)))
  }

  /** Top and side views are handled exactly like the grid view. */
  lemma NonFlyModesAlike(s: StoreState)
    ensures FramePose(s.(viewMode := Top)) == FramePose(s.(viewMode := Grid))
    ensures FramePose(s.(viewMode := Side)) == FramePose(s.(viewMode := Grid))
  {
  }

  /** The pose depends on the three scroll values and the mode only. */
  lemma PoseDependsOnScrollAndMode(s: StoreState, t: StoreState)
    requires s.scrollX == t.scrollX && s.scrollY == t.scrollY && s.scrollZ == t.scrollZ
    requires s.viewMode == t.viewMode
    ensures FramePose(s) == FramePose(t)
  {
  }

  /** The rendering camera: its position and the point it was last turned toward. */
  class Camera {
    var position: Vec3
    var lookingAt: Vec3

    constructor (position: Vec3, lookingAt: Vec3)
      ensures this.position == position && this.lookingAt == lookingAt
    {
      this.position := position;
      this.lookingAt := lookingAt;
    }
  }

  /** One frame of the rig: the camera's new pose comes from the store alone, so
      repeating the frame with the same store changes nothing further. */
  method Frame(store: Store, camera: Camera)
    modifies camera
    ensures store.viewMode == Fly ==> camera.position == old(camera.position) && camera.lookingAt == old(camera.lookingAt)
    ensures store.viewMode != Fly ==>
      Some(Pose(camera.position, camera.lookingAt)) == FramePose(store.State())
  {
    if store.viewMode == Fly {
      return;
    }
    var targetX := store.scrollX;
    var targetY := store.scrollY;
    var targetZ := store.scrollZ;
    camera.position := Vec3(targetX, targetY, targetZ);
    camera.lookingAt := Vec3(targetX, targetY, 0.0);
  }
}
