/** Dragging the logo: pointer-down starts a drag, pointer-move turns the
    logo by the pointer's movement within a fixed angle of its rest
    orientation, and pointer-up ends the drag and schedules a snap-back
    animation to the rest orientation. */
module DragRotation {
  import opened Babylon

  /** Radians of rotation per pixel of pointer movement. */
  const SENSITIVITY: real := 0.005
  /** How far yaw and pitch may move from the rest orientation. */
  const ROTATION_LIMIT: real := PI / 8.0
  /** Last frame of the snap-back animation (it starts at frame 0). */
  const SNAP_BACK_LAST_FRAME: nat := 10

  /** The drag state the three handlers share, together with the logo's rotation. */
  datatype DragState = DragState(dragging: bool, lastX: real, lastY: real, rotation: Vec3)

  /** A pointer event as the handlers see it: client coordinates, none for pointer-up. */
  datatype PointerEvent = Down(clientX: real, clientY: real) | Move(clientX: real, clientY: real) | Up

  /** Yaw (y) and pitch (x) of `r` are within ROTATION_LIMIT of those of `rest`. */
  predicate WithinLimit(rest: Vec3, r: Vec3)
  {
    rest.y - ROTATION_LIMIT <= r.y <= rest.y + ROTATION_LIMIT &&
    rest.x - ROTATION_LIMIT <= r.x <= rest.x + ROTATION_LIMIT
  }

  /** The rotation after a pointer movement of (dx, dy) pixels: yaw follows
      -dx, pitch follows -dy, each clamped around the rest orientation. */
  function Turned(rest: Vec3, rotation: Vec3, dx: real, dy: real): (r: Vec3)
    ensures WithinLimit(rest, r)
    ensures r.z == rotation.z
    ensures WithinLimit(rest, rotation) && dx >= 0.0 ==> r.y <= rotation.y
    ensures WithinLimit(rest, rotation) && dx <= 0.0 ==> r.y >= rotation.y
    ensures WithinLimit(rest, rotation) && dy >= 0.0 ==> r.x <= rotation.x
    ensures WithinLimit(rest, rotation) && dy <= 0.0 ==> r.x >= rotation.x
    ensures WithinLimit(rest, Vec3(rotation.x - dy * SENSITIVITY, rotation.y - dx * SENSITIVITY, rotation.z)) ==>
      r == Vec3(rotation.x - dy * SENSITIVITY, rotation.y - dx * SENSITIVITY, rotation.z)
  {
    Vec3(
      Clamp(rotation.x - dy * SENSITIVITY, rest.x - ROTATION_LIMIT, rest.x + ROTATION_LIMIT),
      Clamp(rotation.y - dx * SENSITIVITY, rest.y - ROTATION_LIMIT, rest.y + ROTATION_LIMIT),
      rotation.z)
  }

  /** The pointer-down handler: start dragging from the event's position. */
  function OnDown(s: DragState, clientX: real, clientY: real): (r: DragState)
    ensures r.dragging && r.lastX == clientX && r.lastY == clientY
    ensures r.rotation == s.rotation
  {
    DragState(true, clientX, clientY, s.rotation)
  }

  /** The pointer-move handler: ignored unless dragging; otherwise turn the
      logo by the movement since the last recorded position and record the
      new position. */
  function OnMove(rest: Vec3, s: DragState, clientX: real, clientY: real): (r: DragState)
    ensures !s.dragging ==> r == s
    ensures s.dragging ==> r.dragging && r.lastX == clientX && r.lastY == clientY
    ensures s.dragging ==> r.rotation == Turned(rest, s.rotation, clientX - s.lastX, clientY - s.lastY)
    ensures WithinLimit(rest, s.rotation) ==> WithinLimit(rest, r.rotation)
    ensures r.rotation.z == s.rotation.z
  {
    if !s.dragging then s
    else DragState(true, clientX, clientY, Turned(rest, s.rotation, clientX - s.lastX, clientY - s.lastY))
  }

  /** The pointer-up handler's effect on the drag state: dragging stops,
      nothing else moves (the snap-back animation is scheduled, not run). */
  function OnUp(s: DragState): (r: DragState)
    ensures !r.dragging
    ensures r.lastX == s.lastX && r.lastY == s.lastY && r.rotation == s.rotation
  {
    s.(dragging := false)
  }

  function Step(rest: Vec3, s: DragState, e: PointerEvent): DragState
  {
    match e
    case Down(x, y) => OnDown(s, x, y)
    case Move(x, y) => OnMove(rest, s, x, y)
    case Up => OnUp(s)
  }

  /** The drag state after the handlers have seen `events`, in order. */
  function Run(rest: Vec3, s: DragState, events: seq<PointerEvent>): DragState
    decreases |events|
  {
    if events == [] then s else Run(rest, Step(rest, s, events[0]), events[1..])
  }

  /** Whatever the pointer does, a logo that starts within the limit stays
      within it, and its roll never changes. */
  lemma {:induction false} RunStaysWithinLimit(rest: Vec3, s: DragState, events: seq<PointerEvent>)
    requires WithinLimit(rest, s.rotation)
    ensures WithinLimit(rest, Run(rest, s, events).rotation)
    ensures Run(rest, s, events).rotation.z == s.rotation.z
    decreases |events|
  {
    if events != [] {
      RunStaysWithinLimit(rest, Step(rest, s, events[0]), events[1..]);
    }
  }

  /** After a pointer-up, moves alone change nothing until the next pointer-down. */
  lemma {:induction false} MovesAfterUpAreIgnored(rest: Vec3, s: DragState, events: seq<PointerEvent>)
    requires !s.dragging
    requires forall i :: 0 <= i < |events| ==> events[i].Move?
    ensures Run(rest, s, events) == s
    decreases |events|
  {
    if events != [] {
      assert Step(rest, s, events[0]) == s;
      MovesAfterUpAreIgnored(rest, s, events[1..]);
    }
  }

  /** The pointer position is tracked incrementally: from a pointer-down
      (or an ongoing drag), through any pointer-downs and moves without a
      pointer-up, the recorded position is that of the last event. */
  lemma {:induction false} RunTracksLastPointer(rest: Vec3, s: DragState, events: seq<PointerEvent>)
    requires events != []
    requires s.dragging || events[0].Down?
    requires forall i :: 0 <= i < |events| ==> !events[i].Up?
    ensures Run(rest, s, events).dragging
    ensures Run(rest, s, events).lastX == events[|events| - 1].clientX
    ensures Run(rest, s, events).lastY == events[|events| - 1].clientY
    decreases |events|
  {
    if |events| > 1 {
      RunTracksLastPointer(rest, Step(rest, s, events[0]), events[1..]);
    }
  }

  /** Dragging far past the limit pins the logo at the limit: with the logo at
      rest (-PI/2, 0, 0), a press and a 1000-pixel move to the right leave its
      yaw at -PI/8, not at the unclamped -5. */
  lemma {:induction false} FarDragIsClamped(x0: real, y0: real)
    ensures Run(Vec3(-PI / 2.0, 0.0, 0.0), DragState(false, 0.0, 0.0, Vec3(-PI / 2.0, 0.0, 0.0)),
                [Down(x0, y0), Move(x0 + 1000.0, y0)]).rotation
         == Vec3(-PI / 2.0, -ROTATION_LIMIT, 0.0)
  {
    var rest := Vec3(-PI / 2.0, 0.0, 0.0);
    var s0 := DragState(false, 0.0, 0.0, rest);
    var events := [Down(x0, y0), Move(x0 + 1000.0, y0)];
    var s1 := Step(rest, s0, events[0]);
    var s2 := Step(rest, s1, events[1]);
    assert events[1..][0] == events[1] && events[1..][1..] == [];
    assert Run(rest, s0, events) == Run(rest, s1, events[1..]) == Run(rest, s2, []) == s2;
    assert s2.rotation == Turned(rest, rest, 1000.0, 0.0);
  }

  /** The snap-back animation built by resetLogoRotation. */
  function SnapBack(current: Vec3, restRotation: Vec3): (a: Animation)
    ensures Tweens(a, current, restRotation, SNAP_BACK_LAST_FRAME) && |a.keys| == 2
    ensures a.targetProperty == "rotation" && a.loopMode == Constant
  {
    Animation("snapBack", "rotation", 60, Constant,
      [Keyframe(0, current), Keyframe(SNAP_BACK_LAST_FRAME, restRotation)])
  }

  /** resetLogoRotation: replace the mesh's animations by one snap-back from
      its current rotation to `targetRotation`, and play it once over frames
      0 to 10. The rotation itself is left to the engine's animation. */
  method ResetLogoRotation(mesh: Mesh, targetRotation: Vec3, scene: Scene)
    modifies mesh`animations, scene`playbacks
    ensures mesh.animations == [SnapBack(mesh.rotation, targetRotation)]
    ensures scene.playbacks == old(scene.playbacks) + [Playback(mesh, 0, SNAP_BACK_LAST_FRAME, false)]
  {
    var snapBack := SnapBack(mesh.rotation, targetRotation);
    mesh.animations := [];
    mesh.animations := mesh.animations + [snapBack];
    scene.BeginAnimation(mesh, 0, SNAP_BACK_LAST_FRAME, false);
  }

  /** logoRotationControl: the closure state of the three pointer handlers
      it installs on the scene for one mesh. */
  class LogoRotationControl {
    const mesh: Mesh
    const scene: Scene
    /** The mesh's rotation when the handlers were installed: the centre of
        the clamp and the target of every snap-back. */
    const originalRotation: Vec3
    var isDragging: bool
    var lastPointerX: real
    var lastPointerY: real

    function State(): DragState
      reads this, mesh
    {
      DragState(isDragging, lastPointerX, lastPointerY, mesh.rotation)
    }

    /** The logo is within the limit around its original rotation. */
    predicate Valid()
      reads this, mesh
    {
      WithinLimit(originalRotation, mesh.rotation)
    }

    constructor (mesh: Mesh, scene: Scene)
      ensures this.mesh == mesh && this.scene == scene
      ensures originalRotation == mesh.rotation
      ensures State() == DragState(false, 0.0, 0.0, mesh.rotation)
      ensures Valid()
    {
      this.mesh := mesh;
      this.scene := scene;
      originalRotation := mesh.rotation;
      isDragging := false;
      lastPointerX := 0.0;
      lastPointerY := 0.0;
    }

    /** scene.onPointerDown */
    method PointerDown(clientX: real, clientY: real)
      modifies this
      ensures State() == OnDown(old(State()), clientX, clientY)
      ensures old(Valid()) ==> Valid()
    {
      isDragging := true;
      lastPointerX := clientX;
      lastPointerY := clientY;
    }

    /** scene.onPointerMove */
    method PointerMove(clientX: real, clientY: real)
      modifies this, mesh`rotation
      ensures State() == OnMove(originalRotation, old(State()), clientX, clientY)
      ensures old(isDragging) || old(Valid()) ==> Valid()
    {
      if !isDragging {
        return;
      }
      var deltaX := clientX - lastPointerX;
      var deltaY := clientY - lastPointerY;
      mesh.rotation := mesh.rotation.(y := Clamp(mesh.rotation.y - deltaX * SENSITIVITY,
        originalRotation.y - ROTATION_LIMIT, originalRotation.y + ROTATION_LIMIT));
      mesh.rotation := mesh.rotation.(x := Clamp(mesh.rotation.x - deltaY * SENSITIVITY,
        originalRotation.x - ROTATION_LIMIT, originalRotation.x + ROTATION_LIMIT));
      lastPointerX := clientX;
      lastPointerY := clientY;
    }

    /** scene.onPointerUp: stop dragging, whatever the pointer position, and
        schedule the snap-back to the original rotation. */
    method PointerUp()
      modifies this, mesh`animations, scene`playbacks
      ensures State() == OnUp(old(State()))
      ensures mesh.animations == [SnapBack(mesh.rotation, originalRotation)]
      ensures scene.playbacks == old(scene.playbacks) + [Playback(mesh, 0, SNAP_BACK_LAST_FRAME, false)]
      ensures old(Valid()) ==> Valid()
    {
      isDragging := false;
      ResetLogoRotation(mesh, originalRotation, scene);
    }
  }
}
