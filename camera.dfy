/** The per-frame camera controller: arrow keys turn the camera (yaw and
    a clamped pitch), A/D strafe and S/W walk on the ground plane, the
    position is clamped to the grid at a fixed altitude, and a landmark's
    material turns red while the camera is within reach of it. */
module Camera {
  import opened Prelude
  import Grid

  datatype KeyCode = ArrowLeft | ArrowRight | ArrowUp | ArrowDown | KeyA | KeyD | KeyS | KeyW | OtherKey(code: nat)

  /** Euler angles in the YXZ order. */
  datatype Euler = Euler(yaw: real, pitch: real, roll: real)

  /** A rotation quaternion; its algebra is only reached through Numerics. */
  datatype Quat = Quat(x: real, y: real, z: real, w: real)

  /** A handle into the material store. */
  type Handle = nat

  /** The library numerics the system calls, kept uninterpreted:
      Quat::from_euler and Quat::to_euler in the YXZ order, the camera's
      local_x() and forward() for a given rotation, and Vec3::distance. */
  datatype Numerics = Numerics(
    fromEuler: Euler -> Quat,
    toEuler: Quat -> Euler,
    localX: Quat -> Vec3,
    forward: Quat -> Vec3,
    distance: (Vec3, Vec3) -> real)

  /** The assumption, made explicit wherever it is used, that reading the
      Euler angles back from a composed rotation gives the same angles. */
  ghost predicate EulerRoundTrip(num: Numerics) {
    forall e :: num.toEuler(num.fromEuler(e)) == e
  }

  const PitchLimit: real := FracPi2 - 0.01
  /** The pitch range; clamping uses both of its ends, so they are reachable. */
  const PitchRangeStart: real := -PitchLimit
  const PitchRangeEnd: real := PitchLimit
  const BlueRectPosition: Vec3 := Vec3(0.0, 10.0, 0.0)
  const ActionRadius: real := 30.0
  /** The height at which the position clamp pins the camera. */
  const Altitude: real := 20.0

  /** One `if pressed { v = value; }` statement. */
  datatype Write<T> = Write(enabled: bool, value: T)

  /** The value a variable holds after a run of conditional overwrites;
      an enabled final write always decides it. */
  function LastWriteWins<T>(writes: seq<Write<T>>, current: T): (r: T)
    ensures writes != [] && writes[|writes| - 1].enabled ==> r == writes[|writes| - 1].value
  {
    if writes == [] then current
    else LastWriteWins(writes[1..], if writes[0].enabled then writes[0].value else current)
  }

  /** Writes disabled after index k stay disabled after index k - 1 once
      the first write is dropped. */
  lemma DisabledAfter<T>(writes: seq<Write<T>>, k: int)
    requires writes != []
    requires forall j :: 0 <= j < |writes| && k < j ==> !writes[j].enabled
    ensures forall j :: 0 <= j < |writes[1..]| && k - 1 < j ==> !writes[1..][j].enabled
  {
    forall j | 0 <= j < |writes[1..]| && k - 1 < j ensures !writes[1..][j].enabled {
      assert writes[1..][j] == writes[j + 1];
    }
  }

  /** After a run of conditional overwrites the variable holds the value of
      the last enabled write, or its initial value when none is enabled. */
  lemma {:induction false} LastWriteWinsIsLastEnabled<T>(writes: seq<Write<T>>, current: T)
    ensures (forall k :: 0 <= k < |writes| ==> !writes[k].enabled) ==> LastWriteWins(writes, current) == current
    ensures forall k :: 0 <= k < |writes| && writes[k].enabled && (forall j :: k < j < |writes| ==> !writes[j].enabled) ==>
      LastWriteWins(writes, current) == writes[k].value
  {
    if writes != [] {
      var next := if writes[0].enabled then writes[0].value else current;
      var rest := writes[1..];
      LastWriteWinsIsLastEnabled(rest, next);
      forall k | 0 <= k < |writes| && writes[k].enabled && (forall j :: k < j < |writes| ==> !writes[j].enabled)
        ensures LastWriteWins(writes, current) == writes[k].value
      {
        DisabledAfter(writes, k);
        if k > 0 {
          assert rest[k - 1] == writes[k];
        }
      }
      if forall k :: 0 <= k < |writes| ==> !writes[k].enabled {
        DisabledAfter(writes, -1);
      }
    }
  }

  /** Two conditional overwrites: the second, when enabled, wins. */
  lemma LastOfTwo<T>(first: Write<T>, second: Write<T>, current: T)
    ensures LastWriteWins([first, second], current) ==
      if second.enabled then second.value else if first.enabled then first.value else current
  {
    var writes := [first, second];
    LastWriteWinsIsLastEnabled(writes, current);
    assert writes[0] == first && writes[1] == second;
  }

  /** The yaw rate: ArrowRight writes -1, then ArrowLeft writes +1, so
      ArrowLeft overrides ArrowRight. */
  function YawDelta(keys: set<KeyCode>): (r: real)
    ensures r == if ArrowLeft in keys then 1.0 else if ArrowRight in keys then -1.0 else 0.0
  {
    LastOfTwo(Write(ArrowRight in keys, -1.0), Write(ArrowLeft in keys, 1.0), 0.0);
    LastWriteWins([Write(ArrowRight in keys, -1.0), Write(ArrowLeft in keys, 1.0)], 0.0)
  }

  /** The pitch rate: ArrowUp writes +1, then ArrowDown writes -1, so
      ArrowDown overrides ArrowUp. */
  function PitchDelta(keys: set<KeyCode>): (r: real)
    ensures r == if ArrowDown in keys then -1.0 else if ArrowUp in keys then 1.0 else 0.0
  {
    LastOfTwo(Write(ArrowUp in keys, 1.0), Write(ArrowDown in keys, -1.0), 0.0);
    LastWriteWins([Write(ArrowUp in keys, 1.0), Write(ArrowDown in keys, -1.0)], 0.0)
  }

  /** The sideways step: A writes -right, then D writes +right, so D
      overrides A; the step is one unit vector, not scaled by frame time. */
  function StrafeTranslation(keys: set<KeyCode>, right: Vec3): (r: Vec3)
    ensures r == if KeyD in keys then right else if KeyA in keys then right.Neg() else Zero
  {
    LastOfTwo(Write(KeyA in keys, right.Scale(-1.0)), Write(KeyD in keys, right.Scale(1.0)), Zero);
    LastWriteWins([Write(KeyA in keys, right.Scale(-1.0)), Write(KeyD in keys, right.Scale(1.0))], Zero)
  }

  /** The forward direction with its vertical component zeroed. */
  function Flatten(forward: Vec3): (r: Vec3)
    ensures r.y == 0.0 && r.x == forward.x && r.z == forward.z
  {
    forward.Scale(1.0).(y := 0.0)
  }

  /** The walking step: S writes the negated flattened forward, then W
      writes the flattened forward, so W overrides S; walking never has a
      vertical component. */
  function WalkTranslation(keys: set<KeyCode>, forward: Vec3): (r: Vec3)
    ensures r == if KeyW in keys then Flatten(forward) else if KeyS in keys then Flatten(forward).Neg() else Zero
    ensures r.y == 0.0
  {
    LastOfTwo(Write(KeyS in keys, Flatten(forward).Neg()), Write(KeyW in keys, Flatten(forward)), Zero);
    LastWriteWins([Write(KeyS in keys, Flatten(forward).Neg()), Write(KeyW in keys, Flatten(forward))], Zero)
  }

  /** The orientation after one frame: yaw and pitch move by one radian per
      second of dt in the pressed direction, the pitch is clamped to the
      pitch range whatever it was before, and roll passes through. */
  function NextOrientation(e: Euler, keys: set<KeyCode>, dt: real): (r: Euler)
    ensures r.yaw == e.yaw + YawDelta(keys) * dt
    ensures PitchRangeStart <= r.pitch <= PitchRangeEnd
    ensures r.roll == e.roll
  {
    Euler(e.yaw + YawDelta(keys) * dt,
          ClampF32(e.pitch + PitchDelta(keys) * dt, PitchRangeStart, PitchRangeEnd),
          e.roll)
  }

  /** Holding ArrowLeft turns the yaw up by dt, ArrowRight alone down by dt,
      otherwise it stays; a pitch in range moves by dt toward the pressed
      side until it meets the limit on that side. */
  lemma OrientationByKeys(e: Euler, keys: set<KeyCode>, dt: real)
    requires 0.0 <= dt
    requires PitchRangeStart <= e.pitch <= PitchRangeEnd
    ensures var r := NextOrientation(e, keys, dt);
      (ArrowLeft in keys ==> r.yaw == e.yaw + dt) &&
      (ArrowRight in keys && ArrowLeft !in keys ==> r.yaw == e.yaw - dt) &&
      (ArrowRight !in keys && ArrowLeft !in keys ==> r.yaw == e.yaw) &&
      (ArrowDown in keys ==> r.pitch == Max(e.pitch - dt, PitchRangeStart)) &&
      (ArrowUp in keys && ArrowDown !in keys ==> r.pitch == Min(e.pitch + dt, PitchRangeEnd)) &&
      (ArrowUp !in keys && ArrowDown !in keys ==> r.pitch == e.pitch)
  {
  }

  /** With the keys held, one frame of dt = a + b turns the camera exactly
      as two frames of a and then b do, for a pitch in range. */
  lemma FrameSplit(e: Euler, keys: set<KeyCode>, a: real, b: real)
    requires 0.0 <= a && 0.0 <= b
    requires PitchRangeStart <= e.pitch <= PitchRangeEnd
    ensures NextOrientation(NextOrientation(e, keys, a), keys, b) == NextOrientation(e, keys, a + b)
  {
    var d := YawDelta(keys);
    assert d * (a + b) == d * a + d * b;
  }

  /** The new position: the old one plus both steps, with x clamped to
      [-sizeX/2, sizeX/2], z to [-sizeY/2, sizeY/2] and y pinned at the
      altitude. Coordinates already within their bounds are kept. */
  function NextTranslation(pos: Vec3, strafe: Vec3, walk: Vec3, grid: Grid.GridResource): (r: Vec3)
    ensures r.y == Altitude
    ensures r.x <= grid.sizeX / 2.0 && r.z <= grid.sizeY / 2.0
    ensures 0.0 <= grid.sizeX ==> -grid.sizeX / 2.0 <= r.x
    ensures 0.0 <= grid.sizeY ==> -grid.sizeY / 2.0 <= r.z
    ensures -grid.sizeX / 2.0 <= pos.x + strafe.x + walk.x <= grid.sizeX / 2.0 ==> r.x == pos.x + strafe.x + walk.x
    ensures -grid.sizeY / 2.0 <= pos.z + strafe.z + walk.z <= grid.sizeY / 2.0 ==> r.z == pos.z + strafe.z + walk.z
    ensures grid.sizeX / 2.0 < pos.x + strafe.x + walk.x ==> r.x == grid.sizeX / 2.0
    ensures grid.sizeY / 2.0 < pos.z + strafe.z + walk.z ==> r.z == grid.sizeY / 2.0
    ensures 0.0 <= grid.sizeX && pos.x + strafe.x + walk.x < -grid.sizeX / 2.0 ==> r.x == -grid.sizeX / 2.0
    ensures 0.0 <= grid.sizeY && pos.z + strafe.z + walk.z < -grid.sizeY / 2.0 ==> r.z == -grid.sizeY / 2.0
  {
    pos.Add(strafe).Add(walk).Clamp(
      Vec3(-grid.sizeX / 2.0, Altitude, -grid.sizeY / 2.0),
      Vec3(grid.sizeX / 2.0, Altitude, grid.sizeY / 2.0))
  }

  /** The camera is within the grid bounds at the altitude. */
  predicate InBounds(pos: Vec3, grid: Grid.GridResource) {
    -grid.sizeX / 2.0 <= pos.x <= grid.sizeX / 2.0 &&
    -grid.sizeY / 2.0 <= pos.z <= grid.sizeY / 2.0 &&
    pos.y == Altitude
  }

  /** With no movement key pressed, a camera already in bounds stays put. */
  lemma IdleStaysPut(pos: Vec3, keys: set<KeyCode>, right: Vec3, forward: Vec3, grid: Grid.GridResource)
    requires KeyA !in keys && KeyD !in keys && KeyS !in keys && KeyW !in keys
    requires InBounds(pos, grid)
    ensures NextTranslation(pos, StrafeTranslation(keys, right), WalkTranslation(keys, forward), grid) == pos
  {
  }

  /** Holding W without A or D moves the camera by exactly the flattened
      forward direction, one unit per frame, while the step stays within
      the grid. */
  lemma WalkForwardStep(pos: Vec3, keys: set<KeyCode>, right: Vec3, forward: Vec3, grid: Grid.GridResource)
    requires KeyW in keys && KeyA !in keys && KeyD !in keys
    requires InBounds(pos.Add(Flatten(forward)), grid)
    ensures NextTranslation(pos, StrafeTranslation(keys, right), WalkTranslation(keys, forward), grid) ==
      pos.Add(Flatten(forward))
  {
  }

  /** The landmark's colour: with a registered handle whose material exists,
      red while the camera is nearer than ActionRadius and blue otherwise;
      every other material, and the whole store when the handle is missing
      or unknown, is left as it was. */
  function Highlight(colors: map<Handle, Color>, handle: Option<Handle>, dist: real): (r: map<Handle, Color>)
    ensures r.Keys == colors.Keys
    ensures forall h :: h in colors && handle != Some(h) ==> r[h] == colors[h]
    ensures handle.None? || handle.value !in colors ==> r == colors
    ensures handle.Some? && handle.value in colors ==>
      (r[handle.value] == Red <==> dist < ActionRadius) &&
      (r[handle.value] == Blue <==> ActionRadius <= dist)
  {
    match handle
    case None => colors
    case Some(h) =>
      if h in colors then colors[h := if dist < ActionRadius then Red else Blue] else colors
  }

  /** The look keys read in the system's order: each pressed key overwrites
      the rate set by the keys read before it. */
  method LookDeltas(keys: set<KeyCode>) returns (deltaYaw: real, deltaPitch: real)
    ensures deltaYaw == YawDelta(keys) && deltaPitch == PitchDelta(keys)
    ensures deltaYaw == if ArrowLeft in keys then 1.0 else if ArrowRight in keys then -1.0 else 0.0
    ensures deltaPitch == if ArrowDown in keys then -1.0 else if ArrowUp in keys then 1.0 else 0.0
  {
    deltaPitch := 0.0;
    deltaYaw := 0.0;
    if ArrowRight in keys {
      deltaYaw := -1.0;
    }
    if ArrowLeft in keys {
      deltaYaw := 1.0;
    }
    if ArrowUp in keys {
      deltaPitch := 1.0;
    }
    if ArrowDown in keys {
      deltaPitch := -1.0;
    }
  }

  /** The movement keys read in the system's order, against the camera's
      local right and forward directions: A then D set the sideways step,
      S then W the walking step, which has its vertical component zeroed. */
  method MoveSteps(keys: set<KeyCode>, right: Vec3, forward: Vec3) returns (horizontal: Vec3, vertical: Vec3)
    ensures horizontal == StrafeTranslation(keys, right) && vertical == WalkTranslation(keys, forward)
    ensures horizontal == if KeyD in keys then right else if KeyA in keys then right.Neg() else Zero
    ensures vertical.y == 0.0
  {
    horizontal := Zero;
    if KeyA in keys {
      horizontal := right.Scale(-1.0);
    }
    if KeyD in keys {
      horizontal := right.Scale(1.0);
    }
    assert horizontal == StrafeTranslation(keys, right);
    vertical := Zero;
    if KeyS in keys {
      var delta := forward.Scale(1.0);
      delta := delta.(y := 0.0);
      vertical := delta.Neg();
    }
    if KeyW in keys {
      var delta := forward.Scale(1.0);
      delta := delta.(y := 0.0);
      vertical := delta;
    }
  }

  /** The material store: each material's base colour by handle. */
  class Materials {
    var baseColor: map<Handle, Color>

    constructor (baseColor: map<Handle, Color>)
      ensures this.baseColor == baseColor
    {
      this.baseColor := baseColor;
    }
  }

  /** The camera's transform, overwritten every frame. */
  class CameraTransform {
    var rotation: Quat
    var translation: Vec3

    constructor (rotation: Quat, translation: Vec3)
      ensures this.rotation == rotation && this.translation == translation
    {
      this.rotation := rotation;
      this.translation := translation;
    }

    /** One frame of the keyboard system. The movement directions are those
        of the rotation just written, and movement is one unit per frame. */
    method KeyboardInput(keys: set<KeyCode>, dt: real, grid: Grid.GridResource, materials: Materials,
                         rectColor: Option<Handle>, num: Numerics)
      modifies this, materials
      ensures rotation == num.fromEuler(NextOrientation(num.toEuler(old(rotation)), keys, dt))
      ensures EulerRoundTrip(num) ==> num.toEuler(rotation) == NextOrientation(num.toEuler(old(rotation)), keys, dt)
      ensures EulerRoundTrip(num) ==> PitchRangeStart <= num.toEuler(rotation).pitch <= PitchRangeEnd
      ensures translation == NextTranslation(old(translation),
        StrafeTranslation(keys, num.localX(rotation)), WalkTranslation(keys, num.forward(rotation)), grid)
      ensures translation.y == Altitude
      ensures 0.0 <= grid.sizeX && 0.0 <= grid.sizeY ==> InBounds(translation, grid)
      ensures materials.baseColor ==
        Highlight(old(materials.baseColor), rectColor, num.distance(translation, BlueRectPosition))
    {
      var e := num.toEuler(rotation);
      var deltaYaw, deltaPitch := LookDeltas(keys);
      // The new yaw and pitch, with the pitch kept within its range.
      var newPitch := ClampF32(e.pitch + deltaPitch * dt, PitchRangeStart, PitchRangeEnd);
      assert NextOrientation(e, keys, dt).yaw == e.yaw + deltaYaw * dt;
      assert NextOrientation(e, keys, dt).pitch == newPitch;
      rotation := num.fromEuler(Euler(e.yaw + deltaYaw * dt, newPitch, e.roll));
      var horizontal, vertical := MoveSteps(keys, num.localX(rotation), num.forward(rotation));
      translation := translation.Add(horizontal).Add(vertical).Clamp(
        Vec3(-grid.sizeX / 2.0, Altitude, -grid.sizeY / 2.0),
        Vec3(grid.sizeX / 2.0, Altitude, grid.sizeY / 2.0));

      match rectColor {
        case Some(handle) =>
          if handle in materials.baseColor {
            if num.distance(translation, BlueRectPosition) < ActionRadius {
              materials.baseColor := materials.baseColor[handle := Red];
            } else {
              materials.baseColor := materials.baseColor[handle := Blue];
            }
          }
        case None =>
      }
    }
  }
}
