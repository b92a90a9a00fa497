# Ground grid and fly camera of a small Bevy scene, in Dafny

This project models the two pieces of logic in a minimal Bevy 3D scene.

- **Grid layout** (`src/grid.rs`). `GridPlugin` inserts a `Grid` resource (the datatype `GridResource`) with the world extents `size_x`, `size_y` and the line spacings `interval_x`, `interval_y`. The startup system `setup` then spawns one family of black lines at each stepped integer offset `(-size/2) as i32 ..= (size/2) as i32`, stepped by `interval as usize`. X-family lines are `1 x (size_y + 1)` rectangles at `(i, 0, 0)`. Z-family lines are `(size_x + 1) x 1` rectangles at `(0, 0, j)`. Every line is rotated by -pi/2 about X.
- **Camera controller** (`src/main.rs`, `keyboard_input_system`). Every frame the arrow keys set a yaw rate and a pitch rate. The new pitch is clamped to `[-(pi/2 - 0.01), pi/2 - 0.01]`, and the rotation is rebuilt from `(yaw, pitch, roll)`. A/D and S/W then add a sideways step and a flattened forward step, taken from the rotation just written. The position is clamped to the grid with the altitude pinned at 20. Finally the landmark's material turns red when the camera is closer than 30 units to `(0, 10, 0)`, and blue otherwise.

Files:
- `prelude.dfy` holds `Vec3`, `Color`, `Option`/`Result`, the f32 constant `FRAC_PI_2`, and the two clamps (`f32::clamp` and glam's `Vec3::clamp`).
- `grid.dfy` models the configuration, the cast semantics, the stepped range, the `Setup` method with its two loops, and the lemmas about the offsets.
- `camera.dfy` models the key precedence as a fold of conditional overwrites, the pure per-frame functions, the lemmas, and the class `CameraTransform` whose `KeyboardInput` method overwrites the transform and the material store in place.

Modelling choices:
- f32 values are exact `real`s.
- `x as i32` is truncation toward zero, saturating at the i32 range.
- `x as usize` is truncation toward zero. Negative values saturate to 0 and large values to 2^64 - 1 (a 64-bit target).
- `step_by(0)` panics. `Setup` returns `Failure(StepByZero(family))` for it, naming the loop that panicked. The X loop runs first.
- `Quat::from_euler`/`to_euler` (YXZ order), `local_x()`, `forward()` and `Vec3::distance` are library numerics. They are passed to the controller as function values in a `Numerics` record and are otherwise uninterpreted.
- Where a property needs the Euler angles read back from the rebuilt rotation, it is stated under the explicit hypothesis `EulerRoundTrip(num)`: `to_euler(from_euler(e)) == e` for every `e`.
- The keyboard is the set of pressed keys. The frame time `dt` is a parameter.
- The camera's `Transform` is the class `CameraTransform`. The material store is the class `Materials`, a map from handle to base colour.

On these points the code's behaviour is easy to misread; the model follows the code:
- Opposite movement keys are not cancelled by adding vectors. The later `if` wins, as it does for yaw and pitch: D beats A, W beats S, ArrowLeft beats ArrowRight, ArrowDown beats ArrowUp.
- Translation is one unit per frame. It is not scaled by `dt`.
- The movement directions come from the rotation that was just overwritten, not from the one at the start of the frame.
- The pitch range is used with `clamp(start, end)`, so both ends `±(pi/2 - 0.01)` are reachable. The range is closed, not open.
- Both ends of the grid offsets are `as i32` casts: truncation toward zero, saturating at the i32 range. For a non-negative size this is `ceil(-size/2) ..= floor(size/2)`; a size in (-2, 0) still yields the single offset 0.
- Only X and Z of the position are clamped to the grid. Y is clamped to `[20, 20]`, so any previous altitude becomes 20.

## Model

| member | source | states |
|---|---|---|
| Grid.Build | src/grid.rs:9-16 | The Grid resource holds exactly the plugin's four configuration values |
| Grid.Trunc | src/grid.rs:36 | Float-to-int truncation goes toward zero: the result has the sign of x and lies within 1 of it on the side of zero |
| Grid.AsI32 | src/grid.rs:36 | `as i32` is the truncation when that fits in i32, and saturates at i32::MIN / i32::MAX otherwise |
| Grid.AsUsize | src/grid.rs:37 | `as usize` is at most usize::MAX, is zero exactly when the interval is below 1 (negatives included), is the truncation while that fits in usize, and is usize::MAX above it |
| Grid.StepRange | src/grid.rs:36-37 | `(lo..=hi).step_by(s)` is non-empty exactly when lo <= hi, and then its first value is lo |
| Grid.StepRangeShape | src/grid.rs:36-37 | `(lo..=hi).step_by(s)` yields (hi-lo)/s + 1 values when lo <= hi and none otherwise; the k-th value is lo + k*s |
| Grid.StepRangeOrder | src/grid.rs:36-37 | The stepped range is non-empty iff lo <= hi, starts at lo, stays within [lo, hi], and advances by exactly the step |
| Grid.StepRangeIncreasing | src/grid.rs:36-37 | The stepped range is strictly increasing |
| Grid.XLine | src/grid.rs:39-44 | An X-family line is black, rotated -pi/2 about X, placed at (i, 0, 0), 1 wide and size_y + 1 long |
| Grid.ZLine | src/grid.rs:50-55 | A Z-family line is black, rotated -pi/2 about X, placed at (0, 0, j), size_x + 1 wide and 1 long |
| Grid.GridLines | src/grid.rs:35-56 | Setup's outcome succeeds iff both intervals are at least 1; an interval below 1 (negatives included) panics in its own loop, the X loop first |
| Grid.SpawnStepped | src/grid.rs:36-45 | One stepped `for` loop appends exactly one line per value of `(lo..=hi).step_by(step)`, in order, after the commands already queued |
| Grid.Setup | src/grid.rs:29-57 | Setup spawns exactly the X-family lines, one per X offset in order, then the Z-family lines, or panics at the first loop whose step is zero |
| Grid.XOffsetsShape | src/grid.rs:36-37 | X offsets start at trunc(-size_x/2), lie within the truncated bounds, step by exactly `interval_x as usize`, are strictly increasing, and number OffsetCount |
| Grid.ZOffsetsShape | src/grid.rs:47-48 | The Z offsets obey the same rules with size_y and interval_y |
| Grid.LinePlacement | src/grid.rs:39-55 | Every line is black and rotated -pi/2 about X; X lines sit at (i,0,0) with size 1 x (size_y+1), Z lines at (0,0,j) with size (size_x+1) x 1 |
| Grid.StepRangeSymmetric | src/grid.rs:36-37 | A stepped range with opposite ends whose span the step divides is symmetric about 0: its k-th value from the back is the negation of its k-th from the front |
| Grid.XOffsetsSymmetric | src/grid.rs:36-37 | While size_x/2 fits in i32, the X ends are opposite, and the offsets are symmetric about 0 (mirrored) when the stride divides the span |
| Grid.SmallNegativeExtent | src/grid.rs:36-37 | An extent in (-2, 0) truncates both ends to 0, so the X loop still yields exactly the single offset 0 |
| Grid.ConfiguredLayout | src/main.rs:15-20 | With 100 x 1000 and interval 10: X offsets -50..50 step 10 (11 lines, 0 and ±50 included), Z offsets -500..500 (101 lines), 112 lines, X lines 1 x 1001, Z lines 101 x 1 |
| Prelude.ClampF32 | src/main.rs:130-131 | f32::clamp returns a value in [min, max]; it keeps a value already in range and gives the nearer end otherwise |
| Prelude.Vec3.Clamp | src/main.rs:158-162 | Vec3::clamp never exceeds max on each axis, does not fall below min where min <= max, keeps in-range components, and puts a component above max exactly on max and one below min (min <= max) exactly on min |
| Camera.LastWriteWins | src/main.rs:115-157 | After a run of `if pressed { v = value }` statements, an enabled final write always decides the value |
| Camera.LastWriteWinsIsLastEnabled | src/main.rs:115-157 | A run of `if pressed { v = value }` statements leaves the value of the last enabled write, or the initial value when none is enabled |
| Camera.YawDelta | src/main.rs:116-122 | The yaw rate is +1 with ArrowLeft (which overrides ArrowRight), else -1 with ArrowRight, else 0 |
| Camera.PitchDelta | src/main.rs:115-128 | The pitch rate is -1 with ArrowDown (which overrides ArrowUp), else +1 with ArrowUp, else 0 |
| Camera.LookDeltas | src/main.rs:115-128 | The successive ifs compute exactly those yaw and pitch rates |
| Camera.StrafeTranslation | src/main.rs:139-145 | The sideways step is local_x with D (which overrides A), -local_x with A alone, else zero; one unscaled step per frame |
| Camera.WalkTranslation | src/main.rs:147-157 | The walking step is the flattened forward with W (which overrides S), its negation with S alone, else zero; its vertical component is always 0 |
| Camera.MoveSteps | src/main.rs:139-157 | The successive ifs compute exactly those sideways and walking steps, the walking step flat |
| Camera.Flatten | src/main.rs:149-150 | The walking direction keeps forward's x and z and has y = 0 |
| Camera.NextOrientation | src/main.rs:130-137 | Yaw becomes yaw + delta_yaw * dt for every pitch and dt; the new pitch lies in [-(pi/2-0.01), pi/2-0.01] whatever the previous pitch and dt; roll passes through unchanged |
| Camera.OrientationByKeys | src/main.rs:115-137 | Yaw becomes yaw + dt with ArrowLeft, yaw - dt with ArrowRight alone, unchanged otherwise; a pitch in range moves by dt toward the pressed side and stops at the limit |
| Camera.FrameSplit | src/main.rs:130-137 | With the keys held, one frame of dt = a + b gives the same orientation as frames of a then b, from a pitch in range |
| Camera.NextTranslation | src/main.rs:158-162 | The new position has y == 20, x <= size_x/2 and z <= size_y/2, is at least -size/2 on each axis when the size is non-negative, keeps a coordinate that is already in range, and stops a coordinate that overshoots exactly at +size/2 (or at -size/2 when the size is non-negative) |
| Camera.IdleStaysPut | src/main.rs:139-162 | With no movement key pressed, a position already in bounds at altitude 20 is unchanged |
| Camera.WalkForwardStep | src/main.rs:153-162 | Holding W without A or D moves the camera by exactly the flattened forward direction, unscaled, when that step stays within the grid |
| Camera.Highlight | src/main.rs:164-172 | With a registered handle whose material exists, the colour becomes red iff the distance to (0,10,0) is below 30 and blue otherwise; other materials are untouched, and nothing changes when the handle is None or the material is missing |
| Camera.Materials.constructor | src/main.rs:111 | The material store (`Assets<StandardMaterial>`) starts as the given map from handle to base colour |
| Camera.CameraTransform.KeyboardInput | src/main.rs:106-173 | One frame: the rotation is rebuilt from NextOrientation (so, under the Euler round trip, its pitch is in range); the translation is the clamped sum with the steps taken from the new rotation, y == 20, and in bounds when both sizes are non-negative; the material store is updated by Highlight |

## Left out

- `main`, the app and plugin scheduling, the spawning of the cube, light, camera and text, and the camera's initial `looking_at` (src/main.rs:11-30, 49-89). These are engine calls with no logic of their own.
- `position_logging_system` (src/main.rs:94-104). Its timer belongs to the engine and its content is two-decimal float formatting.
- Meshes and materials added to the asset stores by `setup`. Each grid line is recorded with its rectangle size, its colour and its transform. Asset handles are not modelled.
- Quaternion and Euler conversion, `local_x`, `forward` and `distance`. They are uninterpreted function values, and the Euler round trip is an explicit hypothesis. Real `to_euler` wraps yaw, so the hypothesis holds only for angles inside its canonical ranges.
- IEEE-754 `f32` rounding, NaN and infinities. The pitch limit is `FRAC_PI_2 - 0.01` computed exactly, not rounded to f32. `i as f32` is exact, although f32 rounds offsets beyond 2^24.
- Grid.XOffsetsSymmetric: stated only while size_x/2 fits in i32 and the stride divides the span. Outside that range, i32 saturation (-2^31 against 2^31 - 1) breaks the symmetry.
- Change detection on the mutated material (`get_mut` marks it changed). The store is a plain map.
- Multithreaded scheduling. The system runs alone within its frame.
