/** The ground grid: the `GridPlugin` configuration, the `Grid` resource it
    installs, and the startup system that lays out one family of lines along
    each horizontal axis at stepped integer offsets. */
module Grid {
  import opened Prelude

  /** The plugin as the application configures it. */
  datatype GridPlugin = GridPlugin(sizeX: real, sizeY: real, intervalX: real, intervalY: real)

  /** The `Grid` resource the plugin inserts; read by setup and by the camera. */
  datatype GridResource = GridResource(sizeX: real, sizeY: real, intervalX: real, intervalY: real)

  /** GridPlugin::build inserts the Grid resource holding the plugin's four values. */
  function Build(p: GridPlugin): (g: GridResource)
    ensures g.sizeX == p.sizeX && g.sizeY == p.sizeY
    ensures g.intervalX == p.intervalX && g.intervalY == p.intervalY
  {
    GridResource(p.sizeX, p.sizeY, p.intervalX, p.intervalY)
  }

  /** The configuration the application installs. */
  const Configured: GridPlugin := GridPlugin(100.0, 1000.0, 10.0, 10.0)

  const I32Min: int := -0x8000_0000
  const I32Max: int := 0x7fff_ffff
  const UsizeMax: int := 0xffff_ffff_ffff_ffff

  /** Truncation toward zero, as a float-to-integer cast does it. */
  function Trunc(x: real): (r: int)
    ensures 0.0 <= x ==> 0 <= r && r as real <= x < r as real + 1.0
    ensures x < 0.0 ==> r <= 0 && r as real - 1.0 < x <= r as real
  {
    if x >= 0.0 then x.Floor else -((-x).Floor)
  }

  /** `x as i32`: truncation toward zero, saturating at the i32 range. */
  function AsI32(x: real): (r: int)
    ensures I32Min <= r <= I32Max
    ensures I32Min <= Trunc(x) <= I32Max ==> r == Trunc(x)
    ensures Trunc(x) < I32Min ==> r == I32Min
    ensures I32Max < Trunc(x) ==> r == I32Max
  {
    var t := Trunc(x);
    if t < I32Min then I32Min else if t > I32Max then I32Max else t
  }

  /** `x as usize` on a 64-bit target: truncation toward zero, negative
      values saturating to 0 and large ones to usize::MAX. */
  function AsUsize(x: real): (r: nat)
    ensures r <= UsizeMax
    ensures r == 0 <==> x < 1.0
    ensures 0.0 <= x && Trunc(x) <= UsizeMax ==> r == Trunc(x)
    ensures 0.0 <= x && UsizeMax < Trunc(x) ==> r == UsizeMax
  {
    if x < 0.0 then 0 else if Trunc(x) > UsizeMax then UsizeMax else Trunc(x)
  }

  /** `(lo..=hi).step_by(step)`: lo, lo + step, ... while not above hi. */
  function StepRange(lo: int, hi: int, step: nat): (r: seq<int>)
    requires step > 0
    ensures |r| > 0 <==> lo <= hi
    ensures lo <= hi ==> r[0] == lo
    decreases if lo <= hi then hi - lo + 1 else 0
  {
    if lo > hi then [] else [lo] + StepRange(lo + step, hi, step)
  }

  /** How many values `(lo..=hi).step_by(step)` yields. */
  function OffsetCount(lo: int, hi: int, step: nat): nat
    requires step > 0
  {
    if lo <= hi then (hi - lo) / step + 1 else 0
  }

  /** Integer division is determined by quotient and remainder. */
  lemma DivUnique(a: int, d: int, q: int, r: int)
    requires d > 0 && 0 <= r < d && a == q * d + r
    ensures a / d == q
  {
    var q', r' := a / d, a % d;
    assert a == q' * d + r';
    var e := q - q';
    assert e * d == r' - r by {
      assert q * d - q' * d == (q - q') * d;
    }
    if e >= 1 {
      assert e * d == (e - 1) * d + d;
      MulNonNeg(e - 1, d);
    } else if e <= -1 {
      assert e * d == -((-e - 1) * d) - d;
      MulNonNeg(-e - 1, d);
    }
  }

  lemma MulNonNeg(a: int, b: int)
    requires a >= 0 && b >= 0
    ensures a * b >= 0
  {
  }

  lemma MulSub(a: int, b: int, c: int)
    ensures (a - b) * c == a * c - b * c
  {
  }

  /** A multiple of d that counts at most a / d times stays within a. */
  lemma MulAtMostDiv(k: int, a: int, d: int)
    requires d > 0 && 0 <= k <= a / d
    ensures k * d <= a
  {
    var q := a / d;
    assert a == q * d + a % d;
    assert q * d - k * d == (q - k) * d;
    MulNonNeg(q - k, d);
  }

  lemma DivStep(a: int, step: nat)
    requires step > 0 && a >= step
    ensures (a - step) / step + 1 == a / step
  {
    var q, r := a / step, a % step;
    assert a - step == (q - 1) * step + r;
    DivUnique(a - step, step, q - 1, r);
  }

  /** The stepped range has OffsetCount values and its k-th value is
      lo + k * step. */
  lemma {:induction false} StepRangeShape(lo: int, hi: int, step: nat)
    requires step > 0
    ensures |StepRange(lo, hi, step)| == OffsetCount(lo, hi, step)
    ensures forall k :: 0 <= k < |StepRange(lo, hi, step)| ==> StepRange(lo, hi, step)[k] == lo + k * step
    decreases if lo <= hi then hi - lo + 1 else 0
  {
    if lo <= hi {
      var rest := StepRange(lo + step, hi, step);
      StepRangeShape(lo + step, hi, step);
      if lo + step <= hi {
        DivStep(hi - lo, step);
      } else {
        assert (hi - lo) / step == 0;
      }
      forall k | 0 <= k < |StepRange(lo, hi, step)|
        ensures StepRange(lo, hi, step)[k] == lo + k * step
      {
        if k > 0 {
          assert StepRange(lo, hi, step)[k] == rest[k - 1];
          assert lo + step + (k - 1) * step == lo + k * step;
        }
      }
    }
  }

  /** The stepped range starts at lo when not empty, stays within [lo, hi],
      and each value exceeds the previous one by exactly the step. */
  lemma StepRangeOrder(lo: int, hi: int, step: nat)
    requires step > 0
    ensures var s := StepRange(lo, hi, step);
      (|s| > 0 <==> lo <= hi) &&
      (|s| > 0 ==> s[0] == lo) &&
      (forall k :: 0 <= k < |s| ==> lo <= s[k] <= hi) &&
      (forall k :: 0 < k < |s| ==> s[k] == s[k - 1] + step)
  {
    var s := StepRange(lo, hi, step);
    StepRangeShape(lo, hi, step);
    forall k | 0 <= k < |s|
      ensures lo <= s[k] <= hi
    {
      MulNonNeg(k, step);
      MulAtMostDiv(k, hi - lo, step);
    }
  }

  /** The stepped range is strictly increasing. */
  lemma StepRangeIncreasing(lo: int, hi: int, step: nat)
    requires step > 0
    ensures forall j, k :: 0 <= j < k < |StepRange(lo, hi, step)| ==>
      StepRange(lo, hi, step)[j] < StepRange(lo, hi, step)[k]
  {
    StepRangeShape(lo, hi, step);
    forall j, k | 0 <= j < k < |StepRange(lo, hi, step)|
      ensures StepRange(lo, hi, step)[j] < StepRange(lo, hi, step)[k]
    {
      MulSub(k, j, step);
      MulSub(k - j, 1, step);
      MulNonNeg(k - j - 1, step);
    }
  }

  /** Which loop of setup a line comes from. */
  datatype Family = XFamily | ZFamily

  /** step_by(0) panics; the panic names the loop it happened in. */
  datatype SetupError = StepByZero(family: Family)

  /** Rotation given as Quat::from_rotation_x(angle). */
  datatype Rotation = AboutX(angle: real)

  datatype Transform = Transform(rotation: Rotation, translation: Vec3)

  /** Rectangle::new(width, height). */
  datatype Rectangle = Rectangle(width: real, height: real)

  /** One spawned grid line: its mesh, its material colour and its transform. */
  datatype LineSpec = LineSpec(mesh: Rectangle, material: Color, transform: Transform)

  /** Every grid line lies flat: rotated by -pi/2 about the X axis. */
  const FlatOnGround: Rotation := AboutX(-FracPi2)

  /** The X-family line at offset i: a flat black strip one unit wide,
      crossing the X axis at i and reaching half a unit past the grid's
      Z extent on each side. */
  function XLine(i: int, g: GridResource): (r: LineSpec)
    ensures r.material == Black && r.transform.rotation == FlatOnGround
    ensures r.transform.translation.x == i as real
    ensures r.transform.translation.y == 0.0 && r.transform.translation.z == 0.0
    ensures r.mesh.width == 1.0 && r.mesh.height == g.sizeY + 1.0
  {
    LineSpec(Rectangle(1.0, g.sizeY + 1.0), Black, Transform(FlatOnGround, Vec3(i as real, 0.0, 0.0)))
  }

  /** The Z-family line at offset j: a flat black strip one unit wide,
      crossing the Z axis at j and reaching half a unit past the grid's
      X extent on each side. */
  function ZLine(j: int, g: GridResource): (r: LineSpec)
    ensures r.material == Black && r.transform.rotation == FlatOnGround
    ensures r.transform.translation.z == j as real
    ensures r.transform.translation.x == 0.0 && r.transform.translation.y == 0.0
    ensures r.mesh.width == g.sizeX + 1.0 && r.mesh.height == 1.0
  {
    LineSpec(Rectangle(g.sizeX + 1.0, 1.0), Black, Transform(FlatOnGround, Vec3(0.0, 0.0, j as real)))
  }

  function StrideX(g: GridResource): nat { AsUsize(g.intervalX) }
  function StrideY(g: GridResource): nat { AsUsize(g.intervalY) }

  function LowX(g: GridResource): int { AsI32(-1.0 * g.sizeX / 2.0) }
  function HighX(g: GridResource): int { AsI32(g.sizeX / 2.0) }
  function LowZ(g: GridResource): int { AsI32(-1.0 * g.sizeY / 2.0) }
  function HighZ(g: GridResource): int { AsI32(g.sizeY / 2.0) }

  /** The offsets of the X-family lines. */
  function XOffsets(g: GridResource): seq<int>
    requires StrideX(g) > 0
  {
    StepRange(LowX(g), HighX(g), StrideX(g))
  }

  /** The offsets of the Z-family lines. */
  function ZOffsets(g: GridResource): seq<int>
    requires StrideY(g) > 0
  {
    StepRange(LowZ(g), HighZ(g), StrideY(g))
  }

  /** The line one loop spawns at a given offset. */
  function Line(family: Family, offset: int, g: GridResource): LineSpec {
    match family
    case XFamily => XLine(offset, g)
    case ZFamily => ZLine(offset, g)
  }

  /** The lines one loop spawns, one per offset, in order. */
  function Lines(family: Family, offsets: seq<int>, g: GridResource): seq<LineSpec> {
    seq(|offsets|, k requires 0 <= k < |offsets| => Line(family, offsets[k], g))
  }

  /** What setup spawns: all X-family lines, then all Z-family lines, or the
      panic of the first loop whose interval truncates to a zero step.
      Setup succeeds exactly when both intervals are at least 1: anything
      below 1, negatives included, truncates to a zero step. */
  function GridLines(g: GridResource): (r: Result<seq<LineSpec>, SetupError>)
    ensures r.Success? <==> g.intervalX >= 1.0 && g.intervalY >= 1.0
    ensures g.intervalX < 1.0 ==> r == Failure(StepByZero(XFamily))
    ensures g.intervalX >= 1.0 && g.intervalY < 1.0 ==> r == Failure(StepByZero(ZFamily))
  {
    if StrideX(g) == 0 then Failure(StepByZero(XFamily))
    else if StrideY(g) == 0 then Failure(StepByZero(ZFamily))
    else Success(Lines(XFamily, XOffsets(g), g) + Lines(ZFamily, ZOffsets(g), g))
  }

  lemma LinesSnoc(family: Family, offsets: seq<int>, i: int, g: GridResource)
    ensures Lines(family, offsets + [i], g) == Lines(family, offsets, g) + [Line(family, i, g)]
  {
  }

  /** One `for` loop of setup: spawns a line at every offset of
      `(lo..=hi).step_by(step)`, after the commands already queued. */
  method SpawnStepped(queued: seq<LineSpec>, family: Family, lo: int, hi: int, step: nat, grid: GridResource)
    returns (spawned: seq<LineSpec>)
    requires step > 0
    ensures spawned == queued + Lines(family, StepRange(lo, hi, step), grid)
  {
    spawned := queued;
    var i := lo;
    ghost var done: seq<int> := [];
    while i <= hi
      invariant done + StepRange(i, hi, step) == StepRange(lo, hi, step)
      invariant spawned == queued + Lines(family, done, grid)
      decreases hi - i
    {
      LinesSnoc(family, done, i, grid);
      spawned := spawned + [Line(family, i, grid)];
      ghost var rest := StepRange(i + step, hi, step);
      assert StepRange(i, hi, step) == [i] + rest;
      assert done + ([i] + rest) == (done + [i]) + rest;
      done := done + [i];
      i := i + step;
    }
  }

  /** The startup system: the X-axis loop, then the Y-axis loop (laying
      lines along the world Z axis); `step_by` panics on a zero step. */
  method Setup(grid: GridResource) returns (r: Result<seq<LineSpec>, SetupError>)
    ensures r == GridLines(grid)
  {
    // X-axis grid lines
    var strideX := StrideX(grid);
    if strideX == 0 {
      return Failure(StepByZero(XFamily));
    }
    var spawned := SpawnStepped([], XFamily, LowX(grid), HighX(grid), strideX, grid);
    // Y-axis grid lines
    var strideZ := StrideY(grid);
    if strideZ == 0 {
      return Failure(StepByZero(ZFamily));
    }
    spawned := SpawnStepped(spawned, ZFamily, LowZ(grid), HighZ(grid), strideZ, grid);
    assert spawned == Lines(XFamily, XOffsets(grid), grid) + Lines(ZFamily, ZOffsets(grid), grid);
    r := Success(spawned);
  }

  /** The X-family offsets start at the truncated lower end, lie within the
      truncated bounds, advance by exactly the stride, and number
      OffsetCount of them. */
  lemma XOffsetsShape(g: GridResource)
    requires StrideX(g) > 0
    ensures var s := XOffsets(g);
      |s| == OffsetCount(LowX(g), HighX(g), StrideX(g)) &&
      (|s| > 0 ==> s[0] == LowX(g)) &&
      (forall k :: 0 <= k < |s| ==> LowX(g) <= s[k] <= HighX(g)) &&
      (forall k :: 0 < k < |s| ==> s[k] == s[k - 1] + StrideX(g)) &&
      (forall j, k :: 0 <= j < k < |s| ==> s[j] < s[k])
  {
    StepRangeShape(LowX(g), HighX(g), StrideX(g));
    StepRangeOrder(LowX(g), HighX(g), StrideX(g));
    StepRangeIncreasing(LowX(g), HighX(g), StrideX(g));
  }

  /** The Z-family offsets follow the same rules with sizeY and intervalY. */
  lemma ZOffsetsShape(g: GridResource)
    requires StrideY(g) > 0
    ensures var s := ZOffsets(g);
      |s| == OffsetCount(LowZ(g), HighZ(g), StrideY(g)) &&
      (|s| > 0 ==> s[0] == LowZ(g)) &&
      (forall k :: 0 <= k < |s| ==> LowZ(g) <= s[k] <= HighZ(g)) &&
      (forall k :: 0 < k < |s| ==> s[k] == s[k - 1] + StrideY(g)) &&
      (forall j, k :: 0 <= j < k < |s| ==> s[j] < s[k])
  {
    StepRangeShape(LowZ(g), HighZ(g), StrideY(g));
    StepRangeOrder(LowZ(g), HighZ(g), StrideY(g));
    StepRangeIncreasing(LowZ(g), HighZ(g), StrideY(g));
  }

  /** Every spawned line is rotated -pi/2 about X and coloured black; the
      first |XOffsets| are the X family at (i, 0, 0) of size
      1 x (sizeY + 1), the rest the Z family at (0, 0, j) of size
      (sizeX + 1) x 1. */
  lemma LinePlacement(g: GridResource)
    requires GridLines(g).Success?
    ensures var lines := GridLines(g).value;
      var xs := XOffsets(g);
      var zs := ZOffsets(g);
      |lines| == |xs| + |zs| &&
      (forall l :: l in lines ==> l.transform.rotation == AboutX(-FracPi2) && l.material == Black) &&
      (forall k :: 0 <= k < |xs| ==>
        lines[k].transform.translation == Vec3(xs[k] as real, 0.0, 0.0) &&
        lines[k].mesh == Rectangle(1.0, g.sizeY + 1.0)) &&
      (forall k :: 0 <= k < |zs| ==>
        lines[|xs| + k].transform.translation == Vec3(0.0, 0.0, zs[k] as real) &&
        lines[|xs| + k].mesh == Rectangle(g.sizeX + 1.0, 1.0))
  {
    var lines := GridLines(g).value;
    var xs, zs := XOffsets(g), ZOffsets(g);
    forall l | l in lines
      ensures l.transform.rotation == AboutX(-FracPi2) && l.material == Black
    {
      var k :| 0 <= k < |lines| && lines[k] == l;
      if k < |xs| {
        assert l == Line(XFamily, xs[k], g);
      } else {
        assert l == Line(ZFamily, zs[k - |xs|], g);
      }
    }
  }

  /** Truncation is symmetric about zero. */
  lemma TruncNeg(x: real)
    ensures Trunc(-x) == -Trunc(x)
  {
  }

  /** The sequence reads the same backwards as negated forwards. */
  predicate Mirrored(s: seq<int>) {
    forall k :: 0 <= k < |s| ==> s[|s| - 1 - k] == -s[k]
  }

  /** A stepped range whose ends are opposite and whose span the step
      divides is symmetric about 0: the k-th value from the back is the
      negation of the k-th from the front. */
  lemma StepRangeSymmetric(lo: int, hi: int, step: nat)
    requires step > 0 && lo == -hi && (hi - lo) % step == 0
    ensures Mirrored(StepRange(lo, hi, step))
  {
    var xs := StepRange(lo, hi, step);
    StepRangeShape(lo, hi, step);
    if lo <= hi {
      var q := (hi - lo) / step;
      assert hi - lo == q * step + (hi - lo) % step;
      assert |xs| == q + 1;
      forall k | 0 <= k < |xs|
        ensures xs[|xs| - 1 - k] == -xs[k]
      {
        var m := q - k;
        assert m * step == q * step - k * step by {
          MulSub(q, k, step);
        }
        assert xs[m] == lo + m * step;
        assert xs[k] == lo + k * step;
      }
    }
  }

  /** While half the extent fits in i32, the X-family offsets are symmetric
      about 0 whenever the stride divides the span between the ends. */
  lemma XOffsetsSymmetric(g: GridResource)
    requires StrideX(g) > 0
    requires 0.0 <= g.sizeX && Trunc(g.sizeX / 2.0) <= I32Max
    requires (HighX(g) - LowX(g)) % StrideX(g) == 0
    ensures LowX(g) == -HighX(g)
    ensures Mirrored(XOffsets(g))
  {
    var half := g.sizeX / 2.0;
    TruncNeg(half);
    assert -1.0 * g.sizeX / 2.0 == -half;
    assert HighX(g) == Trunc(half);
    assert LowX(g) == Trunc(-half);
    StepRangeSymmetric(LowX(g), HighX(g), StrideX(g));
  }

  /** A slightly negative extent, -2 < sizeX < 0, truncates both ends to
      0, so setup still lays exactly one X-family line, at offset 0. */
  lemma SmallNegativeExtent(g: GridResource)
    requires StrideX(g) > 0
    requires -2.0 < g.sizeX < 0.0
    ensures XOffsets(g) == [0]
  {
    assert LowX(g) == 0 && HighX(g) == 0;
    assert StepRange(0, 0, StrideX(g)) == [0] + StepRange(StrideX(g), 0, StrideX(g));
  }

  /** The configured grid (100 x 1000, interval 10): X offsets -50, -40,
      ..., 50 (11 lines, 0 and both edges included), Z offsets -500, ...,
      500 (101 lines); X lines are 1 x 1001, Z lines 101 x 1. */
  lemma ConfiguredLayout()
    ensures var g := Build(Configured);
      GridLines(g).Success? &&
      XOffsets(g) == seq(11, k => -50 + 10 * k) &&
      ZOffsets(g) == seq(101, k => -500 + 10 * k) &&
      |GridLines(g).value| == 112 &&
      GridLines(g).value[0].mesh == Rectangle(1.0, 1001.0) &&
      GridLines(g).value[11].mesh == Rectangle(101.0, 1.0) &&
      -50 in XOffsets(g) && 0 in XOffsets(g) && 50 in XOffsets(g) &&
      -500 in ZOffsets(g) && 500 in ZOffsets(g)
  {
    var g := Build(Configured);
    assert LowX(g) == -50 && HighX(g) == 50 && StrideX(g) == 10;
    assert LowZ(g) == -500 && HighZ(g) == 500 && StrideY(g) == 10;
    StepRangeShape(-50, 50, 10);
    StepRangeShape(-500, 500, 10);
    assert XOffsets(g)[0] == -50 && XOffsets(g)[5] == 0 && XOffsets(g)[10] == 50;
    assert ZOffsets(g)[0] == -500 && ZOffsets(g)[100] == 500;
  }
}
