/**
 * The host-side rules of SDF2D: how the uniform block is packed from the
 * control panel and the ball, how the cursor moves the ball, how the panel
 * edits the lights, and which frames the frame-time statistics count and
 * when they are printed.
 */
module Sdf2dRules {
  import opened Wrappers
  import opened Vectors
  import opened Sdf2dHeader

  /** The contents of `ShaderToyUniforms`, one lane per float. */
  datatype Uniforms2D = Uniforms2D(iTime: real, iResolution: Vec2, iMouse: Vec2, lightPos: Vec2, lightOn: Vec4, lightRadius: Vec4)

  /** A host bool as a shader lane: 1.0 when set, 0.0 otherwise. */
  function Flag(b: bool): (f: real)
    ensures f == 1.0 || f == 0.0
    ensures f > 0.5 <==> b
  {
    if b then 1.0 else 0.0
  }

  /** How the shader reads the three light switches: a light is on when its lane exceeds one half. */
  function LightsOn(u: Uniforms2D): seq<bool>
  {
    [u.lightOn.x > 0.5, u.lightOn.y > 0.5, u.lightOn.z > 0.5]
  }

  function Radii(u: Uniforms2D): seq<real>
  {
    [u.lightRadius.x, u.lightRadius.y, u.lightRadius.z]
  }

  /**
   * `updateUniformBuffer`: the time, the swapchain extent, the ball (not
   * the raw cursor) as iMouse, light 1's slider position, the three switches
   * as 1.0 or 0.0 and the three radii. Reading the lanes back gives the
   * panel's switches and radii; the fourth lane of `lightOn` and
   * `lightRadius` is padding and is 0.
   */
  function PackUniforms(time: real, width: nat, height: nat, ball: Vec2, lights: Lights2D): (u: Uniforms2D)
    requires LightsSized(lights)
    ensures u.iTime == time && u.iResolution == Vec2(width as real, height as real)
    ensures u.iMouse == ball && u.lightPos == lights.light1Position
    ensures LightsOn(u) == lights.enabled && Radii(u) == lights.radii
    ensures forall f | f in [u.lightOn.x, u.lightOn.y, u.lightOn.z] :: f == 1.0 || f == 0.0
    ensures u.lightOn.w == 0.0 && u.lightRadius.w == 0.0
  {
    Uniforms2D(time, Vec2(width as real, height as real), ball, lights.light1Position,
      Vec4(Flag(lights.enabled[0]), Flag(lights.enabled[1]), Flag(lights.enabled[2]), 0.0),
      Vec4(lights.radii[0], lights.radii[1], lights.radii[2], 0.0))
  }

  /** `std::max(0, std::min(hi, v))`: the nearest point of [0, hi]. */
  function ClampToExtent(v: real, hi: real): (r: real)
    requires 0.0 <= hi
    ensures 0.0 <= r <= hi
    ensures 0.0 <= v <= hi ==> r == v
    ensures v < 0.0 ==> r == 0.0
    ensures hi < v ==> r == hi
  {
    var m := if hi < v then hi else v;
    if m < 0.0 then 0.0 else m
  }

  /**
   * The cursor callback's ball: the cursor position times the sensitivity,
   * each coordinate clamped into the swapchain extent. A scaled position
   * inside the extent is taken as it is.
   */
  function BallFromCursor(cursor: Vec2, sensitivity: real, width: nat, height: nat): (b: Vec2)
    ensures 0.0 <= b.x <= width as real && 0.0 <= b.y <= height as real
    ensures 0.0 <= cursor.x * sensitivity <= width as real ==> b.x == cursor.x * sensitivity
    ensures 0.0 <= cursor.y * sensitivity <= height as real ==> b.y == cursor.y * sensitivity
  {
    Vec2(ClampToExtent(cursor.x * sensitivity, width as real), ClampToExtent(cursor.y * sensitivity, height as real))
  }

  /** With a non-negative sensitivity the ball moves right when the cursor moves right, never left. */
  lemma BallFollowsCursorX(c: Vec2, c': Vec2, sensitivity: real, width: nat, height: nat)
    requires 0.0 <= sensitivity && c.x <= c'.x
    ensures BallFromCursor(c, sensitivity, width, height).x <= BallFromCursor(c', sensitivity, width, height).x
  {
    ScaleClampMonotone(c.x, c'.x, sensitivity, width as real);
  }

  /** The same along the other axis: the ball moves down when the cursor moves down, never up. */
  lemma BallFollowsCursorY(c: Vec2, c': Vec2, sensitivity: real, width: nat, height: nat)
    requires 0.0 <= sensitivity && c.y <= c'.y
    ensures BallFromCursor(c, sensitivity, width, height).y <= BallFromCursor(c', sensitivity, width, height).y
  {
    ScaleClampMonotone(c.y, c'.y, sensitivity, height as real);
  }

  /** Scaling by a non-negative factor and then clamping keeps the order of two values. */
  lemma ScaleClampMonotone(a: real, b: real, k: real, hi: real)
    requires a <= b && 0.0 <= k && 0.0 <= hi
    ensures ClampToExtent(a * k, hi) <= ClampToExtent(b * k, hi)
  {
    var d := b - a;
    assert d * k >= 0.0;
    assert b * k == a * k + d * k;
  }

  /** What the user did in the control panel during one frame: checkboxes clicked, sliders moved. */
  datatype Panel2D = Panel2D(
    toggled: set<nat>,
    radii: map<nat, real>,
    light1X: Option<real>,
    light1Y: Option<real>,
    sensitivity: Option<real>)

  const NoPanelInput: Panel2D := Panel2D({}, map[], None, None, None)

  /** A clicked checkbox flips its light; the others keep theirs. */
  function Toggle(enabled: seq<bool>, toggled: set<nat>): (r: seq<bool>)
    ensures |r| == |enabled|
    ensures forall i | 0 <= i < |r| :: r[i] != enabled[i] <==> i in toggled
  {
    seq(|enabled|, i requires 0 <= i < |enabled| => if i in toggled then !enabled[i] else enabled[i])
  }

  /** Clicking the same checkboxes twice restores them. */
  lemma ToggleTwice(enabled: seq<bool>, toggled: set<nat>)
    ensures Toggle(Toggle(enabled, toggled), toggled) == enabled
  {
    var once := Toggle(enabled, toggled);
    var twice := Toggle(once, toggled);
    forall i | 0 <= i < |enabled|
      ensures twice[i] == enabled[i]
    {
      assert once[i] != enabled[i] <==> i in toggled;
      assert twice[i] != once[i] <==> i in toggled;
    }
  }

  /** A moved slider takes its new value; an untouched one keeps its value. */
  function MoveSliders(values: seq<real>, moved: map<nat, real>): (r: seq<real>)
    ensures |r| == |values|
    ensures forall i | 0 <= i < |r| && i in moved :: r[i] == moved[i]
    ensures forall i | 0 <= i < |r| && i !in moved :: r[i] == values[i]
  {
    seq(|values|, i requires 0 <= i < |values| => if i in moved then moved[i] else values[i])
  }

  /**
   * The control panel of `recordCommandBuffer`: checkboxes flip lights,
   * sliders set the radii, light 1's position and the mouse sensitivity.
   * The arrays keep their size, and a frame without input changes nothing.
   */
  function ApplyPanel(lights: Lights2D, sensitivity: real, p: Panel2D): (r: (Lights2D, real))
    ensures |r.0.enabled| == |lights.enabled| && |r.0.radii| == |lights.radii|
    ensures LightsSized(lights) ==> LightsSized(r.0)
    ensures forall i | 0 <= i < |lights.enabled| :: r.0.enabled[i] != lights.enabled[i] <==> i in p.toggled
    ensures forall i | 0 <= i < |lights.radii| :: r.0.radii[i] == if i in p.radii then p.radii[i] else lights.radii[i]
    ensures p.light1X.Some? ==> r.0.light1Position.x == p.light1X.value
    ensures p.light1X.None? ==> r.0.light1Position.x == lights.light1Position.x
    ensures p.light1Y.Some? ==> r.0.light1Position.y == p.light1Y.value
    ensures p.light1Y.None? ==> r.0.light1Position.y == lights.light1Position.y
    ensures p.sensitivity.Some? ==> r.1 == p.sensitivity.value
    ensures p.sensitivity.None? ==> r.1 == sensitivity
    ensures p == NoPanelInput ==> r == (lights, sensitivity)
  {
    var l := Lights2D(Toggle(lights.enabled, p.toggled), MoveSliders(lights.radii, p.radii),
      Vec2(Moved(lights.light1Position.x, p.light1X), Moved(lights.light1Position.y, p.light1Y)));
    assert p == NoPanelInput ==> l.enabled == lights.enabled && l.radii == lights.radii;
    (l, Moved(sensitivity, p.sensitivity))
  }

  /** The sum of frame times, added up first to last. */
  function Sum(ds: seq<real>): real
    decreases |ds|
  {
    if ds == [] then 0.0 else Sum(ds[..|ds| - 1]) + ds[|ds| - 1]
  }

  /** What `totalTime` holds after the frames timed `ds`: the sum of all but the first two. */
  function TotalTime(ds: seq<real>): real
  {
    if |ds| <= 2 then 0.0 else Sum(ds[2..])
  }

  /** One more frame adds its time to the total exactly when it is the third frame or later. */
  lemma TotalTimeStep(ds: seq<real>, d: real)
    ensures TotalTime(ds + [d]) == TotalTime(ds) + (if |ds| + 1 > 2 then d else 0.0)
  {
    var ds' := ds + [d];
    if |ds| >= 2 {
      var tail := ds'[2..];
      assert tail[..|tail| - 1] == (if |ds| == 2 then [] else ds[2..]);
      assert tail[|tail| - 1] == d;
      assert Sum(tail) == Sum(tail[..|tail| - 1]) + d;
      if |ds| == 2 {
        assert Sum(tail[..|tail| - 1]) == 0.0;
      }
    }
  }

  /** One printed statistics block: the frame count, the last frame's time, the running total, and its divisor. */
  datatype Report = Report(frameCount: nat, currentFrameTime: real, totalTime: real, divisor: int)

  /** Statistics are printed after a frame whose count is a multiple of the interval and beyond the first two. */
  predicate ReportDue(frameCount: int)
  {
    frameCount % FramePauseInterval == 0 && frameCount > 2
  }

  /**
   * What is printed after the first `n` frames of `ds`. The divisor is
   * never zero and is exactly the number of frame times the total adds up.
   */
  function ReportAt(ds: seq<real>, n: nat): (r: Report)
    requires 2 < n <= |ds|
    ensures r.frameCount == n && r.currentFrameTime == ds[n - 1]
    ensures r.divisor > 0 && r.divisor == |ds[2..n]| && r.totalTime == Sum(ds[2..n])
  {
    assert ds[..n][2..] == ds[2..n];
    Report(n, ds[n - 1], TotalTime(ds[..n]), n - 2)
  }

  /** Every statistics block `mainLoop` prints over the frames timed `ds`, in order. */
  function Reports(ds: seq<real>): seq<Report>
    decreases |ds|
  {
    if ds == [] then []
    else Reports(ds[..|ds| - 1]) + (if ReportDue(|ds|) then [ReportAt(ds, |ds|)] else [])
  }

  /** A print after `n` frames depends on those frames only. */
  lemma ReportAtPrefix(ds: seq<real>, m: nat, n: nat)
    requires 2 < n <= m <= |ds|
    ensures ReportAt(ds[..m], n) == ReportAt(ds, n)
  {
    assert ds[..m][..n] == ds[..n];
  }

  /**
   * The prints are exactly the due frame counts, in increasing order: every
   * print is due, lies within the frames run and reports the frames up to
   * its count; and every due count up to the last frame is printed.
   */
  lemma {:induction false} ReportsExact(ds: seq<real>)
    ensures forall k | 0 <= k < |Reports(ds)| ::
      && ReportDue(Reports(ds)[k].frameCount) && Reports(ds)[k].frameCount <= |ds|
      && Reports(ds)[k] == ReportAt(ds, Reports(ds)[k].frameCount)
    ensures forall k, k' | 0 <= k < k' < |Reports(ds)| :: Reports(ds)[k].frameCount < Reports(ds)[k'].frameCount
    ensures forall n | 2 < n <= |ds| && ReportDue(n) :: ReportAt(ds, n) in Reports(ds)
    decreases |ds|
  {
    if ds != [] {
      var pre := ds[..|ds| - 1];
      ReportsExact(pre);
      var rs := Reports(pre);
      var all := Reports(ds);
      assert all == rs + (if ReportDue(|ds|) then [ReportAt(ds, |ds|)] else []);
      forall k | 0 <= k < |rs|
        ensures all[k] == rs[k] && rs[k] == ReportAt(ds, rs[k].frameCount) && rs[k].frameCount < |ds|
      {
        ReportAtPrefix(ds, |pre|, rs[k].frameCount);
        assert pre == ds[..|pre|];
      }
      forall n | 2 < n <= |ds| && ReportDue(n)
        ensures ReportAt(ds, n) in all
      {
        if n < |ds| {
          ReportAtPrefix(ds, |pre|, n);
          assert pre == ds[..|pre|];
          assert ReportAt(pre, n) in rs;
        } else {
          assert all[|all| - 1] == ReportAt(ds, n);
        }
      }
    }
  }
}
