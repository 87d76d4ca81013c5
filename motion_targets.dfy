/** The animation targets of each logo path: the variant the outer group is
    told to animate to, the target of its orbit rotation, and the target of the
    inner path's fly-out. Only target values are modelled; how the animation
    library moves between them over time is not. */
module MotionTargets {
  import opened OrbitGeometry

  /** The two variant names, `"idle"` and `"orbit"`. */
  datatype Variant = Idle | Orbit

  /** `animate={isActive ? "orbit" : "idle"}`. */
  function VariantFor(isActive: bool): Variant
  {
    if isActive then Orbit else Idle
  }

  /** The target of the outer group (`orbitVariants`): a rotation about the origin. */
  datatype GroupTarget = GroupTarget(rotate: real)

  /** The target of the inner path (`flyOutVariants`). */
  datatype PathTarget = PathTarget(x: real, y: real, scale: real, opacity: real, rotate: real, fill: string)

  const IdleFill: string := "#FFFFFF"
  const OrbitFill: string := "#a5b4fc"

  /** The inner path's resting target: at its own place, full size, unrotated, white. */
  const IdlePathTarget: PathTarget := PathTarget(0.0, 0.0, 1.0, 1.0, 0.0, IdleFill)

  /** The outer group's rotation target for one variant. */
  function OrbitVariant(c: Config, v: Variant): (t: GroupTarget)
    ensures v == Idle ==> t.rotate == 0.0
    ensures v == Orbit && c.direction == 1 ==> t.rotate == 360.0
    ensures v == Orbit && c.direction != 1 ==> t.rotate == -360.0
  {
    match v
    case Idle => GroupTarget(0.0)
    case Orbit => GroupTarget(if c.direction == 1 then 360.0 else -360.0)
  }

  /** The inner path's target for one variant. `scaleDraw` is the fresh
      `Math.random()` the orbit target's scale is computed from. */
  function FlyOutVariant(c: Config, v: Variant, scaleDraw: real): (t: PathTarget)
    requires IsDraw(scaleDraw)
    ensures v == Idle ==> t == IdlePathTarget
    ensures v == Orbit ==> t.x == c.radius && t.y == 0.0
    ensures v == Orbit ==> 0.6 <= t.scale < 1.0
    ensures v == Orbit ==> t.rotate == 360.0 && t.opacity == 0.9 && t.fill == OrbitFill
  {
    match v
    case Idle => IdlePathTarget
    case Orbit => PathTarget(c.radius, 0.0, 0.6 + scaleDraw * 0.4, 0.9, 360.0, OrbitFill)
  }

  /** What one rendered path is told: its path data, its group's rotation
      origin, the variant it animates to and the targets of both layers. */
  datatype PathView = PathView(d: PathData, origin: Point, variant: Variant, group: GroupTarget, path: PathTarget)

  /** `LOGO_PATHS.map((d, index) => ...)` inside the SVG, for a given set of
      active indices and the scale draws of this render. */
  function Frame(paths: seq<PathData>, configs: seq<Config>, active: set<nat>, scaleDraws: seq<real>): (r: seq<PathView>)
    requires |configs| == |paths| && |scaleDraws| == |paths|
    requires AllDraws(scaleDraws)
    ensures |r| == |paths|
    ensures forall k :: 0 <= k < |r| ==> r[k].d == paths[k] && r[k].origin == Centre(LogoViewBox)
    ensures forall k :: 0 <= k < |r| ==> (r[k].variant == Orbit <==> k in active)
    ensures forall k :: 0 <= k < |r| && k !in active ==> r[k].group.rotate == 0.0 && r[k].path == IdlePathTarget
    ensures forall k :: 0 <= k < |r| && k in active ==>
              && r[k].group.rotate == (if configs[k].direction == 1 then 360.0 else -360.0)
              && r[k].path.x == configs[k].radius && r[k].path.y == 0.0
              && 0.6 <= r[k].path.scale < 1.0
  {
    seq(|paths|, k requires 0 <= k < |paths| =>
      var v := VariantFor(k in active);
      PathView(paths[k], GroupOrigin(paths[k]), v, OrbitVariant(configs[k], v), FlyOutVariant(configs[k], v, scaleDraws[k])))
  }

  /** Every path of a frame is given the same origin values, whatever the paths are. */
  lemma SharedOrigin(paths: seq<PathData>, configs: seq<Config>, active: set<nat>, scaleDraws: seq<real>, j: nat, k: nat)
    requires |configs| == |paths| && |scaleDraws| == |paths|
    requires AllDraws(scaleDraws)
    requires j < |paths| && k < |paths|
    ensures |Frame(paths, configs, active, scaleDraws)| == |paths|
    ensures Frame(paths, configs, active, scaleDraws)[j].origin == Frame(paths, configs, active, scaleDraws)[k].origin
    ensures Frame(paths, configs, active, scaleDraws)[k].origin == Point(LogoViewBox.width / 2.0, LogoViewBox.height / 2.0)
  {
  }

  /** With configurations drawn at mount, an active path is pushed out to a
      distance in [60, 200) and its group turns a full revolution one way or the other. */
  lemma ActivePathOrbitBounds(paths: seq<PathData>, draws: seq<real>, active: set<nat>, scaleDraws: seq<real>, k: nat)
    requires |draws| == 5 * |paths| && AllDraws(draws)
    requires |scaleDraws| == |paths| && AllDraws(scaleDraws)
    requires k < |paths| && k in active
    ensures |Configs(paths, draws)| == |paths|
    ensures var view := Frame(paths, Configs(paths, draws), active, scaleDraws)[k];
      && 60.0 <= view.path.x < 200.0
      && (view.group.rotate == 360.0 || view.group.rotate == -360.0)
      && (view.group.rotate == 360.0 <==> draws[5 * k + 2] > 0.5)
  {
    ConfigDirection(paths, draws, k);
  }
}
