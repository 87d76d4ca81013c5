/** The geometry of the orbit-logo hover component: the coordinate frame and
    the per-path orbit parameters drawn once when the component is mounted.

    `Math.random()` is replaced by an injected sequence of draws, each a real
    in [0, 1). The mapping over the logo paths evaluates five draws per path,
    in the order radius, duration, direction, initial angle, tumble speed, so
    the configuration of path k is made from draws 5k .. 5k+4. */
module OrbitGeometry {

  /** A logo path (an SVG path string). The core never inspects it. */
  type PathData = string

  datatype Point = Point(x: real, y: real)

  /** The `viewBox="0 0 220 44.7"` rectangle of the logo's SVG surface. */
  datatype ViewBox = ViewBox(minX: real, minY: real, width: real, height: real)

  const LogoViewBox: ViewBox := ViewBox(0.0, 0.0, 220.0, 44.7)

  /** The constants `centerX` and `centerY` of the component. */
  const CenterX: real := 110.0
  const CenterY: real := 22.35

  /** The geometric centre of a view box. */
  function Centre(vb: ViewBox): Point
  {
    Point(vb.minX + vb.width / 2.0, vb.minY + vb.height / 2.0)
  }

  /** The rotation origin every path's outer group is given
      (`originX: 110px`, `originY: 22.35px`). The path itself is a
      parameter only to make plain that the origin does not depend on it. */
  function GroupOrigin(d: PathData): (o: Point)
    ensures o == Centre(LogoViewBox)
  {
    Point(CenterX, CenterY)
  }

  /** One orbit configuration: `{radius, duration, direction, initialAngle, tumbleSpeed}`. */
  datatype Config = Config(radius: real, duration: real, direction: int, initialAngle: real, tumbleSpeed: real)

  /** A value `Math.random()` can return. */
  predicate IsDraw(r: real)
  {
    0.0 <= r < 1.0
  }

  predicate AllDraws(rs: seq<real>)
  {
    forall i :: 0 <= i < |rs| ==> IsDraw(rs[i])
  }

  /** The documented ranges of a configuration's fields. */
  predicate InBounds(c: Config)
  {
    && 60.0 <= c.radius < 200.0
    && 4.0 <= c.duration < 12.0
    && (c.direction == 1 || c.direction == -1)
    && 0.0 <= c.initialAngle < 360.0
    && 2.0 <= c.tumbleSpeed < 7.0
  }

  /** The configuration one path gets from its five draws. */
  function Derive(rRadius: real, rDuration: real, rDirection: real, rAngle: real, rTumble: real): (c: Config)
    requires IsDraw(rRadius) && IsDraw(rDuration) && IsDraw(rDirection) && IsDraw(rAngle) && IsDraw(rTumble)
    ensures InBounds(c)
    ensures c.direction == 1 <==> rDirection > 0.5
    ensures c.direction == -1 <==> rDirection <= 0.5
  {
    var radius := 60.0 + rRadius * 140.0;
    var duration := 4.0 + rDuration * 8.0;
    var direction := if rDirection > 0.5 then 1 else -1;
    var initialAngle := rAngle * 360.0;
    var tumbleSpeed := 2.0 + rTumble * 5.0;
    Config(radius, duration, direction, initialAngle, tumbleSpeed)
  }

  /** `LOGO_PATHS.map(() => ...)`: one configuration per path, drawn in path order. */
  function Configs(paths: seq<PathData>, draws: seq<real>): (r: seq<Config>)
    requires |draws| == 5 * |paths|
    requires AllDraws(draws)
    ensures |r| == |paths|
    ensures forall k :: 0 <= k < |r| ==> InBounds(r[k])
    decreases |paths|
  {
    if paths == [] then []
    else
      [Derive(draws[0], draws[1], draws[2], draws[3], draws[4])] + Configs(paths[1..], draws[5..])
  }

  /** Configuration k belongs to path k: it is derived from the k-th block of five draws. */
  lemma {:induction false} ConfigOfPath(paths: seq<PathData>, draws: seq<real>, k: nat)
    requires |draws| == 5 * |paths|
    requires AllDraws(draws)
    requires k < |paths|
    ensures |Configs(paths, draws)| == |paths|
    ensures Configs(paths, draws)[k] ==
            Derive(draws[5 * k], draws[5 * k + 1], draws[5 * k + 2], draws[5 * k + 3], draws[5 * k + 4])
  {
    if k > 0 {
      ConfigOfPath(paths[1..], draws[5..], k - 1);
      assert draws[5..][5 * (k - 1)] == draws[5 * k];
      assert draws[5..][5 * (k - 1) + 1] == draws[5 * k + 1];
      assert draws[5..][5 * (k - 1) + 2] == draws[5 * k + 2];
      assert draws[5..][5 * (k - 1) + 3] == draws[5 * k + 3];
      assert draws[5..][5 * (k - 1) + 4] == draws[5 * k + 4];
    }
  }

  /** The direction of path k's orbit is +1 exactly when its third draw exceeds 0.5. */
  lemma ConfigDirection(paths: seq<PathData>, draws: seq<real>, k: nat)
    requires |draws| == 5 * |paths|
    requires AllDraws(draws)
    requires k < |paths|
    ensures |Configs(paths, draws)| == |paths|
    ensures Configs(paths, draws)[k].direction == 1 <==> draws[5 * k + 2] > 0.5
    ensures Configs(paths, draws)[k].direction == -1 <==> draws[5 * k + 2] <= 0.5
  {
    ConfigOfPath(paths, draws, k);
  }
}
