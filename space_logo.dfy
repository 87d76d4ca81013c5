/** The orbit-logo component as one mounted instance: the logo paths, the
    orbit configurations drawn once at mount (never reassigned, hence `const`),
    and the activation set that the two pointer handlers replace. */
module SpaceLogoComponent {
  import opened OrbitGeometry
  import opened MotionTargets

  class SpaceLogo {
    const paths: seq<PathData>
    const configs: seq<Config>
    var activeIndices: set<nat>

    /** Configurations are one per path and within their documented ranges. */
    ghost predicate Valid()
      reads this
    {
      && |configs| == |paths|
      && forall k :: 0 <= k < |configs| ==> InBounds(configs[k])
    }

    /** Mounting: derive one configuration per path from the injected draws,
        and start with no active path. */
    constructor (logoPaths: seq<PathData>, draws: seq<real>)
      requires |draws| == 5 * |logoPaths| && AllDraws(draws)
      ensures Valid()
      ensures paths == logoPaths && configs == Configs(logoPaths, draws)
      ensures activeIndices == {}
    {
      paths := logoPaths;
      configs := Configs(logoPaths, draws);
      activeIndices := {};
    }

    /** `activeIndices.has(index)`. */
    function IsActive(index: nat): bool
      reads this
    {
      index in activeIndices
    }

    /** `handleMouseEnterPath(index)`: the set becomes a copy of the old one
        with `index` added. Nothing else changes. */
    method HandleMouseEnterPath(index: nat)
      requires Valid()
      modifies this`activeIndices
      ensures Valid()
      ensures activeIndices == old(activeIndices) + {index}
    {
      var newSet := activeIndices;
      newSet := newSet + {index};
      activeIndices := newSet;
    }

    /** `handleMouseLeaveContainer()`: the set becomes empty. */
    method HandleMouseLeaveContainer()
      requires Valid()
      modifies this`activeIndices
      ensures Valid()
      ensures activeIndices == {}
    {
      activeIndices := {};
    }

    /** What one render tells each path, given this render's scale draws. */
    function Render(scaleDraws: seq<real>): (r: seq<PathView>)
      reads this
      requires Valid()
      requires |scaleDraws| == |paths| && AllDraws(scaleDraws)
      ensures |r| == |paths|
      ensures forall k :: 0 <= k < |r| ==> (r[k].variant == Orbit <==> IsActive(k))
      ensures forall k :: 0 <= k < |r| && IsActive(k) ==> 60.0 <= r[k].path.x < 200.0
    {
      Frame(paths, configs, activeIndices, scaleDraws)
    }
  }

  /** A client of the component: mount three paths, enter path 1, then path 0,
      then leave; the flags of the three paths follow the pointer. */
  method HoverThreePaths(p0: PathData, p1: PathData, p2: PathData, draws: seq<real>)
    returns (afterFirst: seq<bool>, afterSecond: seq<bool>, afterLeave: seq<bool>)
    requires |draws| == 15 && AllDraws(draws)
    ensures afterFirst == [false, true, false]
    ensures afterSecond == [true, true, false]
    ensures afterLeave == [false, false, false]
  {
    var logo := new SpaceLogo([p0, p1, p2], draws);
    logo.HandleMouseEnterPath(1);
    afterFirst := [logo.IsActive(0), logo.IsActive(1), logo.IsActive(2)];
    logo.HandleMouseEnterPath(0);
    afterSecond := [logo.IsActive(0), logo.IsActive(1), logo.IsActive(2)];
    logo.HandleMouseLeaveContainer();
    afterLeave := [logo.IsActive(0), logo.IsActive(1), logo.IsActive(2)];
  }
}
