/** Range resolution for the random placement of a spawned item: position
    bounds defaulted to the canvas, every min/max pair put in order, scale
    taken from percent, aspect lock and rotation switch applied. The random
    draws are arbitrary values inside the resolved intervals. */
module Transform {
  import opened Wrappers
  import opened Settings

  /** A closed interval of reals. */
  datatype Interval = Interval(lo: real, hi: real) {
    predicate Contains(v: real) {
      lo <= v <= hi
    }
  }

  /** The canvas size reported by the host (`base_width`, `base_height`). */
  datatype Canvas = Canvas(width: nat, height: nat)

  /** The `if (a > b) std::swap(a, b)` normalisation of a pair of bounds. */
  function Ordered(a: real, b: real): (r: Interval)
    ensures r.lo <= r.hi
    ensures r == Interval(a, b) || r == Interval(b, a)
  {
    if a > b then Interval(b, a) else Interval(a, b)
  }

  /** `i` has the endpoints `a` and `b`, in either order. */
  predicate EndpointsOf(i: Interval, a: real, b: real) {
    i == Interval(a, b) || i == Interval(b, a)
  }

  /** A configured minimum edge: non-positive means 0. */
  function MinEdge(configured: int): (r: real)
    ensures 0.0 <= r
    ensures r == 0.0 <==> configured <= 0
  {
    if configured > 0 then configured as real else 0.0
  }

  /** A configured maximum edge: non-positive means the canvas extent. */
  function MaxEdge(configured: int, extent: nat): (r: real)
    ensures 0.0 <= r
    ensures configured <= 0 ==> r == extent as real
  {
    if configured > 0 then configured as real else extent as real
  }

  /** The intervals the position and scale draws come from. */
  datatype Ranges = Ranges(x: Interval, y: Interval, scale: Interval)

  /** Resolve the configured bounds against the canvas. */
  function ResolveRanges(cfg: Config, canvas: Canvas): (r: Ranges)
    ensures r.x.lo <= r.x.hi && r.y.lo <= r.y.hi && r.scale.lo <= r.scale.hi
    ensures EndpointsOf(r.x, MinEdge(cfg.minX), MaxEdge(cfg.maxX, canvas.width))
    ensures EndpointsOf(r.y, MinEdge(cfg.minY), MaxEdge(cfg.maxY, canvas.height))
    ensures EndpointsOf(r.scale, cfg.minScale / 100.0, cfg.maxScale / 100.0)
    ensures 0.0 <= r.x.lo && 0.0 <= r.y.lo
  {
    Ranges(
      Ordered(MinEdge(cfg.minX), MaxEdge(cfg.maxX, canvas.width)),
      Ordered(MinEdge(cfg.minY), MaxEdge(cfg.maxY, canvas.height)),
      Ordered(cfg.minScale / 100.0, cfg.maxScale / 100.0))
  }

  /** The values handed to the host setters for one item. `rotation` is None
      when the rotation setter is not called at all. */
  datatype Placement = Placement(x: real, y: real, scaleX: real, scaleY: real, rotation: Option<real>)

  /** A placement the transform can produce under `cfg` on `canvas`. */
  predicate Fits(p: Placement, cfg: Config, canvas: Canvas)
    ensures Fits(p, cfg, canvas) ==> 0.0 <= p.x && 0.0 <= p.y
  {
    var r := ResolveRanges(cfg, canvas);
    && r.x.Contains(p.x) && r.y.Contains(p.y)
    && r.scale.Contains(p.scaleX) && r.scale.Contains(p.scaleY)
    && (cfg.preserveAspect ==> p.scaleY == p.scaleX)
    && (p.rotation.None? <==> cfg.disableRot)
    && (p.rotation.Some? ==> Ordered(cfg.minRot, cfg.maxRot).Contains(p.rotation.value))
  }

  /** `apply_random_transform`: every draw is an arbitrary value of its interval. */
  method RandomTransform(cfg: Config, canvas: Canvas) returns (p: Placement)
    ensures Fits(p, cfg, canvas)
    ensures cfg.preserveAspect ==> p.scaleY == p.scaleX
    ensures cfg.disableRot ==> p.rotation == None
  {
    var r := ResolveRanges(cfg, canvas);
    assert r.x.Contains(r.x.lo) && r.y.Contains(r.y.lo) && r.scale.Contains(r.scale.lo);
    var x :| r.x.Contains(x);
    var y :| r.y.Contains(y);
    var sx :| r.scale.Contains(sx);
    var sy := sx;
    if !cfg.preserveAspect {
      sy :| r.scale.Contains(sy);
    }
    var rotation := None;
    if !cfg.disableRot {
      var rr := Ordered(cfg.minRot, cfg.maxRot);
      assert rr.Contains(rr.lo);
      var rot :| rr.Contains(rot);
      rotation := Some(rot);
    }
    p := Placement(x, y, sx, sy, rotation);
  }

  /** Bounds given the wrong way round are used swapped: 500..100 means 100..500. */
  lemma SwappedBoundsUsed(cfg: Config, canvas: Canvas)
    requires cfg.minX == 500 && cfg.maxX == 100
    ensures ResolveRanges(cfg, canvas).x == Interval(100.0, 500.0)
  {
  }

  /** With both edges unset an axis spans the whole canvas. */
  lemma UnsetBoundsSpanCanvas(cfg: Config, canvas: Canvas)
    requires cfg.minX <= 0 && cfg.maxX <= 0 && cfg.minY <= 0 && cfg.maxY <= 0
    ensures ResolveRanges(cfg, canvas).x == Interval(0.0, canvas.width as real)
    ensures ResolveRanges(cfg, canvas).y == Interval(0.0, canvas.height as real)
  {
  }
}
