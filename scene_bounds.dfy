/** Scene renderers and the axis-aligned bounds the shadow and OIT passes fold over them.
    Unity's `Bounds` is abstracted to an integer box; `Encapsulate` grows a box to hold
    another one. The two scans of the core (by tag, for shadow casters, and over all
    renderers, for the OIT depth range) keep the renderers that pass a test, in scan
    order, and seed the running box with the first one they keep. */
module SceneBounds {
  import opened Wrappers
  import opened Linear

  datatype Int3 = Int3(x: int, y: int, z: int)

  /** An axis-aligned box from corner `min` to corner `max`. */
  datatype Bounds = Bounds(min: Int3, max: Int3)

  /** A scene renderer as the scans see it: whether it is enabled, whether its
      shadow-casting mode is anything but Off, its world bounds, the render queue of its
      shared material and how many material slots (sub-meshes) it has. */
  datatype Renderer = Renderer(id: nat, enabled: bool, castsShadows: bool, bounds: Bounds,
                               renderQueue: int, materialCount: nat)

  function MinInt(a: int, b: int): int { if a <= b then a else b }

  function MaxInt(a: int, b: int): int { if a <= b then b else a }

  /** `outer` holds `inner` on every axis. */
  predicate Contains(outer: Bounds, inner: Bounds)
  {
    && outer.min.x <= inner.min.x && inner.max.x <= outer.max.x
    && outer.min.y <= inner.min.y && inner.max.y <= outer.max.y
    && outer.min.z <= inner.min.z && inner.max.z <= outer.max.z
  }

  /** `Bounds.Encapsulate`: the smallest box holding both boxes. */
  function Encapsulate(a: Bounds, b: Bounds): (r: Bounds)
    ensures Contains(r, a) && Contains(r, b)
    ensures forall c :: Contains(c, a) && Contains(c, b) ==> Contains(c, r)
  {
    Bounds(Int3(MinInt(a.min.x, b.min.x), MinInt(a.min.y, b.min.y), MinInt(a.min.z, b.min.z)),
           Int3(MaxInt(a.max.x, b.max.x), MaxInt(a.max.y, b.max.y), MaxInt(a.max.z, b.max.z)))
  }

  function Center(b: Bounds): Vec3
  {
    Vec3((b.min.x + b.max.x) as real / 2.0, (b.min.y + b.max.y) as real / 2.0,
         (b.min.z + b.max.z) as real / 2.0)
  }

  function Extents(b: Bounds): Vec3
  {
    Vec3((b.max.x - b.min.x) as real / 2.0, (b.max.y - b.min.y) as real / 2.0,
         (b.max.z - b.min.z) as real / 2.0)
  }

  /** The box a scan holds after visiting the kept renderers `rs` in order: the first
      one's bounds, then each later one encapsulated into it. */
  function Union(rs: seq<Renderer>): Bounds
    requires |rs| > 0
  {
    if |rs| == 1 then rs[0].bounds
    else Encapsulate(Union(rs[..|rs| - 1]), rs[|rs| - 1].bounds)
  }

  lemma {:induction false} UnionEnclosesAll(rs: seq<Renderer>)
    requires |rs| > 0
    ensures forall k :: 0 <= k < |rs| ==> Contains(Union(rs), rs[k].bounds)
  {
    if |rs| > 1 {
      var init := rs[..|rs| - 1];
      UnionEnclosesAll(init);
      forall k | 0 <= k < |rs|
        ensures Contains(Union(rs), rs[k].bounds)
      {
        if k < |rs| - 1 {
          assert rs[k] == init[k];
          assert Contains(Union(init), rs[k].bounds);
        }
      }
    }
  }

  lemma {:induction false} UnionIsLeast(rs: seq<Renderer>, c: Bounds)
    requires |rs| > 0
    requires forall k :: 0 <= k < |rs| ==> Contains(c, rs[k].bounds)
    ensures Contains(c, Union(rs))
  {
    if |rs| > 1 {
      var init := rs[..|rs| - 1];
      forall k | 0 <= k < |init|
        ensures Contains(c, init[k].bounds)
      {
        assert init[k] == rs[k];
      }
      UnionIsLeast(init, c);
    }
  }

  /** Folding one more renderer into a scan encapsulates its bounds. */
  lemma UnionSnoc(rs: seq<Renderer>, r: Renderer)
    requires |rs| > 0
    ensures Union(rs + [r]) == Encapsulate(Union(rs), r.bounds)
  {
    assert (rs + [r])[..|rs + [r]| - 1] == rs;
  }

  /** The renderers of `objs` (a null entry is an object without a Renderer component)
      that pass `keep`, in scan order. */
  function Kept(objs: seq<Option<Renderer>>, keep: Renderer -> bool): seq<Renderer>
  {
    if |objs| == 0 then []
    else
      var last := objs[|objs| - 1];
      Kept(objs[..|objs| - 1], keep) + (if last.Some? && keep(last.value) then [last.value] else [])
  }

  /** A renderer is kept exactly when some entry of the scan holds it and it passes the
      test; everything kept passes the test. */
  lemma {:induction false} KeptMembers(objs: seq<Option<Renderer>>, keep: Renderer -> bool, r: Renderer)
    ensures r in Kept(objs, keep) <==> (Some(r) in objs && keep(r))
  {
    if |objs| > 0 {
      var init := objs[..|objs| - 1];
      KeptMembers(init, keep, r);
      assert objs == init + [objs[|objs| - 1]];
    }
  }

  /** Scanning one more entry appends it when it holds a renderer that passes. */
  lemma KeptExtend(objs: seq<Option<Renderer>>, keep: Renderer -> bool, j: int)
    requires 0 <= j < |objs|
    ensures Kept(objs[..j + 1], keep)
            == Kept(objs[..j], keep) + (if objs[j].Some? && keep(objs[j].value) then [objs[j].value] else [])
  {
    assert objs[..j + 1][..j] == objs[..j];
  }

  lemma {:induction false} KeptLength(objs: seq<Option<Renderer>>, keep: Renderer -> bool)
    ensures |Kept(objs, keep)| <= |objs|
  {
    if |objs| > 0 {
      KeptLength(objs[..|objs| - 1], keep);
    }
  }

}
