/** RenderMomentOITForwardPass: moment-based order-independent transparency. The OIT
    queue range is drawn twice. The first draw ("GenerateMoments") accumulates 4, 6 or 8
    power moments of the logarithm of view depth into two or three moment buffers
    (`_B0`, `_B1`, `_B2`). The second draw ("ResolveMoments") reads them back and writes
    the transparent colour (`_MOIT`) and, when deep shadow maps are on, the
    transparent global illumination (`_GIAL`). A final blit composites onto the camera
    colour. The depth range the moments are taken over is estimated on the CPU from the
    bounds of the renderers in the OIT range. */
module MomentOit {
  import opened Wrappers
  import opened Linear
  import opened SceneBounds
  import opened RenderQueueUtils
  import opened RenderTypes
  import opened PipelineCore

  const GenerateMomentsPass := "GenerateMoments"
  const ResolveMomentsPass := "ResolveMoments"
  const LogViewDepthMinDeltaName := "_LogViewDepthMinDelta"

  const B0 := Named("_B0")
  const B1 := Named("_B1")
  const B2 := Named("_B2")
  const Moit := Named("_MOIT")
  const Gial := Named("_GIAL")

  /** The shader properties the resolve draw samples the moment buffers through. */
  const B0Texture := Named("_b0")
  const B1Texture := Named("_b1")
  const B2Texture := Named("_b2")

  /** The trigonometric-moments switch, fixed off in the pass. */
  const Trigonometric := false

  // ---------------------------------------------------------------------------------
  // View-depth estimation.

  /** The test of the estimation scan: an enabled renderer whose material's render
      queue lies in `range`, both ends included. */
  function InRange(range: RenderQueueRange): Renderer -> bool
  {
    (r: Renderer) => r.enabled && range.Contains(r.renderQueue)
  }

  /** The signed distance of the box centre from the camera along its forward vector. */
  function ForwardDistance(camera: Camera, bounds: Bounds): real
  {
    Dot3(camera.forward, Sub3(Center(bounds), camera.position))
  }

  /** The view-depth interval the pass estimates for `bounds`: the forward distance of its
      centre less and plus the length of its half-extent vector (`magnitude`, an engine
      square root), the near end clamped at zero. */
  function DepthRange(camera: Camera, bounds: Bounds, magnitude: Vec3 -> real): (r: Vec2)
    ensures r.x >= 0.0
    ensures r.x >= ForwardDistance(camera, bounds) - magnitude(Extents(bounds))
    ensures r.x == 0.0 || r.x == ForwardDistance(camera, bounds) - magnitude(Extents(bounds))
    ensures r.y - ForwardDistance(camera, bounds) == magnitude(Extents(bounds))
  {
    var c2bDis := ForwardDistance(camera, bounds);
    var bs := magnitude(Extents(bounds));
    Vec2(if 0.0 > c2bDis - bs then 0.0 else c2bDis - bs, c2bDis + bs)
  }

  /** For a non-negative radius the interval is non-empty exactly when the far end of
      the bounding sphere is not behind the camera. */
  lemma DepthRangeOrdered(camera: Camera, bounds: Bounds, magnitude: Vec3 -> real)
    requires magnitude(Extents(bounds)) >= 0.0
    ensures var r := DepthRange(camera, bounds, magnitude);
      r.x <= r.y <==> ForwardDistance(camera, bounds) + magnitude(Extents(bounds)) >= 0.0
  {
  }

  /** Every depth in front of the camera that the bounding sphere spans lies in the
      interval. */
  lemma DepthRangeCovers(camera: Camera, bounds: Bounds, magnitude: Vec3 -> real, z: real)
    requires z >= 0.0
    requires ForwardDistance(camera, bounds) - magnitude(Extents(bounds)) <= z
    requires z <= ForwardDistance(camera, bounds) + magnitude(Extents(bounds))
    ensures var r := DepthRange(camera, bounds, magnitude);
      r.x <= z <= r.y
  {
  }

  /** `GetViewDepthMinMaxWithRenderQueue`: scans the scene's renderers (`objs`, the result
      of `FindObjectsOfType`, a null entry for an object without a Renderer), folds the
      bounds of those that qualify, and fails, with a zero range, when the scene is empty
      or none qualifies. */
  method GetViewDepthMinMax(camera: Camera, range: RenderQueueRange, objs: seq<Option<Renderer>>,
                            magnitude: Vec3 -> real) returns (ok: bool, minMax: Vec2)
    ensures ok <==> |Kept(objs, InRange(range))| > 0
    ensures !ok ==> minMax == Vec2(0.0, 0.0)
    ensures ok ==> minMax == DepthRange(camera, Union(Kept(objs, InRange(range))), magnitude)
  {
    minMax := Vec2(0.0, 0.0);
    var b := false;
    var bounds := Bounds(Int3(0, 0, 0), Int3(0, 0, 0));
    if |objs| == 0 {
      return false, minMax;
    }
    ghost var kept: seq<Renderer> := [];
    var j := 0;
    while j < |objs|
      invariant 0 <= j <= |objs|
      invariant kept == Kept(objs[..j], InRange(range))
      invariant b <==> |kept| > 0
      invariant b ==> bounds == Union(kept)
    {
      KeptExtend(objs, InRange(range), j);
      var p := objs[j];
      if p.Some? && p.value.enabled && p.value.renderQueue >= range.min && p.value.renderQueue <= range.max {
        var rb := p.value.bounds;
        if b {
          UnionSnoc(kept, p.value);
          bounds := Encapsulate(bounds, rb);
        } else {
          bounds := rb;
          b := true;
        }
        kept := kept + [p.value];
      }
      j := j + 1;
    }
    assert objs[..j] == objs;
    if !b {
      return false, minMax;
    }
    var c2bDis := Dot3(camera.forward, Sub3(Center(bounds), camera.position));
    var bs := magnitude(Extents(bounds));
    minMax := Vec2(if 0.0 > c2bDis - bs then 0.0 else c2bDis - bs, c2bDis + bs);
    return true, minMax;
  }

  // ---------------------------------------------------------------------------------
  // Descriptors and bindings.

  /** The four descriptors `Setup` derives: the camera descriptor with the MSAA edit and
      no depth buffer (for `_MOIT` and `_GIAL`), and its one-, two- and four-channel
      float copies for the moment buffers. */
  datatype MomentDescriptors = MomentDescriptors(target: Descriptor, float1: Descriptor,
                                                 float2: Descriptor, float4: Descriptor)

  /** The moment-buffer formats: full-precision or half-precision floats by `precision`;
      the one- and two-channel formats fall back to four channels where the device lacks
      them. */
  function MomentDescriptorsFor(baseDescriptor: Descriptor, samples: int, precision: FloatPrecision,
                                caps: DeviceCaps): (r: MomentDescriptors)
    ensures r.target.depthBufferBits == 0 && r.target.colorFormat == baseDescriptor.colorFormat
    ensures r.target.width == baseDescriptor.width && r.target.height == baseDescriptor.height
    ensures samples > 1 ==> r.target.msaaSamples == samples && !r.target.bindMS
    ensures samples <= 1 ==> r.target == baseDescriptor.(depthBufferBits := 0)
    ensures r.float1 == r.target.(colorFormat := r.float1.colorFormat)
    ensures r.float2 == r.target.(colorFormat := r.float2.colorFormat)
    ensures r.float4 == r.target.(colorFormat := r.float4.colorFormat)
    ensures precision == Single ==>
              && r.float4.colorFormat == ARGBFloat
              && (r.float2.colorFormat == RGFloat <==> Supports(caps, RGFloat))
              && (r.float2.colorFormat != RGFloat ==> r.float2.colorFormat == ARGBFloat)
              && (r.float1.colorFormat == RFloat <==> Supports(caps, RFloat))
              && (r.float1.colorFormat != RFloat ==> r.float1.colorFormat == ARGBFloat)
    ensures precision == Half ==>
              && r.float4.colorFormat == ARGBHalf
              && (r.float2.colorFormat == RGHalf <==> Supports(caps, RGHalf))
              && (r.float2.colorFormat != RGHalf ==> r.float2.colorFormat == ARGBHalf)
              && (r.float1.colorFormat == RHalf <==> Supports(caps, RHalf))
              && (r.float1.colorFormat != RHalf ==> r.float1.colorFormat == ARGBHalf)
  {
    var d := WithMsaa(baseDescriptor, samples).(depthBufferBits := 0);
    var full := if precision == Single then ARGBFloat else ARGBHalf;
    var two := if precision == Single then RGFloat else RGHalf;
    var one := if precision == Single then RFloat else RHalf;
    MomentDescriptors(d, d.(colorFormat := if Supports(caps, one) then one else full),
                      d.(colorFormat := if Supports(caps, two) then two else full),
                      d.(colorFormat := full))
  }

  /** The binding of the generate draw: `_B0`, `_B1` and, unless there are only 4
      moments, `_B2`, contents discarded and stored, over the camera depth, loaded and
      then discarded. */
  function GenerateBinding(count: int, b0: RenderTargetHandle, b1: RenderTargetHandle, b2: RenderTargetHandle,
                           depth: RenderTargetHandle): (r: Binding)
    ensures |r.colors| == if count == 4 then 2 else 3
    ensures forall k :: 0 <= k < |r.colors| ==> r.colors[k].load == DontCare && r.colors[k].store == Store
    ensures r.colors[0].target == HandleTarget(b0) && r.colors[1].target == HandleTarget(b1)
    ensures count != 4 ==> r.colors[2].target == HandleTarget(b2)
    ensures r.depth == Some(Attachment(HandleTarget(depth), Load, DontCareStore))
  {
    var front := [Attachment(HandleTarget(b0), DontCare, Store), Attachment(HandleTarget(b1), DontCare, Store)];
    Binding(if count != 4 then front + [Attachment(HandleTarget(b2), DontCare, Store)] else front,
            Some(Attachment(HandleTarget(depth), Load, DontCareStore)))
  }

  /** The binding of the resolve draw when deep shadow maps are on: `_MOIT` and `_GIAL`
      over the camera depth. */
  function ResolveBinding(moit: RenderTargetHandle, gial: RenderTargetHandle, depth: RenderTargetHandle): (r: Binding)
    ensures |r.colors| == 2
    ensures r.colors[0] == Attachment(HandleTarget(moit), DontCare, Store)
    ensures r.colors[1] == Attachment(HandleTarget(gial), DontCare, Store)
    ensures r.depth == Some(Attachment(HandleTarget(depth), Load, DontCareStore))
  {
    Binding([Attachment(HandleTarget(moit), DontCare, Store), Attachment(HandleTarget(gial), DontCare, Store)],
            Some(Attachment(HandleTarget(depth), Load, DontCareStore)))
  }

  // ---------------------------------------------------------------------------------
  // The trace of `Execute`.

  /** The five render-target handles of the pass. */
  datatype MomentBuffers = MomentBuffers(b0: RenderTargetHandle, b1: RenderTargetHandle, b2: RenderTargetHandle,
                                         moit: RenderTargetHandle, gial: RenderTargetHandle)

  /** The names `Setup` gives the five buffers. */
  const NamedBuffers := MomentBuffers(B0, B1, B2, Moit, Gial)

  predicate IsLogDepthSet(c: Cmd)
  {
    c.SetGlobalVector? && c.vecName == LogViewDepthMinDeltaName
  }

  predicate IsMomentTextureSet(c: Cmd)
  {
    c.SetGlobalTexture? && (c.texId == B0Texture || c.texId == B1Texture || c.texId == B2Texture)
  }

  /** A `DrawRenderers` with the shader passes `passNames`. */
  predicate IsDrawWith(c: Cmd, passNames: seq<string>)
  {
    c.DrawRenderers? && c.passNames == passNames
  }

  function DrawsWith(passNames: seq<string>): Cmd -> bool
  {
    (c: Cmd) => IsDrawWith(c, passNames)
  }

  /** An allocation of one of the moment buffers. */
  function AllocatesMoment(buf: MomentBuffers): Cmd -> bool
  {
    (c: Cmd) => c.GetTemporaryRT? && (c.handle == buf.b0 || c.handle == buf.b1 || c.handle == buf.b2)
  }

  /** The moment buffers as allocated: `_B0` one-channel, `_B1` four-channel, and `_B2`
      four-channel for 8 moments, two-channel for 6 and absent otherwise. */
  function MomentAllocations(buf: MomentBuffers, desc: MomentDescriptors, count: int): (r: seq<Cmd>)
    ensures forall c :: c in r ==> AllocatesMoment(buf)(c)
  {
    [GetTemporaryRT(buf.b0, desc.float1), GetTemporaryRT(buf.b1, desc.float4)]
      + (if count == 8 then [GetTemporaryRT(buf.b2, desc.float4)]
         else if count == 6 then [GetTemporaryRT(buf.b2, desc.float2)]
         else [])
  }

  /** The keywords that select the moment shader variant. */
  function MomentKeywords(count: int, precision: FloatPrecision): (r: seq<Cmd>)
    ensures |r| == 4 && forall c :: c in r ==> c.SetKeyword?
    ensures forall c :: c in r ==> !c.GetTemporaryRT?
  {
    [SetKeyword("_MOMENT6", count == 6), SetKeyword("_MOMENT8", count == 8),
     SetKeyword("_MOMENT_HALF_PRECISION", precision == Half), SetKeyword("_TRIGONOMETRIC", Trigonometric)]
  }

  /** After the variant keywords, each of the four says how many moments there are and
      at which precision, trigonometric moments are off, and every other keyword is as
      it was. */
  lemma MomentKeywordsSet(before: seq<Cmd>, count: int, precision: FloatPrecision)
    ensures forall k :: KeywordState(before + MomentKeywords(count, precision), k)
                        == if k == "_TRIGONOMETRIC" then Some(false)
                           else if k == "_MOMENT_HALF_PRECISION" then Some(precision == Half)
                           else if k == "_MOMENT8" then Some(count == 8)
                           else if k == "_MOMENT6" then Some(count == 6)
                           else KeywordState(before, k)
  {
    var ks := MomentKeywords(count, precision);
    var t1 := before + [ks[0]];
    var t2 := t1 + [ks[1]];
    var t3 := t2 + [ks[2]];
    assert before + ks == t3 + [ks[3]];
    forall k
      ensures KeywordState(t3 + [ks[3]], k)
              == if k == "_TRIGONOMETRIC" then Some(false)
                 else if k == "_MOMENT_HALF_PRECISION" then Some(precision == Half)
                 else if k == "_MOMENT8" then Some(count == 8)
                 else if k == "_MOMENT6" then Some(count == 6)
                 else KeywordState(before, k)
    {
      KeywordStateSnoc(t3, ks[3], k);
      KeywordStateSnoc(t2, ks[2], k);
      KeywordStateSnoc(t1, ks[1], k);
      KeywordStateSnoc(before, ks[0], k);
    }
  }

  /** The generate binding bound, with colour cleared. */
  function BindGenerate(generateBinding: Binding): (r: seq<Cmd>)
    ensures forall c :: c in r ==> c.SetRenderTarget? || c.ClearRenderTarget?
    ensures forall c :: c in r ==> !c.GetTemporaryRT?
    ensures forall c :: c in r ==> !c.SetKeyword?
  {
    [SetRenderTarget(generateBinding, ClearNone), ClearRenderTarget(false, true)]
  }

  /** Allocation of the moment buffers, the variant keywords, and the generate binding
      bound with colour cleared: nothing is drawn and no global is set. */
  function Prologue(buf: MomentBuffers, desc: MomentDescriptors, count: int, precision: FloatPrecision,
                    generateBinding: Binding): (r: seq<Cmd>)
    ensures forall c :: c in r ==> c.GetTemporaryRT? || c.SetKeyword? || c.SetRenderTarget? || c.ClearRenderTarget?
    ensures NoneOf(r, IsDraw) && NoneOf(r, IsLogDepthSet) && NoneOf(r, IsMomentTextureSet)
    ensures forall ps :: NoneOf(r, DrawsWith(ps))
  {
    MomentAllocations(buf, desc, count) + MomentKeywords(count, precision) + BindGenerate(generateBinding)
  }

  /** `_LogViewDepthMinDelta`: the logarithm of the near end of the depth range, and the
      difference of the logarithms of the far and near ends (`log` is the engine's
      natural logarithm). */
  function LogDepthVector(minMax: Vec2, log: real -> real): (r: Vec4)
    ensures r.x == log(minMax.x) && r.x + r.y == log(minMax.y)
    ensures r.z == 0.0 && r.w == 0.0
  {
    Vec4(log(minMax.x), log(minMax.y) - log(minMax.x), 0.0, 0.0)
  }

  /** The draw settings of the resolve draw: shader pass 0 becomes "ResolveMoments". */
  function ResolvePassNames(passNames: seq<string>): (r: seq<string>)
    ensures |r| == if |passNames| == 0 then 1 else |passNames|
    ensures r[0] == ResolveMomentsPass
    ensures forall k :: 1 <= k < |passNames| ==> r[k] == passNames[k]
  {
    [ResolveMomentsPass] + (if |passNames| > 1 then passNames[1..] else [])
  }

  /** The OIT-range draw and the error-shader draw. */
  function OitDraws(passNames: seq<string>, range: RenderQueueRange): (r: seq<Cmd>)
    ensures |r| == 2 && r[0] == DrawRenderers(passNames, range, false) && r[1] == DrawErrorObjects
    ensures forall c :: c in r ==> IsDrawWith(c, passNames) || c.DrawErrorObjects?
    ensures NoneOf(r, IsLogDepthSet) && NoneOf(r, IsMomentTextureSet)
    ensures forall c :: c in r ==> !c.GetTemporaryRT? && !c.SetKeyword?
  {
    [DrawRenderers(passNames, range, false), DrawErrorObjects]
  }

  /** The targets of the resolve draw: `_MOIT`, then either `_GIAL` and the resolve
      binding with colour cleared, or `_MOIT` alone over the camera depth with colour
      cleared. */
  function ResolveTargets(buf: MomentBuffers, desc: MomentDescriptors, depth: RenderTargetHandle,
                          resolveBinding: Binding, deepShadows: bool): (r: seq<Cmd>)
    ensures |r| >= 2 && r[0] == GetTemporaryRT(buf.moit, desc.target)
    ensures forall c :: c in r ==>
              || (c.GetTemporaryRT? && (c.handle == buf.moit || c.handle == buf.gial))
              || c.SetRenderTarget? || c.ClearRenderTarget?
    ensures NoneOf(r, IsDraw) && NoneOf(r, IsLogDepthSet) && NoneOf(r, IsMomentTextureSet)
    ensures forall ps :: NoneOf(r, DrawsWith(ps))
  {
    [GetTemporaryRT(buf.moit, desc.target)]
      + (if deepShadows
         then [GetTemporaryRT(buf.gial, desc.target), SetRenderTarget(resolveBinding, ClearNone),
               ClearRenderTarget(false, true)]
         else [SetRenderTarget(ColorAndDepth(HandleTarget(buf.moit), DontCare, Store,
                                             HandleTarget(depth), Load, DontCareStore), ClearColor)])
  }

  /** The moment buffers published for the resolve draw: `_b0`, `_b1`, and `_b2` unless
      there are only 4 moments. */
  function MomentTextures(buf: MomentBuffers, count: int): (r: seq<Cmd>)
    ensures |r| > 0 && r[0] == SetGlobalTexture(B0Texture, HandleTarget(buf.b0))
    ensures forall c :: c in r ==> IsMomentTextureSet(c)
    ensures NoneOf(r, IsDraw) && NoneOf(r, IsLogDepthSet)
    ensures forall ps :: NoneOf(r, DrawsWith(ps))
    ensures forall c :: c in r ==> !c.GetTemporaryRT? && !c.SetKeyword?
  {
    [SetGlobalTexture(B0Texture, HandleTarget(buf.b0)), SetGlobalTexture(B1Texture, HandleTarget(buf.b1))]
      + (if count != 4 then [SetGlobalTexture(B2Texture, HandleTarget(buf.b2))] else [])
  }

  /** The camera colour bound again, loaded, and the moment composite blitted onto it. */
  function Composite(color: RenderTargetHandle): (r: seq<Cmd>)
    ensures |r| == 2 && r[1] == Blit(HandleTarget(color), HandleTarget(color), MomentOITComposite)
    ensures NoneOf(r, IsLogDepthSet) && NoneOf(r, IsMomentTextureSet)
    ensures forall ps :: NoneOf(r, DrawsWith(ps))
    ensures forall buf :: NoneOf(r, AllocatesMoment(buf))
    ensures forall c :: c in r ==> !c.GetTemporaryRT? && !c.SetKeyword?
  {
    [SetRenderTarget(ColorOnly(HandleTarget(color), Load, Store), ClearNone),
     Blit(HandleTarget(color), HandleTarget(color), MomentOITComposite)]
  }

  /** The generate phase as the pass orders it: the draws are handed to the context
      before the command buffer holding `_LogViewDepthMinDelta`. */
  function GeneratePhaseAsWritten(passNames: seq<string>, range: RenderQueueRange, logDepth: Vec4): (r: seq<Cmd>)
    ensures NoneOf(r, IsMomentTextureSet)
    ensures forall buf :: NoneOf(r, AllocatesMoment(buf))
    ensures forall c :: c in r ==> !c.GetTemporaryRT? && !c.SetKeyword?
  {
    OitDraws(passNames, range) + [SetGlobalVector(LogViewDepthMinDeltaName, logDepth)]
  }

  /** The resolve phase as the pass orders it: the draws are handed to the context
      before the command buffer that publishes the moment buffers. */
  function ResolvePhaseAsWritten(buf: MomentBuffers, desc: MomentDescriptors, count: int, depth: RenderTargetHandle,
                                 resolveBinding: Binding, passNames: seq<string>, range: RenderQueueRange,
                                 deepShadows: bool): (r: seq<Cmd>)
    ensures NoneOf(r, IsLogDepthSet)
    ensures forall c :: c in r ==> !c.SetKeyword?
  {
    ResolveTargets(buf, desc, depth, resolveBinding, deepShadows)
      + OitDraws(ResolvePassNames(passNames), range) + MomentTextures(buf, count)
  }

  /** What `Execute` hands to the GPU, in the order of the pass as written. */
  function MomentOitCommandsAsWritten(buf: MomentBuffers, desc: MomentDescriptors, color: RenderTargetHandle,
                                      depth: RenderTargetHandle, count: int, precision: FloatPrecision,
                                      generateBinding: Binding, resolveBinding: Binding, passNames: seq<string>,
                                      range: RenderQueueRange, deepShadows: bool, logDepth: Vec4): (r: seq<Cmd>)
  {
    Prologue(buf, desc, count, precision, generateBinding)
      + GeneratePhaseAsWritten(passNames, range, logDepth)
      + ResolvePhaseAsWritten(buf, desc, count, depth, resolveBinding, passNames, range, deepShadows)
      + Composite(color)
  }

  /** The resolve draw's settings differ from the generate draw's. */
  lemma ResolvePassNamesDiffer(passNames: seq<string>, range: RenderQueueRange)
    requires passNames == [] || passNames[0] != ResolveMomentsPass
    ensures NoneOf(OitDraws(ResolvePassNames(passNames), range), DrawsWith(passNames))
    ensures NoneOf(OitDraws(passNames, range), DrawsWith(ResolvePassNames(passNames)))
  {
    assert ResolvePassNames(passNames) != passNames;
  }

  /** As written, the generate draw runs before `_LogViewDepthMinDelta` is set for the
      frame: it reads the previous frame's depth range, or none on the first frame. */
  lemma AsWrittenLogDepthAfterDraws(buf: MomentBuffers, desc: MomentDescriptors, color: RenderTargetHandle,
                                    depth: RenderTargetHandle, count: int, precision: FloatPrecision,
                                    generateBinding: Binding, resolveBinding: Binding, passNames: seq<string>,
                                    range: RenderQueueRange, deepShadows: bool, logDepth: Vec4)
    requires passNames == [] || passNames[0] != ResolveMomentsPass
    ensures var t := MomentOitCommandsAsWritten(buf, desc, color, depth, count, precision, generateBinding,
                                                resolveBinding, passNames, range, deepShadows, logDepth);
      && DrawRenderers(passNames, range, false) in t
      && SetGlobalVector(LogViewDepthMinDeltaName, logDepth) in t
      && AllBefore(t, DrawsWith(passNames), IsLogDepthSet)
  {
    var p, q := DrawsWith(passNames), IsLogDepthSet;
    var pro := Prologue(buf, desc, count, precision, generateBinding);
    var draws := OitDraws(passNames, range);
    var logSet := [SetGlobalVector(LogViewDepthMinDeltaName, logDepth)];
    var targets := ResolveTargets(buf, desc, depth, resolveBinding, deepShadows);
    var resolve := OitDraws(ResolvePassNames(passNames), range);
    var textures := MomentTextures(buf, count);
    var comp := Composite(color);
    assert draws[0] in draws + logSet && logSet[0] in draws + logSet;
    assert NoneOf(logSet, p);
    AllBeforeNoFirst(logSet, p, q);
    AllBeforeAppendNoSecond(draws, logSet, p, q);
    AllBeforeAppendNoSecond(pro, draws + logSet, p, q);
    ResolvePassNamesDiffer(passNames, range);
    NoneOfAppend(targets, resolve, p);
    NoneOfAppend(targets + resolve, textures, p);
    AllBeforeAppendNoFirst(pro + (draws + logSet), targets + resolve + textures, p, q);
    AllBeforeAppendNoFirst(pro + (draws + logSet) + (targets + resolve + textures), comp, p, q);
  }

  /** As written, the resolve draw runs before the moment buffers are published for the
      frame: it samples whatever `_b0`, `_b1` and `_b2` held before. */
  lemma AsWrittenTexturesAfterResolveDraws(buf: MomentBuffers, desc: MomentDescriptors, color: RenderTargetHandle,
                                           depth: RenderTargetHandle, count: int, precision: FloatPrecision,
                                           generateBinding: Binding, resolveBinding: Binding, passNames: seq<string>,
                                           range: RenderQueueRange, deepShadows: bool, logDepth: Vec4)
    ensures var t := MomentOitCommandsAsWritten(buf, desc, color, depth, count, precision, generateBinding,
                                                resolveBinding, passNames, range, deepShadows, logDepth);
      && DrawRenderers(ResolvePassNames(passNames), range, false) in t
      && SetGlobalTexture(B0Texture, HandleTarget(buf.b0)) in t
      && AllBefore(t, DrawsWith(ResolvePassNames(passNames)), IsMomentTextureSet)
  {
    var p, q := DrawsWith(ResolvePassNames(passNames)), IsMomentTextureSet;
    var pro := Prologue(buf, desc, count, precision, generateBinding);
    var gen := GeneratePhaseAsWritten(passNames, range, logDepth);
    var targets := ResolveTargets(buf, desc, depth, resolveBinding, deepShadows);
    var resolve := OitDraws(ResolvePassNames(passNames), range);
    var textures := MomentTextures(buf, count);
    var comp := Composite(color);
    assert resolve[0] in targets + resolve && textures[0] in textures;
    AllBeforeNoSecond(resolve, p, q);
    AllBeforeAppendNoSecond(targets, resolve, p, q);
    AllBeforeAppendNoFirst(targets + resolve, textures, p, q);
    AllBeforeNoSecond(gen, p, q);
    AllBeforeAppendNoSecond(pro, gen, p, q);
    NoneOfAppend(pro, gen, q);
    AllBeforeAppendNoSecond(pro + gen, targets + resolve + textures, p, q);
    AllBeforeAppendNoFirst(pro + gen + (targets + resolve + textures), comp, p, q);
  }

  /** The generate phase with the constant set before the draws that read it. */
  function GeneratePhase(passNames: seq<string>, range: RenderQueueRange, logDepth: Vec4): (r: seq<Cmd>)
    ensures NoneOf(r, IsMomentTextureSet)
    ensures forall buf :: NoneOf(r, AllocatesMoment(buf))
    ensures forall c :: c in r ==> !c.GetTemporaryRT? && !c.SetKeyword?
  {
    [SetGlobalVector(LogViewDepthMinDeltaName, logDepth)] + OitDraws(passNames, range)
  }

  /** The resolve phase with the moment buffers published before the draws that sample
      them. */
  function ResolvePhase(buf: MomentBuffers, desc: MomentDescriptors, count: int, depth: RenderTargetHandle,
                        resolveBinding: Binding, passNames: seq<string>, range: RenderQueueRange,
                        deepShadows: bool): (r: seq<Cmd>)
    ensures NoneOf(r, IsLogDepthSet)
    ensures forall c :: c in r ==> !c.SetKeyword?
  {
    ResolveTargets(buf, desc, depth, resolveBinding, deepShadows)
      + MomentTextures(buf, count) + OitDraws(ResolvePassNames(passNames), range)
  }

  /** What `Execute` hands to the GPU, with each value set before the draws that read it. */
  function MomentOitCommands(buf: MomentBuffers, desc: MomentDescriptors, color: RenderTargetHandle,
                             depth: RenderTargetHandle, count: int, precision: FloatPrecision,
                             generateBinding: Binding, resolveBinding: Binding, passNames: seq<string>,
                             range: RenderQueueRange, deepShadows: bool, logDepth: Vec4): (r: seq<Cmd>)
  {
    Prologue(buf, desc, count, precision, generateBinding)
      + GeneratePhase(passNames, range, logDepth)
      + ResolvePhase(buf, desc, count, depth, resolveBinding, passNames, range, deepShadows)
      + Composite(color)
  }

  lemma GeneratePhaseOrdered(passNames: seq<string>, range: RenderQueueRange, logDepth: Vec4)
    ensures SetGlobalVector(LogViewDepthMinDeltaName, logDepth) in GeneratePhase(passNames, range, logDepth)
    ensures AllBefore(GeneratePhase(passNames, range, logDepth), IsLogDepthSet, IsDraw)
  {
    var logSet := [SetGlobalVector(LogViewDepthMinDeltaName, logDepth)];
    var draws := OitDraws(passNames, range);
    assert logSet[0] in logSet + draws;
    assert NoneOf(logSet, IsDraw);
    AllBeforeNoFirst(draws, IsLogDepthSet, IsDraw);
    AllBeforeAppendNoSecond(logSet, draws, IsLogDepthSet, IsDraw);
  }

  /** `_LogViewDepthMinDelta` is set before every draw and blit of the pass. */
  lemma MomentOitLogDepthBeforeDraws(buf: MomentBuffers, desc: MomentDescriptors, color: RenderTargetHandle,
                                     depth: RenderTargetHandle, count: int, precision: FloatPrecision,
                                     generateBinding: Binding, resolveBinding: Binding, passNames: seq<string>,
                                     range: RenderQueueRange, deepShadows: bool, logDepth: Vec4)
    ensures var t := MomentOitCommands(buf, desc, color, depth, count, precision, generateBinding,
                                       resolveBinding, passNames, range, deepShadows, logDepth);
      && SetGlobalVector(LogViewDepthMinDeltaName, logDepth) in t
      && AllBefore(t, IsLogDepthSet, IsDraw)
  {
    var p, q := IsLogDepthSet, IsDraw;
    var pro := Prologue(buf, desc, count, precision, generateBinding);
    var gen := GeneratePhase(passNames, range, logDepth);
    var res := ResolvePhase(buf, desc, count, depth, resolveBinding, passNames, range, deepShadows);
    var comp := Composite(color);
    GeneratePhaseOrdered(passNames, range, logDepth);
    AllBeforeAppendNoSecond(pro, gen, p, q);
    AllBeforeAppendNoFirst(pro + gen, res, p, q);
    AllBeforeAppendNoFirst(pro + gen + res, comp, p, q);
  }

  lemma ResolvePhaseOrdered(buf: MomentBuffers, desc: MomentDescriptors, count: int, depth: RenderTargetHandle,
                            resolveBinding: Binding, passNames: seq<string>, range: RenderQueueRange,
                            deepShadows: bool)
    ensures SetGlobalTexture(B0Texture, HandleTarget(buf.b0))
            in ResolvePhase(buf, desc, count, depth, resolveBinding, passNames, range, deepShadows)
    ensures AllBefore(ResolvePhase(buf, desc, count, depth, resolveBinding, passNames, range, deepShadows),
                      IsMomentTextureSet, DrawsWith(ResolvePassNames(passNames)))
  {
    var p, q := IsMomentTextureSet, DrawsWith(ResolvePassNames(passNames));
    var targets := ResolveTargets(buf, desc, depth, resolveBinding, deepShadows);
    var textures := MomentTextures(buf, count);
    var draws := OitDraws(ResolvePassNames(passNames), range);
    assert textures[0] in targets + textures;
    AllBeforeNoSecond(textures, p, q);
    AllBeforeAppendNoSecond(targets, textures, p, q);
    AllBeforeAppendNoFirst(targets + textures, draws, p, q);
  }

  /** The moment buffers are published before every resolve draw. */
  lemma MomentOitTexturesBeforeResolveDraws(buf: MomentBuffers, desc: MomentDescriptors, color: RenderTargetHandle,
                                            depth: RenderTargetHandle, count: int, precision: FloatPrecision,
                                            generateBinding: Binding, resolveBinding: Binding, passNames: seq<string>,
                                            range: RenderQueueRange, deepShadows: bool, logDepth: Vec4)
    requires passNames == [] || passNames[0] != ResolveMomentsPass
    ensures var t := MomentOitCommands(buf, desc, color, depth, count, precision, generateBinding,
                                       resolveBinding, passNames, range, deepShadows, logDepth);
      && SetGlobalTexture(B0Texture, HandleTarget(buf.b0)) in t
      && AllBefore(t, IsMomentTextureSet, DrawsWith(ResolvePassNames(passNames)))
  {
    var p, q := IsMomentTextureSet, DrawsWith(ResolvePassNames(passNames));
    var pro := Prologue(buf, desc, count, precision, generateBinding);
    var logSet := [SetGlobalVector(LogViewDepthMinDeltaName, logDepth)];
    var draws := OitDraws(passNames, range);
    var res := ResolvePhase(buf, desc, count, depth, resolveBinding, passNames, range, deepShadows);
    var comp := Composite(color);
    ResolvePhaseOrdered(buf, desc, count, depth, resolveBinding, passNames, range, deepShadows);
    ResolvePassNamesDiffer(passNames, range);
    assert NoneOf(logSet, q);
    NoneOfAppend(logSet, draws, q);
    NoneOfAppend(pro, logSet + draws, q);
    AllBeforeAppendNoSecond(pro + (logSet + draws), res, p, q);
    AllBeforeAppendNoFirst(pro + (logSet + draws) + res, comp, p, q);
  }

  /** With the resolve targets distinct from the moment buffers, the resolve phase
      allocates no moment buffer. */
  lemma ResolvePhaseAllocatesNoMoment(buf: MomentBuffers, desc: MomentDescriptors, count: int, depth: RenderTargetHandle,
                                      resolveBinding: Binding, passNames: seq<string>, range: RenderQueueRange,
                                      deepShadows: bool)
    requires buf.moit != buf.b0 && buf.moit != buf.b1 && buf.moit != buf.b2
    requires buf.gial != buf.b0 && buf.gial != buf.b1 && buf.gial != buf.b2
    ensures NoneOf(ResolvePhase(buf, desc, count, depth, resolveBinding, passNames, range, deepShadows),
                   AllocatesMoment(buf))
    ensures NoneOf(ResolvePhaseAsWritten(buf, desc, count, depth, resolveBinding, passNames, range, deepShadows),
                   AllocatesMoment(buf))
  {
    var p := AllocatesMoment(buf);
    var targets := ResolveTargets(buf, desc, depth, resolveBinding, deepShadows);
    var textures := MomentTextures(buf, count);
    var draws := OitDraws(ResolvePassNames(passNames), range);
    assert NoneOf(targets, p);
    NoneOfAppend(targets, textures, p);
    NoneOfAppend(targets + textures, draws, p);
    NoneOfAppend(targets, draws, p);
    NoneOfAppend(targets + draws, textures, p);
  }

  /** When the resolve targets are distinct from the moment buffers, as `Setup` names
      them, the moment buffers are allocated before any draw or blit, in the corrected
      trace and in the trace as written. */
  lemma MomentOitBuffersBeforeDraws(buf: MomentBuffers, desc: MomentDescriptors, color: RenderTargetHandle,
                                    depth: RenderTargetHandle, count: int, precision: FloatPrecision,
                                    generateBinding: Binding, resolveBinding: Binding, passNames: seq<string>,
                                    range: RenderQueueRange, deepShadows: bool, logDepth: Vec4)
    requires buf.moit != buf.b0 && buf.moit != buf.b1 && buf.moit != buf.b2
    requires buf.gial != buf.b0 && buf.gial != buf.b1 && buf.gial != buf.b2
    ensures var t := MomentOitCommands(buf, desc, color, depth, count, precision, generateBinding,
                                       resolveBinding, passNames, range, deepShadows, logDepth);
      AllBefore(t, AllocatesMoment(buf), IsDraw)
    ensures var t := MomentOitCommandsAsWritten(buf, desc, color, depth, count, precision, generateBinding,
                                                resolveBinding, passNames, range, deepShadows, logDepth);
      AllBefore(t, AllocatesMoment(buf), IsDraw)
  {
    var p, q := AllocatesMoment(buf), IsDraw;
    var pro := Prologue(buf, desc, count, precision, generateBinding);
    var comp := Composite(color);
    ResolvePhaseAllocatesNoMoment(buf, desc, count, depth, resolveBinding, passNames, range, deepShadows);
    AllBeforeNoSecond(pro, p, q);
    var gen := GeneratePhase(passNames, range, logDepth);
    var res := ResolvePhase(buf, desc, count, depth, resolveBinding, passNames, range, deepShadows);
    AllBeforeAppendNoFirst(pro, gen, p, q);
    AllBeforeAppendNoFirst(pro + gen, res, p, q);
    AllBeforeAppendNoFirst(pro + gen + res, comp, p, q);
    var genW := GeneratePhaseAsWritten(passNames, range, logDepth);
    var resW := ResolvePhaseAsWritten(buf, desc, count, depth, resolveBinding, passNames, range, deepShadows);
    AllBeforeAppendNoFirst(pro, genW, p, q);
    AllBeforeAppendNoFirst(pro + genW, resW, p, q);
    AllBeforeAppendNoFirst(pro + genW + resW, comp, p, q);
  }

  /** After the trace, corrected or as written, the variant keywords say how many moments
      there are and at which precision, and trigonometric moments are off, whatever came
      before. */
  lemma MomentOitKeywords(before: seq<Cmd>, buf: MomentBuffers, desc: MomentDescriptors, color: RenderTargetHandle,
                          depth: RenderTargetHandle, count: int, precision: FloatPrecision,
                          generateBinding: Binding, resolveBinding: Binding, passNames: seq<string>,
                          range: RenderQueueRange, deepShadows: bool, logDepth: Vec4)
    ensures VariantKeywordsSet(before + MomentOitCommands(buf, desc, color, depth, count, precision, generateBinding,
                                                          resolveBinding, passNames, range, deepShadows, logDepth),
                               count, precision)
    ensures VariantKeywordsSet(before + MomentOitCommandsAsWritten(buf, desc, color, depth, count, precision,
                                                                   generateBinding, resolveBinding, passNames, range,
                                                                   deepShadows, logDepth),
                               count, precision)
  {
    var comp := Composite(color);
    PhasesKeepKeywords(before, buf, desc, count, precision, generateBinding, GeneratePhase(passNames, range, logDepth),
                       ResolvePhase(buf, desc, count, depth, resolveBinding, passNames, range, deepShadows), comp);
    PhasesKeepKeywords(before, buf, desc, count, precision, generateBinding,
                       GeneratePhaseAsWritten(passNames, range, logDepth),
                       ResolvePhaseAsWritten(buf, desc, count, depth, resolveBinding, passNames, range, deepShadows),
                       comp);
  }

  /** The variant keywords for `count` moments at `precision`, trigonometric moments off. */
  predicate VariantKeywordsSet(t: seq<Cmd>, count: int, precision: FloatPrecision)
  {
    && KeywordState(t, "_MOMENT6") == Some(count == 6)
    && KeywordState(t, "_MOMENT8") == Some(count == 8)
    && KeywordState(t, "_MOMENT_HALF_PRECISION") == Some(precision == Half)
    && KeywordState(t, "_TRIGONOMETRIC") == Some(false)
  }

  /** The prologue sets the variant keywords, and phases after it that set no keyword
      keep them. */
  lemma PhasesKeepKeywords(before: seq<Cmd>, buf: MomentBuffers, desc: MomentDescriptors, count: int,
                           precision: FloatPrecision, generateBinding: Binding,
                           gen: seq<Cmd>, res: seq<Cmd>, comp: seq<Cmd>)
    requires forall c :: c in gen ==> !c.SetKeyword?
    requires forall c :: c in res ==> !c.SetKeyword?
    requires forall c :: c in comp ==> !c.SetKeyword?
    ensures VariantKeywordsSet(before + (Prologue(buf, desc, count, precision, generateBinding) + gen + res + comp),
                               count, precision)
  {
    var pro := Prologue(buf, desc, count, precision, generateBinding);
    PrologueKeywords(before, buf, desc, count, precision, generateBinding);
    KeywordsUntouched(before, pro, gen, res, comp);
  }

  /** The prologue sets the variant keywords, whatever came before. */
  lemma PrologueKeywords(before: seq<Cmd>, buf: MomentBuffers, desc: MomentDescriptors, count: int,
                         precision: FloatPrecision, generateBinding: Binding)
    ensures VariantKeywordsSet(before + Prologue(buf, desc, count, precision, generateBinding), count, precision)
  {
    var head := MomentAllocations(buf, desc, count) + MomentKeywords(count, precision);
    var bind := BindGenerate(generateBinding);
    MomentKeywordsSet(MomentAllocations(buf, desc, count), count, precision);
    forall k ensures KeywordState(head + bind, k) == KeywordState(head, k) {
      KeywordUntouched(head, bind, k);
    }
    KeywordStateAppend(before, head + bind, "_MOMENT6");
    KeywordStateAppend(before, head + bind, "_MOMENT8");
    KeywordStateAppend(before, head + bind, "_MOMENT_HALF_PRECISION");
    KeywordStateAppend(before, head + bind, "_TRIGONOMETRIC");
  }

  // ---------------------------------------------------------------------------------
  // Allocations and cleanup.

  /** The moment buffers with their descriptors, as `Execute` allocates them. */
  function MomentBufferSlots(buf: MomentBuffers, desc: MomentDescriptors, count: int):
    (r: seq<(RenderTargetHandle, Descriptor)>)
    ensures |r| == if count == 6 || count == 8 then 3 else 2
  {
    [(buf.b0, desc.float1), (buf.b1, desc.float4)]
      + (if count == 8 then [(buf.b2, desc.float4)] else if count == 6 then [(buf.b2, desc.float2)] else [])
  }

  /** The resolve targets with their descriptors, as `Execute` allocates them. */
  function ResolveSlots(buf: MomentBuffers, desc: MomentDescriptors, deepShadows: bool):
    (r: seq<(RenderTargetHandle, Descriptor)>)
    ensures |r| == if deepShadows then 2 else 1
  {
    [(buf.moit, desc.target)] + (if deepShadows then [(buf.gial, desc.target)] else [])
  }

  lemma MomentAllocationsAllocate(buf: MomentBuffers, desc: MomentDescriptors, count: int)
    ensures Allocations(MomentAllocations(buf, desc, count)) == MomentBufferSlots(buf, desc, count)
  {
    var front := [GetTemporaryRT(buf.b0, desc.float1), GetTemporaryRT(buf.b1, desc.float4)];
    var b2 := if count == 8 then [GetTemporaryRT(buf.b2, desc.float4)]
              else if count == 6 then [GetTemporaryRT(buf.b2, desc.float2)] else [];
    assert Allocations(front) == [(buf.b0, desc.float1), (buf.b1, desc.float4)] by {
      AllocationsOne(front[0]);
      AllocationsOne(front[1]);
      assert front == [front[0]] + [front[1]];
      AllocationsAppend([front[0]], [front[1]]);
    }
    if |b2| == 1 {
      AllocationsOne(b2[0]);
    } else {
      assert b2 == [];
    }
    AllocationsAppend(front, b2);
  }

  lemma ResolveTargetsAllocate(buf: MomentBuffers, desc: MomentDescriptors, depth: RenderTargetHandle,
                               resolveBinding: Binding, deepShadows: bool)
    ensures Allocations(ResolveTargets(buf, desc, depth, resolveBinding, deepShadows))
            == ResolveSlots(buf, desc, deepShadows)
  {
    var first := [GetTemporaryRT(buf.moit, desc.target)];
    AllocationsOne(first[0]);
    if deepShadows {
      var gial := [GetTemporaryRT(buf.gial, desc.target)];
      var bind := [SetRenderTarget(resolveBinding, ClearNone), ClearRenderTarget(false, true)];
      AllocationsOne(gial[0]);
      NoAllocations(bind);
      AllocationsAppend(gial, bind);
      assert ResolveTargets(buf, desc, depth, resolveBinding, deepShadows) == first + (gial + bind);
      AllocationsAppend(first, gial + bind);
    } else {
      var bind := ResolveTargets(buf, desc, depth, resolveBinding, deepShadows)[1..];
      NoAllocations(bind);
      assert ResolveTargets(buf, desc, depth, resolveBinding, deepShadows) == first + bind;
      AllocationsAppend(first, bind);
    }
  }

  /** The buffers `Execute` allocates, in order, with their descriptors. */
  function AllocatedBuffers(buf: MomentBuffers, desc: MomentDescriptors, count: int, deepShadows: bool):
    (r: seq<(RenderTargetHandle, Descriptor)>)
    ensures |r| == 3 + (if count == 6 || count == 8 then 1 else 0) + (if deepShadows then 1 else 0)
  {
    MomentBufferSlots(buf, desc, count) + ResolveSlots(buf, desc, deepShadows)
  }

  lemma PrologueAllocates(buf: MomentBuffers, desc: MomentDescriptors, count: int, precision: FloatPrecision,
                          generateBinding: Binding)
    ensures Allocations(Prologue(buf, desc, count, precision, generateBinding)) == MomentBufferSlots(buf, desc, count)
  {
    var allocs := MomentAllocations(buf, desc, count);
    var keys := MomentKeywords(count, precision);
    var bind := BindGenerate(generateBinding);
    MomentAllocationsAllocate(buf, desc, count);
    NoAllocations(keys);
    NoAllocations(bind);
    AllocationsAppend(allocs, keys);
    AllocationsAppend(allocs + keys, bind);
  }

  lemma ResolvePhaseAllocates(buf: MomentBuffers, desc: MomentDescriptors, count: int, depth: RenderTargetHandle,
                              resolveBinding: Binding, passNames: seq<string>, range: RenderQueueRange,
                              deepShadows: bool)
    ensures Allocations(ResolvePhase(buf, desc, count, depth, resolveBinding, passNames, range, deepShadows))
            == ResolveSlots(buf, desc, deepShadows)
  {
    var targets := ResolveTargets(buf, desc, depth, resolveBinding, deepShadows);
    var textures := MomentTextures(buf, count);
    var draws := OitDraws(ResolvePassNames(passNames), range);
    ResolveTargetsAllocate(buf, desc, depth, resolveBinding, deepShadows);
    NoAllocations(textures);
    NoAllocations(draws);
    AllocationsAppend(targets, textures);
    AllocationsAppend(targets + textures, draws);
  }

  lemma ResolvePhaseAsWrittenAllocates(buf: MomentBuffers, desc: MomentDescriptors, count: int,
                                       depth: RenderTargetHandle, resolveBinding: Binding, passNames: seq<string>,
                                       range: RenderQueueRange, deepShadows: bool)
    ensures Allocations(ResolvePhaseAsWritten(buf, desc, count, depth, resolveBinding, passNames, range, deepShadows))
            == ResolveSlots(buf, desc, deepShadows)
  {
    var targets := ResolveTargets(buf, desc, depth, resolveBinding, deepShadows);
    var draws := OitDraws(ResolvePassNames(passNames), range);
    var textures := MomentTextures(buf, count);
    ResolveTargetsAllocate(buf, desc, depth, resolveBinding, deepShadows);
    NoAllocations(draws);
    NoAllocations(textures);
    AllocationsAppend(targets, draws);
    AllocationsAppend(targets + draws, textures);
  }

  /** `Execute`, corrected or as written, allocates exactly `_B0`, `_B1`, `_B2` only for
      6 or 8 moments (two- or four-channel), `_MOIT`, and `_GIAL` only when deep shadow
      maps are on, in that order. */
  lemma MomentOitAllocations(buf: MomentBuffers, desc: MomentDescriptors, color: RenderTargetHandle,
                             depth: RenderTargetHandle, count: int, precision: FloatPrecision,
                             generateBinding: Binding, resolveBinding: Binding, passNames: seq<string>,
                             range: RenderQueueRange, deepShadows: bool, logDepth: Vec4)
    ensures Allocations(MomentOitCommands(buf, desc, color, depth, count, precision, generateBinding,
                                          resolveBinding, passNames, range, deepShadows, logDepth))
            == AllocatedBuffers(buf, desc, count, deepShadows)
    ensures Allocations(MomentOitCommandsAsWritten(buf, desc, color, depth, count, precision, generateBinding,
                                                   resolveBinding, passNames, range, deepShadows, logDepth))
            == AllocatedBuffers(buf, desc, count, deepShadows)
  {
    var pro := Prologue(buf, desc, count, precision, generateBinding);
    var comp := Composite(color);
    PrologueAllocates(buf, desc, count, precision, generateBinding);
    ResolvePhaseAllocates(buf, desc, count, depth, resolveBinding, passNames, range, deepShadows);
    ResolvePhaseAsWrittenAllocates(buf, desc, count, depth, resolveBinding, passNames, range, deepShadows);
    AllocationsSkipping(pro, GeneratePhase(passNames, range, logDepth),
                        ResolvePhase(buf, desc, count, depth, resolveBinding, passNames, range, deepShadows), comp);
    AllocationsSkipping(pro, GeneratePhaseAsWritten(passNames, range, logDepth),
                        ResolvePhaseAsWritten(buf, desc, count, depth, resolveBinding, passNames, range, deepShadows),
                        comp);
  }

  lemma AllocatedBuffersHandles(buf: MomentBuffers, desc: MomentDescriptors, count: int, deepShadows: bool)
    ensures forall p :: p in AllocatedBuffers(buf, desc, count, deepShadows) ==>
              p.0 in [buf.b0, buf.b1, buf.b2, buf.moit, buf.gial]
  {
  }

  /** With 4, 6 or 8 moments the moment buffers agree position by position: the k-th
      colour target of the generate binding is the k-th buffer allocated and the k-th
      buffer published to the resolve draw, so `_B2` is bound, allocated and published
      together or not at all. */
  lemma MomentBuffersAgree(buf: MomentBuffers, desc: MomentDescriptors, count: int, depth: RenderTargetHandle)
    requires count == 4 || count == 6 || count == 8
    ensures var binding := GenerateBinding(count, buf.b0, buf.b1, buf.b2, depth);
      var allocs := MomentAllocations(buf, desc, count);
      var textures := MomentTextures(buf, count);
      && |binding.colors| == |allocs| == |textures|
      && forall k :: 0 <= k < |allocs| ==>
           && binding.colors[k].target == HandleTarget(allocs[k].handle)
           && textures[k].texTarget == HandleTarget(allocs[k].handle)
  {
  }

  /** Every colour target the resolve phase binds is one it allocates. */
  lemma ResolveTargetsBound(buf: MomentBuffers, desc: MomentDescriptors, depth: RenderTargetHandle,
                            deepShadows: bool)
    ensures var t := ResolveTargets(buf, desc, depth, ResolveBinding(buf.moit, buf.gial, depth), deepShadows);
      forall i, a :: 0 <= i < |t| && t[i].SetRenderTarget? && a in t[i].binding.colors ==>
        exists j :: 0 <= j < i && t[j] == GetTemporaryRT(a.target.handle, desc.target)
  {
    var t := ResolveTargets(buf, desc, depth, ResolveBinding(buf.moit, buf.gial, depth), deepShadows);
    forall i, a | 0 <= i < |t| && t[i].SetRenderTarget? && a in t[i].binding.colors
      ensures exists j :: 0 <= j < i && t[j] == GetTemporaryRT(a.target.handle, desc.target)
    {
      if deepShadows {
        assert i == 2;
        if a.target == HandleTarget(buf.moit) {
          assert t[0] == GetTemporaryRT(a.target.handle, desc.target);
        } else {
          assert t[1] == GetTemporaryRT(a.target.handle, desc.target);
        }
      } else {
        assert i == 1;
        assert t[0] == GetTemporaryRT(a.target.handle, desc.target);
      }
    }
  }

  /** `FrameCleanup` after `Execute`, corrected or as written, releases every buffer
      `Execute` allocated. */
  lemma MomentOitCleanupBalances(buf: MomentBuffers, desc: MomentDescriptors, color: RenderTargetHandle,
                                 depth: RenderTargetHandle, count: int, precision: FloatPrecision,
                                 generateBinding: Binding, resolveBinding: Binding, passNames: seq<string>,
                                 range: RenderQueueRange, deepShadows: bool, logDepth: Vec4)
    ensures CleanupReleasesAllocations(
              MomentOitCommands(buf, desc, color, depth, count, precision, generateBinding,
                                resolveBinding, passNames, range, deepShadows, logDepth),
              ReleaseAll([buf.b0, buf.b1, buf.b2, buf.moit, buf.gial]))
    ensures CleanupReleasesAllocations(
              MomentOitCommandsAsWritten(buf, desc, color, depth, count, precision, generateBinding,
                                         resolveBinding, passNames, range, deepShadows, logDepth),
              ReleaseAll([buf.b0, buf.b1, buf.b2, buf.moit, buf.gial]))
  {
    MomentOitAllocations(buf, desc, color, depth, count, precision, generateBinding,
                         resolveBinding, passNames, range, deepShadows, logDepth);
    AllocatedBuffersHandles(buf, desc, count, deepShadows);
    ReleaseAllReleases([buf.b0, buf.b1, buf.b2, buf.moit, buf.gial]);
  }

  class RenderMomentOITForwardPass {
    var passNames: seq<string>
    var filterRange: RenderQueueRange
    var colorAttachmentHandle: RenderTargetHandle
    var depthAttachmentHandle: RenderTargetHandle
    /** `_B0`, `_B1`, `_B2`, `_MOIT` and `_GIAL`. */
    var buffers: MomentBuffers
    var generateBinding: Binding
    var resolveBinding: Binding
    /** `_Descriptor`, `_DescriptorFloat`, `_DescriptorFloat2` and `_DescriptorFloat4`. */
    var descriptors: MomentDescriptors
    var viewDepthMinMax: Vec2
    var momentsCount: int
    var momentsPrecision: FloatPrecision

    /** Registers the "GenerateMoments" shader pass and filters to the OIT range. */
    constructor ()
      ensures passNames == [GenerateMomentsPass] && filterRange == Oit
      ensures buffers == MomentBuffers(Unassigned, Unassigned, Unassigned, Unassigned, Unassigned)
    {
      passNames := [GenerateMomentsPass];
      filterRange := Oit;
      colorAttachmentHandle, depthAttachmentHandle := Unassigned, Unassigned;
      buffers := MomentBuffers(Unassigned, Unassigned, Unassigned, Unassigned, Unassigned);
      generateBinding, resolveBinding := Binding([], None), Binding([], None);
      descriptors := MomentDescriptors(DefaultDescriptor, DefaultDescriptor, DefaultDescriptor, DefaultDescriptor);
      viewDepthMinMax := Vec2(0.0, 0.0);
      momentsCount := 0;
      momentsPrecision := Single;
    }

    /** `Setup`: estimates the view-depth range of the OIT renderers into the pass; when
        that fails, returns false with nothing else changed. Otherwise stores the camera
        targets, derives the descriptors, names the five buffers, takes the moment count
        and precision from the camera data and builds both bindings. */
    method Setup(baseDescriptor: Descriptor, colorHandle: RenderTargetHandle, depthHandle: RenderTargetHandle,
                 samples: int, renderingData: RenderingData, caps: DeviceCaps,
                 objs: seq<Option<Renderer>>, magnitude: Vec3 -> real) returns (ok: bool)
      modifies this
      ensures ok <==> |Kept(objs, InRange(Oit))| > 0
      ensures !ok ==> viewDepthMinMax == Vec2(0.0, 0.0)
      ensures ok ==> viewDepthMinMax == DepthRange(renderingData.cameraData.camera,
                                                   Union(Kept(objs, InRange(Oit))), magnitude)
      ensures !ok ==>
                && colorAttachmentHandle == old(colorAttachmentHandle) && depthAttachmentHandle == old(depthAttachmentHandle)
                && buffers == old(buffers) && descriptors == old(descriptors)
                && generateBinding == old(generateBinding) && resolveBinding == old(resolveBinding)
                && momentsCount == old(momentsCount) && momentsPrecision == old(momentsPrecision)
      ensures ok ==>
                && colorAttachmentHandle == colorHandle && depthAttachmentHandle == depthHandle
                && descriptors == MomentDescriptorsFor(baseDescriptor, samples, renderingData.cameraData.momentsPrecision, caps)
                && buffers == NamedBuffers
                && momentsCount == renderingData.cameraData.momentsCount
                && momentsPrecision == renderingData.cameraData.momentsPrecision
                && generateBinding == GenerateBinding(momentsCount, B0, B1, B2, depthHandle)
                && resolveBinding == ResolveBinding(Moit, Gial, depthHandle)
      ensures passNames == old(passNames) && filterRange == old(filterRange)
    {
      var cameraData := renderingData.cameraData;
      var desc := MomentDescriptorsFor(baseDescriptor, samples, cameraData.momentsPrecision, caps);
      var minMax;
      ok, minMax := GetViewDepthMinMax(cameraData.camera, Oit, objs, magnitude);
      viewDepthMinMax := minMax;
      if ok {
        Configure(colorHandle, depthHandle, desc, cameraData.momentsCount, cameraData.momentsPrecision);
      }
    }

    /** The state `Setup` stores once the depth range is known. */
    method Configure(colorHandle: RenderTargetHandle, depthHandle: RenderTargetHandle, desc: MomentDescriptors,
                     count: int, precision: FloatPrecision)
      modifies this
      ensures colorAttachmentHandle == colorHandle && depthAttachmentHandle == depthHandle
      ensures descriptors == desc && buffers == NamedBuffers
      ensures momentsCount == count && momentsPrecision == precision
      ensures generateBinding == GenerateBinding(count, B0, B1, B2, depthHandle)
      ensures resolveBinding == ResolveBinding(Moit, Gial, depthHandle)
      ensures passNames == old(passNames) && filterRange == old(filterRange)
      ensures viewDepthMinMax == old(viewDepthMinMax)
    {
      var generate := GenerateBinding(count, B0, B1, B2, depthHandle);
      var resolve := ResolveBinding(Moit, Gial, depthHandle);
      colorAttachmentHandle, depthAttachmentHandle, descriptors, buffers := colorHandle, depthHandle, desc, NamedBuffers;
      momentsCount, momentsPrecision, generateBinding, resolveBinding := count, precision, generate, resolve;
    }

    /** `Execute`: a null renderer throws; otherwise the trace of `MomentOitCommands` for
        the stored state, `_GIAL` used exactly when deep shadow maps are on, and the
        depth range passed through the engine's logarithm `log`. */
    method Execute(rendererPresent: bool, renderingData: RenderingData, log: real -> real) returns (r: Outcome)
      ensures !rendererPresent ==> r == ArgumentNull("renderer")
      ensures rendererPresent ==>
                r == Recorded(MomentOitCommands(buffers, descriptors, colorAttachmentHandle, depthAttachmentHandle,
                                                momentsCount, momentsPrecision, generateBinding, resolveBinding,
                                                passNames, filterRange, renderingData.shadowData.supportsDeepShadowMaps,
                                                LogDepthVector(viewDepthMinMax, log)))
    {
      if !rendererPresent {
        return ArgumentNull("renderer");
      }
      var logDepth := Vec4(log(viewDepthMinMax.x), log(viewDepthMinMax.y) - log(viewDepthMinMax.x), 0.0, 0.0);
      var generate := Prologue(buffers, descriptors, momentsCount, momentsPrecision, generateBinding)
        + GeneratePhase(passNames, filterRange, logDepth);
      var resolve := ResolvePhase(buffers, descriptors, momentsCount, depthAttachmentHandle, resolveBinding,
                                  passNames, filterRange, renderingData.shadowData.supportsDeepShadowMaps);
      return Recorded(generate + resolve + Composite(colorAttachmentHandle));
    }

    /** `FrameCleanup`: a null command buffer throws and changes nothing; otherwise each of
        the five buffers that is not the camera target is released, in field order, and
        all five become the camera target, so a second cleanup releases nothing. */
    method FrameCleanup(cmdPresent: bool) returns (r: Outcome)
      modifies this
      ensures !cmdPresent ==> r == ArgumentNull("cmd") && buffers == old(buffers)
      ensures cmdPresent ==>
                var b := old(buffers);
                r == Recorded(ReleaseAll([b.b0, b.b1, b.b2, b.moit, b.gial]))
      ensures cmdPresent ==>
                buffers == MomentBuffers(CameraTarget, CameraTarget, CameraTarget, CameraTarget, CameraTarget)
      ensures colorAttachmentHandle == old(colorAttachmentHandle) && depthAttachmentHandle == old(depthAttachmentHandle)
      ensures generateBinding == old(generateBinding) && resolveBinding == old(resolveBinding)
      ensures passNames == old(passNames) && filterRange == old(filterRange)
      ensures descriptors == old(descriptors) && viewDepthMinMax == old(viewDepthMinMax)
      ensures momentsCount == old(momentsCount) && momentsPrecision == old(momentsPrecision)
    {
      if !cmdPresent {
        return ArgumentNull("cmd");
      }
      var cmds := ReleaseAll([buffers.b0, buffers.b1, buffers.b2, buffers.moit, buffers.gial]);
      buffers := MomentBuffers(CameraTarget, CameraTarget, CameraTarget, CameraTarget, CameraTarget);
      return Recorded(cmds);
    }
  }

}
