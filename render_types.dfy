/** The engine-side vocabulary the passes record into a command buffer: render-target
    handles, texture formats and descriptors, attachments and bindings, compute handles,
    and the commands themselves. Nothing here runs on a GPU; a recorded frame is a
    sequence of `Cmd` values in the order the pass recorded them. */
module RenderTypes {
  import opened Wrappers
  import opened Linear
  import opened RenderQueueUtils

  /** `RenderTargetHandle`: either the camera's own target (the sentinel with id -1),
      a handle that was never `Init`-ed (the default struct, id 0), or a named temporary
      whose id is the shader property id of its name. */
  datatype RenderTargetHandle = CameraTarget | Unassigned | Named(name: string)

  datatype RenderTextureFormat =
    | ARGB32 | Depth | Shadowmap | ARGBHalf | RGHalf | RHalf | ARGBFloat | RGFloat | RFloat | R8

  /** The device capabilities the passes query. */
  datatype DeviceCaps = DeviceCaps(supportedFormats: set<RenderTextureFormat>,
                                   copyTextureSupported: bool, usesReversedZBuffer: bool)

  /** `SystemInfo.SupportsRenderTextureFormat`. */
  predicate Supports(caps: DeviceCaps, f: RenderTextureFormat)
  {
    f in caps.supportedFormats
  }

  /** `RenderTextureDescriptor`, reduced to the fields the core reads or writes. */
  datatype Descriptor = Descriptor(width: int, height: int, colorFormat: RenderTextureFormat,
                                   depthBufferBits: int, msaaSamples: int, bindMS: bool)

  /** The value of a descriptor field the pass never set (`default(RenderTextureDescriptor)`). */
  const DefaultDescriptor := Descriptor(0, 0, ARGB32, 0, 0, false)

  /** The MSAA edit several passes make to a copy of the camera descriptor: when the
      camera renders with more than one sample, the copy stops binding the multisampled
      surface and takes the camera's sample count; otherwise it is left as it was. */
  function WithMsaa(d: Descriptor, samples: int): (r: Descriptor)
    ensures samples > 1 ==> !r.bindMS && r.msaaSamples == samples
    ensures samples <= 1 ==> r == d
    ensures r.colorFormat == d.colorFormat && r.depthBufferBits == d.depthBufferBits
    ensures r.width == d.width && r.height == d.height
  {
    if samples > 1 then d.(bindMS := false, msaaSamples := samples) else d
  }

  datatype LoadAction = Load | Clear | DontCare

  datatype StoreAction = Store | Resolve | StoreAndResolve | DontCareStore

  /** What a colour or depth attachment points at: a handle's texture, the engine's
      "no target" value, or a texture held directly by a pass. */
  datatype Target = HandleTarget(handle: RenderTargetHandle) | NoTarget | TextureTarget(tex: string)

  datatype Attachment = Attachment(target: Target, load: LoadAction, store: StoreAction)

  /** The colour attachments a pass binds and its depth attachment, if it names one
      (`RenderTargetBinding`, or `SetRenderTarget` with only a colour target). */
  datatype Binding = Binding(colors: seq<Attachment>, depth: Option<Attachment>)

  /** The binding `SetRenderTarget` makes from one colour target and no depth target. */
  function ColorOnly(t: Target, load: LoadAction, store: StoreAction): (r: Binding)
    ensures r.colors == [Attachment(t, load, store)] && r.depth.None?
  {
    Binding([Attachment(t, load, store)], None)
  }

  /** The binding `SetRenderTarget` makes from one colour target and one depth target. */
  function ColorAndDepth(t: Target, load: LoadAction, store: StoreAction,
                         d: Target, depthLoad: LoadAction, depthStore: StoreAction): (r: Binding)
    ensures r.colors == [Attachment(t, load, store)] && r.depth == Some(Attachment(d, depthLoad, depthStore))
  {
    Binding([Attachment(t, load, store)], Some(Attachment(d, depthLoad, depthStore)))
  }

  /** `ClearFlag`, as the two bits the core combines. */
  datatype ClearFlag = ClearFlag(color: bool, depth: bool)

  const ClearNone := ClearFlag(false, false)
  const ClearColor := ClearFlag(true, false)
  const ClearDepth := ClearFlag(false, true)
  const ClearAll := ClearFlag(true, true)

  /** `ComputeHandle` and `ComputeBufferHandle` (the `Count` members only size arrays). */
  datatype ComputeHandle = ResetDeepShadowDataCompute

  datatype ComputeBufferHandle = DeepShadowMapsCount | DeepShadowMapsData

  /** The materials the passes blit or draw with. */
  datatype MaterialHandle =
    | ScreenSpaceDeepShadowMaps | GaussianBlur | MomentOITComposite | OITComposite | NoMaterial

  /** One command, in the order it reaches the GPU. Commands a pass records into its
      command buffer take effect when the buffer is handed to the render context, so a
      command recorded after a context draw but before the next hand-over follows that
      draw. A global texture is named by the handle whose shader property it sets; a
      compute buffer the pass never fetched is None. Material edits, which take effect
      at once, are listed where the pass makes them. */
  datatype Cmd =
    | GetTemporaryRT(handle: RenderTargetHandle, desc: Descriptor)
    | ReleaseTemporaryRT(released: RenderTargetHandle)
    | GetTemporaryTexture(tex: string, width: int, height: int, depthBits: int, format: RenderTextureFormat)
    | ReleaseTemporaryTexture(tex: string)
    | SetRenderTarget(binding: Binding, clear: ClearFlag)
    | ClearRenderTarget(clearDepth: bool, clearColor: bool)
    | SetKeyword(keyword: string, on: bool)
    | DrawRenderers(passNames: seq<string>, range: RenderQueueRange, stereo: bool)
    | DrawErrorObjects
    | Blit(src: Target, dst: Target, material: MaterialHandle)
    | SetGlobalTexture(texId: RenderTargetHandle, texTarget: Target)
    | SetGlobalVector(vecName: string, vec: Vec4)
    | SetGlobalFloat(floatName: string, f: real)
    | SetGlobalInt(intName: string, i: int)
    | SetGlobalMatrix(matName: string, m: Matrix4x4)
    | SetComputeBufferParam(kernel: ComputeHandle, bufName: string, buffer: Option<ComputeBufferHandle>)
    | DispatchCompute(kernelToRun: ComputeHandle, x: int, y: int, z: int)
    | SetRandomWriteTarget(index: int, rwBuffer: Option<ComputeBufferHandle>)
    | ClearRandomWriteTargets
    | DrawRenderer(rendererId: nat, submesh: nat)
    | SetViewport(vx: int, vy: int, vw: int, vh: int)
    | EnableScissor(sx: int, sy: int, sw: int, sh: int)
    | DisableScissor
    | SetViewProjection(view: Matrix4x4, proj: Matrix4x4)
    | DrawShadows(lightIndex: int, cullingSphere: Vec4)
    | SetMaterialFloat(mat: MaterialHandle, matFloatName: string, mf: real)
    | SetMaterialBuffer(bufMat: MaterialHandle, matBufName: string, matBuffer: Option<ComputeBufferHandle>)

  /** The end of an `Execute` or `FrameCleanup` call: the commands it recorded, or the
      `ArgumentNullException` it threw (naming the parameter) before recording any. */
  datatype Outcome = Recorded(cmds: seq<Cmd>) | ArgumentNull(param: string)

  predicate IsDraw(c: Cmd)
  {
    c.DrawRenderers? || c.DrawRenderer? || c.DrawShadows? || c.DrawErrorObjects? || c.Blit?
  }

  /** Every command satisfying `p` is recorded before every command satisfying `q`. */
  predicate AllBefore(t: seq<Cmd>, p: Cmd -> bool, q: Cmd -> bool)
  {
    forall i, j :: 0 <= i < |t| && 0 <= j < |t| && p(t[i]) && q(t[j]) ==> i < j
  }

  /** No command of `s` satisfies `p`. */
  predicate NoneOf(s: seq<Cmd>, p: Cmd -> bool)
  {
    forall c :: c in s ==> !p(c)
  }

  lemma NoneOfAppend(a: seq<Cmd>, b: seq<Cmd>, p: Cmd -> bool)
    requires NoneOf(a, p) && NoneOf(b, p)
    ensures NoneOf(a + b, p)
  {
  }

  /** A trace without `p` commands orders them trivially. */
  lemma AllBeforeNoFirst(s: seq<Cmd>, p: Cmd -> bool, q: Cmd -> bool)
    requires NoneOf(s, p)
    ensures AllBefore(s, p, q)
  {
    forall i | 0 <= i < |s| ensures !p(s[i]) {
      assert s[i] in s;
    }
  }

  /** A trace without `q` commands orders them trivially. */
  lemma AllBeforeNoSecond(s: seq<Cmd>, p: Cmd -> bool, q: Cmd -> bool)
    requires NoneOf(s, q)
    ensures AllBefore(s, p, q)
  {
    forall j | 0 <= j < |s| ensures !q(s[j]) {
      assert s[j] in s;
    }
  }

  /** Appending a trace without `p` commands keeps the order. */
  lemma AllBeforeAppendNoFirst(a: seq<Cmd>, b: seq<Cmd>, p: Cmd -> bool, q: Cmd -> bool)
    requires AllBefore(a, p, q) && NoneOf(b, p)
    ensures AllBefore(a + b, p, q)
  {
    var t := a + b;
    forall k | |a| <= k < |t| ensures !p(t[k]) {
      assert t[k] == b[k - |a|];
      assert b[k - |a|] in b;
    }
    forall i, j | 0 <= i < |a| && 0 <= j < |a| && p(t[i]) && q(t[j])
      ensures i < j
    {
      assert t[i] == a[i] && t[j] == a[j];
    }
  }

  /** Prepending a trace without `q` commands keeps the order. */
  lemma AllBeforeAppendNoSecond(a: seq<Cmd>, b: seq<Cmd>, p: Cmd -> bool, q: Cmd -> bool)
    requires AllBefore(b, p, q) && NoneOf(a, q)
    ensures AllBefore(a + b, p, q)
  {
    var t := a + b;
    forall k | 0 <= k < |a| ensures !q(t[k]) {
      assert t[k] == a[k];
      assert a[k] in a;
    }
    forall i, j | |a| <= i < |t| && |a| <= j < |t| && p(t[i]) && q(t[j])
      ensures i < j
    {
      assert t[i] == b[i - |a|] && t[j] == b[j - |a|];
    }
  }

  /** Whether a shader keyword is on after a trace: the value of the last command that
      sets it, or None when the trace never touches it. */
  function KeywordState(t: seq<Cmd>, k: string): (r: Option<bool>)
    ensures r.Some? ==> SetKeyword(k, r.value) in t
    ensures r.None? ==> forall b :: SetKeyword(k, b) !in t
  {
    if |t| == 0 then None
    else
      var c := t[|t| - 1];
      if c.SetKeyword? && c.keyword == k then Some(c.on)
      else
        var r := KeywordState(t[..|t| - 1], k);
        assert t == t[..|t| - 1] + [c];
        r
  }

  /** A keyword's state after `a + b` is its state after `b` if `b` sets it, and its
      state after `a` otherwise. */
  lemma {:induction false} KeywordStateAppend(a: seq<Cmd>, b: seq<Cmd>, k: string)
    ensures KeywordState(a + b, k) ==
              if KeywordState(b, k).Some? then KeywordState(b, k) else KeywordState(a, k)
  {
    if |b| > 0 {
      var init := b[..|b| - 1];
      assert (a + b)[..|a + b| - 1] == a + init;
      KeywordStateAppend(a, init, k);
    } else {
      assert a + b == a;
    }
  }

  /** Three pieces after `before + head` that set no keyword leave every keyword as
      `before + head` left it. */
  lemma KeywordsUntouched(before: seq<Cmd>, head: seq<Cmd>, a: seq<Cmd>, b: seq<Cmd>, c: seq<Cmd>)
    requires forall x :: x in a ==> !x.SetKeyword?
    requires forall x :: x in b ==> !x.SetKeyword?
    requires forall x :: x in c ==> !x.SetKeyword?
    ensures forall k :: KeywordState(before + (head + a + b + c), k) == KeywordState(before + head, k)
  {
    var h := before + head;
    assert before + (head + a + b + c) == h + a + b + c;
    forall k ensures KeywordState(h + a + b + c, k) == KeywordState(h, k) {
      KeywordUntouched(h, a, k);
      KeywordUntouched(h + a, b, k);
      KeywordUntouched(h + a + b, c, k);
    }
  }

  /** One more command sets a keyword when it names it and leaves it as it was
      otherwise. */
  lemma KeywordStateSnoc(t: seq<Cmd>, c: Cmd, k: string)
    ensures KeywordState(t + [c], k) == if c.SetKeyword? && c.keyword == k then Some(c.on) else KeywordState(t, k)
  {
    assert (t + [c])[..|t|] == t;
  }

  /** A trace that sets no keyword leaves every keyword as it was. */
  lemma KeywordUntouched(a: seq<Cmd>, b: seq<Cmd>, k: string)
    requires forall c :: c in b ==> !c.SetKeyword?
    ensures KeywordState(a + b, k) == KeywordState(a, k)
  {
    KeywordStateAppend(a, b, k);
    assert KeywordState(b, k).None?;
  }

  /** The temporaries a trace allocates, in order, with their descriptors. */
  function Allocations(t: seq<Cmd>): (r: seq<(RenderTargetHandle, Descriptor)>)
    ensures |r| <= |t|
  {
    if |t| == 0 then []
    else
      var c := t[|t| - 1];
      Allocations(t[..|t| - 1]) + (if c.GetTemporaryRT? then [(c.handle, c.desc)] else [])
  }

  /** The handles a trace releases, in order. */
  function Released(t: seq<Cmd>): (r: seq<RenderTargetHandle>)
    ensures |r| <= |t|
  {
    if |t| == 0 then []
    else
      var c := t[|t| - 1];
      Released(t[..|t| - 1]) + (if c.ReleaseTemporaryRT? then [c.released] else [])
  }

  lemma {:induction false} AllocationsAppend(a: seq<Cmd>, b: seq<Cmd>)
    ensures Allocations(a + b) == Allocations(a) + Allocations(b)
  {
    if |b| > 0 {
      var init := b[..|b| - 1];
      assert (a + b)[..|a + b| - 1] == a + init;
      AllocationsAppend(a, init);
    } else {
      assert a + b == a;
    }
  }

  lemma AllocationsOne(c: Cmd)
    ensures Allocations([c]) == if c.GetTemporaryRT? then [(c.handle, c.desc)] else []
  {
    assert [c][..0] == [];
  }

  /** A trace without `GetTemporaryRT` allocates nothing. */
  lemma {:induction false} NoAllocations(t: seq<Cmd>)
    requires forall c :: c in t ==> !c.GetTemporaryRT?
    ensures Allocations(t) == []
  {
    if |t| > 0 {
      assert t[|t| - 1] in t;
      forall c | c in t[..|t| - 1] ensures !c.GetTemporaryRT? {
        assert t == t[..|t| - 1] + [t[|t| - 1]];
      }
      NoAllocations(t[..|t| - 1]);
    }
  }

  /** Pieces without allocations contribute nothing to the allocations of a trace. */
  lemma AllocationsSkipping(a: seq<Cmd>, b: seq<Cmd>, c: seq<Cmd>, d: seq<Cmd>)
    requires forall x :: x in b ==> !x.GetTemporaryRT?
    requires forall x :: x in d ==> !x.GetTemporaryRT?
    ensures Allocations(a + b + c + d) == Allocations(a) + Allocations(c)
  {
    NoAllocations(b);
    NoAllocations(d);
    AllocationsAppend(a, b);
    AllocationsAppend(a + b, c);
    AllocationsAppend(a + b + c, d);
  }

  /** A trace whose only `GetTemporaryRT` is the one at `k` allocates exactly that
      temporary. */
  lemma AllocationsOnly(t: seq<Cmd>, k: int)
    requires 0 <= k < |t| && t[k].GetTemporaryRT?
    requires forall i :: 0 <= i < |t| && i != k ==> !t[i].GetTemporaryRT?
    ensures Allocations(t) == [(t[k].handle, t[k].desc)]
  {
    var pre, post := t[..k], t[k + 1..];
    assert t == pre + [t[k]] + post;
    assert forall c :: c in pre ==> !c.GetTemporaryRT? by {
      forall c | c in pre ensures !c.GetTemporaryRT? {
        var i :| 0 <= i < |pre| && pre[i] == c;
        assert t[i] == c;
      }
    }
    assert forall c :: c in post ==> !c.GetTemporaryRT? by {
      forall c | c in post ensures !c.GetTemporaryRT? {
        var i :| 0 <= i < |post| && post[i] == c;
        assert t[k + 1 + i] == c;
      }
    }
    NoAllocations(pre);
    NoAllocations(post);
    AllocationsOne(t[k]);
    AllocationsAppend(pre, [t[k]]);
    AllocationsAppend(pre + [t[k]], post);
  }

  lemma {:induction false} ReleasedAppend(a: seq<Cmd>, b: seq<Cmd>)
    ensures Released(a + b) == Released(a) + Released(b)
  {
    if |b| > 0 {
      var init := b[..|b| - 1];
      assert (a + b)[..|a + b| - 1] == a + init;
      ReleasedAppend(a, init);
    } else {
      assert a + b == a;
    }
  }

  /** The cleanup every pass performs on its handle fields: release each handle that is
      not the camera target, in field order. */
  function ReleaseAll(hs: seq<RenderTargetHandle>): (r: seq<Cmd>)
  {
    if |hs| == 0 then []
    else
      var h := hs[|hs| - 1];
      ReleaseAll(hs[..|hs| - 1]) + (if h != CameraTarget then [ReleaseTemporaryRT(h)] else [])
  }

  /** `ReleaseAll` records only releases, and releases exactly the handles that are not
      the camera target, in field order. */
  lemma {:induction false} ReleaseAllReleases(hs: seq<RenderTargetHandle>)
    ensures forall c :: c in ReleaseAll(hs) ==> c.ReleaseTemporaryRT?
    ensures forall h :: ReleaseTemporaryRT(h) in ReleaseAll(hs) <==> h in hs && h != CameraTarget
    ensures |ReleaseAll(hs)| <= |hs|
  {
    if |hs| > 0 {
      var init := hs[..|hs| - 1];
      ReleaseAllReleases(init);
      assert hs == init + [hs[|hs| - 1]];
    }
  }

  /** Every temporary an `Execute` trace allocates under a handle other than the camera
      target is released by the `FrameCleanup` trace. */
  predicate CleanupReleasesAllocations(execute: seq<Cmd>, cleanup: seq<Cmd>)
  {
    forall p :: p in Allocations(execute) && p.0 != CameraTarget ==> ReleaseTemporaryRT(p.0) in cleanup
  }

  /** Once every handle is the camera target, cleanup records nothing: this is why a
      second `FrameCleanup` after the first releases nothing. */
  lemma {:induction false} ReleaseAllOfSentinels(hs: seq<RenderTargetHandle>)
    requires forall k :: 0 <= k < |hs| ==> hs[k] == CameraTarget
    ensures ReleaseAll(hs) == []
  {
    if |hs| > 0 {
      ReleaseAllOfSentinels(hs[..|hs| - 1]);
    }
  }

}
