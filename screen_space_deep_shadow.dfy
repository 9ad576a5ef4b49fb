/** ScreenSpaceDeepShadowMapsPass: resolves the deep shadow map the caster pass filled
    (its per-texel fragment counts and fragment data buffers) into a screen-space
    look-up texture with a full-screen blit, then blurs that texture into a second
    temporary with the Gaussian-blur material. */
module ScreenSpaceDeepShadow {
  import opened Wrappers
  import opened RenderTypes
  import opened PipelineCore

  /** The look-up texture's format: single-channel R8 where the device supports it,
      ARGB32 otherwise. */
  function LutFormat(caps: DeviceCaps): (r: RenderTextureFormat)
    ensures Supports(caps, R8) ==> r == R8
    ensures !Supports(caps, R8) ==> r == ARGB32
  {
    if Supports(caps, R8) then R8 else ARGB32
  }

  /** The descriptor `Setup` stores: the camera descriptor in the look-up format and
      without a depth buffer. */
  function LutDescriptor(baseDescriptor: Descriptor, format: RenderTextureFormat): (r: Descriptor)
    ensures r.colorFormat == format && r.depthBufferBits == 0
    ensures r.width == baseDescriptor.width && r.height == baseDescriptor.height
    ensures r.msaaSamples == baseDescriptor.msaaSamples && r.bindMS == baseDescriptor.bindMS
  {
    baseDescriptor.(colorFormat := format, depthBufferBits := 0)
  }

  const TmpHandle := Named("_DeepShadowTmp")

  /** The resolve: hand the two deep-shadow buffers to the resolve material, allocate
      the look-up texture, bind it cleared, and draw it with a full-screen blit that
      has no source texture. */
  function ResolveCommands(lut: RenderTargetHandle, descriptor: Descriptor,
                           countBuffer: Option<ComputeBufferHandle>,
                           dataBuffer: Option<ComputeBufferHandle>): (r: seq<Cmd>)
    ensures |r| == 5
  {
    [SetMaterialBuffer(ScreenSpaceDeepShadowMaps, "_CountBuffer", countBuffer),
     SetMaterialBuffer(ScreenSpaceDeepShadowMaps, "_DataBuffer", dataBuffer),
     GetTemporaryRT(lut, descriptor),
     SetRenderTarget(ColorOnly(HandleTarget(lut), DontCare, Store), ClearAll),
     Blit(NoTarget, HandleTarget(lut), ScreenSpaceDeepShadowMaps)]
  }

  /** The blur: one-texel sample offset, allocate the second texture, bind it cleared,
      blit the look-up texture into it through the blur material. */
  function BlurCommands(lut: RenderTargetHandle, tmp: RenderTargetHandle, descriptor: Descriptor): (r: seq<Cmd>)
    ensures |r| == 4
  {
    [SetMaterialFloat(GaussianBlur, "_SampleOffset", 1.0),
     GetTemporaryRT(tmp, descriptor),
     SetRenderTarget(ColorOnly(HandleTarget(tmp), DontCare, Store), ClearAll),
     Blit(HandleTarget(lut), HandleTarget(tmp), GaussianBlur)]
  }

  /** What `Execute` records when there is a main light. */
  function ScreenSpaceDeepShadowCommands(lut: RenderTargetHandle, tmp: RenderTargetHandle, descriptor: Descriptor,
                                         countBuffer: Option<ComputeBufferHandle>,
                                         dataBuffer: Option<ComputeBufferHandle>): (r: seq<Cmd>)
    ensures |r| == 9
    ensures r[..5] == ResolveCommands(lut, descriptor, countBuffer, dataBuffer)
    ensures r[5..] == BlurCommands(lut, tmp, descriptor)
  {
    ResolveCommands(lut, descriptor, countBuffer, dataBuffer) + BlurCommands(lut, tmp, descriptor)
  }

  /** Every blit that reads a handle reads one an earlier blit of the trace wrote. */
  predicate BlitSourcesWritten(t: seq<Cmd>)
  {
    forall j :: 0 <= j < |t| && t[j].Blit? && t[j].src.HandleTarget? ==>
      exists i :: 0 <= i < j && t[i].Blit? && t[i].dst == t[j].src
  }

  /** The blur reads the look-up texture only after the resolve wrote it, and writes a
      different texture (as long as the look-up handle is not the blur's own handle);
      the resolve material receives both buffers before its blit; each texture is
      allocated and bound, cleared, before the blit that writes it. */
  lemma ResolveBeforeBlur(lut: RenderTargetHandle, descriptor: Descriptor,
                          countBuffer: Option<ComputeBufferHandle>, dataBuffer: Option<ComputeBufferHandle>)
    requires lut != TmpHandle
    ensures var t := ScreenSpaceDeepShadowCommands(lut, TmpHandle, descriptor, countBuffer, dataBuffer);
      && BlitSourcesWritten(t)
      && t[4].Blit? && t[4].dst == HandleTarget(lut) && t[4].material == ScreenSpaceDeepShadowMaps
      && t[8].Blit? && t[8].src == HandleTarget(lut) && t[8].dst != t[8].src && t[8].material == GaussianBlur
      && AllBefore(t, (c: Cmd) => c.SetMaterialBuffer?, (c: Cmd) => c.Blit?)
      && t[2] == GetTemporaryRT(lut, descriptor) && t[3].SetRenderTarget? && t[3].clear == ClearAll
      && t[3].binding.colors[0].target == t[4].dst
      && t[6] == GetTemporaryRT(TmpHandle, descriptor) && t[7].SetRenderTarget? && t[7].clear == ClearAll
      && t[7].binding.colors[0].target == t[8].dst
  {
    var t := ScreenSpaceDeepShadowCommands(lut, TmpHandle, descriptor, countBuffer, dataBuffer);
    assert t[4] == Blit(NoTarget, HandleTarget(lut), ScreenSpaceDeepShadowMaps);
    assert t[8] == Blit(HandleTarget(lut), HandleTarget(TmpHandle), GaussianBlur);
    forall j | 0 <= j < |t| && t[j].Blit? && t[j].src.HandleTarget?
      ensures exists i :: 0 <= i < j && t[i].Blit? && t[i].dst == t[j].src
    {
      assert j == 8;
      assert t[4].dst == t[j].src;
    }
    forall i, j | 0 <= i < |t| && 0 <= j < |t| && t[i].SetMaterialBuffer? && t[j].Blit?
      ensures i < j
    {
      assert i < 2 && j >= 4;
    }
  }

  /** `Execute` allocates exactly the look-up and blur textures, with the stored
      descriptor, and `FrameCleanup` releases both. */
  lemma ScreenSpaceDeepShadowCleanupBalances(lut: RenderTargetHandle, tmp: RenderTargetHandle, descriptor: Descriptor,
                                             countBuffer: Option<ComputeBufferHandle>,
                                             dataBuffer: Option<ComputeBufferHandle>)
    ensures var t := ScreenSpaceDeepShadowCommands(lut, tmp, descriptor, countBuffer, dataBuffer);
      && Allocations(t) == [(lut, descriptor), (tmp, descriptor)]
      && CleanupReleasesAllocations(t, ReleaseAll([lut, tmp]))
  {
    var a := ResolveCommands(lut, descriptor, countBuffer, dataBuffer);
    var b := BlurCommands(lut, tmp, descriptor);
    AllocationsOnly(a, 2);
    AllocationsOnly(b, 1);
    AllocationsAppend(a, b);
    ReleaseAllReleases([lut, tmp]);
  }

  class ScreenSpaceDeepShadowMapsPass {
    var passNames: seq<string>
    var countBuffer: Option<ComputeBufferHandle>
    var dataBuffer: Option<ComputeBufferHandle>
    var shadowLutFormat: RenderTextureFormat
    var deepShadowLutHandle: RenderTargetHandle
    var deepShadowTmpHandle: RenderTargetHandle
    var descriptor: Descriptor

    /** Registers the "DeepShadowCaster" shader pass and picks the look-up format. */
    constructor (caps: DeviceCaps)
      ensures passNames == ["DeepShadowCaster"] && shadowLutFormat == LutFormat(caps)
      ensures countBuffer.None? && dataBuffer.None?
      ensures deepShadowLutHandle == Unassigned && deepShadowTmpHandle == Unassigned
      ensures descriptor == DefaultDescriptor
    {
      passNames := ["DeepShadowCaster"];
      shadowLutFormat := if Supports(caps, R8) then R8 else ARGB32;
      countBuffer := None;
      dataBuffer := None;
      deepShadowLutHandle := Unassigned;
      deepShadowTmpHandle := Unassigned;
      descriptor := DefaultDescriptor;
    }

    /** `Setup`: fetches the renderer's two deep-shadow buffers, remembers the look-up
        handle, names the blur handle and stores the look-up descriptor; it always
        reports success. */
    method Setup(baseDescriptor: Descriptor, lutHandle: RenderTargetHandle) returns (ok: bool)
      modifies this
      ensures ok
      ensures countBuffer == Some(DeepShadowMapsCount) && dataBuffer == Some(DeepShadowMapsData)
      ensures deepShadowLutHandle == lutHandle && deepShadowTmpHandle == TmpHandle
      ensures descriptor == LutDescriptor(baseDescriptor, shadowLutFormat)
      ensures passNames == old(passNames) && shadowLutFormat == old(shadowLutFormat)
    {
      countBuffer := Some(DeepShadowMapsCount);
      dataBuffer := Some(DeepShadowMapsData);
      deepShadowLutHandle := lutHandle;
      deepShadowTmpHandle := Named("_DeepShadowTmp");
      descriptor := baseDescriptor.(colorFormat := shadowLutFormat);
      descriptor := descriptor.(depthBufferBits := 0);
      return true;
    }

    /** `Execute`: a null renderer throws; without a main light nothing is recorded;
        otherwise the resolve and the blur. */
    method Execute(rendererPresent: bool, renderingData: RenderingData) returns (r: Outcome)
      requires renderingData.lightData.mainLightIndex == -1 || MainLight(renderingData).Some?
      ensures !rendererPresent ==> r == ArgumentNull("renderer")
      ensures rendererPresent && renderingData.lightData.mainLightIndex == -1 ==> r == Recorded([])
      ensures rendererPresent && renderingData.lightData.mainLightIndex != -1 ==>
                r == Recorded(ScreenSpaceDeepShadowCommands(deepShadowLutHandle, deepShadowTmpHandle, descriptor,
                                                            countBuffer, dataBuffer))
    {
      if !rendererPresent {
        return ArgumentNull("renderer");
      }
      if renderingData.lightData.mainLightIndex == -1 {
        return Recorded([]);
      }
      var cmds := [SetMaterialBuffer(ScreenSpaceDeepShadowMaps, "_CountBuffer", countBuffer)];
      cmds := cmds + [SetMaterialBuffer(ScreenSpaceDeepShadowMaps, "_DataBuffer", dataBuffer)];
      cmds := cmds + [GetTemporaryRT(deepShadowLutHandle, descriptor)];
      var lut := HandleTarget(deepShadowLutHandle);
      cmds := cmds + [SetRenderTarget(ColorOnly(lut, DontCare, Store), ClearAll)];
      cmds := cmds + [Blit(NoTarget, lut, ScreenSpaceDeepShadowMaps)];
      cmds := cmds + [SetMaterialFloat(GaussianBlur, "_SampleOffset", 1.0)];
      cmds := cmds + [GetTemporaryRT(deepShadowTmpHandle, descriptor)];
      var tmp := HandleTarget(deepShadowTmpHandle);
      cmds := cmds + [SetRenderTarget(ColorOnly(tmp, DontCare, Store), ClearAll)];
      cmds := cmds + [Blit(lut, tmp, GaussianBlur)];
      return Recorded(cmds);
    }

    /** `FrameCleanup`: a null command buffer throws and changes nothing; otherwise the
        look-up and blur textures are released (each unless it is the camera target) and
        both handles become the camera target. */
    method FrameCleanup(cmdPresent: bool) returns (r: Outcome)
      modifies this
      ensures !cmdPresent ==> r == ArgumentNull("cmd")
      ensures !cmdPresent ==> deepShadowLutHandle == old(deepShadowLutHandle)
      ensures !cmdPresent ==> deepShadowTmpHandle == old(deepShadowTmpHandle)
      ensures cmdPresent ==> r == Recorded(ReleaseAll([old(deepShadowLutHandle), old(deepShadowTmpHandle)]))
      ensures cmdPresent ==> deepShadowLutHandle == CameraTarget && deepShadowTmpHandle == CameraTarget
      ensures countBuffer == old(countBuffer) && dataBuffer == old(dataBuffer) && descriptor == old(descriptor)
      ensures passNames == old(passNames) && shadowLutFormat == old(shadowLutFormat)
    {
      if !cmdPresent {
        return ArgumentNull("cmd");
      }
      ghost var hs := [deepShadowLutHandle, deepShadowTmpHandle];
      var cmds := [];
      if deepShadowLutHandle != CameraTarget {
        cmds := cmds + [ReleaseTemporaryRT(deepShadowLutHandle)];
        deepShadowLutHandle := CameraTarget;
      }
      assert cmds == ReleaseAll(hs[..1]) by { assert hs[..1][..0] == []; }
      if deepShadowTmpHandle != CameraTarget {
        cmds := cmds + [ReleaseTemporaryRT(deepShadowTmpHandle)];
        deepShadowTmpHandle := CameraTarget;
      }
      assert hs[..2] == hs && hs[..2][..1] == hs[..1];
      return Recorded(cmds);
    }
  }

}
