/** DepthNormalsPass: renders view-space normals of the opaque range into a temporary
    ARGB32 texture. When a depth prepass ran, it depth-tests against that prepass depth
    (loaded, never cleared, and without alpha testing, which the prepass already applied);
    otherwise it clears and tests against its own 16-bit depth buffer with alpha testing
    on. */
module DepthNormals {
  import opened Wrappers
  import opened RenderQueueUtils
  import opened RenderTypes
  import opened PipelineCore

  const DepthBufferBits := 16

  const AlphaTestKeyword := "_ALPHATEST_ON"

  /** The descriptor `Setup` stores: ARGB32 colour, and a depth buffer only when there is
      no prepass depth to reuse. */
  function DepthNormalsDescriptor(baseDescriptor: Descriptor, depthPrepass: bool): (r: Descriptor)
    ensures r.colorFormat == ARGB32
    ensures r.depthBufferBits == if depthPrepass then 0 else DepthBufferBits
    ensures r.width == baseDescriptor.width && r.height == baseDescriptor.height
    ensures r.msaaSamples == baseDescriptor.msaaSamples && r.bindMS == baseDescriptor.bindMS
  {
    baseDescriptor.(depthBufferBits := if depthPrepass then 0 else DepthBufferBits, colorFormat := ARGB32)
  }

  /** What `Execute` records: allocate the normals texture, bind it (with the prepass
      depth, or alone with a full clear), set alpha testing, draw the opaque range. */
  function DepthNormalsCommands(normals: RenderTargetHandle, depth: RenderTargetHandle, descriptor: Descriptor,
                                depthPrepass: bool, passNames: seq<string>, range: RenderQueueRange,
                                stereo: bool): (r: seq<Cmd>)
    ensures |r| == 4 && r[0] == GetTemporaryRT(normals, descriptor) && r[3] == DrawRenderers(passNames, range, stereo)
  {
    [GetTemporaryRT(normals, descriptor)]
      + (if depthPrepass then
           [SetRenderTarget(ColorAndDepth(HandleTarget(normals), DontCare, Store, HandleTarget(depth), Load, DontCareStore), ClearColor),
            SetKeyword(AlphaTestKeyword, false)]
         else
           [SetRenderTarget(ColorOnly(HandleTarget(normals), DontCare, Store), ClearAll),
            SetKeyword(AlphaTestKeyword, true)])
      + [DrawRenderers(passNames, range, stereo)]
  }

  /** The normals draw always has a depth buffer to test against: with a prepass it binds
      the prepass depth, loads it and leaves it uncleared, the normals texture has no
      depth of its own and alpha testing is off; without one, the normals texture's own
      16-bit depth is bound, cleared, and alpha testing is on. */
  lemma DepthNormalsDepthSource(baseDescriptor: Descriptor, normals: RenderTargetHandle, depth: RenderTargetHandle,
                                depthPrepass: bool, passNames: seq<string>, range: RenderQueueRange, stereo: bool)
    ensures var d := DepthNormalsDescriptor(baseDescriptor, depthPrepass);
      var t := DepthNormalsCommands(normals, depth, d, depthPrepass, passNames, range, stereo);
      && t[1].SetRenderTarget?
      && t[1].binding.colors == [Attachment(HandleTarget(normals), DontCare, Store)]
      && t[1].clear.color
      && (t[1].binding.depth.Some? <==> depthPrepass)
      && (depthPrepass ==>
            t[1].binding.depth.value == Attachment(HandleTarget(depth), Load, DontCareStore)
            && !t[1].clear.depth && d.depthBufferBits == 0
            && KeywordState(t[..3], AlphaTestKeyword) == Some(false))
      && (!depthPrepass ==>
            t[1].clear.depth && d.depthBufferBits > 0
            && KeywordState(t[..3], AlphaTestKeyword) == Some(true))
  {
    var d := DepthNormalsDescriptor(baseDescriptor, depthPrepass);
    var t := DepthNormalsCommands(normals, depth, d, depthPrepass, passNames, range, stereo);
    assert t[..3][..2] == t[..2];
  }

  /** The one temporary `Execute` allocates is the normals texture, which `FrameCleanup`
      releases. */
  lemma DepthNormalsCleanupBalances(normals: RenderTargetHandle, depth: RenderTargetHandle, descriptor: Descriptor,
                                    depthPrepass: bool, passNames: seq<string>, range: RenderQueueRange, stereo: bool)
    ensures var t := DepthNormalsCommands(normals, depth, descriptor, depthPrepass, passNames, range, stereo);
      Allocations(t) == [(normals, descriptor)]
      && CleanupReleasesAllocations(t, ReleaseAll([normals]))
  {
    var t := DepthNormalsCommands(normals, depth, descriptor, depthPrepass, passNames, range, stereo);
    NoAllocations(t[1..]);
    AllocationsAppend([t[0]], t[1..]);
    assert [t[0]] + t[1..] == t;
    assert [t[0]][..0] == [];
    assert [normals][..0] == [];
  }

  class DepthNormalsPass {
    var passNames: seq<string>
    var filterRange: RenderQueueRange
    var depthNormalsHandle: RenderTargetHandle
    var depthAttachmentHandle: RenderTargetHandle
    var descriptor: Descriptor
    var isDepthPrepassEnabled: bool

    /** Registers the "DepthNormals" shader pass and filters to the opaque range. */
    constructor ()
      ensures passNames == ["DepthNormals"] && filterRange == Opaque
      ensures depthNormalsHandle == Unassigned && depthAttachmentHandle == Unassigned
      ensures descriptor == DefaultDescriptor && !isDepthPrepassEnabled
    {
      passNames := ["DepthNormals"];
      filterRange := Opaque;
      depthNormalsHandle := Unassigned;
      depthAttachmentHandle := Unassigned;
      descriptor := DefaultDescriptor;
      isDepthPrepassEnabled := false;
    }

    /** `Setup`: remembers both targets, the prepass flag and the normals descriptor. */
    method Setup(baseDescriptor: Descriptor, normalsHandle: RenderTargetHandle, depthHandle: RenderTargetHandle,
                 depthPrepass: bool)
      modifies this
      ensures depthNormalsHandle == normalsHandle && depthAttachmentHandle == depthHandle
      ensures descriptor == DepthNormalsDescriptor(baseDescriptor, depthPrepass)
      ensures isDepthPrepassEnabled == depthPrepass
      ensures passNames == old(passNames) && filterRange == old(filterRange)
    {
      depthNormalsHandle := normalsHandle;
      depthAttachmentHandle := depthHandle;
      descriptor := baseDescriptor.(depthBufferBits := if depthPrepass then 0 else DepthBufferBits);
      descriptor := descriptor.(colorFormat := ARGB32);
      isDepthPrepassEnabled := depthPrepass;
    }

    /** `Execute`: a null renderer throws; otherwise the commands of
        `DepthNormalsCommands` for the stored state. */
    method Execute(rendererPresent: bool, renderingData: RenderingData) returns (r: Outcome)
      ensures !rendererPresent ==> r == ArgumentNull("renderer")
      ensures rendererPresent ==>
                r == Recorded(DepthNormalsCommands(depthNormalsHandle, depthAttachmentHandle, descriptor,
                                                   isDepthPrepassEnabled, passNames, filterRange,
                                                   renderingData.cameraData.isStereoEnabled))
    {
      if !rendererPresent {
        return ArgumentNull("renderer");
      }
      var cmds := [GetTemporaryRT(depthNormalsHandle, descriptor)];
      if isDepthPrepassEnabled {
        var binding := ColorAndDepth(HandleTarget(depthNormalsHandle), DontCare, Store,
                                     HandleTarget(depthAttachmentHandle), Load, DontCareStore);
        cmds := cmds + [SetRenderTarget(binding, ClearColor), SetKeyword(AlphaTestKeyword, false)];
      } else {
        var binding := ColorOnly(HandleTarget(depthNormalsHandle), DontCare, Store);
        cmds := cmds + [SetRenderTarget(binding, ClearAll), SetKeyword(AlphaTestKeyword, true)];
      }
      cmds := cmds + [DrawRenderers(passNames, filterRange, renderingData.cameraData.isStereoEnabled)];
      return Recorded(cmds);
    }

    /** `FrameCleanup`: a null command buffer throws and changes nothing; otherwise the
        normals texture is released unless it is the camera target, and the handle becomes
        the camera target, so a second cleanup releases nothing. */
    method FrameCleanup(cmdPresent: bool) returns (r: Outcome)
      modifies this
      ensures !cmdPresent ==> r == ArgumentNull("cmd") && depthNormalsHandle == old(depthNormalsHandle)
      ensures cmdPresent ==> r == Recorded(ReleaseAll([old(depthNormalsHandle)])) && depthNormalsHandle == CameraTarget
      ensures depthAttachmentHandle == old(depthAttachmentHandle) && descriptor == old(descriptor)
      ensures isDepthPrepassEnabled == old(isDepthPrepassEnabled)
      ensures passNames == old(passNames) && filterRange == old(filterRange)
    {
      if !cmdPresent {
        return ArgumentNull("cmd");
      }
      var cmds := [];
      if depthNormalsHandle != CameraTarget {
        cmds := cmds + [ReleaseTemporaryRT(depthNormalsHandle)];
        depthNormalsHandle := CameraTarget;
      }
      assert [old(depthNormalsHandle)][..0] == [];
      return Recorded(cmds);
    }
  }

}
