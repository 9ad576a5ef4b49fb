/** DepthNormalPass: the older single-target variant of the depth-normals pass. It keeps
    the camera's colour format, gives the target a 32-bit depth buffer, clears colour and
    depth and draws the opaque range with the "DepthNormal" shader pass. */
module DepthNormal {
  import opened Wrappers
  import opened RenderQueueUtils
  import opened RenderTypes
  import opened PipelineCore

  const DepthBufferBits := 32

  /** The descriptor `Setup` stores: the camera descriptor with a 32-bit depth buffer and
      its colour format left as it was. */
  function DepthNormalDescriptor(baseDescriptor: Descriptor): (r: Descriptor)
    ensures r.depthBufferBits == DepthBufferBits && r.colorFormat == baseDescriptor.colorFormat
    ensures r.width == baseDescriptor.width && r.height == baseDescriptor.height
    ensures r.msaaSamples == baseDescriptor.msaaSamples && r.bindMS == baseDescriptor.bindMS
  {
    baseDescriptor.(depthBufferBits := DepthBufferBits)
  }

  /** What `Execute` records: allocate the target, bind it alone with colour and depth
      cleared, draw the opaque range. */
  function DepthNormalCommands(destination: RenderTargetHandle, descriptor: Descriptor, passNames: seq<string>,
                               range: RenderQueueRange, stereo: bool): (r: seq<Cmd>)
    ensures |r| == 3
  {
    [GetTemporaryRT(destination, descriptor),
     SetRenderTarget(ColorOnly(HandleTarget(destination), DontCare, Store), ClearAll),
     DrawRenderers(passNames, range, stereo)]
  }

  /** The draw goes to a freshly allocated and fully cleared target, and the one
      temporary allocated is the one `FrameCleanup` releases. */
  lemma DepthNormalDrawsIntoClearedTarget(destination: RenderTargetHandle, descriptor: Descriptor,
                                          passNames: seq<string>, range: RenderQueueRange, stereo: bool)
    ensures var t := DepthNormalCommands(destination, descriptor, passNames, range, stereo);
      && Allocations(t) == [(destination, descriptor)]
      && t[1].SetRenderTarget? && t[1].binding.colors[0].target == HandleTarget(destination)
      && t[1].clear == ClearAll
      && t[2].DrawRenderers?
      && CleanupReleasesAllocations(t, ReleaseAll([destination]))
  {
    var t := DepthNormalCommands(destination, descriptor, passNames, range, stereo);
    AllocationsOne(t[0]);
    NoAllocations(t[1..]);
    AllocationsAppend([t[0]], t[1..]);
    assert [t[0]] + t[1..] == t;
    assert [destination][..0] == [];
  }

  class DepthNormalPass {
    var passNames: seq<string>
    var filterRange: RenderQueueRange
    var destination: RenderTargetHandle
    var descriptor: Descriptor

    /** Registers the "DepthNormal" shader pass and filters to the opaque range. */
    constructor ()
      ensures passNames == ["DepthNormal"] && filterRange == Opaque
      ensures destination == Unassigned && descriptor == DefaultDescriptor
    {
      passNames := ["DepthNormal"];
      filterRange := Opaque;
      destination := Unassigned;
      descriptor := DefaultDescriptor;
    }

    /** `Setup`: remembers the target and its 32-bit-depth descriptor. */
    method Setup(baseDescriptor: Descriptor, target: RenderTargetHandle)
      modifies this
      ensures destination == target && descriptor == DepthNormalDescriptor(baseDescriptor)
      ensures passNames == old(passNames) && filterRange == old(filterRange)
    {
      destination := target;
      descriptor := baseDescriptor.(depthBufferBits := DepthBufferBits);
    }

    /** `Execute`: a null renderer throws; otherwise the commands of
        `DepthNormalCommands` for the stored target. */
    method Execute(rendererPresent: bool, renderingData: RenderingData) returns (r: Outcome)
      ensures !rendererPresent ==> r == ArgumentNull("renderer")
      ensures rendererPresent ==>
                r == Recorded(DepthNormalCommands(destination, descriptor, passNames, filterRange,
                                                  renderingData.cameraData.isStereoEnabled))
    {
      if !rendererPresent {
        return ArgumentNull("renderer");
      }
      var cmds := [GetTemporaryRT(destination, descriptor)];
      cmds := cmds + [SetRenderTarget(ColorOnly(HandleTarget(destination), DontCare, Store), ClearAll)];
      cmds := cmds + [DrawRenderers(passNames, filterRange, renderingData.cameraData.isStereoEnabled)];
      return Recorded(cmds);
    }

    /** `FrameCleanup`: a null command buffer throws and changes nothing; otherwise the
        target is released unless it is the camera target, and becomes the camera target. */
    method FrameCleanup(cmdPresent: bool) returns (r: Outcome)
      modifies this
      ensures !cmdPresent ==> r == ArgumentNull("cmd") && destination == old(destination)
      ensures cmdPresent ==> r == Recorded(ReleaseAll([old(destination)])) && destination == CameraTarget
      ensures descriptor == old(descriptor) && passNames == old(passNames) && filterRange == old(filterRange)
    {
      if !cmdPresent {
        return ArgumentNull("cmd");
      }
      var cmds := [];
      if destination != CameraTarget {
        cmds := cmds + [ReleaseTemporaryRT(destination)];
        destination := CameraTarget;
      }
      assert [old(destination)][..0] == [];
      return Recorded(cmds);
    }
  }

}
