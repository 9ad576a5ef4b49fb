/** RenderWeightedOITForwardPass: weighted blended order-independent transparency. The
    OIT queue range is drawn into three accumulation targets (colour, GI and alpha) with
    colour cleared, then the camera colour target is bound again and the accumulation is
    composited onto it with one blit. */
module WeightedOit {
  import opened Wrappers
  import opened RenderQueueUtils
  import opened RenderTypes
  import opened PipelineCore

  const AccumColorName := "_AccumColor"
  const AccumGIName := "_AccumGI"
  const AccumAlphaName := "_AccumAlpha"

  /** The descriptor of the colour and GI accumulation targets: the camera descriptor
      with the MSAA edit, half-float RGBA and no depth buffer. */
  function AccumColorDescriptor(baseDescriptor: Descriptor, samples: int): (r: Descriptor)
    ensures r.colorFormat == ARGBHalf && r.depthBufferBits == 0
    ensures r.width == baseDescriptor.width && r.height == baseDescriptor.height
    ensures samples > 1 ==> r.msaaSamples == samples && !r.bindMS
  {
    WithMsaa(baseDescriptor, samples).(colorFormat := ARGBHalf, depthBufferBits := 0)
  }

  /** The descriptor of the alpha accumulation target: as the colour one, but
      single-channel half float when the device supports it. */
  function AccumAlphaDescriptor(baseDescriptor: Descriptor, samples: int, caps: DeviceCaps): (r: Descriptor)
    ensures r == AccumColorDescriptor(baseDescriptor, samples).(colorFormat := r.colorFormat)
    ensures r.colorFormat == RHalf <==> Supports(caps, RHalf)
    ensures r.colorFormat != RHalf ==> r.colorFormat == ARGBHalf
  {
    AccumColorDescriptor(baseDescriptor, samples).(colorFormat := if Supports(caps, RHalf) then RHalf else ARGBHalf)
  }

  /** The binding of the accumulation pass: the three accumulation targets, contents
      discarded and stored, over the camera depth, loaded and discarded afterwards. */
  function AccumBinding(accumColor: RenderTargetHandle, accumGI: RenderTargetHandle, accumAlpha: RenderTargetHandle,
                        depth: RenderTargetHandle): (r: Binding)
    ensures |r.colors| == 3 && r.depth == Some(Attachment(HandleTarget(depth), Load, DontCareStore))
  {
    Binding([Attachment(HandleTarget(accumColor), DontCare, Store),
             Attachment(HandleTarget(accumGI), DontCare, Store),
             Attachment(HandleTarget(accumAlpha), DontCare, Store)],
            Some(Attachment(HandleTarget(depth), Load, DontCareStore)))
  }

  /** The allocation of the three accumulation targets. */
  function AccumAllocations(accumColor: RenderTargetHandle, accumGI: RenderTargetHandle,
                            accumAlpha: RenderTargetHandle, descriptorAC: Descriptor, descriptorAA: Descriptor): (r: seq<Cmd>)
    ensures |r| == 3
  {
    [GetTemporaryRT(accumColor, descriptorAC), GetTemporaryRT(accumGI, descriptorAC), GetTemporaryRT(accumAlpha, descriptorAA)]
  }

  /** What `Execute` records after the allocations: bind and clear the accumulation
      targets, draw, bind the camera targets again and composite. */
  function AccumulateAndComposite(color: RenderTargetHandle, depth: RenderTargetHandle, binding: Binding,
                                  passNames: seq<string>, range: RenderQueueRange): (r: seq<Cmd>)
    ensures |r| == 6
  {
    [SetRenderTarget(binding, ClearNone),
     ClearRenderTarget(false, true),
     DrawRenderers(passNames, range, false),
     DrawErrorObjects,
     SetRenderTarget(ColorAndDepth(HandleTarget(color), Load, Store, HandleTarget(depth), Load, Store), ClearNone),
     Blit(HandleTarget(color), HandleTarget(color), OITComposite)]
  }

  /** What `Execute` records. */
  function WeightedOitCommands(accumColor: RenderTargetHandle, accumGI: RenderTargetHandle,
                               accumAlpha: RenderTargetHandle, color: RenderTargetHandle, depth: RenderTargetHandle,
                               descriptorAC: Descriptor, descriptorAA: Descriptor, binding: Binding,
                               passNames: seq<string>, range: RenderQueueRange): (r: seq<Cmd>)
    ensures |r| == 9
  {
    AccumAllocations(accumColor, accumGI, accumAlpha, descriptorAC, descriptorAA)
      + AccumulateAndComposite(color, depth, binding, passNames, range)
  }

  /** The temporaries `Execute` allocates are exactly the three accumulation targets,
      in the order the accumulation binding lists them. */
  lemma WeightedOitAllocations(accumColor: RenderTargetHandle, accumGI: RenderTargetHandle,
                               accumAlpha: RenderTargetHandle, color: RenderTargetHandle, depth: RenderTargetHandle,
                               descriptorAC: Descriptor, descriptorAA: Descriptor,
                               passNames: seq<string>, range: RenderQueueRange)
    ensures var binding := AccumBinding(accumColor, accumGI, accumAlpha, depth);
      var t := WeightedOitCommands(accumColor, accumGI, accumAlpha, color, depth, descriptorAC, descriptorAA,
                                   binding, passNames, range);
      && Allocations(t) == [(accumColor, descriptorAC), (accumGI, descriptorAC), (accumAlpha, descriptorAA)]
      && binding.colors[0].target == HandleTarget(accumColor)
      && binding.colors[1].target == HandleTarget(accumGI)
      && binding.colors[2].target == HandleTarget(accumAlpha)
  {
    var binding := AccumBinding(accumColor, accumGI, accumAlpha, depth);
    var head := AccumAllocations(accumColor, accumGI, accumAlpha, descriptorAC, descriptorAA);
    var tail := AccumulateAndComposite(color, depth, binding, passNames, range);
    assert Allocations(head) == [(accumColor, descriptorAC), (accumGI, descriptorAC), (accumAlpha, descriptorAA)] by {
      var front := [head[0], head[1]];
      assert Allocations(front) == [(accumColor, descriptorAC), (accumGI, descriptorAC)] by {
        AllocationsOne(head[0]);
        AllocationsOne(head[1]);
        assert front == [head[0]] + [head[1]];
        AllocationsAppend([head[0]], [head[1]]);
      }
      AllocationsOne(head[2]);
      assert head == front + [head[2]];
      AllocationsAppend(front, [head[2]]);
    }
    assert Allocations(tail) == [] by {
      NoAllocations(tail);
    }
    AllocationsAppend(head, tail);
  }

  /** `FrameCleanup` releases every accumulation target `Execute` allocated. */
  lemma WeightedOitCleanupBalances(accumColor: RenderTargetHandle, accumGI: RenderTargetHandle,
                                   accumAlpha: RenderTargetHandle, color: RenderTargetHandle, depth: RenderTargetHandle,
                                   descriptorAC: Descriptor, descriptorAA: Descriptor, binding: Binding,
                                   passNames: seq<string>, range: RenderQueueRange)
    ensures CleanupReleasesAllocations(
              WeightedOitCommands(accumColor, accumGI, accumAlpha, color, depth, descriptorAC, descriptorAA,
                                  binding, passNames, range),
              ReleaseAll([accumColor, accumGI, accumAlpha]))
  {
    WeightedOitAllocations(accumColor, accumGI, accumAlpha, color, depth, descriptorAC, descriptorAA, passNames, range);
    var binding' := AccumBinding(accumColor, accumGI, accumAlpha, depth);
    assert Allocations(WeightedOitCommands(accumColor, accumGI, accumAlpha, color, depth, descriptorAC, descriptorAA,
                                           binding, passNames, range))
        == Allocations(WeightedOitCommands(accumColor, accumGI, accumAlpha, color, depth, descriptorAC, descriptorAA,
                                           binding', passNames, range)) by {
      AllocationsAppend(AccumAllocations(accumColor, accumGI, accumAlpha, descriptorAC, descriptorAA),
                        AccumulateAndComposite(color, depth, binding, passNames, range));
      AllocationsAppend(AccumAllocations(accumColor, accumGI, accumAlpha, descriptorAC, descriptorAA),
                        AccumulateAndComposite(color, depth, binding', passNames, range));
      NoAllocations(AccumulateAndComposite(color, depth, binding, passNames, range));
      NoAllocations(AccumulateAndComposite(color, depth, binding', passNames, range));
    }
    ReleaseAllReleases([accumColor, accumGI, accumAlpha]);
  }

  /** The accumulation targets are allocated before any draw or blit and are cleared
      (colour only, keeping the depth the transparent draws test against) before the
      draws; the composite blit onto the camera colour comes after every draw, with the
      camera targets bound again and loaded. */
  lemma WeightedOitOrder(accumColor: RenderTargetHandle, accumGI: RenderTargetHandle,
                         accumAlpha: RenderTargetHandle, color: RenderTargetHandle, depth: RenderTargetHandle,
                         descriptorAC: Descriptor, descriptorAA: Descriptor, binding: Binding,
                         passNames: seq<string>, range: RenderQueueRange)
    ensures var t := WeightedOitCommands(accumColor, accumGI, accumAlpha, color, depth, descriptorAC, descriptorAA,
                                         binding, passNames, range);
      && t[3] == SetRenderTarget(binding, ClearNone) && t[4] == ClearRenderTarget(false, true)
      && AllBefore(t, (c: Cmd) => c.GetTemporaryRT?, (c: Cmd) => IsDraw(c))
      && AllBefore(t, (c: Cmd) => c.DrawRenderers? || c.DrawErrorObjects?, (c: Cmd) => c.Blit?)
      && t[|t| - 1] == Blit(HandleTarget(color), HandleTarget(color), OITComposite)
      && t[7] == SetRenderTarget(ColorAndDepth(HandleTarget(color), Load, Store, HandleTarget(depth), Load, Store), ClearNone)
  {
    var t := WeightedOitCommands(accumColor, accumGI, accumAlpha, color, depth, descriptorAC, descriptorAA,
                                 binding, passNames, range);
    forall i, j | 0 <= i < |t| && 0 <= j < |t| && t[i].GetTemporaryRT? && IsDraw(t[j])
      ensures i < j
    {
      assert i < 3 && j >= 5;
    }
    forall i, j | 0 <= i < |t| && 0 <= j < |t| && (t[i].DrawRenderers? || t[i].DrawErrorObjects?) && t[j].Blit?
      ensures i < j
    {
      assert i < 7 && j == 8;
    }
  }

  class RenderWeightedOITForwardPass {
    var passNames: seq<string>
    var filterRange: RenderQueueRange
    var colorAttachmentHandle: RenderTargetHandle
    var depthAttachmentHandle: RenderTargetHandle
    var accumColorHandle: RenderTargetHandle
    var accumGIHandle: RenderTargetHandle
    var accumAlphaHandle: RenderTargetHandle
    var accumBinding: Binding
    var descriptor: Descriptor
    var descriptorAC: Descriptor
    var descriptorAA: Descriptor

    /** Registers the forward and unlit shader passes and filters to the OIT range. */
    constructor ()
      ensures passNames == ["LightweightForward", "SRPDefaultUnlit"] && filterRange == Oit
      ensures colorAttachmentHandle == Unassigned && depthAttachmentHandle == Unassigned
      ensures accumColorHandle == Unassigned && accumGIHandle == Unassigned && accumAlphaHandle == Unassigned
    {
      passNames := ["LightweightForward", "SRPDefaultUnlit"];
      filterRange := Oit;
      colorAttachmentHandle, depthAttachmentHandle := Unassigned, Unassigned;
      accumColorHandle, accumGIHandle, accumAlphaHandle := Unassigned, Unassigned, Unassigned;
      accumBinding := Binding([], None);
      descriptor, descriptorAC, descriptorAA := DefaultDescriptor, DefaultDescriptor, DefaultDescriptor;
    }

    /** `Setup`: remembers the camera targets and the camera descriptor (taken before
        the MSAA edit), derives the two accumulation descriptors, names the three
        accumulation targets and builds their binding. */
    method Setup(baseDescriptor: Descriptor, colorHandle: RenderTargetHandle, depthHandle: RenderTargetHandle,
                 samples: int, caps: DeviceCaps)
      modifies this
      ensures colorAttachmentHandle == colorHandle && depthAttachmentHandle == depthHandle
      ensures descriptor == baseDescriptor
      ensures descriptorAC == AccumColorDescriptor(baseDescriptor, samples)
      ensures descriptorAA == AccumAlphaDescriptor(baseDescriptor, samples, caps)
      ensures accumColorHandle == Named(AccumColorName) && accumGIHandle == Named(AccumGIName)
      ensures accumAlphaHandle == Named(AccumAlphaName)
      ensures accumBinding == AccumBinding(accumColorHandle, accumGIHandle, accumAlphaHandle, depthHandle)
      ensures passNames == old(passNames) && filterRange == old(filterRange)
    {
      var d := baseDescriptor;
      if samples > 1 {
        d := d.(bindMS := false, msaaSamples := samples);
      }
      d := d.(colorFormat := ARGBHalf, depthBufferBits := 0);
      var ac := d;
      d := d.(colorFormat := if Supports(caps, RHalf) then RHalf else ARGBHalf);
      assert ac == AccumColorDescriptor(baseDescriptor, samples);
      assert d == AccumAlphaDescriptor(baseDescriptor, samples, caps);
      colorAttachmentHandle := colorHandle;
      depthAttachmentHandle := depthHandle;
      descriptor := baseDescriptor;
      descriptorAC := ac;
      descriptorAA := d;
      accumColorHandle := Named(AccumColorName);
      accumGIHandle := Named(AccumGIName);
      accumAlphaHandle := Named(AccumAlphaName);
      accumBinding := Binding([Attachment(HandleTarget(accumColorHandle), DontCare, Store),
                               Attachment(HandleTarget(accumGIHandle), DontCare, Store),
                               Attachment(HandleTarget(accumAlphaHandle), DontCare, Store)],
                              Some(Attachment(HandleTarget(depthAttachmentHandle), Load, DontCareStore)));
    }

    /** `Execute`: a null renderer throws; otherwise the commands of
        `WeightedOitCommands` for the stored state. */
    method Execute(rendererPresent: bool, renderingData: RenderingData) returns (r: Outcome)
      ensures !rendererPresent ==> r == ArgumentNull("renderer")
      ensures rendererPresent ==>
                r == Recorded(WeightedOitCommands(accumColorHandle, accumGIHandle, accumAlphaHandle,
                                                  colorAttachmentHandle, depthAttachmentHandle,
                                                  descriptorAC, descriptorAA, accumBinding, passNames, filterRange))
    {
      if !rendererPresent {
        return ArgumentNull("renderer");
      }
      var cmds := [GetTemporaryRT(accumColorHandle, descriptorAC)];
      cmds := cmds + [GetTemporaryRT(accumGIHandle, descriptorAC)];
      cmds := cmds + [GetTemporaryRT(accumAlphaHandle, descriptorAA)];
      cmds := cmds + [SetRenderTarget(accumBinding, ClearNone), ClearRenderTarget(false, true)];
      cmds := cmds + [DrawRenderers(passNames, filterRange, false), DrawErrorObjects];
      var back := ColorAndDepth(HandleTarget(colorAttachmentHandle), Load, Store,
                                HandleTarget(depthAttachmentHandle), Load, Store);
      cmds := cmds + [SetRenderTarget(back, ClearNone)];
      cmds := cmds + [Blit(HandleTarget(colorAttachmentHandle), HandleTarget(colorAttachmentHandle), OITComposite)];
      return Recorded(cmds);
    }

    /** `FrameCleanup`: a null command buffer throws and changes nothing; otherwise each
        accumulation target that is not the camera target is released, in field order,
        and all three become the camera target. */
    method FrameCleanup(cmdPresent: bool) returns (r: Outcome)
      modifies this
      ensures !cmdPresent ==> r == ArgumentNull("cmd")
      ensures !cmdPresent ==> accumColorHandle == old(accumColorHandle) && accumGIHandle == old(accumGIHandle)
      ensures !cmdPresent ==> accumAlphaHandle == old(accumAlphaHandle)
      ensures cmdPresent ==>
                r == Recorded(ReleaseAll([old(accumColorHandle), old(accumGIHandle), old(accumAlphaHandle)]))
      ensures cmdPresent ==>
                accumColorHandle == CameraTarget && accumGIHandle == CameraTarget && accumAlphaHandle == CameraTarget
      ensures colorAttachmentHandle == old(colorAttachmentHandle) && depthAttachmentHandle == old(depthAttachmentHandle)
      ensures accumBinding == old(accumBinding) && passNames == old(passNames) && filterRange == old(filterRange)
      ensures descriptor == old(descriptor) && descriptorAC == old(descriptorAC) && descriptorAA == old(descriptorAA)
    {
      if !cmdPresent {
        return ArgumentNull("cmd");
      }
      ghost var hs := [accumColorHandle, accumGIHandle, accumAlphaHandle];
      var cmds := [];
      if accumColorHandle != CameraTarget {
        cmds := cmds + [ReleaseTemporaryRT(accumColorHandle)];
        accumColorHandle := CameraTarget;
      }
      assert cmds == ReleaseAll(hs[..1]) by { assert hs[..1][..0] == []; }
      if accumGIHandle != CameraTarget {
        cmds := cmds + [ReleaseTemporaryRT(accumGIHandle)];
        accumGIHandle := CameraTarget;
      }
      assert cmds == ReleaseAll(hs[..2]) by { assert hs[..2][..1] == hs[..1]; }
      if accumAlphaHandle != CameraTarget {
        cmds := cmds + [ReleaseTemporaryRT(accumAlphaHandle)];
        accumAlphaHandle := CameraTarget;
      }
      assert hs[..3] == hs && hs[..3][..2] == hs[..2];
      return Recorded(cmds);
    }
  }

}
