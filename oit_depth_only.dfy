/** OITDepthOnlyPass: draws the depth of the order-independent-transparency queue range
    into a depth target the opaque depth prepass already filled, with alpha testing on,
    and selects the depth-resolve shader variant that matches the target's MSAA sample
    count. */
module OitDepthOnly {
  import opened Wrappers
  import opened RenderQueueUtils
  import opened RenderTypes
  import opened PipelineCore

  const DepthBufferBits := 32

  const AlphaTestKeyword := "_ALPHATEST_ON"

  /** The descriptor `Setup` stores: the camera descriptor turned into a 32-bit depth
      texture, with the MSAA edit. */
  function OitDepthDescriptor(baseDescriptor: Descriptor, samples: int): (r: Descriptor)
    ensures r.colorFormat == Depth && r.depthBufferBits == DepthBufferBits
    ensures r.width == baseDescriptor.width && r.height == baseDescriptor.height
    ensures samples > 1 ==> r.msaaSamples == samples && !r.bindMS
    ensures samples <= 1 ==> r.msaaSamples == baseDescriptor.msaaSamples && r.bindMS == baseDescriptor.bindMS
  {
    WithMsaa(baseDescriptor.(colorFormat := Depth, depthBufferBits := DepthBufferBits), samples)
  }

  /** The keyword commands that pick the depth variant for `msaaSamples` samples. */
  function DepthMsaaKeywords(msaaSamples: int): (r: seq<Cmd>)
    ensures |r| == 3 && forall c :: c in r ==> c.SetKeyword?
  {
    if msaaSamples > 1 then
      if msaaSamples == 4 then
        [SetKeyword(DepthNoMsaa, false), SetKeyword(DepthMsaa2, false), SetKeyword(DepthMsaa4, true)]
      else
        [SetKeyword(DepthNoMsaa, false), SetKeyword(DepthMsaa2, true), SetKeyword(DepthMsaa4, false)]
    else
      [SetKeyword(DepthNoMsaa, true), SetKeyword(DepthMsaa2, false), SetKeyword(DepthMsaa4, false)]
  }

  /** After the keyword commands exactly one depth variant is on: no-MSAA for at most one
      sample, the 4-sample variant for exactly 4, the 2-sample variant for any other
      multisampled count. */
  lemma DepthMsaaKeywordsSelectOne(msaaSamples: int)
    ensures KeywordState(DepthMsaaKeywords(msaaSamples), DepthNoMsaa) == Some(msaaSamples <= 1)
    ensures KeywordState(DepthMsaaKeywords(msaaSamples), DepthMsaa2) == Some(msaaSamples > 1 && msaaSamples != 4)
    ensures KeywordState(DepthMsaaKeywords(msaaSamples), DepthMsaa4) == Some(msaaSamples == 4)
  {
    DepthMsaaKeywordsDistinct();
    var t := DepthMsaaKeywords(msaaSamples);
    assert t[..2][..1] == t[..1] && t[..1][..0] == [];
  }

  /** The commands `Execute` records before its draw: bind the depth target (loaded,
      stored, not cleared), pick the MSAA variant and turn alpha testing on. */
  function OitDepthPrelude(depth: RenderTargetHandle, msaaSamples: int): (r: seq<Cmd>)
    ensures |r| == 5 && r[0] == SetRenderTarget(ColorOnly(HandleTarget(depth), Load, Store), ClearNone)
  {
    [SetRenderTarget(ColorOnly(HandleTarget(depth), Load, Store), ClearNone)]
      + DepthMsaaKeywords(msaaSamples) + [SetKeyword(AlphaTestKeyword, true)]
  }

  /** What `Execute` records: the prelude, the draw of the OIT range with the
      "DepthOnly" pass, and alpha testing turned off again. */
  function OitDepthCommands(depth: RenderTargetHandle, msaaSamples: int, passNames: seq<string>,
                            range: RenderQueueRange, stereo: bool): (r: seq<Cmd>)
    ensures |r| == 7 && r[5] == DrawRenderers(passNames, range, stereo)
    ensures r[..5] == OitDepthPrelude(depth, msaaSamples)
  {
    OitDepthPrelude(depth, msaaSamples) + [DrawRenderers(passNames, range, stereo), SetKeyword(AlphaTestKeyword, false)]
  }

  /** The OIT depth draw sees alpha testing on and the depth variant of the target's
      sample count. */
  lemma OitDepthDrawState(depth: RenderTargetHandle, msaaSamples: int)
    ensures var t := OitDepthPrelude(depth, msaaSamples);
      && KeywordState(t, AlphaTestKeyword) == Some(true)
      && KeywordState(t, DepthNoMsaa) == Some(msaaSamples <= 1)
      && KeywordState(t, DepthMsaa2) == Some(msaaSamples > 1 && msaaSamples != 4)
      && KeywordState(t, DepthMsaa4) == Some(msaaSamples == 4)
  {
    var head := [SetRenderTarget(ColorOnly(HandleTarget(depth), Load, Store), ClearNone)];
    var keys := DepthMsaaKeywords(msaaSamples);
    var on := [SetKeyword(AlphaTestKeyword, true)];
    DepthMsaaKeywordsSelectOne(msaaSamples);
    assert AlphaTestKeyword[1] != DepthNoMsaa[1] && AlphaTestKeyword[1] != DepthMsaa2[1];
    assert AlphaTestKeyword[1] != DepthMsaa4[1];
    KeywordStateAppend(head + keys, on, AlphaTestKeyword);
    KeywordStateAppend(head + keys, on, DepthNoMsaa);
    KeywordStateAppend(head, keys, DepthNoMsaa);
    KeywordStateAppend(head + keys, on, DepthMsaa2);
    KeywordStateAppend(head, keys, DepthMsaa2);
    KeywordStateAppend(head + keys, on, DepthMsaa4);
    KeywordStateAppend(head, keys, DepthMsaa4);
  }

  /** After the pass alpha testing is off again, and the pass allocates no temporary. */
  lemma OitDepthRestoresState(depth: RenderTargetHandle, msaaSamples: int, passNames: seq<string>,
                              range: RenderQueueRange, stereo: bool)
    ensures var t := OitDepthCommands(depth, msaaSamples, passNames, range, stereo);
      KeywordState(t, AlphaTestKeyword) == Some(false) && Allocations(t) == []
  {
    var t := OitDepthCommands(depth, msaaSamples, passNames, range, stereo);
    forall c | c in t ensures !c.GetTemporaryRT? {
      var i :| 0 <= i < |t| && t[i] == c;
      if i < 5 {
        assert c in DepthMsaaKeywords(msaaSamples) || c == t[0] || c == t[4];
      }
    }
    NoAllocations(t);
  }

  class OITDepthOnlyPass {
    var passNames: seq<string>
    var filterRange: RenderQueueRange
    var depthAttachmentHandle: RenderTargetHandle
    var descriptor: Descriptor

    /** Registers the "DepthOnly" shader pass and filters to the OIT queue range. */
    constructor ()
      ensures passNames == ["DepthOnly"] && filterRange == Oit
      ensures depthAttachmentHandle == Unassigned && descriptor == DefaultDescriptor
    {
      passNames := ["DepthOnly"];
      filterRange := Oit;
      depthAttachmentHandle := Unassigned;
      descriptor := DefaultDescriptor;
    }

    /** `Setup`: remembers the depth target and the 32-bit depth descriptor. */
    method Setup(baseDescriptor: Descriptor, depthHandle: RenderTargetHandle, samples: int)
      modifies this
      ensures depthAttachmentHandle == depthHandle
      ensures descriptor == OitDepthDescriptor(baseDescriptor, samples)
      ensures passNames == old(passNames) && filterRange == old(filterRange)
    {
      depthAttachmentHandle := depthHandle;
      var d := baseDescriptor.(colorFormat := Depth, depthBufferBits := DepthBufferBits);
      if samples > 1 {
        d := d.(bindMS := false, msaaSamples := samples);
      }
      descriptor := d;
    }

    /** `Execute`: a null renderer throws; otherwise the commands of `OitDepthCommands`
        for the stored target and sample count. */
    method Execute(rendererPresent: bool, renderingData: RenderingData) returns (r: Outcome)
      ensures !rendererPresent ==> r == ArgumentNull("renderer")
      ensures rendererPresent ==>
                r == Recorded(OitDepthCommands(depthAttachmentHandle, descriptor.msaaSamples, passNames,
                                               filterRange, renderingData.cameraData.isStereoEnabled))
    {
      if !rendererPresent {
        return ArgumentNull("renderer");
      }
      var cmds := [SetRenderTarget(ColorOnly(HandleTarget(depthAttachmentHandle), Load, Store), ClearNone)];
      if descriptor.msaaSamples > 1 {
        cmds := cmds + [SetKeyword(DepthNoMsaa, false)];
        if descriptor.msaaSamples == 4 {
          cmds := cmds + [SetKeyword(DepthMsaa2, false), SetKeyword(DepthMsaa4, true)];
        } else {
          cmds := cmds + [SetKeyword(DepthMsaa2, true), SetKeyword(DepthMsaa4, false)];
        }
      } else {
        cmds := cmds + [SetKeyword(DepthNoMsaa, true), SetKeyword(DepthMsaa2, false), SetKeyword(DepthMsaa4, false)];
      }
      cmds := cmds + [SetKeyword(AlphaTestKeyword, true)];
      cmds := cmds + [DrawRenderers(passNames, filterRange, renderingData.cameraData.isStereoEnabled)];
      cmds := cmds + [SetKeyword(AlphaTestKeyword, false)];
      return Recorded(cmds);
    }

    /** `FrameCleanup`: a null command buffer throws; otherwise nothing is released, since
        the depth target belongs to the depth prepass. */
    method FrameCleanup(cmdPresent: bool) returns (r: Outcome)
      ensures r == if cmdPresent then Recorded([]) else ArgumentNull("cmd")
    {
      if !cmdPresent {
        return ArgumentNull("cmd");
      }
      return Recorded([]);
    }
  }

}
