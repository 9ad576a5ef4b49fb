/** The frame pass scheduler of the lightweight pipeline: for one camera's frame, which
    passes are enqueued on the renderer, with which render targets, and in which order. */
module RendererSetup {
  import opened Wrappers
  import opened RenderTypes
  import opened PipelineCore
  import SceneBounds
  import RenderQueueUtils
  import MomentOit

  /** The points at which components on the camera inject passes of their own. */
  datatype HookPoint =
    | BeforeRender | AfterDepthPrePass | AfterOpaque | AfterOpaquePostProcess
    | AfterSkybox | AfterTransparent | AfterRender

  /** An enqueued pass: its class and the arguments of its `Setup` call. A hook pass is
      the pass that the `index`-th component of its injection point hands back, given
      `targets` (and, before rendering, the clear flag). */
  datatype Pass =
    | CreateLightweightRenderTexturesPass(color: RenderTargetHandle, depth: RenderTargetHandle, samples: int)
    | HookPass(point: HookPoint, index: nat, targets: seq<RenderTargetHandle>, hookClear: Option<ClearFlag>)
    | MainLightShadowCasterPass(target: RenderTargetHandle)
    | MainCharacterShadowCasterPass(target: RenderTargetHandle)
    | DeepShadowCasterPass
    | AdditionalLightsShadowCasterPass(target: RenderTargetHandle)
    | SetupForwardRenderingPass
    | DepthOnlyPass(target: RenderTargetHandle, samples: int)
    | CopyDepthForOitPass(source: RenderTargetHandle, target: RenderTargetHandle)
    | OitDepthOnlyPass(target: RenderTargetHandle, samples: int)
    | DepthNormalsPass(target: RenderTargetHandle, depth: RenderTargetHandle, prepass: bool, samples: int)
    | ScreenSpaceDeepShadowMapsPass(target: RenderTargetHandle)
    | ScreenSpaceShadowResolvePass(target: RenderTargetHandle)
    | BeginXRRenderingPass
    | SetupLightweightConstantsPass
    | RenderOpaqueForwardPass(color: RenderTargetHandle, depth: RenderTargetHandle, clear: ClearFlag, prepass: bool)
    | OpaquePostProcessPass(color: RenderTargetHandle)
    | DrawSkyboxPass(color: RenderTargetHandle, depth: RenderTargetHandle)
    | CopyDepthPass(source: RenderTargetHandle, target: RenderTargetHandle)
    | CopyColorPass(source: RenderTargetHandle, target: RenderTargetHandle)
    | RenderMomentOitForwardPass(color: RenderTargetHandle, depth: RenderTargetHandle)
    | RenderTransparentForwardPass(color: RenderTargetHandle, depth: RenderTargetHandle)
    | TransparentPostProcessPass(color: RenderTargetHandle)
    | FinalBlitPass(color: RenderTargetHandle)
    | EndXRRenderingPass

  /** The stage of the frame a hook point belongs to. */
  function HookStage(point: HookPoint): nat
  {
    match point
    case BeforeRender => 1
    case AfterDepthPrePass => 8
    case AfterOpaque => 17
    case AfterOpaquePostProcess => 19
    case AfterSkybox => 21
    case AfterTransparent => 26
    case AfterRender => 28
  }

  /** The stage of the frame each pass belongs to; the schedule never enqueues a pass of
      a later stage before one of an earlier stage. The transparent post-process and the
      final blit share a stage: at most one of them is enqueued. */
  function Stage(p: Pass): (r: nat)
    ensures r < StageCount
  {
    match p
    case CreateLightweightRenderTexturesPass(_, _, _) => 0
    case HookPass(point, _, _, _) => HookStage(point)
    case MainLightShadowCasterPass(_) => 2
    case MainCharacterShadowCasterPass(_) => 3
    case DeepShadowCasterPass => 4
    case AdditionalLightsShadowCasterPass(_) => 5
    case SetupForwardRenderingPass => 6
    case DepthOnlyPass(_, _) => 7
    case CopyDepthForOitPass(_, _) => 9
    case OitDepthOnlyPass(_, _) => 10
    case DepthNormalsPass(_, _, _, _) => 11
    case ScreenSpaceDeepShadowMapsPass(_) => 12
    case ScreenSpaceShadowResolvePass(_) => 13
    case BeginXRRenderingPass => 14
    case SetupLightweightConstantsPass => 15
    case RenderOpaqueForwardPass(_, _, _, _) => 16
    case OpaquePostProcessPass(_) => 18
    case DrawSkyboxPass(_, _) => 20
    case CopyDepthPass(_, _) => 22
    case CopyColorPass(_, _) => 23
    case RenderMomentOitForwardPass(_, _) => 24
    case RenderTransparentForwardPass(_, _) => 25
    case TransparentPostProcessPass(_) => 27
    case FinalBlitPass(_) => 27
    case EndXRRenderingPass => 29
  }

  /** What the scheduler learns from outside the core for one frame: whether the camera
      needs an intermediate colour texture (`RequiresIntermediateColorTexture`), the
      camera's clear flag (`GetCameraClearFlag`), how many hook components of each point
      the camera carries, whether a skybox material is set, whether the post-process
      layer has opaque-only effects, what the `Setup` of each conditionally enqueued pass
      returns, and the device capabilities. */
  datatype FrameInputs = FrameInputs(
    requiresIntermediateTexture: bool,
    cameraClear: ClearFlag,
    beforeRenderHooks: nat,
    afterDepthPrePassHooks: nat,
    afterOpaqueHooks: nat,
    afterOpaquePostProcessHooks: nat,
    afterSkyboxHooks: nat,
    afterTransparentHooks: nat,
    afterRenderHooks: nat,
    skyboxMaterial: bool,
    hasOpaqueOnlyEffects: bool,
    mainLightShadowsReady: bool,
    mainCharacterShadowsReady: bool,
    deepShadowsReady: bool,
    additionalLightShadowsReady: bool,
    momentOitReady: bool,
    caps: DeviceCaps)

  /** The render-target handles the scheduler owns. */
  datatype Targets = Targets(
    colorAttachment: RenderTargetHandle,
    depthAttachment: RenderTargetHandle,
    depthTexture: RenderTargetHandle,
    oitDepthTexture: RenderTargetHandle,
    opaqueColor: RenderTargetHandle,
    depthNormalsTexture: RenderTargetHandle,
    mainLightShadowmap: RenderTargetHandle,
    mainCharacterShadowmap: RenderTargetHandle,
    additionalLightsShadowmap: RenderTargetHandle,
    screenSpaceShadowmap: RenderTargetHandle,
    screenSpaceDeepShadowLut: RenderTargetHandle)

  /** The handles before `Init`. */
  const UnassignedTargets := Targets(Unassigned, Unassigned, Unassigned, Unassigned, Unassigned, Unassigned,
                                     Unassigned, Unassigned, Unassigned, Unassigned, Unassigned)

  /** The handles as `Init` names them. */
  const NamedTargets := Targets(
    Named("_CameraColorTexture"), Named("_CameraDepthAttachment"), Named("_CameraDepthTexture"),
    Named("_OITDepthTexture"), Named("_CameraOpaqueTexture"), Named("_CameraDepthNormalsTexture"),
    Named("_MainLightShadowmapTexture"), Named("_MainCharacterShadowmapTexture"),
    Named("_AdditionalLightsShadowmapTexture"), Named("_ScreenSpaceShadowmapTexture"), Named("_DeepShadowLut"))

  // ---------------------------------------------------------------------------------
  // The decisions of `Setup`.

  /** `CanCopyDepth`: the depth buffer can be copied only without MSAA, and then when
      the device has a depth render-texture format or can copy textures (resolving
      multisampled depth is switched off). */
  function CanCopyDepth(cameraData: CameraData, caps: DeviceCaps): (r: bool)
    ensures cameraData.msaaSamples > 1 ==> !r
    ensures cameraData.msaaSamples <= 1 ==> (r <==> caps.copyTextureSupported || Supports(caps, Depth))
  {
    var msaaEnabledForCamera := cameraData.msaaSamples > 1;
    var supportsDepthCopy := !msaaEnabledForCamera && (Supports(caps, Depth) || caps.copyTextureSupported);
    var msaaDepthResolve := false;
    supportsDepthCopy || msaaDepthResolve
  }

  /** The frame renders into intermediate textures when the camera needs them or a
      before-render hook is present. */
  predicate RequiresRenderToTexture(f: FrameInputs)
  {
    f.requiresIntermediateTexture || f.beforeRenderHooks != 0
  }

  predicate MainLightShadows(rd: RenderingData, f: FrameInputs)
  {
    rd.shadowData.supportsMainLightShadows && f.mainLightShadowsReady
  }

  predicate MainCharacterShadows(rd: RenderingData, f: FrameInputs)
  {
    rd.shadowData.supportsMainCharacterShadows && f.mainCharacterShadowsReady
  }

  predicate DeepShadows(rd: RenderingData, f: FrameInputs)
  {
    rd.shadowData.supportsDeepShadowMaps && f.deepShadowsReady
  }

  predicate AdditionalLightShadows(rd: RenderingData, f: FrameInputs)
  {
    rd.shadowData.supportsAdditionalLightShadows && f.additionalLightShadowsReady
  }

  /** The `Setup` results in `f` agree with the models of the core's passes: the
      main-character and deep shadow casters set up exactly when the main light casts
      shadows and has caster bounds (`MainCharacterShadowCasterPass.Setup`,
      `DeepShadowCasterPass.Setup`), and the moment pass exactly when some enabled
      renderer of the scene `objs` lies in the OIT range (`RenderMomentOITForwardPass.Setup`). */
  predicate SetupResultsAgree(rd: RenderingData, f: FrameInputs, objs: seq<Option<SceneBounds.Renderer>>)
  {
    && (f.mainCharacterShadowsReady <==> MainLightCastsShadows(rd))
    && (f.deepShadowsReady <==> MainLightCastsShadows(rd))
    && (f.momentOitReady <==> |SceneBounds.Kept(objs, MomentOit.InRange(RenderQueueUtils.Oit))| > 0)
  }

  predicate ResolveShadowsInScreenSpace(rd: RenderingData, f: FrameInputs)
  {
    MainLightShadows(rd, f) && rd.shadowData.requiresScreenSpaceShadowResolve
  }

  /** A depth prepass is needed for screen-space shadows, the scene view, a depth
      texture that cannot be copied (or an offscreen render), stereo, and OIT. */
  predicate RequiresDepthPrepass(rd: RenderingData, f: FrameInputs)
  {
    var cameraData := rd.cameraData;
    || ResolveShadowsInScreenSpace(rd, f)
    || cameraData.isSceneViewCamera
    || (cameraData.requiresDepthTexture && (!CanCopyDepth(cameraData, f.caps) || cameraData.isOffscreenRender))
    || cameraData.isStereoEnabled
    || cameraData.supportsOIT
  }

  /** The colour target of the frame. */
  function ColorHandle(t: Targets, f: FrameInputs): RenderTargetHandle
  {
    if RequiresRenderToTexture(f) then t.colorAttachment else CameraTarget
  }

  /** The depth target before the depth prepass. */
  function AttachmentDepth(t: Targets, f: FrameInputs): RenderTargetHandle
  {
    if RequiresRenderToTexture(f) then t.depthAttachment else CameraTarget
  }

  /** The depth target from the depth prepass on. */
  function DepthHandle(t: Targets, rd: RenderingData, f: FrameInputs): RenderTargetHandle
  {
    if RequiresDepthPrepass(rd, f) then t.depthTexture else AttachmentDepth(t, f)
  }

  /** The clear flag of the opaque pass: a before-render hook is expected to clear. */
  function OpaqueClear(f: FrameInputs): ClearFlag
  {
    if f.beforeRenderHooks != 0 then ClearNone else f.cameraClear
  }

  predicate DrawsSkybox(rd: RenderingData, f: FrameInputs)
  {
    rd.cameraData.camera.clearFlags == Skybox && f.skyboxMaterial
  }

  // ---------------------------------------------------------------------------------
  // The schedule, stage by stage.

  /** The number of stages of a frame. */
  const StageCount: nat := 30

  /** The passes of `n` hook components of one point, in component order. */
  function HookPasses(point: HookPoint, n: nat, targets: seq<RenderTargetHandle>, clear: Option<ClearFlag>):
    (r: seq<Pass>)
    ensures |r| == n
  {
    if n == 0 then []
    else HookPasses(point, n - 1, targets, clear) + [HookPass(point, n - 1, targets, clear)]
  }

  /** The hook passes of a point are those of the first `n` components, each given the
      point's targets and clear flag. */
  lemma {:induction false} HookPassesMembers(point: HookPoint, n: nat, targets: seq<RenderTargetHandle>,
                                             clear: Option<ClearFlag>)
    ensures forall p :: p in HookPasses(point, n, targets, clear) <==>
              p.HookPass? && p.point == point && p.index < n && p.targets == targets && p.hookClear == clear
  {
    if n > 0 {
      HookPassesMembers(point, n - 1, targets, clear);
    }
  }

  /** A pass enqueued only under a condition. */
  function When(c: bool, p: Pass): (r: seq<Pass>)
    ensures p in r <==> c
    ensures forall q :: q in r ==> q == p
  {
    if c then [p] else []
  }

  /** The pass that ends the frame: the transparent post-process when post-processing
      is on, otherwise a final blit when an onscreen frame rendered into an intermediate
      colour texture. */
  function FinalPasses(color: RenderTargetHandle, cameraData: CameraData): (r: seq<Pass>)
    ensures TransparentPostProcessPass(color) in r <==> cameraData.postProcessEnabled
    ensures FinalBlitPass(color) in r <==>
              !cameraData.postProcessEnabled && !cameraData.isOffscreenRender && color != CameraTarget
    ensures forall p :: p in r ==> p == TransparentPostProcessPass(color) || p == FinalBlitPass(color)
  {
    if cameraData.postProcessEnabled then [TransparentPostProcessPass(color)]
    else if !cameraData.isOffscreenRender && color != CameraTarget then [FinalBlitPass(color)]
    else []
  }

  /** The passes `Setup` enqueues at stage `k` of the frame, in order. */
  function StagePasses(t: Targets, rd: RenderingData, f: FrameInputs, k: nat): (r: seq<Pass>)
  {
    if k < 6 then PreludeStage(t, rd, f, k)
    else if k < 14 then DepthStage(t, rd, f, k)
    else if k < 24 then OpaqueStage(t, rd, f, k)
    else TransparentStage(t, rd, f, k)
  }

  /** Stages 0 to 5: the intermediate textures, the before-render hooks and the shadow
      casters whose feature is on and whose `Setup` succeeded. */
  function PreludeStage(t: Targets, rd: RenderingData, f: FrameInputs, k: nat): (r: seq<Pass>)
    requires k < 6
  {
    if k == 0 then
      When(RequiresRenderToTexture(f),
           CreateLightweightRenderTexturesPass(t.colorAttachment, t.depthAttachment, rd.cameraData.msaaSamples))
    else if k == 1 then
      HookPasses(BeforeRender, f.beforeRenderHooks, [ColorHandle(t, f), AttachmentDepth(t, f)], Some(f.cameraClear))
    else if k == 2 then When(MainLightShadows(rd, f), MainLightShadowCasterPass(t.mainLightShadowmap))
    else if k == 3 then When(MainCharacterShadows(rd, f), MainCharacterShadowCasterPass(t.mainCharacterShadowmap))
    else if k == 4 then When(DeepShadows(rd, f), DeepShadowCasterPass)
    else When(AdditionalLightShadows(rd, f), AdditionalLightsShadowCasterPass(t.additionalLightsShadowmap))
  }

  /** Stages 6 to 13: forward setup, the depth prepass when needed with its hooks and
      the OIT depth passes, depth-normals, the screen-space deep shadows (only after a
      deep caster) and the screen-space shadow resolve. */
  function DepthStage(t: Targets, rd: RenderingData, f: FrameInputs, k: nat): (r: seq<Pass>)
    requires 6 <= k < 14
  {
    var cameraData := rd.cameraData;
    var prepass := RequiresDepthPrepass(rd, f);
    if k == 6 then [SetupForwardRenderingPass]
    else if k == 7 then When(prepass, DepthOnlyPass(t.depthTexture, cameraData.msaaSamples))
    else if k == 8 then
      if prepass then HookPasses(AfterDepthPrePass, f.afterDepthPrePassHooks, [t.depthTexture], None) else []
    else if k == 9 then
      When(prepass && cameraData.supportsOIT, CopyDepthForOitPass(t.depthTexture, t.oitDepthTexture))
    else if k == 10 then
      When(prepass && cameraData.supportsOIT, OitDepthOnlyPass(t.oitDepthTexture, cameraData.msaaSamples))
    else if k == 11 then
      When(cameraData.requiresDepthNormalsTexture,
           DepthNormalsPass(t.depthNormalsTexture, DepthHandle(t, rd, f), prepass, cameraData.msaaSamples))
    else if k == 12 then
      When(DeepShadows(rd, f),
           ScreenSpaceDeepShadowMapsPass(t.screenSpaceDeepShadowLut))
    else When(ResolveShadowsInScreenSpace(rd, f), ScreenSpaceShadowResolvePass(t.screenSpaceShadowmap))
  }

  /** Stages 14 to 23: Begin-XR in stereo, the lighting constants, the opaque pass and
      its hooks, the opaque post-process and its hooks, the skybox and its hooks, and
      the depth and colour copies. */
  function OpaqueStage(t: Targets, rd: RenderingData, f: FrameInputs, k: nat): (r: seq<Pass>)
    requires 14 <= k < 24
  {
    var cameraData := rd.cameraData;
    var color, depth := ColorHandle(t, f), DepthHandle(t, rd, f);
    var opaquePost := cameraData.postProcessEnabled && f.hasOpaqueOnlyEffects;
    if k == 14 then When(cameraData.isStereoEnabled, BeginXRRenderingPass)
    else if k == 15 then [SetupLightweightConstantsPass]
    else if k == 16 then [RenderOpaqueForwardPass(color, depth, OpaqueClear(f), RequiresDepthPrepass(rd, f))]
    else if k == 17 then HookPasses(AfterOpaque, f.afterOpaqueHooks, [color, depth], None)
    else if k == 18 then When(opaquePost, OpaquePostProcessPass(color))
    else if k == 19 then
      if opaquePost then HookPasses(AfterOpaquePostProcess, f.afterOpaquePostProcessHooks, [color, depth], None)
      else []
    else if k == 20 then When(DrawsSkybox(rd, f), DrawSkyboxPass(color, depth))
    else if k == 21 then HookPasses(AfterSkybox, f.afterSkyboxHooks, [color, depth], None)
    else if k == 22 then
      When(cameraData.requiresDepthTexture && !RequiresDepthPrepass(rd, f), CopyDepthPass(depth, t.depthTexture))
    else When(cameraData.requiresOpaqueTexture, CopyColorPass(color, t.opaqueColor))
  }

  /** Stages 24 to 29: moment OIT when on and set up, the transparent pass and its hooks,
      the final pass, the after-render hooks and End-XR in stereo. */
  function TransparentStage(t: Targets, rd: RenderingData, f: FrameInputs, k: nat): (r: seq<Pass>)
    requires 24 <= k
  {
    var cameraData := rd.cameraData;
    var color, depth := ColorHandle(t, f), DepthHandle(t, rd, f);
    if k == 24 then When(cameraData.supportsOIT && f.momentOitReady, RenderMomentOitForwardPass(color, depth))
    else if k == 25 then [RenderTransparentForwardPass(color, depth)]
    else if k == 26 then HookPasses(AfterTransparent, f.afterTransparentHooks, [color, depth], None)
    else if k == 27 then FinalPasses(color, cameraData)
    else if k == 28 then HookPasses(AfterRender, f.afterRenderHooks, [], None)
    else if k == 29 then When(cameraData.isStereoEnabled, EndXRRenderingPass)
    else []
  }

  /** The passes of the stages `lo` up to (not including) `hi` of a stage table, in
      order. */
  function Stages(table: nat -> seq<Pass>, lo: nat, hi: nat): (r: seq<Pass>)
    decreases hi
  {
    if hi <= lo then [] else Stages(table, lo, hi - 1) + table(hi - 1)
  }

  /** Each entry of the table holds passes of its own stage only. */
  ghost predicate StageTable(table: nat -> seq<Pass>)
  {
    forall k: nat, p :: p in table(k) ==> Stage(p) == k
  }

  /** The table of a frame. */
  function FrameTable(t: Targets, rd: RenderingData, f: FrameInputs): nat -> seq<Pass>
  {
    (k: nat) => StagePasses(t, rd, f, k)
  }

  /** The passes `Setup` enqueues for one frame, in order. */
  function Schedule(t: Targets, rd: RenderingData, f: FrameInputs): (r: seq<Pass>)
  {
    Stages(FrameTable(t, rd, f), 0, StageCount)
  }

  /** A run of stages splits at any stage between its ends. */
  lemma {:induction false} StagesSplit(table: nat -> seq<Pass>, lo: nat, m: nat, hi: nat)
    requires lo <= m <= hi
    ensures Stages(table, lo, hi) == Stages(table, lo, m) + Stages(table, m, hi)
    decreases hi
  {
    if hi > m {
      StagesSplit(table, lo, m, hi - 1);
    }
  }

  /** A pass is in a run of stages exactly when its own stage is in the run and the pass
      is in that stage's entry. */
  lemma {:induction false} StagesMembers(table: nat -> seq<Pass>, lo: nat, hi: nat)
    requires StageTable(table)
    ensures forall p :: p in Stages(table, lo, hi) <==> lo <= Stage(p) < hi && p in table(Stage(p))
    decreases hi
  {
    if hi > lo {
      StagesMembers(table, lo, hi - 1);
    }
  }

  /** A pass of an earlier stage always comes before a pass of a later one. */
  predicate Ordered(s: seq<Pass>)
  {
    forall i, j :: 0 <= i < |s| && 0 <= j < |s| && Stage(s[i]) < Stage(s[j]) ==> i < j
  }

  lemma {:induction false} StagesOrdered(table: nat -> seq<Pass>, lo: nat, hi: nat)
    requires StageTable(table)
    ensures Ordered(Stages(table, lo, hi))
    decreases hi
  {
    if hi > lo {
      var a, b := Stages(table, lo, hi - 1), table(hi - 1);
      StagesOrdered(table, lo, hi - 1);
      StagesMembers(table, lo, hi - 1);
      forall x | 0 <= x < |a|
        ensures (a + b)[x] == a[x] && Stage((a + b)[x]) < hi - 1
      {
        assert a[x] in a;
      }
      forall x | |a| <= x < |a + b|
        ensures Stage((a + b)[x]) == hi - 1
      {
        assert (a + b)[x] == b[x - |a|] && b[x - |a|] in b;
      }
    }
  }

  lemma PreludeStageStaged(t: Targets, rd: RenderingData, f: FrameInputs, k: nat)
    requires k < 6
    ensures forall p :: p in PreludeStage(t, rd, f, k) ==> Stage(p) == k
  {
    HookPassesMembers(BeforeRender, f.beforeRenderHooks, [ColorHandle(t, f), AttachmentDepth(t, f)],
                      Some(f.cameraClear));
  }

  lemma DepthStageStaged(t: Targets, rd: RenderingData, f: FrameInputs, k: nat)
    requires 6 <= k < 14
    ensures forall p :: p in DepthStage(t, rd, f, k) ==> Stage(p) == k
  {
    HookPassesMembers(AfterDepthPrePass, f.afterDepthPrePassHooks, [t.depthTexture], None);
  }

  lemma OpaqueStageStaged(t: Targets, rd: RenderingData, f: FrameInputs, k: nat)
    requires 14 <= k < 24
    ensures forall p :: p in OpaqueStage(t, rd, f, k) ==> Stage(p) == k
  {
    var targets := [ColorHandle(t, f), DepthHandle(t, rd, f)];
    if k == 17 {
      HookPassesMembers(AfterOpaque, f.afterOpaqueHooks, targets, None);
    } else if k == 19 {
      HookPassesMembers(AfterOpaquePostProcess, f.afterOpaquePostProcessHooks, targets, None);
    } else if k == 21 {
      HookPassesMembers(AfterSkybox, f.afterSkyboxHooks, targets, None);
    }
  }

  lemma TransparentStageStaged(t: Targets, rd: RenderingData, f: FrameInputs, k: nat)
    requires 24 <= k
    ensures forall p :: p in TransparentStage(t, rd, f, k) ==> Stage(p) == k
  {
    if k == 26 {
      HookPassesMembers(AfterTransparent, f.afterTransparentHooks, [ColorHandle(t, f), DepthHandle(t, rd, f)], None);
    } else if k == 28 {
      HookPassesMembers(AfterRender, f.afterRenderHooks, [], None);
    }
  }

  /** Every entry of a frame's table holds passes of its own stage. */
  lemma FrameTableStaged(t: Targets, rd: RenderingData, f: FrameInputs)
    ensures StageTable(FrameTable(t, rd, f))
  {
    forall k: nat, p | p in FrameTable(t, rd, f)(k)
      ensures Stage(p) == k
    {
      assert p in StagePasses(t, rd, f, k);
      if k < 6 {
        PreludeStageStaged(t, rd, f, k);
      } else if k < 14 {
        DepthStageStaged(t, rd, f, k);
      } else if k < 24 {
        OpaqueStageStaged(t, rd, f, k);
      } else {
        TransparentStageStaged(t, rd, f, k);
      }
    }
  }

  /** A pass is scheduled exactly when it is among the passes of its stage. */
  lemma InSchedule(t: Targets, rd: RenderingData, f: FrameInputs)
    ensures forall p :: p in Schedule(t, rd, f) <==> p in StagePasses(t, rd, f, Stage(p))
  {
    FrameTableStaged(t, rd, f);
    StagesMembers(FrameTable(t, rd, f), 0, StageCount);
  }

  /** Passes are enqueued stage by stage: a pass of an earlier stage is never enqueued
      after a pass of a later one. */
  lemma ScheduleOrder(t: Targets, rd: RenderingData, f: FrameInputs)
    ensures Ordered(Schedule(t, rd, f))
  {
    FrameTableStaged(t, rd, f);
    StagesOrdered(FrameTable(t, rd, f), 0, StageCount);
  }

  // ---------------------------------------------------------------------------------
  // What the schedule holds.

  /** A pass of stage `k` is scheduled exactly when it is in the entry of stage `k`. */
  lemma ScheduledAt(t: Targets, rd: RenderingData, f: FrameInputs, p: Pass, k: nat)
    requires Stage(p) == k
    ensures p in Schedule(t, rd, f) <==> p in StagePasses(t, rd, f, k)
  {
    InSchedule(t, rd, f);
  }

  /** Every scheduled pass of stage `k` is in the entry of stage `k`. */
  lemma ScheduledStage(t: Targets, rd: RenderingData, f: FrameInputs, k: nat)
    ensures forall p :: p in Schedule(t, rd, f) && Stage(p) == k ==> p in StagePasses(t, rd, f, k)
  {
    InSchedule(t, rd, f);
  }

  /** When the entry of stage `k` can hold no pass but `x`, neither can the schedule. */
  lemma OnlyAtStage(t: Targets, rd: RenderingData, f: FrameInputs, k: nat, x: Pass)
    requires forall p :: p in StagePasses(t, rd, f, k) ==> p == x
    ensures forall p :: p in Schedule(t, rd, f) && Stage(p) == k ==> p == x
  {
    InSchedule(t, rd, f);
  }

  /** The hook components of one point that run when `c` holds, in a run of stages
      whose entry at the point's stage holds their passes: the `i`-th is in the run
      exactly when `c` holds and `i` is below their count, and every hook pass of that
      point in the run gets the entry's targets and clear flag. */
  lemma HooksAtStage(table: nat -> seq<Pass>, c: bool, point: HookPoint, n: nat, targets: seq<RenderTargetHandle>,
                     clear: Option<ClearFlag>)
    requires StageTable(table)
    requires table(HookStage(point)) == if c then HookPasses(point, n, targets, clear) else []
    ensures forall i: nat :: HookPass(point, i, targets, clear) in Stages(table, 0, StageCount) <==> c && i < n
    ensures forall p :: p in Stages(table, 0, StageCount) && p.HookPass? && p.point == point ==>
              c && p.targets == targets && p.hookClear == clear && p.index < n
  {
    StagesMembers(table, 0, StageCount);
    HookPassesMembers(point, n, targets, clear);
  }

  lemma RenderTexturesEntries(t: Targets, rd: RenderingData, f: FrameInputs, x: Pass)
    requires x == CreateLightweightRenderTexturesPass(t.colorAttachment, t.depthAttachment, rd.cameraData.msaaSamples)
    ensures Stage(x) == 0 && forall p: Pass :: p.CreateLightweightRenderTexturesPass? ==> Stage(p) == 0
    ensures x in StagePasses(t, rd, f, 0) <==> RequiresRenderToTexture(f)
    ensures forall p :: p in StagePasses(t, rd, f, 0) ==> p == x
  {
  }

  /** The intermediate textures are created, with the colour and depth attachments and
      the camera's sample count, exactly when the frame renders to a texture, and there
      is no other creation pass. */
  lemma RenderTexturesWhenRequired(t: Targets, rd: RenderingData, f: FrameInputs)
    ensures var s := Schedule(t, rd, f);
      && (CreateLightweightRenderTexturesPass(t.colorAttachment, t.depthAttachment, rd.cameraData.msaaSamples) in s
          <==> RequiresRenderToTexture(f))
      && forall p :: p in s && p.CreateLightweightRenderTexturesPass? ==>
           p == CreateLightweightRenderTexturesPass(t.colorAttachment, t.depthAttachment, rd.cameraData.msaaSamples)
  {
    var x := CreateLightweightRenderTexturesPass(t.colorAttachment, t.depthAttachment, rd.cameraData.msaaSamples);
    RenderTexturesEntries(t, rd, f, x);
    ScheduledAt(t, rd, f, x, 0);
    OnlyAtStage(t, rd, f, 0, x);
  }

  /** One before-render pass per component, each given the frame's colour target, the
      attachment depth (the camera target when not rendering to a texture) and the
      camera's clear flag. */
  lemma BeforeRenderHooks(t: Targets, rd: RenderingData, f: FrameInputs)
    ensures var s := Schedule(t, rd, f);
      && (forall i: nat ::
            HookPass(BeforeRender, i, [ColorHandle(t, f), AttachmentDepth(t, f)], Some(f.cameraClear)) in s
            <==> i < f.beforeRenderHooks)
      && forall p :: p in s && p.HookPass? && p.point == BeforeRender ==>
           p.targets == [ColorHandle(t, f), AttachmentDepth(t, f)] && p.hookClear == Some(f.cameraClear)
  {
    FrameTableStaged(t, rd, f);
    HooksAtStage(FrameTable(t, rd, f), true, BeforeRender, f.beforeRenderHooks, [ColorHandle(t, f), AttachmentDepth(t, f)],
                 Some(f.cameraClear));
  }

  lemma ShadowCastersEntries(t: Targets, rd: RenderingData, f: FrameInputs)
    ensures Stage(MainLightShadowCasterPass(t.mainLightShadowmap)) == 2
    ensures Stage(MainCharacterShadowCasterPass(t.mainCharacterShadowmap)) == 3
    ensures Stage(DeepShadowCasterPass) == 4
    ensures Stage(AdditionalLightsShadowCasterPass(t.additionalLightsShadowmap)) == 5
    ensures forall p: Pass :: p.MainLightShadowCasterPass? ==> Stage(p) == 2
    ensures forall p: Pass :: p.MainCharacterShadowCasterPass? ==> Stage(p) == 3
    ensures forall p: Pass :: p.AdditionalLightsShadowCasterPass? ==> Stage(p) == 5
    ensures MainLightShadowCasterPass(t.mainLightShadowmap) in StagePasses(t, rd, f, 2) <==> MainLightShadows(rd, f)
    ensures (MainCharacterShadowCasterPass(t.mainCharacterShadowmap) in StagePasses(t, rd, f, 3))
              == MainCharacterShadows(rd, f)
    ensures DeepShadowCasterPass in StagePasses(t, rd, f, 4) <==> DeepShadows(rd, f)
    ensures (AdditionalLightsShadowCasterPass(t.additionalLightsShadowmap) in StagePasses(t, rd, f, 5))
              == AdditionalLightShadows(rd, f)
    ensures forall p :: p in StagePasses(t, rd, f, 2) ==> p == MainLightShadowCasterPass(t.mainLightShadowmap)
    ensures forall p :: p in StagePasses(t, rd, f, 3) ==> p == MainCharacterShadowCasterPass(t.mainCharacterShadowmap)
    ensures forall p :: p in StagePasses(t, rd, f, 5) ==>
              p == AdditionalLightsShadowCasterPass(t.additionalLightsShadowmap)
  {
  }

  /** Each shadow caster is enqueued exactly when its feature is supported and its
      `Setup` succeeded, and each renders into its own shadow map. */
  lemma ShadowCastersWhenReady(t: Targets, rd: RenderingData, f: FrameInputs)
    ensures var s := Schedule(t, rd, f);
      && (MainLightShadowCasterPass(t.mainLightShadowmap) in s <==> MainLightShadows(rd, f))
      && (MainCharacterShadowCasterPass(t.mainCharacterShadowmap) in s <==> MainCharacterShadows(rd, f))
      && (DeepShadowCasterPass in s <==> DeepShadows(rd, f))
      && (AdditionalLightsShadowCasterPass(t.additionalLightsShadowmap) in s <==> AdditionalLightShadows(rd, f))
      && (forall p :: p in s && p.MainLightShadowCasterPass? ==> p.target == t.mainLightShadowmap)
      && (forall p :: p in s && p.MainCharacterShadowCasterPass? ==> p.target == t.mainCharacterShadowmap)
      && (forall p :: p in s && p.AdditionalLightsShadowCasterPass? ==> p.target == t.additionalLightsShadowmap)
  {
    var s := Schedule(t, rd, f);
    var x, y, z := MainLightShadowCasterPass(t.mainLightShadowmap),
                   MainCharacterShadowCasterPass(t.mainCharacterShadowmap),
                   AdditionalLightsShadowCasterPass(t.additionalLightsShadowmap);
    ShadowCastersEntries(t, rd, f);
    assert && (x in s <==> MainLightShadows(rd, f)) && (y in s <==> MainCharacterShadows(rd, f))
           && (DeepShadowCasterPass in s <==> DeepShadows(rd, f)) && (z in s <==> AdditionalLightShadows(rd, f)) by {
      ScheduledAt(t, rd, f, x, 2);
      ScheduledAt(t, rd, f, y, 3);
      ScheduledAt(t, rd, f, DeepShadowCasterPass, 4);
      ScheduledAt(t, rd, f, z, 5);
    }
    assert forall p :: p in s && p.MainLightShadowCasterPass? ==> p == x by {
      OnlyAtStage(t, rd, f, 2, x);
    }
    assert forall p :: p in s && p.MainCharacterShadowCasterPass? ==> p == y by {
      OnlyAtStage(t, rd, f, 3, y);
    }
    assert forall p :: p in s && p.AdditionalLightsShadowCasterPass? ==> p == z by {
      OnlyAtStage(t, rd, f, 5, z);
    }
  }

  lemma DepthPrepassEntries(t: Targets, rd: RenderingData, f: FrameInputs, x: Pass)
    requires x == DepthOnlyPass(t.depthTexture, rd.cameraData.msaaSamples)
    ensures Stage(x) == 7 && forall p: Pass :: p.DepthOnlyPass? ==> Stage(p) == 7
    ensures x in StagePasses(t, rd, f, 7) <==> RequiresDepthPrepass(rd, f)
    ensures forall p :: p in StagePasses(t, rd, f, 7) ==> p == x
    ensures StagePasses(t, rd, f, 8) ==
              if RequiresDepthPrepass(rd, f)
              then HookPasses(AfterDepthPrePass, f.afterDepthPrePassHooks, [t.depthTexture], None) else []
  {
  }

  /** The depth prepass is enqueued, into the depth texture with the camera's sample
      count, exactly when the frame requires it; the after-depth-prepass hooks run only
      after it and are given the depth texture; from the prepass on the frame's depth
      target is the depth texture. */
  lemma DepthPrepassWhenRequired(t: Targets, rd: RenderingData, f: FrameInputs)
    ensures var s := Schedule(t, rd, f);
      && (DepthOnlyPass(t.depthTexture, rd.cameraData.msaaSamples) in s <==> RequiresDepthPrepass(rd, f))
      && (forall p :: p in s && p.DepthOnlyPass? ==> p == DepthOnlyPass(t.depthTexture, rd.cameraData.msaaSamples))
      && (forall i: nat :: HookPass(AfterDepthPrePass, i, [t.depthTexture], None) in s
            <==> RequiresDepthPrepass(rd, f) && i < f.afterDepthPrePassHooks)
      && (forall p :: p in s && p.HookPass? && p.point == AfterDepthPrePass ==>
            RequiresDepthPrepass(rd, f) && p.targets == [t.depthTexture] && p.hookClear == None)
      && (RequiresDepthPrepass(rd, f) ==> DepthHandle(t, rd, f) == t.depthTexture)
  {
    var x := DepthOnlyPass(t.depthTexture, rd.cameraData.msaaSamples);
    var s := Schedule(t, rd, f);
    DepthPrepassEntries(t, rd, f, x);
    assert x in s <==> RequiresDepthPrepass(rd, f) by {
      ScheduledAt(t, rd, f, x, 7);
    }
    assert forall p :: p in s && p.DepthOnlyPass? ==> p == x by {
      OnlyAtStage(t, rd, f, 7, x);
    }
    FrameTableStaged(t, rd, f);
    HooksAtStage(FrameTable(t, rd, f), RequiresDepthPrepass(rd, f), AfterDepthPrePass, f.afterDepthPrePassHooks,
                 [t.depthTexture], None);
  }

  lemma DepthCopyEntries(t: Targets, rd: RenderingData, f: FrameInputs, x: Pass)
    requires x == CopyDepthPass(AttachmentDepth(t, f), t.depthTexture)
    ensures Stage(x) == 22 && forall p: Pass :: p.CopyDepthPass? ==> Stage(p) == 22
    ensures x in StagePasses(t, rd, f, 22) <==> rd.cameraData.requiresDepthTexture && !RequiresDepthPrepass(rd, f)
    ensures forall p :: p in StagePasses(t, rd, f, 22) ==> p == x
  {
  }

  /** Without a prepass, a frame that requires the depth texture fills it by copying
      the attachment depth after the skybox, and there is no other depth copy; so the
      depth texture is written by exactly one of the prepass and the copy whenever it is
      required. */
  lemma DepthTextureFilledOnce(t: Targets, rd: RenderingData, f: FrameInputs)
    ensures var s := Schedule(t, rd, f);
      && (CopyDepthPass(AttachmentDepth(t, f), t.depthTexture) in s
          <==> rd.cameraData.requiresDepthTexture && !RequiresDepthPrepass(rd, f))
      && (forall p :: p in s && p.CopyDepthPass? ==> p == CopyDepthPass(AttachmentDepth(t, f), t.depthTexture))
      && (rd.cameraData.requiresDepthTexture ==>
            (DepthOnlyPass(t.depthTexture, rd.cameraData.msaaSamples) in s)
            != (CopyDepthPass(AttachmentDepth(t, f), t.depthTexture) in s))
  {
    var x := CopyDepthPass(AttachmentDepth(t, f), t.depthTexture);
    DepthCopyEntries(t, rd, f, x);
    ScheduledAt(t, rd, f, x, 22);
    OnlyAtStage(t, rd, f, 22, x);
    DepthPrepassWhenRequired(t, rd, f);
  }

  /** A run of stages around four consecutive stages `k` to `k + 3` is the run before
      them, their entries one after the other, and the run after them. */
  lemma StagesAround(table: nat -> seq<Pass>, lo: nat, k: nat, hi: nat)
    requires lo <= k && k + 4 <= hi
    ensures Stages(table, lo, hi) ==
              Stages(table, lo, k) + table(k) + table(k + 1) + table(k + 2) + table(k + 3) + Stages(table, k + 4, hi)
  {
    StagesSplit(table, lo, k, hi);
    StagesSplit(table, k, k + 4, hi);
    assert Stages(table, k, k) == [];
    assert Stages(table, k, k + 1) == table(k);
    assert Stages(table, k, k + 2) == table(k) + table(k + 1);
    assert Stages(table, k, k + 3) == table(k) + table(k + 1) + table(k + 2);
  }

  lemma OitDepthEntries(t: Targets, rd: RenderingData, f: FrameInputs)
    requires rd.cameraData.supportsOIT
    ensures RequiresDepthPrepass(rd, f)
    ensures StagePasses(t, rd, f, 7) == [DepthOnlyPass(t.depthTexture, rd.cameraData.msaaSamples)]
    ensures StagePasses(t, rd, f, 8) == HookPasses(AfterDepthPrePass, f.afterDepthPrePassHooks, [t.depthTexture], None)
    ensures StagePasses(t, rd, f, 9) == [CopyDepthForOitPass(t.depthTexture, t.oitDepthTexture)]
    ensures StagePasses(t, rd, f, 10) == [OitDepthOnlyPass(t.oitDepthTexture, rd.cameraData.msaaSamples)]
  {
  }

  /** With OIT on, the depth prepass is forced, and right after it and its hooks the
      prepass depth is copied into the OIT depth texture, which the OIT depth pass then
      renders into. */
  lemma OitDepthAfterPrepass(t: Targets, rd: RenderingData, f: FrameInputs)
    requires rd.cameraData.supportsOIT
    ensures Schedule(t, rd, f) ==
              Stages(FrameTable(t, rd, f), 0, 7)
              + [DepthOnlyPass(t.depthTexture, rd.cameraData.msaaSamples)]
              + HookPasses(AfterDepthPrePass, f.afterDepthPrePassHooks, [t.depthTexture], None)
              + [CopyDepthForOitPass(t.depthTexture, t.oitDepthTexture)]
              + [OitDepthOnlyPass(t.oitDepthTexture, rd.cameraData.msaaSamples)]
              + Stages(FrameTable(t, rd, f), 11, StageCount)
  {
    var table := FrameTable(t, rd, f);
    OitDepthEntries(t, rd, f);
    StagesAround(table, 0, 7, StageCount);
    assert table(7) == StagePasses(t, rd, f, 7);
    assert table(8) == StagePasses(t, rd, f, 8);
    assert table(9) == StagePasses(t, rd, f, 9);
    assert table(10) == StagePasses(t, rd, f, 10);
  }

  lemma OitDepthPassEntries(t: Targets, rd: RenderingData, f: FrameInputs, x: Pass, y: Pass)
    requires x == CopyDepthForOitPass(t.depthTexture, t.oitDepthTexture)
    requires y == OitDepthOnlyPass(t.oitDepthTexture, rd.cameraData.msaaSamples)
    ensures Stage(x) == 9 && forall p: Pass :: p.CopyDepthForOitPass? ==> Stage(p) == 9
    ensures Stage(y) == 10 && forall p: Pass :: p.OitDepthOnlyPass? ==> Stage(p) == 10
    ensures x in StagePasses(t, rd, f, 9) <==> rd.cameraData.supportsOIT
    ensures y in StagePasses(t, rd, f, 10) <==> rd.cameraData.supportsOIT
    ensures forall p :: p in StagePasses(t, rd, f, 9) ==> p == x
    ensures forall p :: p in StagePasses(t, rd, f, 10) ==> p == y
  {
  }

  /** The OIT depth copy and the OIT depth pass are enqueued exactly when OIT is on,
      each with the OIT depth texture. */
  lemma OitDepthWhenSupported(t: Targets, rd: RenderingData, f: FrameInputs)
    ensures var s := Schedule(t, rd, f);
      && (CopyDepthForOitPass(t.depthTexture, t.oitDepthTexture) in s <==> rd.cameraData.supportsOIT)
      && (OitDepthOnlyPass(t.oitDepthTexture, rd.cameraData.msaaSamples) in s <==> rd.cameraData.supportsOIT)
      && (forall p :: p in s && p.CopyDepthForOitPass? ==>
            p == CopyDepthForOitPass(t.depthTexture, t.oitDepthTexture))
      && (forall p :: p in s && p.OitDepthOnlyPass? ==>
            p == OitDepthOnlyPass(t.oitDepthTexture, rd.cameraData.msaaSamples))
  {
    var x := CopyDepthForOitPass(t.depthTexture, t.oitDepthTexture);
    var y := OitDepthOnlyPass(t.oitDepthTexture, rd.cameraData.msaaSamples);
    OitDepthPassEntries(t, rd, f, x, y);
    ScheduledAt(t, rd, f, x, 9);
    ScheduledAt(t, rd, f, y, 10);
    OnlyAtStage(t, rd, f, 9, x);
    OnlyAtStage(t, rd, f, 10, y);
  }

  lemma ScreenSpaceEntries(t: Targets, rd: RenderingData, f: FrameInputs, x: Pass, y: Pass, z: Pass)
    requires x == DepthNormalsPass(t.depthNormalsTexture, DepthHandle(t, rd, f), RequiresDepthPrepass(rd, f),
                                   rd.cameraData.msaaSamples)
    requires y == ScreenSpaceDeepShadowMapsPass(t.screenSpaceDeepShadowLut)
    requires z == ScreenSpaceShadowResolvePass(t.screenSpaceShadowmap)
    ensures Stage(x) == 11 && forall p: Pass :: p.DepthNormalsPass? ==> Stage(p) == 11
    ensures Stage(y) == 12 && forall p: Pass :: p.ScreenSpaceDeepShadowMapsPass? ==> Stage(p) == 12
    ensures Stage(z) == 13 && forall p: Pass :: p.ScreenSpaceShadowResolvePass? ==> Stage(p) == 13
    ensures x in StagePasses(t, rd, f, 11) <==> rd.cameraData.requiresDepthNormalsTexture
    ensures y in StagePasses(t, rd, f, 12) <==> DeepShadows(rd, f)
    ensures z in StagePasses(t, rd, f, 13) <==> ResolveShadowsInScreenSpace(rd, f)
    ensures forall p :: p in StagePasses(t, rd, f, 11) ==> p == x
    ensures forall p :: p in StagePasses(t, rd, f, 12) ==> p == y
    ensures forall p :: p in StagePasses(t, rd, f, 13) ==> p == z
  {
  }

  /** The depth-normals pass is enqueued exactly when the camera requires the texture,
      and is told the frame's depth target and whether there was a prepass; the
      screen-space deep shadows run exactly when the deep-shadow caster runs, since
      their own `Setup` always succeeds; the screen-space resolve runs exactly when
      main-light shadows are resolved in screen space, and then after the main-light
      caster and the depth prepass. */
  lemma ScreenSpacePasses(t: Targets, rd: RenderingData, f: FrameInputs)
    ensures var s := Schedule(t, rd, f);
      && ((DepthNormalsPass(t.depthNormalsTexture, DepthHandle(t, rd, f), RequiresDepthPrepass(rd, f),
                            rd.cameraData.msaaSamples) in s) <==> rd.cameraData.requiresDepthNormalsTexture)
      && (ScreenSpaceDeepShadowMapsPass(t.screenSpaceDeepShadowLut) in s
          <==> DeepShadows(rd, f))
      && (ScreenSpaceShadowResolvePass(t.screenSpaceShadowmap) in s <==> ResolveShadowsInScreenSpace(rd, f))
      && (ScreenSpaceDeepShadowMapsPass(t.screenSpaceDeepShadowLut) in s <==> DeepShadowCasterPass in s)
      && (ScreenSpaceShadowResolvePass(t.screenSpaceShadowmap) in s ==>
            MainLightShadowCasterPass(t.mainLightShadowmap) in s
            && DepthOnlyPass(t.depthTexture, rd.cameraData.msaaSamples) in s)
      && (forall p :: p in s && p.DepthNormalsPass? ==>
            p == DepthNormalsPass(t.depthNormalsTexture, DepthHandle(t, rd, f), RequiresDepthPrepass(rd, f),
                                  rd.cameraData.msaaSamples))
      && (forall p :: p in s && p.ScreenSpaceDeepShadowMapsPass? ==> p.target == t.screenSpaceDeepShadowLut)
      && (forall p :: p in s && p.ScreenSpaceShadowResolvePass? ==> p.target == t.screenSpaceShadowmap)
  {
    var x := DepthNormalsPass(t.depthNormalsTexture, DepthHandle(t, rd, f), RequiresDepthPrepass(rd, f),
                              rd.cameraData.msaaSamples);
    var y := ScreenSpaceDeepShadowMapsPass(t.screenSpaceDeepShadowLut);
    var z := ScreenSpaceShadowResolvePass(t.screenSpaceShadowmap);
    var s := Schedule(t, rd, f);
    ScreenSpaceEntries(t, rd, f, x, y, z);
    assert && (x in s <==> rd.cameraData.requiresDepthNormalsTexture)
           && (y in s <==> DeepShadows(rd, f))
           && (z in s <==> ResolveShadowsInScreenSpace(rd, f)) by {
      ScheduledAt(t, rd, f, x, 11);
      ScheduledAt(t, rd, f, y, 12);
      ScheduledAt(t, rd, f, z, 13);
    }
    assert forall p :: p in s && p.DepthNormalsPass? ==> p == x by {
      OnlyAtStage(t, rd, f, 11, x);
    }
    assert forall p :: p in s && p.ScreenSpaceDeepShadowMapsPass? ==> p == y by {
      OnlyAtStage(t, rd, f, 12, y);
    }
    assert forall p :: p in s && p.ScreenSpaceShadowResolvePass? ==> p == z by {
      OnlyAtStage(t, rd, f, 13, z);
    }
    assert y in s <==> DeepShadowCasterPass in s by {
      ShadowCastersWhenReady(t, rd, f);
    }
    assert z in s ==> MainLightShadowCasterPass(t.mainLightShadowmap) in s
                      && DepthOnlyPass(t.depthTexture, rd.cameraData.msaaSamples) in s by {
      ShadowCastersWhenReady(t, rd, f);
      DepthPrepassWhenRequired(t, rd, f);
    }
  }

  lemma OpaqueEntries(t: Targets, rd: RenderingData, f: FrameInputs, x: Pass)
    requires x == RenderOpaqueForwardPass(ColorHandle(t, f), DepthHandle(t, rd, f), OpaqueClear(f),
                                          RequiresDepthPrepass(rd, f))
    ensures Stage(SetupForwardRenderingPass) == 6 && Stage(SetupLightweightConstantsPass) == 15
    ensures Stage(x) == 16 && forall p: Pass :: p.RenderOpaqueForwardPass? ==> Stage(p) == 16
    ensures SetupForwardRenderingPass in StagePasses(t, rd, f, 6)
    ensures SetupLightweightConstantsPass in StagePasses(t, rd, f, 15)
    ensures x in StagePasses(t, rd, f, 16) && forall p :: p in StagePasses(t, rd, f, 16) ==> p == x
  {
  }

  /** Every frame sets up forward rendering and the lighting constants and renders the
      opaque objects once, into the frame's colour and depth targets, with the opaque
      clear flag and told whether there was a prepass. */
  lemma OpaqueEveryFrame(t: Targets, rd: RenderingData, f: FrameInputs)
    ensures var s := Schedule(t, rd, f);
      && SetupForwardRenderingPass in s
      && SetupLightweightConstantsPass in s
      && RenderOpaqueForwardPass(ColorHandle(t, f), DepthHandle(t, rd, f), OpaqueClear(f),
                                 RequiresDepthPrepass(rd, f)) in s
      && forall p :: p in s && p.RenderOpaqueForwardPass? ==>
           p == RenderOpaqueForwardPass(ColorHandle(t, f), DepthHandle(t, rd, f), OpaqueClear(f),
                                        RequiresDepthPrepass(rd, f))
  {
    var x := RenderOpaqueForwardPass(ColorHandle(t, f), DepthHandle(t, rd, f), OpaqueClear(f),
                                     RequiresDepthPrepass(rd, f));
    OpaqueEntries(t, rd, f, x);
    ScheduledAt(t, rd, f, SetupForwardRenderingPass, 6);
    ScheduledAt(t, rd, f, SetupLightweightConstantsPass, 15);
    ScheduledAt(t, rd, f, x, 16);
    OnlyAtStage(t, rd, f, 16, x);
  }

  lemma AfterOpaqueEntries(t: Targets, rd: RenderingData, f: FrameInputs, x: Pass, y: Pass, z: Pass)
    requires x == OpaquePostProcessPass(ColorHandle(t, f))
    requires y == DrawSkyboxPass(ColorHandle(t, f), DepthHandle(t, rd, f))
    requires z == CopyColorPass(ColorHandle(t, f), t.opaqueColor)
    ensures Stage(x) == 18 && forall p: Pass :: p.OpaquePostProcessPass? ==> Stage(p) == 18
    ensures Stage(y) == 20 && forall p: Pass :: p.DrawSkyboxPass? ==> Stage(p) == 20
    ensures Stage(z) == 23 && forall p: Pass :: p.CopyColorPass? ==> Stage(p) == 23
    ensures x in StagePasses(t, rd, f, 18) <==> rd.cameraData.postProcessEnabled && f.hasOpaqueOnlyEffects
    ensures y in StagePasses(t, rd, f, 20) <==> DrawsSkybox(rd, f)
    ensures z in StagePasses(t, rd, f, 23) <==> rd.cameraData.requiresOpaqueTexture
    ensures forall p :: p in StagePasses(t, rd, f, 18) ==> p == x
    ensures forall p :: p in StagePasses(t, rd, f, 20) ==> p == y
    ensures forall p :: p in StagePasses(t, rd, f, 23) ==> p == z
  {
  }

  /** After the opaque pass: the opaque post-process runs exactly when post-processing
      is on and the layer has opaque-only effects; the skybox is drawn exactly when the
      camera clears to a skybox and a skybox material is set; the opaque colour is copied
      into the opaque texture exactly when the camera requires it. Each uses the frame's
      targets. */
  lemma AfterOpaquePasses(t: Targets, rd: RenderingData, f: FrameInputs)
    ensures var s := Schedule(t, rd, f);
      && (OpaquePostProcessPass(ColorHandle(t, f)) in s
          <==> rd.cameraData.postProcessEnabled && f.hasOpaqueOnlyEffects)
      && (DrawSkyboxPass(ColorHandle(t, f), DepthHandle(t, rd, f)) in s <==> DrawsSkybox(rd, f))
      && (CopyColorPass(ColorHandle(t, f), t.opaqueColor) in s <==> rd.cameraData.requiresOpaqueTexture)
      && (forall p :: p in s && p.OpaquePostProcessPass? ==> p.color == ColorHandle(t, f))
      && (forall p :: p in s && p.DrawSkyboxPass? ==> p == DrawSkyboxPass(ColorHandle(t, f), DepthHandle(t, rd, f)))
      && (forall p :: p in s && p.CopyColorPass? ==> p == CopyColorPass(ColorHandle(t, f), t.opaqueColor))
  {
    var x := OpaquePostProcessPass(ColorHandle(t, f));
    var y := DrawSkyboxPass(ColorHandle(t, f), DepthHandle(t, rd, f));
    var z := CopyColorPass(ColorHandle(t, f), t.opaqueColor);
    var s := Schedule(t, rd, f);
    AfterOpaqueEntries(t, rd, f, x, y, z);
    assert && (x in s <==> rd.cameraData.postProcessEnabled && f.hasOpaqueOnlyEffects)
           && (y in s <==> DrawsSkybox(rd, f))
           && (z in s <==> rd.cameraData.requiresOpaqueTexture) by {
      ScheduledAt(t, rd, f, x, 18);
      ScheduledAt(t, rd, f, y, 20);
      ScheduledAt(t, rd, f, z, 23);
    }
    assert forall p :: p in s && p.OpaquePostProcessPass? ==> p == x by {
      OnlyAtStage(t, rd, f, 18, x);
    }
    assert forall p :: p in s && p.DrawSkyboxPass? ==> p == y by {
      OnlyAtStage(t, rd, f, 20, y);
    }
    assert forall p :: p in s && p.CopyColorPass? ==> p == z by {
      OnlyAtStage(t, rd, f, 23, z);
    }
  }

  lemma TransparentEntries(t: Targets, rd: RenderingData, f: FrameInputs, x: Pass, y: Pass)
    requires x == RenderMomentOitForwardPass(ColorHandle(t, f), DepthHandle(t, rd, f))
    requires y == RenderTransparentForwardPass(ColorHandle(t, f), DepthHandle(t, rd, f))
    ensures Stage(x) == 24 && forall p: Pass :: p.RenderMomentOitForwardPass? ==> Stage(p) == 24
    ensures Stage(y) == 25 && forall p: Pass :: p.RenderTransparentForwardPass? ==> Stage(p) == 25
    ensures x in StagePasses(t, rd, f, 24) <==> rd.cameraData.supportsOIT && f.momentOitReady
    ensures forall p :: p in StagePasses(t, rd, f, 24) ==> p == x
    ensures y in StagePasses(t, rd, f, 25) && forall p :: p in StagePasses(t, rd, f, 25) ==> p == y
  {
  }

  /** Moment OIT renders exactly when OIT is on and its `Setup` succeeded, and the
      transparent objects are rendered every frame; both into the frame's colour and
      depth targets. */
  lemma TransparentEveryFrame(t: Targets, rd: RenderingData, f: FrameInputs)
    ensures var s := Schedule(t, rd, f);
      && (RenderMomentOitForwardPass(ColorHandle(t, f), DepthHandle(t, rd, f)) in s
          <==> rd.cameraData.supportsOIT && f.momentOitReady)
      && RenderTransparentForwardPass(ColorHandle(t, f), DepthHandle(t, rd, f)) in s
      && (forall p :: p in s && p.RenderMomentOitForwardPass? ==>
            p == RenderMomentOitForwardPass(ColorHandle(t, f), DepthHandle(t, rd, f)))
      && (forall p :: p in s && p.RenderTransparentForwardPass? ==>
            p == RenderTransparentForwardPass(ColorHandle(t, f), DepthHandle(t, rd, f)))
  {
    var x := RenderMomentOitForwardPass(ColorHandle(t, f), DepthHandle(t, rd, f));
    var y := RenderTransparentForwardPass(ColorHandle(t, f), DepthHandle(t, rd, f));
    var s := Schedule(t, rd, f);
    assert (x in s <==> rd.cameraData.supportsOIT && f.momentOitReady) && y in s by {
      TransparentEntries(t, rd, f, x, y);
      ScheduledAt(t, rd, f, x, 24);
      ScheduledAt(t, rd, f, y, 25);
    }
    assert forall p :: p in s && p.RenderMomentOitForwardPass? ==> p == x by {
      TransparentEntries(t, rd, f, x, y);
      OnlyAtStage(t, rd, f, 24, x);
    }
    assert forall p :: p in s && p.RenderTransparentForwardPass? ==> p == y by {
      TransparentEntries(t, rd, f, x, y);
      OnlyAtStage(t, rd, f, 25, y);
    }
  }

  lemma FinalEntries(t: Targets, rd: RenderingData, f: FrameInputs, x: Pass, y: Pass)
    requires x == TransparentPostProcessPass(ColorHandle(t, f))
    requires y == FinalBlitPass(ColorHandle(t, f))
    ensures Stage(x) == 27 && Stage(y) == 27
    ensures forall p: Pass :: p.TransparentPostProcessPass? || p.FinalBlitPass? ==> Stage(p) == 27
    ensures StagePasses(t, rd, f, 27) == FinalPasses(ColorHandle(t, f), rd.cameraData)
  {
  }

  /** The frame ends with the transparent post-process exactly when post-processing is
      on, and otherwise with a final blit exactly when an onscreen camera rendered into
      an intermediate colour texture; never both, and always from the frame's colour
      target. */
  lemma FinalPassChoice(t: Targets, rd: RenderingData, f: FrameInputs)
    ensures var s := Schedule(t, rd, f);
      && (TransparentPostProcessPass(ColorHandle(t, f)) in s <==> rd.cameraData.postProcessEnabled)
      && (FinalBlitPass(ColorHandle(t, f)) in s <==>
            !rd.cameraData.postProcessEnabled && !rd.cameraData.isOffscreenRender && ColorHandle(t, f) != CameraTarget)
      && (forall p :: p in s && (p.TransparentPostProcessPass? || p.FinalBlitPass?) ==>
            p == TransparentPostProcessPass(ColorHandle(t, f)) || p == FinalBlitPass(ColorHandle(t, f)))
      && !(TransparentPostProcessPass(ColorHandle(t, f)) in s && FinalBlitPass(ColorHandle(t, f)) in s)
  {
    var x := TransparentPostProcessPass(ColorHandle(t, f));
    var y := FinalBlitPass(ColorHandle(t, f));
    FinalEntries(t, rd, f, x, y);
    ScheduledAt(t, rd, f, x, 27);
    ScheduledAt(t, rd, f, y, 27);
    ScheduledStage(t, rd, f, 27);
  }

  lemma StereoEntries(t: Targets, rd: RenderingData, f: FrameInputs)
    ensures Stage(BeginXRRenderingPass) == 14 && Stage(EndXRRenderingPass) == 29
    ensures BeginXRRenderingPass in StagePasses(t, rd, f, 14) <==> rd.cameraData.isStereoEnabled
    ensures EndXRRenderingPass in StagePasses(t, rd, f, 29) <==> rd.cameraData.isStereoEnabled
  {
  }

  /** A stereo frame is bracketed by Begin-XR and End-XR, and renders a depth prepass;
      a mono frame has neither bracket. */
  lemma StereoBrackets(t: Targets, rd: RenderingData, f: FrameInputs)
    ensures var s := Schedule(t, rd, f);
      && (BeginXRRenderingPass in s <==> rd.cameraData.isStereoEnabled)
      && (EndXRRenderingPass in s <==> rd.cameraData.isStereoEnabled)
      && (rd.cameraData.isStereoEnabled ==> DepthOnlyPass(t.depthTexture, rd.cameraData.msaaSamples) in s)
  {
    StereoEntries(t, rd, f);
    ScheduledAt(t, rd, f, BeginXRRenderingPass, 14);
    ScheduledAt(t, rd, f, EndXRRenderingPass, 29);
    DepthPrepassWhenRequired(t, rd, f);
  }

  /** The after-opaque hooks: one pass per component, given the frame's colour and
      depth targets. */
  lemma AfterOpaqueHooks(t: Targets, rd: RenderingData, f: FrameInputs)
    ensures var s := Schedule(t, rd, f);
      && (forall i: nat :: HookPass(AfterOpaque, i, [ColorHandle(t, f), DepthHandle(t, rd, f)], None) in s
            <==> i < f.afterOpaqueHooks)
      && forall p :: p in s && p.HookPass? && p.point == AfterOpaque ==>
           p.targets == [ColorHandle(t, f), DepthHandle(t, rd, f)] && p.hookClear == None
  {
    FrameTableStaged(t, rd, f);
    HooksAtStage(FrameTable(t, rd, f), true, AfterOpaque, f.afterOpaqueHooks, [ColorHandle(t, f), DepthHandle(t, rd, f)],
                 None);
  }

  /** The after-opaque-post-process hooks run only when the opaque post-process does:
      one pass per component, given the frame's colour and depth targets. */
  lemma AfterOpaquePostProcessHooks(t: Targets, rd: RenderingData, f: FrameInputs)
    ensures var s := Schedule(t, rd, f);
      && (forall i: nat ::
            HookPass(AfterOpaquePostProcess, i, [ColorHandle(t, f), DepthHandle(t, rd, f)], None) in s
            <==> rd.cameraData.postProcessEnabled && f.hasOpaqueOnlyEffects && i < f.afterOpaquePostProcessHooks)
      && forall p :: p in s && p.HookPass? && p.point == AfterOpaquePostProcess ==>
           rd.cameraData.postProcessEnabled && f.hasOpaqueOnlyEffects
           && p.targets == [ColorHandle(t, f), DepthHandle(t, rd, f)] && p.hookClear == None
  {
    FrameTableStaged(t, rd, f);
    HooksAtStage(FrameTable(t, rd, f), rd.cameraData.postProcessEnabled && f.hasOpaqueOnlyEffects, AfterOpaquePostProcess,
                 f.afterOpaquePostProcessHooks, [ColorHandle(t, f), DepthHandle(t, rd, f)], None);
  }

  /** The after-skybox hooks: one pass per component, given the frame's colour and depth
      targets. */
  lemma AfterSkyboxHooks(t: Targets, rd: RenderingData, f: FrameInputs)
    ensures var s := Schedule(t, rd, f);
      && (forall i: nat :: HookPass(AfterSkybox, i, [ColorHandle(t, f), DepthHandle(t, rd, f)], None) in s
            <==> i < f.afterSkyboxHooks)
      && forall p :: p in s && p.HookPass? && p.point == AfterSkybox ==>
           p.targets == [ColorHandle(t, f), DepthHandle(t, rd, f)] && p.hookClear == None
  {
    FrameTableStaged(t, rd, f);
    HooksAtStage(FrameTable(t, rd, f), true, AfterSkybox, f.afterSkyboxHooks, [ColorHandle(t, f), DepthHandle(t, rd, f)],
                 None);
  }

  /** The after-transparent hooks: one pass per component, given the frame's colour and
      depth targets. */
  lemma AfterTransparentHooks(t: Targets, rd: RenderingData, f: FrameInputs)
    ensures var s := Schedule(t, rd, f);
      && (forall i: nat :: HookPass(AfterTransparent, i, [ColorHandle(t, f), DepthHandle(t, rd, f)], None) in s
            <==> i < f.afterTransparentHooks)
      && forall p :: p in s && p.HookPass? && p.point == AfterTransparent ==>
           p.targets == [ColorHandle(t, f), DepthHandle(t, rd, f)] && p.hookClear == None
  {
    FrameTableStaged(t, rd, f);
    HooksAtStage(FrameTable(t, rd, f), true, AfterTransparent, f.afterTransparentHooks,
                 [ColorHandle(t, f), DepthHandle(t, rd, f)], None);
  }

  /** The after-render hooks: one pass per component, given no targets. */
  lemma AfterRenderHooks(t: Targets, rd: RenderingData, f: FrameInputs)
    ensures var s := Schedule(t, rd, f);
      && (forall i: nat :: HookPass(AfterRender, i, [], None) in s <==> i < f.afterRenderHooks)
      && forall p :: p in s && p.HookPass? && p.point == AfterRender ==> p.targets == [] && p.hookClear == None
  {
    FrameTableStaged(t, rd, f);
    HooksAtStage(FrameTable(t, rd, f), true, AfterRender, f.afterRenderHooks, [], None);
  }

  /** When the frame's `Setup` results agree with the pass models, the main-character
      and deep shadow casters, and with the latter the screen-space deep shadows, run
      exactly when their feature is on and the main light casts shadows with caster
      bounds, and the moment pass runs exactly when OIT is on and some enabled renderer
      lies in the OIT range. */
  lemma PassSetupsDecideSchedule(t: Targets, rd: RenderingData, f: FrameInputs,
                                 objs: seq<Option<SceneBounds.Renderer>>)
    requires SetupResultsAgree(rd, f, objs)
    ensures var s := Schedule(t, rd, f);
      && (MainCharacterShadowCasterPass(t.mainCharacterShadowmap) in s
          <==> rd.shadowData.supportsMainCharacterShadows && MainLightCastsShadows(rd))
      && (DeepShadowCasterPass in s <==> rd.shadowData.supportsDeepShadowMaps && MainLightCastsShadows(rd))
      && (ScreenSpaceDeepShadowMapsPass(t.screenSpaceDeepShadowLut) in s
          <==> rd.shadowData.supportsDeepShadowMaps && MainLightCastsShadows(rd))
      && (RenderMomentOitForwardPass(ColorHandle(t, f), DepthHandle(t, rd, f)) in s
          <==> rd.cameraData.supportsOIT
               && |SceneBounds.Kept(objs, MomentOit.InRange(RenderQueueUtils.Oit))| > 0)
  {
    ShadowCastersWhenReady(t, rd, f);
    ScreenSpacePasses(t, rd, f);
    TransparentEveryFrame(t, rd, f);
  }

  /** With the named handles, the frame's colour target is an intermediate texture
      exactly when it renders to a texture; its depth target is the camera's own exactly
      when there is neither a texture nor a prepass; and the colour and depth targets
      differ unless both are the camera's. */
  lemma NamedHandles(rd: RenderingData, f: FrameInputs)
    ensures ColorHandle(NamedTargets, f) != CameraTarget <==> RequiresRenderToTexture(f)
    ensures DepthHandle(NamedTargets, rd, f) == CameraTarget <==> !RequiresRenderToTexture(f) && !RequiresDepthPrepass(rd, f)
    ensures ColorHandle(NamedTargets, f) == DepthHandle(NamedTargets, rd, f) ==> ColorHandle(NamedTargets, f) == CameraTarget
  {
  }

  /** The frame's order: the opaque pass, the opaque post-process, the skybox, the depth
      copy, the colour copy, moment OIT and the transparent pass follow one another in
      that order; Begin-XR precedes the opaque pass and End-XR follows the transparent
      pass. */
  lemma FrameOrder(t: Targets, rd: RenderingData, f: FrameInputs)
    ensures FrameOrdered(Schedule(t, rd, f))
  {
    ScheduleOrder(t, rd, f);
    OrderedFrameOrdered(Schedule(t, rd, f));
  }

  predicate FrameOrdered(s: seq<Pass>)
  {
    forall i, j :: 0 <= i < |s| && 0 <= j < |s| ==>
      && (s[i].BeginXRRenderingPass? && s[j].RenderOpaqueForwardPass? ==> i < j)
      && (s[i].RenderOpaqueForwardPass? && s[j].OpaquePostProcessPass? ==> i < j)
      && (s[i].OpaquePostProcessPass? && s[j].DrawSkyboxPass? ==> i < j)
      && (s[i].DrawSkyboxPass? && s[j].CopyDepthPass? ==> i < j)
      && (s[i].CopyDepthPass? && s[j].CopyColorPass? ==> i < j)
      && (s[i].CopyColorPass? && s[j].RenderMomentOitForwardPass? ==> i < j)
      && (s[i].RenderMomentOitForwardPass? && s[j].RenderTransparentForwardPass? ==> i < j)
      && (s[i].RenderTransparentForwardPass? && s[j].EndXRRenderingPass? ==> i < j)
  }

  lemma OrderedFrameOrdered(s: seq<Pass>)
    requires Ordered(s)
    ensures FrameOrdered(s)
  {
  }

  // ---------------------------------------------------------------------------------
  // The runs of stages each block of `Setup` enqueues, written out.

  /** A run of two stages is their two entries. */
  lemma StagesTwo(table: nat -> seq<Pass>, k: nat)
    ensures Stages(table, k, k + 2) == table(k) + table(k + 1)
  {
    assert Stages(table, k, k) == [];
  }

  /** A run of four stages is their four entries. */
  lemma StagesFour(table: nat -> seq<Pass>, k: nat)
    ensures Stages(table, k, k + 4) == table(k) + table(k + 1) + table(k + 2) + table(k + 3)
  {
    StagesAround(table, k, k, k + 4);
    assert Stages(table, k, k) == [];
    assert Stages(table, k + 4, k + 4) == [];
  }

  lemma Concat4<T>(q: seq<T>, a: seq<T>, b: seq<T>, c: seq<T>, d: seq<T>)
    ensures q + (a + b + c + d) == q + a + b + c + d
  {
  }

  lemma Concat5<T>(q: seq<T>, a: seq<T>, b: seq<T>, c: seq<T>, d: seq<T>, e: seq<T>)
    ensures q + (a + b + c + d + e) == q + a + b + c + d + e
  {
  }

  lemma Concat6<T>(q: seq<T>, a: seq<T>, b: seq<T>, c: seq<T>, d: seq<T>, e: seq<T>, g: seq<T>)
    ensures q + (a + b + c + d + e + g) == q + a + b + c + d + e + g
  {
  }

  /** Stages 0 and 1: the intermediate textures and the before-render hooks. */
  lemma RenderTexturesRun(t: Targets, rd: RenderingData, f: FrameInputs)
    ensures Stages(FrameTable(t, rd, f), 0, 2) ==
              When(RequiresRenderToTexture(f),
                   CreateLightweightRenderTexturesPass(t.colorAttachment, t.depthAttachment, rd.cameraData.msaaSamples))
              + HookPasses(BeforeRender, f.beforeRenderHooks, [ColorHandle(t, f), AttachmentDepth(t, f)],
                           Some(f.cameraClear))
  {
    StagesTwo(FrameTable(t, rd, f), 0);
  }

  /** Stages 2 to 5: the four shadow casters. */
  lemma ShadowCastersRun(t: Targets, rd: RenderingData, f: FrameInputs)
    ensures Stages(FrameTable(t, rd, f), 2, 6) ==
              When(MainLightShadows(rd, f), MainLightShadowCasterPass(t.mainLightShadowmap))
              + When(MainCharacterShadows(rd, f), MainCharacterShadowCasterPass(t.mainCharacterShadowmap))
              + When(DeepShadows(rd, f), DeepShadowCasterPass)
              + When(AdditionalLightShadows(rd, f), AdditionalLightsShadowCasterPass(t.additionalLightsShadowmap))
  {
    StagesFour(FrameTable(t, rd, f), 2);
    ShadowCasterEntries(t, rd, f);
  }

  lemma ShadowCasterEntries(t: Targets, rd: RenderingData, f: FrameInputs)
    ensures FrameTable(t, rd, f)(2) == When(MainLightShadows(rd, f), MainLightShadowCasterPass(t.mainLightShadowmap))
    ensures FrameTable(t, rd, f)(3) ==
              When(MainCharacterShadows(rd, f), MainCharacterShadowCasterPass(t.mainCharacterShadowmap))
    ensures FrameTable(t, rd, f)(4) == When(DeepShadows(rd, f), DeepShadowCasterPass)
    ensures FrameTable(t, rd, f)(5) ==
              When(AdditionalLightShadows(rd, f), AdditionalLightsShadowCasterPass(t.additionalLightsShadowmap))
  {
  }

  /** The passes of stages 7 to 10: the prepass, its hooks and the OIT depth passes,
      all only when the frame has a prepass. */
  function PrepassPasses(t: Targets, rd: RenderingData, f: FrameInputs): seq<Pass>
  {
    if !RequiresDepthPrepass(rd, f) then []
    else [DepthOnlyPass(t.depthTexture, rd.cameraData.msaaSamples)]
         + HookPasses(AfterDepthPrePass, f.afterDepthPrePassHooks, [t.depthTexture], None)
         + When(rd.cameraData.supportsOIT, CopyDepthForOitPass(t.depthTexture, t.oitDepthTexture))
         + When(rd.cameraData.supportsOIT, OitDepthOnlyPass(t.oitDepthTexture, rd.cameraData.msaaSamples))
  }

  /** Stages 7 to 10 are the prepass block. */
  lemma PrepassRun(t: Targets, rd: RenderingData, f: FrameInputs)
    ensures Stages(FrameTable(t, rd, f), 7, 11) == PrepassPasses(t, rd, f)
  {
    var table := FrameTable(t, rd, f);
    StagesFour(table, 7);
    if RequiresDepthPrepass(rd, f) {
      assert table(7) == [DepthOnlyPass(t.depthTexture, rd.cameraData.msaaSamples)];
      assert table(8) == HookPasses(AfterDepthPrePass, f.afterDepthPrePassHooks, [t.depthTexture], None);
    } else {
      assert table(7) == [] && table(8) == [] && table(9) == [] && table(10) == [];
    }
  }

  /** Stages 6 to 13: forward setup, the prepass block, depth-normals, the screen-space
      deep shadows and the screen-space resolve. */
  lemma DepthPassesRun(t: Targets, rd: RenderingData, f: FrameInputs)
    ensures Stages(FrameTable(t, rd, f), 6, 14) ==
              [SetupForwardRenderingPass]
              + PrepassPasses(t, rd, f)
              + When(rd.cameraData.requiresDepthNormalsTexture,
                     DepthNormalsPass(t.depthNormalsTexture, DepthHandle(t, rd, f), RequiresDepthPrepass(rd, f),
                                      rd.cameraData.msaaSamples))
              + When(DeepShadows(rd, f),
                     ScreenSpaceDeepShadowMapsPass(t.screenSpaceDeepShadowLut))
              + When(ResolveShadowsInScreenSpace(rd, f), ScreenSpaceShadowResolvePass(t.screenSpaceShadowmap))
  {
    var table := FrameTable(t, rd, f);
    StagesSplit(table, 6, 11, 14);
    StagesSplit(table, 6, 7, 11);
    assert Stages(table, 6, 7) == table(6) by {
      assert Stages(table, 6, 6) == [];
    }
    PrepassRun(t, rd, f);
    StagesSplit(table, 11, 12, 14);
    assert Stages(table, 11, 12) == table(11) by {
      assert Stages(table, 11, 11) == [];
    }
    StagesTwo(table, 12);
  }

  /** Stages 14 to 17: Begin-XR, the constants, the opaque pass and its hooks. */
  lemma OpaqueHeadRun(t: Targets, rd: RenderingData, f: FrameInputs)
    ensures Stages(FrameTable(t, rd, f), 14, 18) ==
              When(rd.cameraData.isStereoEnabled, BeginXRRenderingPass)
              + [SetupLightweightConstantsPass]
              + [RenderOpaqueForwardPass(ColorHandle(t, f), DepthHandle(t, rd, f), OpaqueClear(f),
                                         RequiresDepthPrepass(rd, f))]
              + HookPasses(AfterOpaque, f.afterOpaqueHooks, [ColorHandle(t, f), DepthHandle(t, rd, f)], None)
  {
    StagesFour(FrameTable(t, rd, f), 14);
  }

  /** The passes of stages 18 and 19: the opaque post-process and its hooks, when
      post-processing is on and the layer has opaque-only effects. */
  function OpaquePostProcessPasses(t: Targets, rd: RenderingData, f: FrameInputs): seq<Pass>
  {
    if rd.cameraData.postProcessEnabled && f.hasOpaqueOnlyEffects
    then [OpaquePostProcessPass(ColorHandle(t, f))]
         + HookPasses(AfterOpaquePostProcess, f.afterOpaquePostProcessHooks,
                      [ColorHandle(t, f), DepthHandle(t, rd, f)], None)
    else []
  }

  /** Stages 18 to 23: the opaque post-process block, the skybox and its hooks, and the
      depth and colour copies. */
  lemma OpaqueTailRun(t: Targets, rd: RenderingData, f: FrameInputs)
    ensures Stages(FrameTable(t, rd, f), 18, 24) ==
              OpaquePostProcessPasses(t, rd, f)
              + When(DrawsSkybox(rd, f), DrawSkyboxPass(ColorHandle(t, f), DepthHandle(t, rd, f)))
              + HookPasses(AfterSkybox, f.afterSkyboxHooks, [ColorHandle(t, f), DepthHandle(t, rd, f)], None)
              + When(rd.cameraData.requiresDepthTexture && !RequiresDepthPrepass(rd, f),
                     CopyDepthPass(DepthHandle(t, rd, f), t.depthTexture))
              + When(rd.cameraData.requiresOpaqueTexture, CopyColorPass(ColorHandle(t, f), t.opaqueColor))
  {
    var table := FrameTable(t, rd, f);
    StagesSplit(table, 18, 20, 24);
    StagesTwo(table, 18);
    StagesFour(table, 20);
    if rd.cameraData.postProcessEnabled && f.hasOpaqueOnlyEffects {
      assert table(18) == [OpaquePostProcessPass(ColorHandle(t, f))];
    } else {
      assert table(18) == [] && table(19) == [];
    }
  }

  /** Stages 24 to 29: moment OIT, the transparent pass and its hooks, the final pass,
      the after-render hooks and End-XR. */
  lemma TransparentPassesRun(t: Targets, rd: RenderingData, f: FrameInputs)
    ensures Stages(FrameTable(t, rd, f), 24, 30) ==
              When(rd.cameraData.supportsOIT && f.momentOitReady,
                   RenderMomentOitForwardPass(ColorHandle(t, f), DepthHandle(t, rd, f)))
              + [RenderTransparentForwardPass(ColorHandle(t, f), DepthHandle(t, rd, f))]
              + HookPasses(AfterTransparent, f.afterTransparentHooks, [ColorHandle(t, f), DepthHandle(t, rd, f)], None)
              + FinalPasses(ColorHandle(t, f), rd.cameraData)
              + HookPasses(AfterRender, f.afterRenderHooks, [], None)
              + When(rd.cameraData.isStereoEnabled, EndXRRenderingPass)
  {
    var table := FrameTable(t, rd, f);
    StagesSplit(table, 24, 28, 30);
    StagesFour(table, 24);
    StagesTwo(table, 28);
  }

  // ---------------------------------------------------------------------------------
  // The renderer's queue and the setup object that fills it.

  /** The part of the renderer the scheduler drives: its queue of passes for the frame. */
  class ScriptableRenderer {
    var passQueue: seq<Pass>

    constructor ()
      ensures passQueue == []
    {
      passQueue := [];
    }

    /** `EnqueuePass`: appends one pass to the queue. */
    method EnqueuePass(p: Pass)
      modifies this
      ensures passQueue == old(passQueue) + [p]
    {
      passQueue := passQueue + [p];
    }
  }

  /** The `foreach` over the hook components of one point: enqueues the pass each
      component hands back, in component order. */
  method EnqueueHooks(renderer: ScriptableRenderer, point: HookPoint, n: nat, targets: seq<RenderTargetHandle>,
                      clear: Option<ClearFlag>)
    modifies renderer
    ensures renderer.passQueue == old(renderer.passQueue) + HookPasses(point, n, targets, clear)
  {
    var i := 0;
    while i < n
      invariant i <= n
      invariant renderer.passQueue == old(renderer.passQueue) + HookPasses(point, i, targets, clear)
    {
      renderer.EnqueuePass(HookPass(point, i, targets, clear));
      i := i + 1;
    }
  }

  /** `DefaultRendererSetup`: owns the render-target handles, names them once, and
      enqueues a frame's passes on the renderer. */
  class DefaultRendererSetup {
    var initialized: bool
    var targets: Targets

    /** Once initialised, the handles carry their names. */
    ghost predicate Valid()
      reads this
    {
      initialized ==> targets == NamedTargets
    }

    constructor ()
      ensures Valid() && !initialized && targets == UnassignedTargets
    {
      initialized := false;
      targets := UnassignedTargets;
    }

    /** `Init`: the first call names every handle and marks the object initialised; later
        calls change nothing. */
    method Init()
      requires Valid()
      modifies this
      ensures Valid() && initialized && targets == NamedTargets
      ensures old(initialized) ==> targets == old(targets)
    {
      if initialized {
        return;
      }
      targets := NamedTargets;
      initialized := true;
    }

    /** `Setup`: initialises, then enqueues exactly the frame's schedule, in order, after
        whatever the queue already held. */
    method Setup(renderer: ScriptableRenderer, renderingData: RenderingData, f: FrameInputs)
      requires Valid()
      modifies this, renderer
      ensures Valid() && initialized && targets == NamedTargets
      ensures renderer.passQueue == old(renderer.passQueue) + Schedule(NamedTargets, renderingData, f)
    {
      Init();
      ghost var table := FrameTable(targets, renderingData, f);
      ghost var q0 := renderer.passQueue;
      var colorHandle, depthHandle, clearFlag := EnqueueRenderTextures(renderer, renderingData, f);
      ghost var q1 := renderer.passQueue;
      var mainLightShadows, renderDeepShadowMap := EnqueueShadowCasters(renderer, renderingData, f);
      ghost var q2 := renderer.passQueue;
      var requiresDepthPrepass;
      requiresDepthPrepass, depthHandle :=
        EnqueueDepthPasses(renderer, renderingData, f, mainLightShadows, renderDeepShadowMap, depthHandle);
      ghost var q3 := renderer.passQueue;
      EnqueueOpaquePasses(renderer, renderingData, f, colorHandle, depthHandle, clearFlag, requiresDepthPrepass);
      ghost var q4 := renderer.passQueue;
      EnqueueAfterOpaquePasses(renderer, renderingData, f, colorHandle, depthHandle, requiresDepthPrepass);
      ghost var q5 := renderer.passQueue;
      EnqueueTransparentPasses(renderer, renderingData, f, colorHandle, depthHandle);
      StagesSplit(table, 0, 24, StageCount);
      StagesSplit(table, 0, 18, 24);
      StagesSplit(table, 0, 14, 18);
      StagesSplit(table, 0, 6, 14);
      StagesSplit(table, 0, 2, 6);
      Concat6(q0, Stages(table, 0, 2), Stages(table, 2, 6), Stages(table, 6, 14), Stages(table, 14, 18),
              Stages(table, 18, 24), Stages(table, 24, 30));
    }

    /** The intermediate textures when the frame renders to a texture, then the
        before-render hooks; yields the colour and depth handles and the camera's clear
        flag. */
    method EnqueueRenderTextures(renderer: ScriptableRenderer, renderingData: RenderingData, f: FrameInputs)
      returns (colorHandle: RenderTargetHandle, depthHandle: RenderTargetHandle, clearFlag: ClearFlag)
      modifies renderer
      ensures colorHandle == ColorHandle(targets, f) && depthHandle == AttachmentDepth(targets, f)
      ensures clearFlag == f.cameraClear
      ensures renderer.passQueue == old(renderer.passQueue) + Stages(FrameTable(targets, renderingData, f), 0, 2)
    {
      clearFlag := f.cameraClear;
      var requiresRenderToTexture := f.requiresIntermediateTexture || f.beforeRenderHooks != 0;
      colorHandle, depthHandle := CameraTarget, CameraTarget;
      if requiresRenderToTexture {
        colorHandle, depthHandle := targets.colorAttachment, targets.depthAttachment;
        renderer.EnqueuePass(CreateLightweightRenderTexturesPass(colorHandle, depthHandle,
                                                                 renderingData.cameraData.msaaSamples));
      }
      EnqueueHooks(renderer, BeforeRender, f.beforeRenderHooks, [colorHandle, depthHandle], Some(clearFlag));
      RenderTexturesRun(targets, renderingData, f);
    }

    /** The main-light, main-character, deep and additional-light shadow casters, each
        when its feature is on and its `Setup` succeeds; yields whether the main-light
        and deep casters were enqueued. */
    method EnqueueShadowCasters(renderer: ScriptableRenderer, renderingData: RenderingData, f: FrameInputs)
      returns (mainLightShadows: bool, renderDeepShadowMap: bool)
      modifies renderer
      ensures mainLightShadows == MainLightShadows(renderingData, f)
      ensures renderDeepShadowMap == DeepShadows(renderingData, f)
      ensures renderer.passQueue == old(renderer.passQueue) + Stages(FrameTable(targets, renderingData, f), 2, 6)
    {
      var shadowData := renderingData.shadowData;
      ghost var q0 := renderer.passQueue;
      mainLightShadows := false;
      if shadowData.supportsMainLightShadows {
        mainLightShadows := f.mainLightShadowsReady;
        if mainLightShadows {
          renderer.EnqueuePass(MainLightShadowCasterPass(targets.mainLightShadowmap));
        }
      }
      ghost var q1 := renderer.passQueue;
      assert q1 == q0 + When(MainLightShadows(renderingData, f), MainLightShadowCasterPass(targets.mainLightShadowmap));
      if shadowData.supportsMainCharacterShadows {
        if f.mainCharacterShadowsReady {
          renderer.EnqueuePass(MainCharacterShadowCasterPass(targets.mainCharacterShadowmap));
        }
      }
      ghost var q2 := renderer.passQueue;
      assert q2 == q1 + When(MainCharacterShadows(renderingData, f),
                             MainCharacterShadowCasterPass(targets.mainCharacterShadowmap));
      renderDeepShadowMap := shadowData.supportsDeepShadowMaps;
      if renderDeepShadowMap {
        renderDeepShadowMap := renderDeepShadowMap && f.deepShadowsReady;
        if renderDeepShadowMap {
          renderer.EnqueuePass(DeepShadowCasterPass);
        }
      }
      ghost var q3 := renderer.passQueue;
      assert q3 == q2 + When(DeepShadows(renderingData, f), DeepShadowCasterPass);
      if shadowData.supportsAdditionalLightShadows {
        if f.additionalLightShadowsReady {
          renderer.EnqueuePass(AdditionalLightsShadowCasterPass(targets.additionalLightsShadowmap));
        }
      }
      assert renderer.passQueue == q3 + When(AdditionalLightShadows(renderingData, f),
                                             AdditionalLightsShadowCasterPass(targets.additionalLightsShadowmap));
      ShadowCastersRun(targets, renderingData, f);
      Concat4(q0, When(MainLightShadows(renderingData, f), MainLightShadowCasterPass(targets.mainLightShadowmap)),
              When(MainCharacterShadows(renderingData, f), MainCharacterShadowCasterPass(targets.mainCharacterShadowmap)),
              When(DeepShadows(renderingData, f), DeepShadowCasterPass),
              When(AdditionalLightShadows(renderingData, f),
                   AdditionalLightsShadowCasterPass(targets.additionalLightsShadowmap)));
    }

    /** Forward setup, the prepass block, the depth-normals pass, the screen-space deep
        shadows and the screen-space shadow resolve; yields whether there is a prepass
        and the depth handle from here on. */
    method EnqueueDepthPasses(renderer: ScriptableRenderer, renderingData: RenderingData, f: FrameInputs,
                              mainLightShadows: bool, renderDeepShadowMap: bool, attachmentDepth: RenderTargetHandle)
      returns (requiresDepthPrepass: bool, depthHandle: RenderTargetHandle)
      requires mainLightShadows == MainLightShadows(renderingData, f)
      requires renderDeepShadowMap == DeepShadows(renderingData, f)
      requires attachmentDepth == AttachmentDepth(targets, f)
      modifies renderer
      ensures requiresDepthPrepass == RequiresDepthPrepass(renderingData, f)
      ensures depthHandle == DepthHandle(targets, renderingData, f)
      ensures renderer.passQueue == old(renderer.passQueue) + Stages(FrameTable(targets, renderingData, f), 6, 14)
    {
      var cameraData := renderingData.cameraData;
      var sampleCount := cameraData.msaaSamples;
      var resolveShadowsInScreenSpace := mainLightShadows && renderingData.shadowData.requiresScreenSpaceShadowResolve;
      requiresDepthPrepass := resolveShadowsInScreenSpace || cameraData.isSceneViewCamera
        || (cameraData.requiresDepthTexture && (!CanCopyDepth(cameraData, f.caps) || cameraData.isOffscreenRender));
      requiresDepthPrepass := requiresDepthPrepass || cameraData.isStereoEnabled;
      ghost var q0 := renderer.passQueue;
      renderer.EnqueuePass(SetupForwardRenderingPass);
      ghost var q1 := renderer.passQueue;
      var supportsOIT := cameraData.supportsOIT;
      requiresDepthPrepass := requiresDepthPrepass || supportsOIT;
      depthHandle := EnqueueDepthPrepass(renderer, renderingData, f, requiresDepthPrepass, attachmentDepth);
      ghost var q2 := renderer.passQueue;
      if cameraData.requiresDepthNormalsTexture {
        renderer.EnqueuePass(DepthNormalsPass(targets.depthNormalsTexture, depthHandle, requiresDepthPrepass,
                                              sampleCount));
      }
      ghost var q3 := renderer.passQueue;
      assert q3 == q2 + When(cameraData.requiresDepthNormalsTexture,
                             DepthNormalsPass(targets.depthNormalsTexture, DepthHandle(targets, renderingData, f),
                                              RequiresDepthPrepass(renderingData, f), cameraData.msaaSamples));
      // The screen-space pass's `Setup` always succeeds (ScreenSpaceDeepShadowMapsPass.Setup).
      if renderDeepShadowMap {
        renderer.EnqueuePass(ScreenSpaceDeepShadowMapsPass(targets.screenSpaceDeepShadowLut));
      }
      ghost var q4 := renderer.passQueue;
      assert q4 == q3 + When(DeepShadows(renderingData, f),
                             ScreenSpaceDeepShadowMapsPass(targets.screenSpaceDeepShadowLut));
      if resolveShadowsInScreenSpace {
        renderer.EnqueuePass(ScreenSpaceShadowResolvePass(targets.screenSpaceShadowmap));
      }
      assert renderer.passQueue == q4 + When(ResolveShadowsInScreenSpace(renderingData, f),
                                             ScreenSpaceShadowResolvePass(targets.screenSpaceShadowmap));
      DepthPassesRun(targets, renderingData, f);
      Concat5(q0, [SetupForwardRenderingPass], PrepassPasses(targets, renderingData, f),
              When(cameraData.requiresDepthNormalsTexture,
                   DepthNormalsPass(targets.depthNormalsTexture, DepthHandle(targets, renderingData, f),
                                    RequiresDepthPrepass(renderingData, f), cameraData.msaaSamples)),
              When(DeepShadows(renderingData, f),
                   ScreenSpaceDeepShadowMapsPass(targets.screenSpaceDeepShadowLut)),
              When(ResolveShadowsInScreenSpace(renderingData, f),
                   ScreenSpaceShadowResolvePass(targets.screenSpaceShadowmap)));
    }

    /** The prepass block: with a prepass, the depth-only pass into the depth texture
        (which becomes the depth handle), the after-depth-prepass hooks, and with OIT the
        copy into the OIT depth texture and the OIT depth pass. */
    method EnqueueDepthPrepass(renderer: ScriptableRenderer, renderingData: RenderingData, f: FrameInputs,
                               requiresDepthPrepass: bool, attachmentDepth: RenderTargetHandle)
      returns (depthHandle: RenderTargetHandle)
      requires requiresDepthPrepass == RequiresDepthPrepass(renderingData, f)
      requires attachmentDepth == AttachmentDepth(targets, f)
      modifies renderer
      ensures depthHandle == DepthHandle(targets, renderingData, f)
      ensures renderer.passQueue == old(renderer.passQueue) + PrepassPasses(targets, renderingData, f)
    {
      var sampleCount := renderingData.cameraData.msaaSamples;
      depthHandle := attachmentDepth;
      if requiresDepthPrepass {
        ghost var q0 := renderer.passQueue;
        renderer.EnqueuePass(DepthOnlyPass(targets.depthTexture, sampleCount));
        depthHandle := targets.depthTexture;
        ghost var q1 := renderer.passQueue;
        EnqueueHooks(renderer, AfterDepthPrePass, f.afterDepthPrePassHooks, [targets.depthTexture], None);
        ghost var q2 := renderer.passQueue;
        if renderingData.cameraData.supportsOIT {
          renderer.EnqueuePass(CopyDepthForOitPass(depthHandle, targets.oitDepthTexture));
        }
        ghost var q3 := renderer.passQueue;
        assert q3 == q2 + When(renderingData.cameraData.supportsOIT,
                               CopyDepthForOitPass(targets.depthTexture, targets.oitDepthTexture));
        if renderingData.cameraData.supportsOIT {
          renderer.EnqueuePass(OitDepthOnlyPass(targets.oitDepthTexture, sampleCount));
        }
        assert renderer.passQueue == q3 + When(renderingData.cameraData.supportsOIT,
                                               OitDepthOnlyPass(targets.oitDepthTexture, sampleCount));
        Concat4(q0, [DepthOnlyPass(targets.depthTexture, sampleCount)],
                HookPasses(AfterDepthPrePass, f.afterDepthPrePassHooks, [targets.depthTexture], None),
                When(renderingData.cameraData.supportsOIT,
                     CopyDepthForOitPass(targets.depthTexture, targets.oitDepthTexture)),
                When(renderingData.cameraData.supportsOIT, OitDepthOnlyPass(targets.oitDepthTexture, sampleCount)));
      }
    }

    /** Begin-XR in stereo, the lighting constants, the opaque pass (which does not clear
        colour when a before-render hook ran) and the after-opaque hooks. */
    method EnqueueOpaquePasses(renderer: ScriptableRenderer, renderingData: RenderingData, f: FrameInputs,
                               colorHandle: RenderTargetHandle, depthHandle: RenderTargetHandle,
                               cameraClear: ClearFlag, requiresDepthPrepass: bool)
      requires colorHandle == ColorHandle(targets, f) && depthHandle == DepthHandle(targets, renderingData, f)
      requires cameraClear == f.cameraClear && requiresDepthPrepass == RequiresDepthPrepass(renderingData, f)
      modifies renderer
      ensures renderer.passQueue == old(renderer.passQueue) + Stages(FrameTable(targets, renderingData, f), 14, 18)
    {
      var cameraData := renderingData.cameraData;
      ghost var q0 := renderer.passQueue;
      if cameraData.isStereoEnabled {
        renderer.EnqueuePass(BeginXRRenderingPass);
      }
      ghost var q1 := renderer.passQueue;
      assert q1 == q0 + When(cameraData.isStereoEnabled, BeginXRRenderingPass);
      renderer.EnqueuePass(SetupLightweightConstantsPass);
      ghost var q2 := renderer.passQueue;
      var clearFlag := cameraClear;
      if f.beforeRenderHooks != 0 {
        clearFlag := ClearNone;
      }
      renderer.EnqueuePass(RenderOpaqueForwardPass(colorHandle, depthHandle, clearFlag, requiresDepthPrepass));
      ghost var q3 := renderer.passQueue;
      EnqueueHooks(renderer, AfterOpaque, f.afterOpaqueHooks, [colorHandle, depthHandle], None);
      OpaqueHeadRun(targets, renderingData, f);
      Concat4(q0, When(cameraData.isStereoEnabled, BeginXRRenderingPass), [SetupLightweightConstantsPass],
              [RenderOpaqueForwardPass(colorHandle, depthHandle, clearFlag, requiresDepthPrepass)],
              HookPasses(AfterOpaque, f.afterOpaqueHooks, [colorHandle, depthHandle], None));
    }

    /** The opaque post-process and its hooks when post-processing is on and the layer
        has opaque-only effects, the skybox and its hooks, and the depth and colour
        copies. */
    method EnqueueAfterOpaquePasses(renderer: ScriptableRenderer, renderingData: RenderingData, f: FrameInputs,
                                    colorHandle: RenderTargetHandle, depthHandle: RenderTargetHandle,
                                    requiresDepthPrepass: bool)
      requires colorHandle == ColorHandle(targets, f) && depthHandle == DepthHandle(targets, renderingData, f)
      requires requiresDepthPrepass == RequiresDepthPrepass(renderingData, f)
      modifies renderer
      ensures renderer.passQueue == old(renderer.passQueue) + Stages(FrameTable(targets, renderingData, f), 18, 24)
    {
      var cameraData := renderingData.cameraData;
      ghost var q0 := renderer.passQueue;
      EnqueueOpaquePostProcess(renderer, renderingData, f, colorHandle, depthHandle);
      ghost var q1 := renderer.passQueue;
      if cameraData.camera.clearFlags == Skybox && f.skyboxMaterial {
        renderer.EnqueuePass(DrawSkyboxPass(colorHandle, depthHandle));
      }
      ghost var q2 := renderer.passQueue;
      assert q2 == q1 + When(DrawsSkybox(renderingData, f), DrawSkyboxPass(colorHandle, depthHandle));
      EnqueueHooks(renderer, AfterSkybox, f.afterSkyboxHooks, [colorHandle, depthHandle], None);
      ghost var q3 := renderer.passQueue;
      if cameraData.requiresDepthTexture && !requiresDepthPrepass {
        renderer.EnqueuePass(CopyDepthPass(depthHandle, targets.depthTexture));
      }
      ghost var q4 := renderer.passQueue;
      assert q4 == q3 + When(cameraData.requiresDepthTexture && !requiresDepthPrepass,
                             CopyDepthPass(depthHandle, targets.depthTexture));
      if cameraData.requiresOpaqueTexture {
        renderer.EnqueuePass(CopyColorPass(colorHandle, targets.opaqueColor));
      }
      assert renderer.passQueue == q4 + When(cameraData.requiresOpaqueTexture,
                                             CopyColorPass(colorHandle, targets.opaqueColor));
      OpaqueTailRun(targets, renderingData, f);
      Concat5(q0, OpaquePostProcessPasses(targets, renderingData, f),
              When(DrawsSkybox(renderingData, f), DrawSkyboxPass(colorHandle, depthHandle)),
              HookPasses(AfterSkybox, f.afterSkyboxHooks, [colorHandle, depthHandle], None),
              When(cameraData.requiresDepthTexture && !requiresDepthPrepass,
                   CopyDepthPass(depthHandle, targets.depthTexture)),
              When(cameraData.requiresOpaqueTexture, CopyColorPass(colorHandle, targets.opaqueColor)));
    }

    /** With post-processing on and opaque-only effects in the layer, the opaque
        post-process and the after-opaque-post-process hooks. */
    method EnqueueOpaquePostProcess(renderer: ScriptableRenderer, renderingData: RenderingData, f: FrameInputs,
                                    colorHandle: RenderTargetHandle, depthHandle: RenderTargetHandle)
      requires colorHandle == ColorHandle(targets, f) && depthHandle == DepthHandle(targets, renderingData, f)
      modifies renderer
      ensures renderer.passQueue == old(renderer.passQueue) + OpaquePostProcessPasses(targets, renderingData, f)
    {
      if renderingData.cameraData.postProcessEnabled {
        if f.hasOpaqueOnlyEffects {
          renderer.EnqueuePass(OpaquePostProcessPass(colorHandle));
          EnqueueHooks(renderer, AfterOpaquePostProcess, f.afterOpaquePostProcessHooks, [colorHandle, depthHandle],
                       None);
        }
      }
    }

    /** Moment OIT when on and set up, the transparent pass and its hooks, the
        transparent post-process or the final blit, the after-render hooks and End-XR in
        stereo. */
    method EnqueueTransparentPasses(renderer: ScriptableRenderer, renderingData: RenderingData, f: FrameInputs,
                                    colorHandle: RenderTargetHandle, depthHandle: RenderTargetHandle)
      requires colorHandle == ColorHandle(targets, f) && depthHandle == DepthHandle(targets, renderingData, f)
      modifies renderer
      ensures renderer.passQueue == old(renderer.passQueue) + Stages(FrameTable(targets, renderingData, f), 24, 30)
    {
      var cameraData := renderingData.cameraData;
      ghost var q0 := renderer.passQueue;
      if cameraData.supportsOIT {
        if f.momentOitReady {
          renderer.EnqueuePass(RenderMomentOitForwardPass(colorHandle, depthHandle));
        }
      }
      ghost var q1 := renderer.passQueue;
      assert q1 == q0 + When(cameraData.supportsOIT && f.momentOitReady,
                             RenderMomentOitForwardPass(colorHandle, depthHandle));
      renderer.EnqueuePass(RenderTransparentForwardPass(colorHandle, depthHandle));
      ghost var q2 := renderer.passQueue;
      EnqueueHooks(renderer, AfterTransparent, f.afterTransparentHooks, [colorHandle, depthHandle], None);
      ghost var q3 := renderer.passQueue;
      if cameraData.postProcessEnabled {
        renderer.EnqueuePass(TransparentPostProcessPass(colorHandle));
      } else if !cameraData.isOffscreenRender && colorHandle != CameraTarget {
        renderer.EnqueuePass(FinalBlitPass(colorHandle));
      }
      ghost var q4 := renderer.passQueue;
      assert q4 == q3 + FinalPasses(colorHandle, cameraData);
      EnqueueHooks(renderer, AfterRender, f.afterRenderHooks, [], None);
      ghost var q5 := renderer.passQueue;
      if cameraData.isStereoEnabled {
        renderer.EnqueuePass(EndXRRenderingPass);
      }
      assert renderer.passQueue == q5 + When(cameraData.isStereoEnabled, EndXRRenderingPass);
      TransparentPassesRun(targets, renderingData, f);
      Concat6(q0, When(cameraData.supportsOIT && f.momentOitReady, RenderMomentOitForwardPass(colorHandle, depthHandle)),
              [RenderTransparentForwardPass(colorHandle, depthHandle)],
              HookPasses(AfterTransparent, f.afterTransparentHooks, [colorHandle, depthHandle], None),
              FinalPasses(colorHandle, cameraData), HookPasses(AfterRender, f.afterRenderHooks, [], None),
              When(cameraData.isStereoEnabled, EndXRRenderingPass));
    }
  }
}
