# KhaosLWRP core, modelled in Dafny

This project models the core of KhaosLWRP, a fork of Unity's Lightweight Render Pipeline
(4.10.0-preview). The fork adds main-character shadows, deep shadow maps and
order-independent transparency (OIT). The model covers these parts:

- the per-camera scheduler `DefaultRendererSetup`, which decides which render passes are
  enqueued each frame and in what order;
- the custom passes: the main-character shadow caster, the deep shadow caster, the
  screen-space deep-shadow resolve, the OIT depth prepass, weighted and moment-based OIT,
  and the two depth-normals passes;
- the shadow helpers `ShadowUtils`: atlas tiling, slice and shadow transforms, shadow
  bias, and the tagged-caster scan;
- the render-queue ranges `RenderQueueUtils`;
- the frame records, keyword names, stereo test and camera sort in
  `LightweightRenderPipelineCore`.

How the model is built:

- A pass's `Execute` and `FrameCleanup` produce an `Outcome`. This is either the list of
  GPU commands recorded, in submission order (an abstract `Cmd` trace), or the
  `ArgumentNullException` the C# throws for a null argument.
- Passes whose fields `Setup` and `FrameCleanup` update are classes. Their methods state
  the whole new state.
- The scheduler is a pure function `RendererSetup.Schedule`. It splits a frame into 30
  stages. Lemmas prove which passes it enqueues, under which conditions, with which
  targets, and in which order.
- The class `RendererSetup.DefaultRendererSetup` performs `Init` and `Setup` step by step
  on a `ScriptableRenderer` pass queue. `Setup` is proved to append exactly
  `Schedule(NamedTargets, renderingData, frame)`.

Engine queries are inputs to the model: scene searches, culling results, square
roots, logarithms and projection matrices. The scheduler receives the `Setup` result
of each conditionally enqueued pass as a boolean of `FrameInputs`. For the passes of
the core, `RendererSetup.SetupResultsAgree` ties those booleans to the conditions the
pass models prove. `RendererSetup.PassSetupsDecideSchedule` then states the schedule in
those terms. The screen-space deep-shadow pass has no such boolean, because its
`Setup` always succeeds. Floats are modelled as reals and integers as unbounded integers.

Modules, one per source file: `RendererSetup` (default_renderer_setup.dfy), `ShadowUtils`,
`MainCharacterShadow`, `DeepShadowCaster`, `ScreenSpaceDeepShadow`, `OitDepthOnly`,
`WeightedOit`, `MomentOit`, `DepthNormals`, `DepthNormal`, `RenderQueueUtils` and
`PipelineCore`. Shared value types live in `RenderTypes` (handles, descriptors, bindings,
the command trace), `SceneBounds` (renderers and integer boxes), `Linear` (vectors and
4x4 matrices) and `Wrappers` (`Option`).

## Model

| member | source | states |
|---|---|---|
| RendererSetup.DefaultRendererSetup.constructor | SRP/com.unity.render-pipelines.lightweight@4.10.0-preview/Runtime/Core/DefaultRendererSetup.cs:38-53 | a new setup is not initialized and its handles are unassigned |
| RendererSetup.DefaultRendererSetup.Init | SRP/com.unity.render-pipelines.lightweight@4.10.0-preview/Runtime/Core/DefaultRendererSetup.cs:57-107 | after `Init` the setup is initialized and every handle holds its texture name; a second call changes nothing |
| RendererSetup.DefaultRendererSetup.Setup | SRP/com.unity.render-pipelines.lightweight@4.10.0-preview/Runtime/Core/DefaultRendererSetup.cs:109-322 | appends exactly `Schedule(NamedTargets, renderingData, frame)` to the renderer's pass queue, initializing first |
| RendererSetup.DefaultRendererSetup.EnqueueRenderTextures | SRP/com.unity.render-pipelines.lightweight@4.10.0-preview/Runtime/Core/DefaultRendererSetup.cs:118-142 | enqueues stages 0-1 (texture creation, before-render hooks) and returns the colour target, attachment depth and camera clear flag of the frame |
| RendererSetup.DefaultRendererSetup.EnqueueShadowCasters | SRP/com.unity.render-pipelines.lightweight@4.10.0-preview/Runtime/Core/DefaultRendererSetup.cs:144-175 | enqueues stages 2-5 (the four shadow casters) and returns whether main-light shadows and the deep shadow map are on |
| RendererSetup.DefaultRendererSetup.EnqueueDepthPasses | SRP/com.unity.render-pipelines.lightweight@4.10.0-preview/Runtime/Core/DefaultRendererSetup.cs:177-226 | enqueues stages 6-13 (forward setup, prepass, OIT depth, depth-normals, screen-space passes) and returns the prepass decision and the depth target |
| RendererSetup.DefaultRendererSetup.EnqueueDepthPrepass | SRP/com.unity.render-pipelines.lightweight@4.10.0-preview/Runtime/Core/DefaultRendererSetup.cs:188-204 | enqueues the prepass, its hooks and the two OIT depth passes exactly as stages 7-9 of the schedule |
| RendererSetup.DefaultRendererSetup.EnqueueOpaquePasses | SRP/com.unity.render-pipelines.lightweight@4.10.0-preview/Runtime/Core/DefaultRendererSetup.cs:229-244 | enqueues stages 14-17: Begin-XR in stereo, the lighting constants, the opaque pass and its hooks |
| RendererSetup.DefaultRendererSetup.EnqueueAfterOpaquePasses | SRP/com.unity.render-pipelines.lightweight@4.10.0-preview/Runtime/Core/DefaultRendererSetup.cs:246-278 | enqueues stages 18-23: opaque post-process and its hooks, skybox and its hooks, depth and colour copies |
| RendererSetup.DefaultRendererSetup.EnqueueOpaquePostProcess | SRP/com.unity.render-pipelines.lightweight@4.10.0-preview/Runtime/Core/DefaultRendererSetup.cs:246-257 | enqueues the opaque post-process and its hooks exactly when post-processing is on and the layer has opaque-only effects |
| RendererSetup.DefaultRendererSetup.EnqueueTransparentPasses | SRP/com.unity.render-pipelines.lightweight@4.10.0-preview/Runtime/Core/DefaultRendererSetup.cs:280-313 | enqueues stages 24-29: moment OIT, transparent pass and hooks, final pass, after-render hooks, End-XR |
| RendererSetup.ScriptableRenderer.EnqueuePass | SRP/com.unity.render-pipelines.lightweight@4.10.0-preview/Runtime/Core/DefaultRendererSetup.cs:136 | enqueuing appends the pass at the end of the queue and changes nothing else |
| RendererSetup.EnqueueHooks | SRP/com.unity.render-pipelines.lightweight@4.10.0-preview/Runtime/Core/DefaultRendererSetup.cs:139-142 | the hook loop appends one pass per component of the camera, in component order |
| RendererSetup.CanCopyDepth | SRP/com.unity.render-pipelines.lightweight@4.10.0-preview/Runtime/Core/DefaultRendererSetup.cs:324-336 | depth cannot be copied with MSAA; without MSAA it can be copied exactly when the device has a depth texture format or texture copy |
| RendererSetup.HookPasses | SRP/com.unity.render-pipelines.lightweight@4.10.0-preview/Runtime/Core/DefaultRendererSetup.cs:139-142 | the hook passes of a point number exactly the components present |
| RendererSetup.HookPassesMembers | SRP/com.unity.render-pipelines.lightweight@4.10.0-preview/Runtime/Core/DefaultRendererSetup.cs:139-142 | a hook pass is present exactly for component indices below the count, each given the point's targets and clear flag |
| RendererSetup.FinalPasses | SRP/com.unity.render-pipelines.lightweight@4.10.0-preview/Runtime/Core/DefaultRendererSetup.cs:296-305 | the transparent post-process is chosen exactly when post-processing is on; the final blit exactly when it is off, the render is onscreen and colour is not the camera target |
| RendererSetup.InSchedule | SRP/com.unity.render-pipelines.lightweight@4.10.0-preview/Runtime/Core/DefaultRendererSetup.cs:109-322 | a pass is scheduled exactly when it is among the passes of its own stage |
| RendererSetup.ScheduledAt | SRP/com.unity.render-pipelines.lightweight@4.10.0-preview/Runtime/Core/DefaultRendererSetup.cs:109-322 | a pass of stage k is scheduled exactly when it is in the entry of stage k |
| RendererSetup.ScheduleOrder | SRP/com.unity.render-pipelines.lightweight@4.10.0-preview/Runtime/Core/DefaultRendererSetup.cs:109-322 | a pass of an earlier stage is never enqueued after a pass of a later stage |
| RendererSetup.RenderTexturesWhenRequired | SRP/com.unity.render-pipelines.lightweight@4.10.0-preview/Runtime/Core/DefaultRendererSetup.cs:123-137 | the texture-creation pass is enqueued, with the colour and depth attachments, exactly when the frame renders to a texture |
| RendererSetup.BeforeRenderHooks | SRP/com.unity.render-pipelines.lightweight@4.10.0-preview/Runtime/Core/DefaultRendererSetup.cs:139-142 | one before-render pass per component, given the colour target, attachment depth and camera clear flag |
| RendererSetup.ShadowCastersWhenReady | SRP/com.unity.render-pipelines.lightweight@4.10.0-preview/Runtime/Core/DefaultRendererSetup.cs:144-175 | each of the four shadow casters is enqueued exactly when its feature is on and its `Setup` succeeds, into its own shadow map |
| RendererSetup.DepthPrepassWhenRequired | SRP/com.unity.render-pipelines.lightweight@4.10.0-preview/Runtime/Core/DefaultRendererSetup.cs:177-204 | the prepass is enqueued exactly when a prepass is required; its hooks follow it; from then on the depth target is the depth texture |
| RendererSetup.DepthTextureFilledOnce | SRP/com.unity.render-pipelines.lightweight@4.10.0-preview/Runtime/Core/DefaultRendererSetup.cs:268-272 | the depth copy is enqueued exactly when the depth texture is required and there is no prepass, so the two never coexist |
| RendererSetup.OitDepthAfterPrepass | SRP/com.unity.render-pipelines.lightweight@4.10.0-preview/Runtime/Core/DefaultRendererSetup.cs:186-204 | with OIT on, the prepass is forced; the OIT depth copy and OIT depth pass follow the prepass and its hooks |
| RendererSetup.OitDepthWhenSupported | SRP/com.unity.render-pipelines.lightweight@4.10.0-preview/Runtime/Core/DefaultRendererSetup.cs:197-203 | the OIT depth copy and OIT depth pass are enqueued exactly when OIT is on, both with the OIT depth texture |
| RendererSetup.ScreenSpacePasses | SRP/com.unity.render-pipelines.lightweight@4.10.0-preview/Runtime/Core/DefaultRendererSetup.cs:206-226 | depth-normals runs exactly when the camera requires it, with the frame's depth target and prepass flag; screen-space deep shadows run exactly when deep shadow maps are on and the deep caster's `Setup` succeeds, that is, exactly when the deep caster runs, since their own `Setup` always succeeds; the screen-space resolve runs exactly when shadows resolve in screen space, and then with the main-light caster and the prepass |
| RendererSetup.OpaqueEveryFrame | SRP/com.unity.render-pipelines.lightweight@4.10.0-preview/Runtime/Core/DefaultRendererSetup.cs:183-242 | every frame enqueues forward setup, lighting constants and one opaque pass with the frame's targets and clear flag |
| RendererSetup.AfterOpaquePasses | SRP/com.unity.render-pipelines.lightweight@4.10.0-preview/Runtime/Core/DefaultRendererSetup.cs:246-278 | opaque post-process, skybox and colour copy are enqueued exactly under their source conditions |
| RendererSetup.TransparentEveryFrame | SRP/com.unity.render-pipelines.lightweight@4.10.0-preview/Runtime/Core/DefaultRendererSetup.cs:282-291 | moment OIT is enqueued exactly when OIT is on and its `Setup` succeeds; the transparent pass is enqueued every frame |
| RendererSetup.PassSetupsDecideSchedule | SRP/com.unity.render-pipelines.lightweight@4.10.0-preview/Runtime/Core/DefaultRendererSetup.cs:152-288 | when the `Setup` results agree with the pass models, the main-character caster, the deep caster and the screen-space deep shadows run exactly when their feature is on and the main light casts shadows with caster bounds, and moment OIT runs exactly when OIT is on and some enabled renderer lies in the OIT range |
| RendererSetup.FinalPassChoice | SRP/com.unity.render-pipelines.lightweight@4.10.0-preview/Runtime/Core/DefaultRendererSetup.cs:296-305 | the frame ends with the transparent post-process or the final blit, never both, as `FinalPasses` decides |
| RendererSetup.StereoBrackets | SRP/com.unity.render-pipelines.lightweight@4.10.0-preview/Runtime/Core/DefaultRendererSetup.cs:181-313 | a stereo frame has both Begin-XR and End-XR and a prepass; a mono frame has neither bracket |
| RendererSetup.AfterOpaqueHooks | SRP/com.unity.render-pipelines.lightweight@4.10.0-preview/Runtime/Core/DefaultRendererSetup.cs:243-244 | one after-opaque pass per component, given the colour and depth targets |
| RendererSetup.AfterOpaquePostProcessHooks | SRP/com.unity.render-pipelines.lightweight@4.10.0-preview/Runtime/Core/DefaultRendererSetup.cs:254-255 | the after-opaque-post-process hooks run only with the opaque post-process |
| RendererSetup.AfterSkyboxHooks | SRP/com.unity.render-pipelines.lightweight@4.10.0-preview/Runtime/Core/DefaultRendererSetup.cs:265-266 | one after-skybox pass per component, given the colour and depth targets |
| RendererSetup.AfterTransparentHooks | SRP/com.unity.render-pipelines.lightweight@4.10.0-preview/Runtime/Core/DefaultRendererSetup.cs:293-294 | one after-transparent pass per component, given the colour and depth targets |
| RendererSetup.AfterRenderHooks | SRP/com.unity.render-pipelines.lightweight@4.10.0-preview/Runtime/Core/DefaultRendererSetup.cs:307-308 | one after-render pass per component, given no targets |
| RendererSetup.NamedHandles | SRP/com.unity.render-pipelines.lightweight@4.10.0-preview/Runtime/Core/DefaultRendererSetup.cs:126-239 | colour is an intermediate texture exactly when rendering to a texture; depth is the camera target exactly without texture and prepass |
| RendererSetup.FrameOrder | SRP/com.unity.render-pipelines.lightweight@4.10.0-preview/Runtime/Core/DefaultRendererSetup.cs:229-313 | Begin-XR, opaque, opaque post-process, skybox, depth copy, colour copy, moment OIT, transparent and End-XR are enqueued in this order |
| ShadowUtils.GetMaxTileResolutionInAtlas | SRP/com.unity.render-pipelines.lightweight@4.10.0-preview/Runtime/Utils/ShadowUtils.cs:75-85 | the result is the shorter atlas side halved until the tile count reaches `tileCount`; it is at least 1, and every earlier halving gives too few tiles |
| ShadowUtils.TileCountAtOneTexel | SRP/com.unity.render-pipelines.lightweight@4.10.0-preview/Runtime/Utils/ShadowUtils.cs:78-82 | at one texel per tile the tile count is the atlas area, so the halving loop stops |
| ShadowUtils.CascadesTileWithoutOverlap | SRP/com.unity.render-pipelines.lightweight@4.10.0-preview/Runtime/Utils/ShadowUtils.cs:36-38 | the four cascade tiles lie in the 2x2 grid and no two overlap |
| ShadowUtils.ApplySliceTransform | SRP/com.unity.render-pipelines.lightweight@4.10.0-preview/Runtime/Utils/ShadowUtils.cs:87-99 | only the shadow transform changes; it becomes the slice transform after the old one |
| ShadowUtils.SliceTransformMapsIntoTile | SRP/com.unity.render-pipelines.lightweight@4.10.0-preview/Runtime/Utils/ShadowUtils.cs:87-98 | the slice transform maps the unit texture square into the slice's tile of the atlas |
| ShadowUtils.ReverseZ | SRP/com.unity.render-pipelines.lightweight@4.10.0-preview/Runtime/Utils/ShadowUtils.cs:203-209 | the reversal keeps rows 0, 1 and 3 of the projection; `ReverseZNegatesDepth` gives row 2 |
| ShadowUtils.ReverseZNegatesDepth | SRP/com.unity.render-pipelines.lightweight@4.10.0-preview/Runtime/Utils/ShadowUtils.cs:203-209 | the reversed projection negates depth and keeps x, y and w |
| ShadowUtils.TextureScaleAndBiasMapsClipToTexture | SRP/com.unity.render-pipelines.lightweight@4.10.0-preview/Runtime/Utils/ShadowUtils.cs:213-222 | the texture scale and bias maps clip space [-1, 1] onto texture space [0, 1] |
| ShadowUtils.GetShadowTransformComposes | SRP/com.unity.render-pipelines.lightweight@4.10.0-preview/Runtime/Utils/ShadowUtils.cs:199-223 | the shadow transform takes a world point through view, device projection and texture scale-bias |
| ShadowUtils.ExtractDirectionalLightMatrix | SRP/com.unity.render-pipelines.lightweight@4.10.0-preview/Runtime/Utils/ShadowUtils.cs:28-49 | the cascade's tile offset, resolution and matrices; the slice transform is applied only with more than one cascade |
| ShadowUtils.ExtractSpotLightMatrix | SRP/com.unity.render-pipelines.lightweight@4.10.0-preview/Runtime/Utils/ShadowUtils.cs:51-57 | the spot shadow matrix is the shadow transform of the light's view and projection |
| ShadowUtils.RenderShadowSlice | SRP/com.unity.render-pipelines.lightweight@4.10.0-preview/Runtime/Utils/ShadowUtils.cs:59-73 | viewport is the tile, scissor is the tile inset by 4 texels, then view-projection, shadow draw, scissor off |
| ShadowUtils.SetupShadowCasterConstantBuffer | SRP/com.unity.render-pipelines.lightweight@4.10.0-preview/Runtime/Utils/ShadowUtils.cs:151-156 | uploads the bias and the negated light forward axis with w = 0 |
| ShadowUtils.GetShadowBias | SRP/com.unity.render-pipelines.lightweight@4.10.0-preview/Runtime/Utils/ShadowUtils.cs:101-149 | zero for an invalid light index or a light that is neither directional nor spot; z and w are always 0 |
| ShadowUtils.ShadowBiasIsTexelScaled | SRP/com.unity.render-pipelines.lightweight@4.10.0-preview/Runtime/Utils/ShadowUtils.cs:109-134 | hard-shadow biases are minus the configured bias times frustum size over resolution |
| ShadowUtils.ShadowBiasHalvesWithDoubledResolution | SRP/com.unity.render-pipelines.lightweight@4.10.0-preview/Runtime/Utils/ShadowUtils.cs:132-134 | doubling the shadow-map resolution halves both biases |
| ShadowUtils.SoftShadowBiasIsScaled | SRP/com.unity.render-pipelines.lightweight@4.10.0-preview/Runtime/Utils/ShadowUtils.cs:136-146 | soft shadows multiply both biases by exactly 2.5 |
| ShadowUtils.GetVPMatrixWithWorldBounds | SRP/com.unity.render-pipelines.lightweight@4.10.0-preview/Runtime/Utils/ShadowUtils.cs:227-243 | culling sphere is the bounds' centre and extents length; projection is the ortho projection for that radius |
| ShadowUtils.GetVPMatrixLooksAtCenter | SRP/com.unity.render-pipelines.lightweight@4.10.0-preview/Runtime/Utils/ShadowUtils.cs:234-242 | the view puts the bounds' centre straight ahead of the light, 1.2 radii away |
| ShadowUtils.TaggedCastersMembers | SRP/com.unity.render-pipelines.lightweight@4.10.0-preview/Runtime/Utils/ShadowUtils.cs:259-287 | a renderer is collected exactly when it is enabled, casts shadows and an object with one of the tags holds it |
| ShadowUtils.CollectCasters | SRP/com.unity.render-pipelines.lightweight@4.10.0-preview/Runtime/Utils/ShadowUtils.cs:266-286 | the inner scan appends qualifying renderers in scan order and keeps the union of their bounds |
| ShadowUtils.GetVPMatrixWithTags | SRP/com.unity.render-pipelines.lightweight@4.10.0-preview/Runtime/Utils/ShadowUtils.cs:252-296 | the list holds exactly the qualifying renderers in scan order; none found gives false with identity matrices and a zero sphere; otherwise true with the view-projection around their union |
| ShadowUtils.GetVPMatrixWithTag | SRP/com.unity.render-pipelines.lightweight@4.10.0-preview/Runtime/Utils/ShadowUtils.cs:245-250 | the same scan with the single tag |
| SceneBounds.Encapsulate | SRP/com.unity.render-pipelines.lightweight@4.10.0-preview/Runtime/Utils/ShadowUtils.cs:278 | the result holds both boxes and is the smallest box that does |
| SceneBounds.UnionEnclosesAll | SRP/com.unity.render-pipelines.lightweight@4.10.0-preview/Runtime/Utils/ShadowUtils.cs:275-283 | the folded bounds hold every kept renderer's bounds |
| SceneBounds.UnionIsLeast | SRP/com.unity.render-pipelines.lightweight@4.10.0-preview/Runtime/Utils/ShadowUtils.cs:275-283 | any box holding every kept renderer holds the folded bounds |
| SceneBounds.KeptMembers | SRP/com.unity.render-pipelines.lightweight@4.10.0-preview/Runtime/Utils/ShadowUtils.cs:266-269 | a renderer is kept exactly when the scan holds it and it passes the test |
| MainCharacterShadow.ShadowmapFormat | SRP/com.unity.render-pipelines.lightweight@4.10.0-preview/Runtime/Passes/MainCharacterShadowCasterPass.cs:30-32 | Shadowmap format when supported, otherwise Depth |
| MainCharacterShadow.MainCharacterSlice | SRP/com.unity.render-pipelines.lightweight@4.10.0-preview/Runtime/Passes/MainCharacterShadowCasterPass.cs:138-143 | the slice is at (0, 0) with resolution equal to the map width |
| MainCharacterShadow.ShadowmapSize | SRP/com.unity.render-pipelines.lightweight@4.10.0-preview/Runtime/Passes/MainCharacterShadowCasterPass.cs:177-185 | the size vector is (w, h) preceded by their reciprocals |
| MainCharacterShadow.ShadowOffsetsAreHalfTexelCorners | SRP/com.unity.render-pipelines.lightweight@4.10.0-preview/Runtime/Passes/MainCharacterShadowCasterPass.cs:179-189 | the four offsets are the four sign combinations of half a texel, with z = w = 0 |
| MainCharacterShadow.SquaredRadiusSphere | SRP/com.unity.render-pipelines.lightweight@4.10.0-preview/Runtime/Passes/MainCharacterShadowCasterPass.cs:190-192 | the uploaded sphere keeps its centre and its fourth component is a non-negative radius |
| MainCharacterShadow.SquaredRadiusComparesDistances | SRP/com.unity.render-pipelines.lightweight@4.10.0-preview/Runtime/Passes/MainCharacterShadowCasterPass.cs:190-192 | comparing a squared distance with the squared radius is the same as comparing the distance with the radius |
| MainCharacterShadow.ReceiverConstants | SRP/com.unity.render-pipelines.lightweight@4.10.0-preview/Runtime/Passes/MainCharacterShadowCasterPass.cs:162-194 | nine commands: the shadow-map texture published under the destination's name first, and no other texture |
| MainCharacterShadow.MainCharacterShadowPositions | SRP/com.unity.render-pipelines.lightweight@4.10.0-preview/Runtime/Passes/MainCharacterShadowCasterPass.cs:111-159 | the shadow map is allocated only at 0, bound only at 1, the shadow draw only at 8 and the texture published only at 10 |
| MainCharacterShadow.MainCharacterShadowOrder | SRP/com.unity.render-pipelines.lightweight@4.10.0-preview/Runtime/Passes/MainCharacterShadowCasterPass.cs:111-159 | the map is allocated before it is bound, drawn into or published; binding and view-projection precede the draw; publication follows it |
| MainCharacterShadow.MainCharacterShadowKeywords | SRP/com.unity.render-pipelines.lightweight@4.10.0-preview/Runtime/Passes/MainCharacterShadowCasterPass.cs:156-157 | after the trace, whatever came before, main-character shadows are on and soft shadows are on exactly as requested |
| MainCharacterShadow.CleanupCommands | SRP/com.unity.render-pipelines.lightweight@4.10.0-preview/Runtime/Passes/MainCharacterShadowCasterPass.cs:79-85 | cleanup first resets `_IsMainCharacter` to 0 and releases a texture exactly when it is the held one |
| MainCharacterShadow.MainCharacterCleanupBalances | SRP/com.unity.render-pipelines.lightweight@4.10.0-preview/Runtime/Passes/MainCharacterShadowCasterPass.cs:75-118 | the cleanup after a recording `Execute` releases the one texture `Execute` allocated |
| MainCharacterShadow.MainCharacterShadowCasterPass.constructor | SRP/com.unity.render-pipelines.lightweight@4.10.0-preview/Runtime/Passes/MainCharacterShadowCasterPass.cs:26-33 | registers "ShadowCaster" and picks the map format |
| MainCharacterShadow.MainCharacterShadowCasterPass.Setup | SRP/com.unity.render-pipelines.lightweight@4.10.0-preview/Runtime/Passes/MainCharacterShadowCasterPass.cs:35-61 | stores the destination; succeeds exactly when there is a main light that casts shadows and has caster bounds; nothing else changes |
| MainCharacterShadow.MainCharacterShadowCasterPass.GetVPMatrix | SRP/com.unity.render-pipelines.lightweight@4.10.0-preview/Runtime/Passes/MainCharacterShadowCasterPass.cs:63-73 | the caster list is the qualifying "Player" renderers; with none the matrices are identity and the sphere zero; otherwise the view-projection around their bounds and its shadow matrix |
| MainCharacterShadow.MainCharacterShadowCasterPass.AcquireShadowmap | SRP/com.unity.render-pipelines.lightweight@4.10.0-preview/Runtime/Passes/MainCharacterShadowCasterPass.cs:114-118 | the pass now holds the named shadow-map texture and nothing else changes |
| MainCharacterShadow.MainCharacterShadowCasterPass.RenderForLight | SRP/com.unity.render-pipelines.lightweight@4.10.0-preview/Runtime/Passes/MainCharacterShadowCasterPass.cs:103-159 | records nothing without casters; otherwise takes the texture and records the shadow trace, soft exactly when the light is soft and soft shadows are supported |
| MainCharacterShadow.MainCharacterShadowCasterPass.Execute | SRP/com.unity.render-pipelines.lightweight@4.10.0-preview/Runtime/Passes/MainCharacterShadowCasterPass.cs:89-160 | throws on a null renderer; records nothing when the feature is off, without a main light or without casters |
| MainCharacterShadow.MainCharacterShadowCasterPass.FrameCleanup | SRP/com.unity.render-pipelines.lightweight@4.10.0-preview/Runtime/Passes/MainCharacterShadowCasterPass.cs:75-86 | throws on null; otherwise records `CleanupCommands` of the held texture and drops it, so a second cleanup releases nothing |
| DeepShadowCaster.NewDeepShadowMapsBuffer | SRP/com.unity.render-pipelines.lightweight@4.10.0-preview/Runtime/Passes/DeepShadowCasterPass.cs:11-36 | count buffer of 1024² elements of 4 bytes; data buffer of 1024²·32 elements of 8 bytes |
| DeepShadowCaster.ResetDispatchCoversMap | SRP/com.unity.render-pipelines.lightweight@4.10.0-preview/Runtime/Passes/DeepShadowCasterPass.cs:124 | the reset dispatch of (1024/8)² groups of 8x8 threads covers exactly the count buffer |
| DeepShadowCaster.MaterialDraws | SRP/com.unity.render-pipelines.lightweight@4.10.0-preview/Runtime/Passes/DeepShadowCasterPass.cs:145-148 | one draw per material slot, in slot order |
| DeepShadowCaster.DeepShadowDrawsMembers | SRP/com.unity.render-pipelines.lightweight@4.10.0-preview/Runtime/Passes/DeepShadowCasterPass.cs:143-149 | the caster draws are exactly one draw per renderer per material slot |
| DeepShadowCaster.ResolverCommands | SRP/com.unity.render-pipelines.lightweight@4.10.0-preview/Runtime/Passes/DeepShadowCasterPass.cs:154-181 | three commands, the last unbinding the random-write targets |
| DeepShadowCaster.DeepShadowCasterStages | SRP/com.unity.render-pipelines.lightweight@4.10.0-preview/Runtime/Passes/DeepShadowCasterPass.cs:121-156 | reset, cast set-up, draws and resolver constants appear in that order |
| DeepShadowCaster.DeepShadowCasterPositions | SRP/com.unity.render-pipelines.lightweight@4.10.0-preview/Runtime/Passes/DeepShadowCasterPass.cs:121-156 | the dispatch only at 2, bindings and view-projection only in 3-11, draws only after them, the unbind only last; nothing allocates |
| DeepShadowCaster.DeepShadowCasterOrder | SRP/com.unity.render-pipelines.lightweight@4.10.0-preview/Runtime/Passes/DeepShadowCasterPass.cs:121-155 | the reset dispatch precedes the random-write bindings and every draw; the unbind follows every draw |
| DeepShadowCaster.DeepShadowCasterPass.constructor | SRP/com.unity.render-pipelines.lightweight@4.10.0-preview/Runtime/Passes/DeepShadowCasterPass.cs:26-29 | registers "DeepShadowCaster" with no casters and no buffers |
| DeepShadowCaster.DeepShadowCasterPass.Setup | SRP/com.unity.render-pipelines.lightweight@4.10.0-preview/Runtime/Passes/DeepShadowCasterPass.cs:38-66 | succeeds exactly when there is a main light that casts shadows and has caster bounds; then it holds the count and data buffers; a failed setup changes nothing |
| DeepShadowCaster.DeepShadowCasterPass.FrameCleanup | SRP/com.unity.render-pipelines.lightweight@4.10.0-preview/Runtime/Passes/DeepShadowCasterPass.cs:68-73 | throws on null; otherwise records nothing |
| DeepShadowCaster.DeepShadowCasterPass.GetVPMatrix | SRP/com.unity.render-pipelines.lightweight@4.10.0-preview/Runtime/Passes/DeepShadowCasterPass.cs:75-85 | the caster list is the qualifying "Player" renderers; with none the matrices are identity; otherwise the view-projection around their bounds and its shadow matrix |
| DeepShadowCaster.DeepShadowCasterPass.RecordDraws | SRP/com.unity.render-pipelines.lightweight@4.10.0-preview/Runtime/Passes/DeepShadowCasterPass.cs:143-149 | the loop records `DeepShadowDraws` of the caster list |
| DeepShadowCaster.DeepShadowCasterPass.CastForLight | SRP/com.unity.render-pipelines.lightweight@4.10.0-preview/Runtime/Passes/DeepShadowCasterPass.cs:104-159 | records nothing without casters; otherwise loads the reset compute and records the reset, set-up, draws and resolver constants with the main-character map bias |
| DeepShadowCaster.DeepShadowCasterPass.LoadResetCompute | SRP/com.unity.render-pipelines.lightweight@4.10.0-preview/Runtime/Passes/DeepShadowCasterPass.cs:112-116 | the reset compute is loaded and nothing else changes |
| DeepShadowCaster.DeepShadowCasterPass.Execute | SRP/com.unity.render-pipelines.lightweight@4.10.0-preview/Runtime/Passes/DeepShadowCasterPass.cs:88-160 | throws on a null renderer; records nothing and changes nothing without a main light; otherwise as `CastForLight` for the main light |
| ScreenSpaceDeepShadow.LutFormat | SRP/com.unity.render-pipelines.lightweight@4.10.0-preview/Runtime/Passes/ScreenSpaceDeepShadowMapsPass.cs:32-34 | R8 when supported, otherwise ARGB32 |
| ScreenSpaceDeepShadow.LutDescriptor | SRP/com.unity.render-pipelines.lightweight@4.10.0-preview/Runtime/Passes/ScreenSpaceDeepShadowMapsPass.cs:66-68 | the camera descriptor in the look-up format with no depth buffer |
| ScreenSpaceDeepShadow.ScreenSpaceDeepShadowCommands | SRP/com.unity.render-pipelines.lightweight@4.10.0-preview/Runtime/Passes/ScreenSpaceDeepShadowMapsPass.cs:110-136 | the five resolve commands followed by the four blur commands |
| ScreenSpaceDeepShadow.ResolveBeforeBlur | SRP/com.unity.render-pipelines.lightweight@4.10.0-preview/Runtime/Passes/ScreenSpaceDeepShadowMapsPass.cs:118-131 | every blit reads only what an earlier blit wrote; the blur reads the look-up texture the resolve wrote into a different target; buffers reach the material before any blit; each target is allocated and cleared before its blit |
| ScreenSpaceDeepShadow.ScreenSpaceDeepShadowCleanupBalances | SRP/com.unity.render-pipelines.lightweight@4.10.0-preview/Runtime/Passes/ScreenSpaceDeepShadowMapsPass.cs:73-127 | `Execute` allocates exactly the look-up and blur textures and the cleanup releases both |
| ScreenSpaceDeepShadow.ScreenSpaceDeepShadowMapsPass.constructor | SRP/com.unity.render-pipelines.lightweight@4.10.0-preview/Runtime/Passes/ScreenSpaceDeepShadowMapsPass.cs:29-35 | registers "DeepShadowCaster" and picks the look-up format |
| ScreenSpaceDeepShadow.ScreenSpaceDeepShadowMapsPass.Setup | SRP/com.unity.render-pipelines.lightweight@4.10.0-preview/Runtime/Passes/ScreenSpaceDeepShadowMapsPass.cs:37-71 | always succeeds; holds the two deep-shadow buffers, the look-up handle, the named blur handle and the look-up descriptor |
| ScreenSpaceDeepShadow.ScreenSpaceDeepShadowMapsPass.Execute | SRP/com.unity.render-pipelines.lightweight@4.10.0-preview/Runtime/Passes/ScreenSpaceDeepShadowMapsPass.cs:91-137 | throws on a null renderer; records nothing without a main light; otherwise resolve then blur |
| ScreenSpaceDeepShadow.ScreenSpaceDeepShadowMapsPass.FrameCleanup | SRP/com.unity.render-pipelines.lightweight@4.10.0-preview/Runtime/Passes/ScreenSpaceDeepShadowMapsPass.cs:73-88 | throws on null; releases the handles that are not the camera target and resets them |
| OitDepthOnly.OitDepthDescriptor | SRP/com.unity.render-pipelines.lightweight@4.10.0-preview/Runtime/Passes/OITDepthOnlyPass.cs:42-52 | Depth format with 32 bits and the camera size; above one sample that count without a multisampled binding, otherwise the camera's MSAA settings |
| OitDepthOnly.DepthMsaaKeywordsSelectOne | SRP/com.unity.render-pipelines.lightweight@4.10.0-preview/Runtime/Passes/OITDepthOnlyPass.cs:74-93 | exactly one variant ends up on: Msaa4 for 4 samples, Msaa2 for other counts above 1, NoMsaa otherwise |
| OitDepthOnly.OitDepthPrelude | SRP/com.unity.render-pipelines.lightweight@4.10.0-preview/Runtime/Passes/OITDepthOnlyPass.cs:65-94 | five commands, the first binding the depth target loaded and stored with nothing cleared |
| OitDepthOnly.OitDepthCommands | SRP/com.unity.render-pipelines.lightweight@4.10.0-preview/Runtime/Passes/OITDepthOnlyPass.cs:61-111 | the prelude, then the draw of the OIT range with the pass names, seven commands in all |
| OitDepthOnly.OitDepthDrawState | SRP/com.unity.render-pipelines.lightweight@4.10.0-preview/Runtime/Passes/OITDepthOnlyPass.cs:65-107 | after the prelude alpha testing is on and exactly the depth variant of the sample count is on |
| OitDepthOnly.OitDepthRestoresState | SRP/com.unity.render-pipelines.lightweight@4.10.0-preview/Runtime/Passes/OITDepthOnlyPass.cs:108 | afterwards alpha testing is off and nothing was allocated |
| OitDepthOnly.OITDepthOnlyPass.constructor | SRP/com.unity.render-pipelines.lightweight@4.10.0-preview/Runtime/Passes/OITDepthOnlyPass.cs:25-32 | registers "DepthOnly" and filters to the OIT range |
| OitDepthOnly.OITDepthOnlyPass.Setup | SRP/com.unity.render-pipelines.lightweight@4.10.0-preview/Runtime/Passes/OITDepthOnlyPass.cs:37-53 | stores the depth target and the 32-bit depth descriptor |
| OitDepthOnly.OITDepthOnlyPass.Execute | SRP/com.unity.render-pipelines.lightweight@4.10.0-preview/Runtime/Passes/OITDepthOnlyPass.cs:56-112 | throws on a null renderer; otherwise the trace of `OitDepthCommands` |
| OitDepthOnly.OITDepthOnlyPass.FrameCleanup | SRP/com.unity.render-pipelines.lightweight@4.10.0-preview/Runtime/Passes/OITDepthOnlyPass.cs:115-125 | throws on null; otherwise releases nothing |
| DepthNormals.DepthNormalsDescriptor | SRP/com.unity.render-pipelines.lightweight@4.10.0-preview/Runtime/Passes/DepthNormalsPass.cs:39-41 | ARGB32, with no depth buffer after a prepass and 16 bits otherwise |
| DepthNormals.DepthNormalsCommands | SRP/com.unity.render-pipelines.lightweight@4.10.0-preview/Runtime/Passes/DepthNormalsPass.cs:51-99 | four commands: the normals texture allocated first, the draw of the given range last |
| DepthNormals.DepthNormalsDepthSource | SRP/com.unity.render-pipelines.lightweight@4.10.0-preview/Runtime/Passes/DepthNormalsPass.cs:56-82 | colour is always cleared; after a prepass the prepass depth is bound, loaded and not cleared, the texture has no depth and alpha test is off; otherwise its own depth is cleared and alpha test is on |
| DepthNormals.DepthNormalsCleanupBalances | SRP/com.unity.render-pipelines.lightweight@4.10.0-preview/Runtime/Passes/DepthNormalsPass.cs:54-112 | the one texture allocated is the normals texture, and the cleanup releases it |
| DepthNormals.DepthNormalsPass.constructor | SRP/com.unity.render-pipelines.lightweight@4.10.0-preview/Runtime/Passes/DepthNormalsPass.cs:22-29 | registers "DepthNormals" and filters to the opaque range |
| DepthNormals.DepthNormalsPass.Setup | SRP/com.unity.render-pipelines.lightweight@4.10.0-preview/Runtime/Passes/DepthNormalsPass.cs:34-43 | stores both targets, the prepass flag and the descriptor |
| DepthNormals.DepthNormalsPass.Execute | SRP/com.unity.render-pipelines.lightweight@4.10.0-preview/Runtime/Passes/DepthNormalsPass.cs:46-100 | throws on a null renderer; otherwise the trace of `DepthNormalsCommands` |
| DepthNormals.DepthNormalsPass.FrameCleanup | SRP/com.unity.render-pipelines.lightweight@4.10.0-preview/Runtime/Passes/DepthNormalsPass.cs:103-112 | throws on null; releases the handle unless it is the camera target and resets it |
| DepthNormal.DepthNormalDescriptor | SRP/com.unity.render-pipelines.lightweight@4.10.0-preview/Runtime/Passes/DepthNormalPass.cs:42-44 | 32 depth bits; colour format unchanged |
| DepthNormal.DepthNormalDrawsIntoClearedTarget | SRP/com.unity.render-pipelines.lightweight@4.10.0-preview/Runtime/Passes/DepthNormalPass.cs:56-79 | the draw goes to a freshly allocated, fully cleared target, and that is the only allocation |
| DepthNormal.DepthNormalPass.constructor | SRP/com.unity.render-pipelines.lightweight@4.10.0-preview/Runtime/Passes/DepthNormalPass.cs:26-33 | registers "DepthNormal" and filters to the opaque range |
| DepthNormal.DepthNormalPass.Setup | SRP/com.unity.render-pipelines.lightweight@4.10.0-preview/Runtime/Passes/DepthNormalPass.cs:38-45 | stores the target and its 32-bit depth descriptor |
| DepthNormal.DepthNormalPass.Execute | SRP/com.unity.render-pipelines.lightweight@4.10.0-preview/Runtime/Passes/DepthNormalPass.cs:48-83 | throws on a null renderer; otherwise the trace of `DepthNormalCommands` |
| DepthNormal.DepthNormalPass.FrameCleanup | SRP/com.unity.render-pipelines.lightweight@4.10.0-preview/Runtime/Passes/DepthNormalPass.cs:86-95 | throws on null; releases the target unless it is the camera target and resets it |
| WeightedOit.AccumColorDescriptor | SRP/com.unity.render-pipelines.lightweight@4.10.0-preview/Runtime/Passes/RenderWeightedOITForwardPass.cs:55-63 | ARGBHalf with no depth buffer, the camera size, and above one sample that sample count without a multisampled binding |
| WeightedOit.AccumAlphaDescriptor | SRP/com.unity.render-pipelines.lightweight@4.10.0-preview/Runtime/Passes/RenderWeightedOITForwardPass.cs:65-68 | as the colour descriptor, in RHalf when supported and ARGBHalf otherwise |
| WeightedOit.AccumBinding | SRP/com.unity.render-pipelines.lightweight@4.10.0-preview/Runtime/Passes/RenderWeightedOITForwardPass.cs:74-94 | three colour attachments over the camera depth, loaded and then discarded |
| WeightedOit.WeightedOitAllocations | SRP/com.unity.render-pipelines.lightweight@4.10.0-preview/Runtime/Passes/RenderWeightedOITForwardPass.cs:129-131 | the temporaries allocated are exactly the three accumulation targets |
| WeightedOit.WeightedOitCleanupBalances | SRP/com.unity.render-pipelines.lightweight@4.10.0-preview/Runtime/Passes/RenderWeightedOITForwardPass.cs:98-118 | the cleanup releases every target `Execute` allocated |
| WeightedOit.WeightedOitOrder | SRP/com.unity.render-pipelines.lightweight@4.10.0-preview/Runtime/Passes/RenderWeightedOITForwardPass.cs:129-155 | allocations precede every draw and blit; the targets are bound and colour-cleared before the draws; the camera targets are bound again and the composite blit comes last |
| WeightedOit.RenderWeightedOITForwardPass.constructor | SRP/com.unity.render-pipelines.lightweight@4.10.0-preview/Runtime/Passes/RenderWeightedOITForwardPass.cs:26-34 | registers the forward and unlit shader passes and filters to the OIT range |
| WeightedOit.RenderWeightedOITForwardPass.Setup | SRP/com.unity.render-pipelines.lightweight@4.10.0-preview/Runtime/Passes/RenderWeightedOITForwardPass.cs:43-95 | stores the camera descriptor as it was passed in, then the derived descriptors, the names and the binding |
| WeightedOit.RenderWeightedOITForwardPass.Execute | SRP/com.unity.render-pipelines.lightweight@4.10.0-preview/Runtime/Passes/RenderWeightedOITForwardPass.cs:120-160 | throws on a null renderer; otherwise the trace of `WeightedOitCommands` |
| WeightedOit.RenderWeightedOITForwardPass.FrameCleanup | SRP/com.unity.render-pipelines.lightweight@4.10.0-preview/Runtime/Passes/RenderWeightedOITForwardPass.cs:98-118 | throws on null; releases the handles that are not the camera target and resets all three |
| MomentOit.DepthRange | SRP/com.unity.render-pipelines.lightweight@4.10.0-preview/Runtime/Passes/RenderMomentOITForwardPass.cs:85-91 | near end is max(0, distance - radius); far end is distance + radius |
| MomentOit.DepthRangeOrdered | SRP/com.unity.render-pipelines.lightweight@4.10.0-preview/Runtime/Passes/RenderMomentOITForwardPass.cs:90-91 | the range is non-empty exactly when the far end of the sphere is not behind the camera |
| MomentOit.DepthRangeCovers | SRP/com.unity.render-pipelines.lightweight@4.10.0-preview/Runtime/Passes/RenderMomentOITForwardPass.cs:85-91 | every depth in front of the camera that the bounding sphere spans lies in the range |
| MomentOit.GetViewDepthMinMax | SRP/com.unity.render-pipelines.lightweight@4.10.0-preview/Runtime/Passes/RenderMomentOITForwardPass.cs:45-94 | fails with a zero range when no renderer is enabled in the queue range; otherwise the depth range of the union of their bounds |
| MomentOit.MomentDescriptorsFor | SRP/com.unity.render-pipelines.lightweight@4.10.0-preview/Runtime/Passes/RenderMomentOITForwardPass.cs:119-160 | no depth buffer anywhere; MSAA only above one sample; Float or Half formats with the supported-format fallbacks |
| MomentOit.GenerateBinding | SRP/com.unity.render-pipelines.lightweight@4.10.0-preview/Runtime/Passes/RenderMomentOITForwardPass.cs:168-214 | three moment targets, or two for 4 moments, discarded and stored, with the depth attachment loaded |
| MomentOit.ResolveBinding | SRP/com.unity.render-pipelines.lightweight@4.10.0-preview/Runtime/Passes/RenderMomentOITForwardPass.cs:216-237 | `_MOIT` and `_GIAL`, discarded and stored, with the depth attachment loaded |
| MomentOit.MomentAllocations | SRP/com.unity.render-pipelines.lightweight@4.10.0-preview/Runtime/Passes/RenderMomentOITForwardPass.cs:283-292 | only moment buffers are allocated |
| MomentOit.MomentKeywordsSet | SRP/com.unity.render-pipelines.lightweight@4.10.0-preview/Runtime/Passes/RenderMomentOITForwardPass.cs:293-296 | `_MOMENT6`, `_MOMENT8` and half precision end up as the count and precision say, trigonometric off, every other keyword unchanged |
| MomentOit.Prologue | SRP/com.unity.render-pipelines.lightweight@4.10.0-preview/Runtime/Passes/RenderMomentOITForwardPass.cs:283-299 | allocations, keywords and binding only; no draw and no constant |
| MomentOit.LogDepthVector | SRP/com.unity.render-pipelines.lightweight@4.10.0-preview/Runtime/Passes/RenderMomentOITForwardPass.cs:304-306 | x is the log of the near end; x + y is the log of the far end |
| MomentOit.ResolvePassNames | SRP/com.unity.render-pipelines.lightweight@4.10.0-preview/Runtime/Passes/RenderMomentOITForwardPass.cs:360 | shader pass 0 becomes "ResolveMoments"; the others are kept |
| MomentOit.OitDraws | SRP/com.unity.render-pipelines.lightweight@4.10.0-preview/Runtime/Passes/RenderMomentOITForwardPass.cs:327-332 | the OIT-range draw with the given passes, then the error-shader draw |
| MomentOit.ResolveTargets | SRP/com.unity.render-pipelines.lightweight@4.10.0-preview/Runtime/Passes/RenderMomentOITForwardPass.cs:336-349 | `_MOIT` is allocated first; only `_MOIT` and `_GIAL` are allocated; nothing is drawn and no constant is set |
| MomentOit.MomentTextures | SRP/com.unity.render-pipelines.lightweight@4.10.0-preview/Runtime/Passes/RenderMomentOITForwardPass.cs:353-358 | `_b0` is published first; every command publishes a moment buffer and none draws or allocates |
| MomentOit.Composite | SRP/com.unity.render-pipelines.lightweight@4.10.0-preview/Runtime/Passes/RenderMomentOITForwardPass.cs:368-371 | two commands, the second blitting the composite onto the colour target; nothing else is set or allocated |
| MomentOit.AsWrittenLogDepthAfterDraws | SRP/com.unity.render-pipelines.lightweight@4.10.0-preview/Runtime/Passes/RenderMomentOITForwardPass.cs:301-333 | as written, every generate draw is submitted before `_LogViewDepthMinDelta` is set |
| MomentOit.AsWrittenTexturesAfterResolveDraws | SRP/com.unity.render-pipelines.lightweight@4.10.0-preview/Runtime/Passes/RenderMomentOITForwardPass.cs:353-364 | as written, every resolve draw is submitted before the moment buffers are published |
| MomentOit.GeneratePhase | SRP/com.unity.render-pipelines.lightweight@4.10.0-preview/Runtime/Passes/RenderMomentOITForwardPass.cs:304-333 | the corrected generate phase sets no moment texture, allocates nothing and sets no keyword |
| MomentOit.ResolvePhase | SRP/com.unity.render-pipelines.lightweight@4.10.0-preview/Runtime/Passes/RenderMomentOITForwardPass.cs:336-365 | the corrected resolve phase sets no depth constant and no keyword |
| MomentOit.GeneratePhaseOrdered | SRP/com.unity.render-pipelines.lightweight@4.10.0-preview/Runtime/Passes/RenderMomentOITForwardPass.cs:304-333 | in the corrected phase the depth constant precedes every generate draw |
| MomentOit.MomentOitLogDepthBeforeDraws | SRP/com.unity.render-pipelines.lightweight@4.10.0-preview/Runtime/Passes/RenderMomentOITForwardPass.cs:279-378 | in the corrected trace `_LogViewDepthMinDelta` is set before every draw and blit |
| MomentOit.ResolvePhaseOrdered | SRP/com.unity.render-pipelines.lightweight@4.10.0-preview/Runtime/Passes/RenderMomentOITForwardPass.cs:336-365 | in the corrected phase the moment textures precede every resolve draw |
| MomentOit.MomentOitTexturesBeforeResolveDraws | SRP/com.unity.render-pipelines.lightweight@4.10.0-preview/Runtime/Passes/RenderMomentOITForwardPass.cs:336-365 | in the corrected trace the moment buffers are published before every resolve draw |
| MomentOit.MomentOitBuffersBeforeDraws | SRP/com.unity.render-pipelines.lightweight@4.10.0-preview/Runtime/Passes/RenderMomentOITForwardPass.cs:283-365 | every moment buffer is allocated before any draw, both in the corrected trace and in the trace as written (`MomentOitCommandsAsWritten`) |
| MomentOit.MomentOitKeywords | SRP/com.unity.render-pipelines.lightweight@4.10.0-preview/Runtime/Passes/RenderMomentOITForwardPass.cs:293-296 | after either trace, corrected or as written, the variant keywords match the moment count and precision, and trigonometric moments are off |
| MomentOit.MomentOitAllocations | SRP/com.unity.render-pipelines.lightweight@4.10.0-preview/Runtime/Passes/RenderMomentOITForwardPass.cs:283-339 | allocates `_B0`, `_B1`, `_B2` only for 6 or 8 moments (two or four channels), `_MOIT`, and `_GIAL` only with deep shadows, in that order, in the corrected trace and in the trace as written |
| MomentOit.MomentBuffersAgree | SRP/com.unity.render-pipelines.lightweight@4.10.0-preview/Runtime/Passes/RenderMomentOITForwardPass.cs:170-358 | for 4, 6 or 8 moments the buffers allocated, bound and published agree position by position |
| MomentOit.ResolveTargetsBound | SRP/com.unity.render-pipelines.lightweight@4.10.0-preview/Runtime/Passes/RenderMomentOITForwardPass.cs:336-349 | every colour target of the resolve phase is one it allocates |
| MomentOit.MomentOitCleanupBalances | SRP/com.unity.render-pipelines.lightweight@4.10.0-preview/Runtime/Passes/RenderMomentOITForwardPass.cs:242-272 | `FrameCleanup` releases every buffer `Execute` allocates, for the corrected trace and for the trace as written |
| MomentOit.RenderMomentOITForwardPass.constructor | SRP/com.unity.render-pipelines.lightweight@4.10.0-preview/Runtime/Passes/RenderMomentOITForwardPass.cs:33-40 | registers "GenerateMoments" and filters to the OIT range |
| MomentOit.RenderMomentOITForwardPass.Setup | SRP/com.unity.render-pipelines.lightweight@4.10.0-preview/Runtime/Passes/RenderMomentOITForwardPass.cs:103-239 | fails, storing only the zero range, when estimation fails; otherwise stores targets, descriptors, names, count, precision and both bindings |
| MomentOit.RenderMomentOITForwardPass.Configure | SRP/com.unity.render-pipelines.lightweight@4.10.0-preview/Runtime/Passes/RenderMomentOITForwardPass.cs:115-237 | the state `Setup` stores once the depth range is known |
| MomentOit.RenderMomentOITForwardPass.Execute | SRP/com.unity.render-pipelines.lightweight@4.10.0-preview/Runtime/Passes/RenderMomentOITForwardPass.cs:274-378 | throws on a null renderer; otherwise the corrected trace for the stored state |
| MomentOit.RenderMomentOITForwardPass.FrameCleanup | SRP/com.unity.render-pipelines.lightweight@4.10.0-preview/Runtime/Passes/RenderMomentOITForwardPass.cs:242-272 | throws on null; releases the five handles that are not the camera target and resets them |
| RenderTypes.WithMsaa | SRP/com.unity.render-pipelines.lightweight@4.10.0-preview/Runtime/Passes/OITDepthOnlyPass.cs:46-50 | above one sample the copy stops binding the multisampled surface and takes the sample count; otherwise it is unchanged |
| RenderTypes.ReleaseAllReleases | SRP/com.unity.render-pipelines.lightweight@4.10.0-preview/Runtime/Passes/RenderMomentOITForwardPass.cs:246-270 | every cleanup command is a release, and a handle is released exactly when it is listed and is not the camera target |
| RenderTypes.ReleaseAllOfSentinels | SRP/com.unity.render-pipelines.lightweight@4.10.0-preview/Runtime/Passes/RenderMomentOITForwardPass.cs:246-270 | once every handle is the camera target, cleanup records nothing, so a second cleanup releases nothing |
| RenderQueueUtils.GroupsDisjoint | SRP/com.unity.render-pipelines.lightweight@4.10.0-preview/Runtime/Utils/RenderQueueUtils.cs:13-27 | no queue value is in two of opaque, transparent and OIT |
| RenderQueueUtils.GroupsContiguous | SRP/com.unity.render-pipelines.lightweight@4.10.0-preview/Runtime/Utils/RenderQueueUtils.cs:8-27 | each range starts one past the previous range's end, and together they span `all` |
| RenderQueueUtils.GroupsCoverAll | SRP/com.unity.render-pipelines.lightweight@4.10.0-preview/Runtime/Utils/RenderQueueUtils.cs:8-27 | a queue value is in `all` exactly when it is in one of the three ranges |
| RenderQueueUtils.GroupsOrdered | SRP/com.unity.render-pipelines.lightweight@4.10.0-preview/Runtime/Utils/RenderQueueUtils.cs:13-27 | opaque values come before transparent values, which come before OIT values |
| PipelineCore.MainLight | SRP/com.unity.render-pipelines.lightweight@4.10.0-preview/Runtime/Core/LightweightRenderPipelineCore.cs:25-28 | the main light exists exactly when the index names a visible light |
| PipelineCore.DepthMsaaKeywordsDistinct | SRP/com.unity.render-pipelines.lightweight@4.10.0-preview/Runtime/Core/LightweightRenderPipelineCore.cs:95-97 | the three depth-MSAA keyword names are distinct |
| PipelineCore.IsStereoEnabled | SRP/com.unity.render-pipelines.lightweight@4.10.0-preview/Runtime/Core/LightweightRenderPipelineCore.cs:104-111 | throws on a null camera; otherwise true exactly when XR is on, the camera is not a scene view and targets both eyes |
| PipelineCore.TruncateToInt | SRP/com.unity.render-pipelines.lightweight@4.10.0-preview/Runtime/Core/LightweightRenderPipelineCore.cs:115 | the C# `(int)` cast truncates toward zero |
| PipelineCore.TruncatedComparatorFacts | SRP/com.unity.render-pipelines.lightweight@4.10.0-preview/Runtime/Core/LightweightRenderPipelineCore.cs:115 | the comparator is antisymmetric, agrees in sign with depth, and is 0 for depths less than 1 apart |
| PipelineCore.TruncatedComparatorNotTransitive | SRP/com.unity.render-pipelines.lightweight@4.10.0-preview/Runtime/Core/LightweightRenderPipelineCore.cs:115 | depths 0, 0.6 and 1.2 compare equal pairwise in turn, yet the first and last differ |
| PipelineCore.CompareByDepth | SRP/com.unity.render-pipelines.lightweight@4.10.0-preview/Runtime/Core/LightweightRenderPipelineCore.cs:115 | the intended comparator: negative, zero or positive exactly as the depths compare |
| PipelineCore.CompareByDepthIsTotalPreorder | SRP/com.unity.render-pipelines.lightweight@4.10.0-preview/Runtime/Core/LightweightRenderPipelineCore.cs:115 | the intended comparator is total and transitive |
| PipelineCore.SwapCameras | SRP/com.unity.render-pipelines.lightweight@4.10.0-preview/Runtime/Core/LightweightRenderPipelineCore.cs:115 | swaps two array entries, keeping the same cameras |
| PipelineCore.SortCameras | SRP/com.unity.render-pipelines.lightweight@4.10.0-preview/Runtime/Core/LightweightRenderPipelineCore.cs:113-116 | sorts the camera array in place by depth, keeping the same cameras |

## Left out

- GPU work is modelled only as the command trace each pass records. Execution on the GPU and `ScriptableRenderContext` submission are not modelled.
- Shader-side algorithms are not part of this model. This covers deep-shadow accumulation and resolve, moment generation and resolve, and the Gaussian blur kernel. They are HLSL or compute code that is not in these files.
- The deep shadow map is blurred once, with sample offset 1. `deepShadowMapsBlurOffset` is carried in the shadow data but never read, as in the source.
- The deep-shadow map size (1024) and depth (32) are the constants of `DeepShadowCasterPass`. The configured `deepShadowMapsSize` and `deepShadowMapsDepth` fields are carried but not read, as in the source.
- Float numerics are real arithmetic. `Vector3.magnitude`, `Mathf.Tan`, `Mathf.Log`, `Matrix4x4.Ortho` and `GL.GetGPUProjectionMatrix` are parameters supplied by the engine, and IEEE rounding and infinities are not modelled.
- The trigonometric wrapping-zone block of the moment pass is not modelled. `_Trigonometric` is fixed false, so that block never runs; only its keyword is recorded, switched off.
- Scene queries are inputs: tagged objects, all renderers, `GetShadowCasterBounds` and the engine's shadow-matrix computation. `RecalculateBounds` on skinned meshes is not modelled, and renderer bounds are integer boxes.
- The obsolete `ShadowUtils.SetupShadowCasterConstants` is not modelled.
- Diagnostics are not modelled. The model records only the branch taken by the `Debug.LogWarning` calls, not the warnings themselves. The calls are at DeepShadowCasterPass.cs:54, MainCharacterShadowCasterPass.cs:53, ShadowUtils.cs:105, ShadowUtils.cs:127 and ShadowUtils.cs:191.
- The editor-only scene-view depth copy in `DefaultRendererSetup.Setup` is not modelled.
- `ScriptableRenderer` is not part of this model beyond its pass queue and `EnqueuePass`, which appends. Executing the queued passes is not modelled.
- `LightweightRenderPipelineResources` and `ComputeHandle` hold no behaviour. Their handle values appear as datatype constructors.
- Passes outside the core are `Pass` values that carry the arguments `Setup` gives them. This covers the main-light and additional-light shadow casters, copy passes, XR, skybox and post-process. The `Setup` results of the two shadow casters among them are free `FrameInputs` booleans.
- RendererSetup.DefaultRendererSetup.Setup: the scheduler does not call the `Setup` methods of the core's passes. It reads their results from `FrameInputs`. `RendererSetup.SetupResultsAgree` states when those results are the ones the pass models compute. `Setup` itself does not require that agreement.
- `IsStereoEnabled`: the XR-enabled switch is a parameter, because `XRGraphics.enabled` is engine state.
- RendererSetup.DefaultRendererSetup.Init: stores only the handle names and the initialized flag. The pass objects it constructs are not modelled as separate objects.
- RendererSetup.DefaultRendererSetup.Setup: the pass arguments the scheduler does not decide are not modelled. These are the post-processing context, per-object light indices, the renderer configuration, and the descriptors the hooks receive.
- DeepShadowCaster.DeepShadowCasterPass.GetVPMatrix: the source calls `GetVPMatrixWithTag` without a culling-sphere argument (DeepShadowCasterPass.cs:77), but the declared method takes one. The model uses the declared method and drops the sphere.
- RendererSetup.DepthStage: the source passes a sample count to `DepthNormalsPass.Setup` (DefaultRendererSetup.cs:210), but the declared method takes four parameters. The scheduled pass records the target, the depth handle, the prepass flag and that extra sample count. It does not record the descriptor.
- ShadowUtils.GetMaxTileResolutionInAtlas: requires positive atlas sides and `tileCount <= atlasWidth * atlasHeight`, so three source behaviours are not modelled:
  - A tile count above `atlasWidth * atlasHeight` drives the resolution to 0, and the source then divides by zero.
  - A zero side makes the starting resolution 0, so the first division throws `DivideByZeroException` (ShadowUtils.cs:77-78).
  - A negative side makes the resolution negative. The source then either returns that non-positive value at once or halves it to -1, where `-1 >> 1` stays -1, so the loop never ends. An example is sides -4 and 8 with a tile count of 10 (ShadowUtils.cs:79-83).
- ShadowUtils.GetShadowBias: requires a non-zero projection scale and resolution. The source would divide by zero and produce an infinity there.
- PipelineCore.SortCameras: sorts by the intended depth order, using an insertion sort, not by the truncating comparator (see Findings). The particular algorithm of `Array.Sort` and its instability are not modelled.
- MomentOit.RenderMomentOITForwardPass.Execute: records the corrected submission order (see Findings). The as-written order is modelled by `MomentOitCommandsAsWritten`.
- DeepShadowCaster.MaterialDraws: a renderer's materials are reduced to a slot count. A null material slot, which makes the source throw `NullReferenceException` at DeepShadowCasterPass.cs:147, is not modelled. The shader pass argument `FindPass("DeepShadowCaster")` is not recorded either; when the shader lacks that pass it is -1, and the draw then renders every pass of the material.
- MomentOit.GetViewDepthMinMax: every renderer has a render queue. An enabled renderer without a shared material, for which the source throws `NullReferenceException` at RenderMomentOITForwardPass.cs:62, is not modelled, and neither is that exception escaping `RenderMomentOITForwardPass.Setup`.
- MomentOit.RenderMomentOITForwardPass.Setup: the moment count is the raw integer from the camera data. The `MomentsCount` enumeration is not part of these files.

## Findings

| source | as written | input that shows it | evidently intended | confidence | as-written member | corrected member |
|---|---|---|---|---|---|---|
| SRP/com.unity.render-pipelines.lightweight@4.10.0-preview/Runtime/Core/LightweightRenderPipelineCore.cs:115 | cameras are sorted with `(int)(lhs.depth - rhs.depth)`, which truncates | cameras of depth 0, 0.6 and 1.2: the first two compare equal, and so do the last two, but the first sorts before the last, so `Array.Sort` gets an inconsistent comparator | sort by depth with a consistent three-way comparison | high (not executed) | PipelineCore.TruncatedComparatorNotTransitive | PipelineCore.CompareByDepthIsTotalPreorder |
| SRP/com.unity.render-pipelines.lightweight@4.10.0-preview/Runtime/Passes/RenderMomentOITForwardPass.cs:304-333 | `_LogViewDepthMinDelta` is set in the command buffer, which is executed after `context.DrawRenderers` for the generate pass | any frame with OIT renderers: the generate draw is submitted before the constant, so it reads the previous frame's depth range | set the constant before the draws that read it | medium (not executed) | MomentOit.AsWrittenLogDepthAfterDraws | MomentOit.MomentOitLogDepthBeforeDraws |
| SRP/com.unity.render-pipelines.lightweight@4.10.0-preview/Runtime/Passes/RenderMomentOITForwardPass.cs:353-364 | `_b0`, `_b1` and `_b2` are published in the command buffer, which is executed after `context.DrawRenderers` for the resolve pass | any frame with OIT renderers: the resolve draw is submitted before the moment buffers are bound as textures | publish the moment buffers before the resolve draw | medium (not executed) | MomentOit.AsWrittenTexturesAfterResolveDraws | MomentOit.MomentOitTexturesBeforeResolveDraws |
