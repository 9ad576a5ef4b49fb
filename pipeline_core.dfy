/** The per-frame records the pipeline hands to every renderer setup and pass
    (`RenderingData`, `CameraData`, `LightData`, `ShadowData`), the shader keyword names
    the passes toggle, the stereo test and the camera sort order. */
module PipelineCore {
  import opened Wrappers
  import opened Linear

  datatype CameraType = Game | SceneView | Preview | VR | Reflection

  datatype StereoTargetEye = Both | Left | Right | NoEye

  datatype CameraClearFlags = Skybox | SolidColor | DepthOnly | Nothing

  /** The camera as the core reads it. */
  datatype Camera = Camera(cameraType: CameraType, stereoTargetEye: StereoTargetEye,
                           depth: real, clearFlags: CameraClearFlags,
                           position: Vec3, forward: Vec3)

  datatype FloatPrecision = Single | Half

  /** `CameraData`. The moment count is the raw integer the pipeline asset stores; the
      moment pass casts it to its `MomentsCount` enumeration (4, 6 or 8 moments). */
  datatype CameraData = CameraData(
    camera: Camera,
    renderScale: real,
    msaaSamples: int,
    isSceneViewCamera: bool,
    isDefaultViewport: bool,
    isOffscreenRender: bool,
    isHdrEnabled: bool,
    requiresDepthTexture: bool,
    requiresOpaqueTexture: bool,
    requiresDepthNormalsTexture: bool,
    isStereoEnabled: bool,
    maxShadowDistance: real,
    postProcessEnabled: bool,
    supportsOIT: bool,
    momentsCount: int,
    momentsPrecision: FloatPrecision)

  datatype LightType = Directional | Spot | Point | Area

  datatype LightShadows = NoShadows | Hard | Soft

  /** A `VisibleLight`: its type, its light's shadow mode and shadow strength, its
      local-to-world matrix, its light's world-to-local matrix (`transform.worldToLocalMatrix`),
      the tangent of half its spot angle (taken as given, since `Mathf.Tan` is an engine
      call) and its range. */
  datatype VisibleLight = VisibleLight(lightType: LightType, shadows: LightShadows, shadowStrength: real,
                                       localToWorld: Matrix4x4, worldToLocal: Matrix4x4,
                                       tanHalfSpotAngle: real, range: real)

  /** `LightData`. A main-light index of -1 means there is no main light. */
  datatype LightData = LightData(mainLightIndex: int, additionalLightsCount: int,
                                 maxPerObjectAdditionalLightsCount: int,
                                 visibleLights: seq<VisibleLight>,
                                 shadeAdditionalLightsPerVertex: bool, supportsMixedLighting: bool)

  /** `ShadowData`; `bias` holds one (depth, normal, 0, 0) entry per visible light. */
  datatype ShadowData = ShadowData(
    supportsMainLightShadows: bool,
    requiresScreenSpaceShadowResolve: bool,
    mainLightShadowmapWidth: int,
    mainLightShadowmapHeight: int,
    mainLightShadowCascadesCount: int,
    supportsAdditionalLightShadows: bool,
    additionalLightsShadowmapWidth: int,
    additionalLightsShadowmapHeight: int,
    supportsSoftShadows: bool,
    shadowmapDepthBufferBits: int,
    bias: seq<Vec4>,
    supportsMainCharacterShadows: bool,
    mainCharacterShadowmapWidth: int,
    mainCharacterShadowmapHeight: int,
    supportsDeepShadowMaps: bool,
    deepShadowMapsSize: int,
    deepShadowMapsDepth: int,
    deepShadowMapsBlurOffset: int)

  /** `RenderingData`; of the culling results the core only asks which visible lights
      have shadow-caster bounds (`GetShadowCasterBounds`). */
  datatype RenderingData = RenderingData(lightsWithCasterBounds: set<int>, cameraData: CameraData,
                                         lightData: LightData, shadowData: ShadowData,
                                         supportsDynamicBatching: bool)

  /** The main light, when the index names one. */
  function MainLight(d: RenderingData): (r: Option<VisibleLight>)
    ensures r.Some? <==> 0 <= d.lightData.mainLightIndex < |d.lightData.visibleLights|
    ensures r.Some? ==> r.value == d.lightData.visibleLights[d.lightData.mainLightIndex]
  {
    var i := d.lightData.mainLightIndex;
    if 0 <= i < |d.lightData.visibleLights| then Some(d.lightData.visibleLights[i]) else None
  }

  /** There is a main light, it casts shadows, and it has shadow-caster bounds: the
      condition under which the main-character and deep shadow casters set up. */
  predicate MainLightCastsShadows(d: RenderingData)
  {
    && MainLight(d).Some?
    && MainLight(d).value.shadows != NoShadows
    && d.lightData.mainLightIndex in d.lightsWithCasterBounds
  }

  /** The keyword names (`ShaderKeywordStrings`). */
  const MainLightShadowsKeyword := "_MAIN_LIGHT_SHADOWS"
  const SoftShadowsKeyword := "_SHADOWS_SOFT"
  const MainCharacterShadowsKeyword := "_MAIN_CHARACTER_SHADOWS"
  const DeepShadowMapsKeyword := "_DEEP_SHADOW_MAPS"
  const DepthNoMsaa := "_DEPTH_NO_MSAA"
  const DepthMsaa2 := "_DEPTH_MSAA_2"
  const DepthMsaa4 := "_DEPTH_MSAA_4"

  /** The three depth-MSAA variants are distinct keywords, so enabling one never names
      another. */
  lemma DepthMsaaKeywordsDistinct()
    ensures DepthNoMsaa != DepthMsaa2 && DepthMsaa2 != DepthMsaa4 && DepthNoMsaa != DepthMsaa4
  {
    assert DepthNoMsaa[7] != DepthMsaa2[7];
    assert DepthMsaa2[12] != DepthMsaa4[12];
    assert DepthNoMsaa[7] != DepthMsaa4[7];
  }

  /** The value of a call that may throw `ArgumentNullException` for a null argument. */
  datatype Checked<T> = Value(value: T) | ArgumentNullThrown(param: string)

  /** `IsStereoEnabled`: a null camera throws; otherwise stereo is on exactly when XR is
      enabled, the camera is not a scene-view camera and it targets both eyes. */
  function IsStereoEnabled(camera: Option<Camera>, xrEnabled: bool): (r: Checked<bool>)
    ensures camera.None? <==> r == ArgumentNullThrown("camera")
    ensures camera.Some? ==> r.Value?
    ensures camera.Some? ==>
              (r.value <==> xrEnabled && camera.value.cameraType != SceneView && camera.value.stereoTargetEye == Both)
  {
    match camera
    case None => ArgumentNullThrown("camera")
    case Some(c) => Value(xrEnabled && c.cameraType != SceneView && c.stereoTargetEye == Both)
  }

  /** C#'s `(int)` cast of a float: truncation toward zero. */
  function TruncateToInt(x: real): (r: int)
    ensures x >= 0.0 ==> r as real <= x < r as real + 1.0
    ensures x < 0.0 ==> r as real - 1.0 < x <= r as real
  {
    if x >= 0.0 then x.Floor else -((-x).Floor)
  }

  /** The comparator `SortCameras` hands to `Array.Sort`: the depth difference cast to
      `int`. */
  function CompareByDepthTruncated(lhs: Camera, rhs: Camera): int
  {
    TruncateToInt(lhs.depth - rhs.depth)
  }

  /** The comparator is antisymmetric and agrees in sign with the depth order, but it
      calls two cameras equal whenever their depths are less than 1 apart. */
  lemma TruncatedComparatorFacts(a: Camera, b: Camera)
    ensures CompareByDepthTruncated(a, b) == -CompareByDepthTruncated(b, a)
    ensures CompareByDepthTruncated(a, b) > 0 ==> a.depth > b.depth
    ensures CompareByDepthTruncated(a, b) < 0 ==> a.depth < b.depth
    ensures -1.0 < a.depth - b.depth < 1.0 ==> CompareByDepthTruncated(a, b) == 0
  {
  }

  /** "Equal under the comparator" is not transitive: depths 0, 0.6 and 1.2 are equal
      pairwise in turn, yet the first sorts before the last. `Array.Sort` requires a
      consistent ordering, so the order it gives such cameras is unspecified. */
  lemma TruncatedComparatorNotTransitive()
    ensures exists a: Camera, b: Camera, c: Camera ::
      CompareByDepthTruncated(a, b) == 0 && CompareByDepthTruncated(b, c) == 0 &&
      CompareByDepthTruncated(a, c) != 0
  {
    var cam := Camera(Game, Both, 0.0, Skybox, Vec3(0.0, 0.0, 0.0), Vec3(0.0, 0.0, 1.0));
    var a, b, c := cam, cam.(depth := 0.6), cam.(depth := 1.2);
    assert CompareByDepthTruncated(a, b) == 0;
    assert CompareByDepthTruncated(b, c) == 0;
    assert CompareByDepthTruncated(a, c) == -1;
  }

  /** The ordering the sort evidently intends: by depth, with cameras of equal depth
      comparing equal. */
  function CompareByDepth(lhs: Camera, rhs: Camera): (r: int)
    ensures r == 0 <==> lhs.depth == rhs.depth
    ensures r < 0 <==> lhs.depth < rhs.depth
    ensures r > 0 <==> lhs.depth > rhs.depth
  {
    if lhs.depth < rhs.depth then -1 else if lhs.depth > rhs.depth then 1 else 0
  }

  /** `CompareByDepth` is a total preorder, so a comparison sort is well defined on it. */
  lemma CompareByDepthIsTotalPreorder(a: Camera, b: Camera, c: Camera)
    ensures CompareByDepth(a, b) <= 0 || CompareByDepth(b, a) <= 0
    ensures CompareByDepth(a, b) <= 0 && CompareByDepth(b, c) <= 0 ==> CompareByDepth(a, c) <= 0
    ensures CompareByDepth(a, b) == 0 && CompareByDepth(b, c) == 0 ==> CompareByDepth(a, c) == 0
  {
  }

  /** Depths never decrease along `s`; by `CompareByDepth`'s contract this is the same as
      every earlier camera comparing at most equal to every later one. */
  predicate SortedByDepth(s: seq<Camera>)
  {
    forall i, j :: 0 <= i < j < |s| ==> s[i].depth <= s[j].depth
  }

  /** Exchanges two cameras of the array, keeping the same cameras. */
  method SwapCameras(cameras: array<Camera>, i: int, j: int)
    requires 0 <= i < cameras.Length && 0 <= j < cameras.Length
    modifies cameras
    ensures cameras[..] == old(cameras[..])[i := old(cameras[j])][j := old(cameras[i])]
    ensures multiset(cameras[..]) == multiset(old(cameras[..]))
  {
    cameras[i], cameras[j] := cameras[j], cameras[i];
  }

  /** `SortCameras`: sorts the camera array in place by `CompareByDepth`, keeping the
      same cameras. */
  method SortCameras(cameras: array<Camera>)
    modifies cameras
    ensures SortedByDepth(cameras[..])
    ensures multiset(cameras[..]) == multiset(old(cameras[..]))
  {
    var n := 0;
    while n < cameras.Length
      invariant 0 <= n <= cameras.Length
      invariant forall p, q :: 0 <= p < q < n ==> cameras[p].depth <= cameras[q].depth
      invariant multiset(cameras[..]) == multiset(old(cameras[..]))
    {
      var j := n;
      while j > 0 && cameras[j - 1].depth > cameras[j].depth
        invariant 0 <= j <= n
        invariant forall p, q :: 0 <= p < q <= n && p != j && q != j ==> cameras[p].depth <= cameras[q].depth
        invariant forall q :: j < q <= n ==> cameras[j].depth < cameras[q].depth
        invariant multiset(cameras[..]) == multiset(old(cameras[..]))
      {
        SwapCameras(cameras, j - 1, j);
        j := j - 1;
      }
      n := n + 1;
    }
  }

}
