/** MainCharacterShadowCasterPass: renders the objects tagged "Player" into a dedicated
    shadow map as wide as `mainCharacterShadowmapWidth`, fitted around their bounds,
    and publishes what the receivers need to sample it: the map itself, the
    world-to-shadow matrix, the shadow strength, the map size and its reciprocal, four
    half-texel sampling offsets and the culling sphere with its radius squared. */
module MainCharacterShadow {
  import opened Wrappers
  import opened Linear
  import opened SceneBounds
  import opened RenderTypes
  import opened PipelineCore
  import opened ShadowUtils

  /** Depth bits of the shadow-map texture. */
  const ShadowmapBufferBits := 16

  /** The name the pass gives its shadow-map texture. */
  const ShadowmapTextureName := "m_MainCharacterShadowmapTexture"

  /** The per-renderer flag the receivers read; cleanup resets it. */
  const IsMainCharacterName := "_IsMainCharacter"

  /** The format of the shadow-map texture: the native shadow-map format where the
      device supports it, a plain depth texture otherwise. */
  function ShadowmapFormat(caps: DeviceCaps): (r: RenderTextureFormat)
    ensures r == Shadowmap <==> Supports(caps, Shadowmap)
    ensures r != Shadowmap ==> r == Depth
  {
    if Supports(caps, Shadowmap) then Shadowmap else Depth
  }

  /** The all-zero matrix: the value of a `Matrix4x4` field nobody set. */
  const ZeroMatrix := Matrix4x4(Zero4, Zero4, Zero4, Zero4)

  /** The slice the pass renders: the whole map, at the origin, `width` texels wide;
      its matrices are left at their zero defaults. */
  function MainCharacterSlice(width: int): (r: ShadowSliceData)
    ensures r.offsetX == 0 && r.offsetY == 0 && r.resolution == width
  {
    ShadowSliceData(ZeroMatrix, ZeroMatrix, ZeroMatrix, 0, 0, width)
  }

  // ---------------------------------------------------------------------------------
  // Receiver constants.

  /** `_MainCharacterShadowmapSize`: the reciprocals of the map's width and height, then
      the width and height themselves. */
  function ShadowmapSize(width: int, height: int): (r: Vec4)
    requires width != 0 && height != 0
    ensures r.z == width as real && r.w == height as real
    ensures r.x * r.z == 1.0 && r.y * r.w == 1.0
  {
    Vec4(1.0 / width as real, 1.0 / height as real, width as real, height as real)
  }

  /** The four `_MainCharacterShadowOffset` vectors: half a texel left or right, and
      half a texel down or up. */
  function ShadowOffsets(width: int, height: int): (r: seq<Vec4>)
    requires width != 0 && height != 0
    ensures |r| == 4
  {
    var halfW := 0.5 * (1.0 / width as real);
    var halfH := 0.5 * (1.0 / height as real);
    [Vec4(-halfW, -halfH, 0.0, 0.0), Vec4(halfW, -halfH, 0.0, 0.0),
     Vec4(-halfW, halfH, 0.0, 0.0), Vec4(halfW, halfH, 0.0, 0.0)]
  }

  lemma HalfTexel(size: int)
    requires size != 0
    ensures 0.5 * (1.0 / size as real) * (2.0 * size as real) == 1.0
  {
    var s := size as real;
    assert (1.0 / s) * s == 1.0;
    assert 0.5 * (1.0 / s) * (2.0 * s) == (1.0 / s) * s;
  }

  /** The offsets are the four corners around a texel centre, half a texel away on
      each axis: every sign combination occurs once, each offset moves exactly half a
      texel (in texture coordinates) along x and along y, and they cancel out. */
  lemma ShadowOffsetsAreHalfTexelCorners(width: int, height: int)
    requires width > 0 && height > 0
    ensures var r := ShadowOffsets(width, height);
      && (forall k :: 0 <= k < 4 ==> r[k].z == 0.0 && r[k].w == 0.0)
      && (forall k :: 0 <= k < 4 ==>
            (r[k].x * (2.0 * width as real) == 1.0 || r[k].x * (2.0 * width as real) == -1.0))
      && (forall k :: 0 <= k < 4 ==>
            (r[k].y * (2.0 * height as real) == 1.0 || r[k].y * (2.0 * height as real) == -1.0))
      && r[0].x < 0.0 && r[0].y < 0.0 && r[1].x > 0.0 && r[1].y < 0.0
      && r[2].x < 0.0 && r[2].y > 0.0 && r[3].x > 0.0 && r[3].y > 0.0
      && Add4(Add4(r[0], r[1]), Add4(r[2], r[3])) == Zero4
  {
    var r := ShadowOffsets(width, height);
    var w, h := width as real, height as real;
    HalfTexel(width);
    HalfTexel(height);
    assert 1.0 / w > 0.0 && 1.0 / h > 0.0;
    assert r[1].x * (2.0 * w) == 1.0 && r[0].x * (2.0 * w) == -1.0;
    assert r[2].y * (2.0 * h) == 1.0 && r[0].y * (2.0 * h) == -1.0;
  }

  /** `_MainCharacterCullingSphere`: the culling sphere with its radius squared. */
  function SquaredRadiusSphere(sphere: Vec4): (r: Vec4)
    ensures r.x == sphere.x && r.y == sphere.y && r.z == sphere.z
    ensures r.w >= 0.0
  {
    Vec4(sphere.x, sphere.y, sphere.z, sphere.w * sphere.w)
  }

  /** The receivers can test a distance against the sphere without a square root: a
      distance `d` is within the radius exactly when its square is within the published
      squared radius. */
  lemma SquaredRadiusComparesDistances(sphere: Vec4, d: real)
    requires sphere.w >= 0.0 && d >= 0.0
    ensures d * d <= SquaredRadiusSphere(sphere).w <==> d <= sphere.w
  {
    if d <= sphere.w {
      SquareLess(d, sphere.w);
    } else {
      SquareLess(sphere.w, d);
    }
  }

  /** Squaring keeps the order of non-negative reals, strictly. */
  lemma SquareLess(a: real, b: real)
    requires 0.0 <= a <= b
    ensures a * a <= b * b
    ensures a < b ==> a * a < b * b
  {
    var aa, ab, bb := a * a, a * b, b * b;
    assert aa <= ab;
    assert ab <= bb;
    if a < b {
      assert bb - ab == (b - a) * b;
      assert (b - a) * b > 0.0;
      assert ab < bb;
    }
  }

  /** `SetupMainCharacterShadowReceiverConstants`: the shadow-map texture under the
      destination's name, then the world-to-shadow matrix, the strength, the size, the
      four offsets and the culling sphere with squared radius. */
  function ReceiverConstants(destination: RenderTargetHandle, texture: string, shadowMatrix: Matrix4x4,
                             shadowStrength: real, width: int, height: int, cullingSphere: Vec4): (r: seq<Cmd>)
    requires width != 0 && height != 0
    ensures |r| == 9
    ensures r[0] == SetGlobalTexture(destination, TextureTarget(texture))
    ensures forall k :: 1 <= k < 9 ==> !r[k].SetGlobalTexture?
  {
    var offsets := ShadowOffsets(width, height);
    [SetGlobalTexture(destination, TextureTarget(texture)),
     SetGlobalMatrix("_MainCharacterWorldToShadow", shadowMatrix),
     SetGlobalFloat("_MainCharacterShadowStrength", shadowStrength),
     SetGlobalVector("_MainCharacterShadowmapSize", ShadowmapSize(width, height)),
     SetGlobalVector("_MainCharacterShadowOffset0", offsets[0]),
     SetGlobalVector("_MainCharacterShadowOffset1", offsets[1]),
     SetGlobalVector("_MainCharacterShadowOffset2", offsets[2]),
     SetGlobalVector("_MainCharacterShadowOffset3", offsets[3]),
     SetGlobalVector("_MainCharacterCullingSphere", SquaredRadiusSphere(cullingSphere))]
  }

  // ---------------------------------------------------------------------------------
  // The trace of `Execute`.

  /** The shadow-map texture is allocated and bound, contents discarded and stored,
      with depth cleared. */
  function AllocateAndBind(width: int, height: int, format: RenderTextureFormat): (r: seq<Cmd>)
    ensures |r| == 2
  {
    [GetTemporaryTexture(ShadowmapTextureName, width, height, ShadowmapBufferBits, format),
     SetRenderTarget(ColorOnly(TextureTarget(ShadowmapTextureName), DontCare, Store), ClearDepth)]
  }

  /** The caster constants for the bias, then the light's view and projection. */
  function CasterSetup(light: VisibleLight, bias: Vec4, view: Matrix4x4, proj: Matrix4x4): (r: seq<Cmd>)
    ensures |r| == 3 && r[2] == SetViewProjection(view, proj)
  {
    SetupShadowCasterConstantBuffer(light, bias) + [SetViewProjection(view, proj)]
  }

  /** The two keywords: main-character shadows on, and soft shadows as `soft` says. */
  function KeywordCommands(soft: bool): (r: seq<Cmd>)
    ensures |r| == 2
  {
    [SetKeyword(MainCharacterShadowsKeyword, true), SetKeyword(SoftShadowsKeyword, soft)]
  }

  /** What `Execute` records once the casters are found. */
  function MainCharacterShadowCommands(width: int, height: int, format: RenderTextureFormat,
                                       light: VisibleLight, lightIndex: int, bias: Vec4,
                                       view: Matrix4x4, proj: Matrix4x4, cullingSphere: Vec4,
                                       destination: RenderTargetHandle, shadowMatrix: Matrix4x4,
                                       soft: bool): (r: seq<Cmd>)
    requires width != 0 && height != 0
    ensures |r| == 21
  {
    AllocateAndBind(width, height, format)
      + CasterSetup(light, bias, view, proj)
      + RenderShadowSlice(MainCharacterSlice(width), lightIndex, cullingSphere, proj, view)
      + ReceiverConstants(destination, ShadowmapTextureName, shadowMatrix, light.shadowStrength,
                          width, height, cullingSphere)
      + KeywordCommands(soft)
  }

  /** Where each kind of command the order depends on sits: the allocation first, the
      binding second, the view-projection settings at 4 and 7, the shadow draw at 8 and
      the texture publication at 10. */
  lemma MainCharacterShadowPositions(width: int, height: int, format: RenderTextureFormat,
                                     light: VisibleLight, lightIndex: int, bias: Vec4,
                                     view: Matrix4x4, proj: Matrix4x4, cullingSphere: Vec4,
                                     destination: RenderTargetHandle, shadowMatrix: Matrix4x4, soft: bool)
    requires width != 0 && height != 0
    ensures var t := MainCharacterShadowCommands(width, height, format, light, lightIndex, bias, view, proj,
                                                 cullingSphere, destination, shadowMatrix, soft);
      && t[0] == GetTemporaryTexture(ShadowmapTextureName, width, height, ShadowmapBufferBits, format)
      && t[8] == DrawShadows(lightIndex, cullingSphere)
      && t[10] == SetGlobalTexture(destination, TextureTarget(ShadowmapTextureName))
      && forall k :: 0 <= k < |t| ==>
        && (t[k].GetTemporaryTexture? ==> k == 0)
        && (t[k].SetRenderTarget? ==> k == 1)
        && (t[k].SetViewProjection? ==> k == 4 || k == 7)
        && (t[k].DrawShadows? ==> k == 8)
        && (t[k].SetGlobalTexture? ==> k == 10)
  {
    var t := MainCharacterShadowCommands(width, height, format, light, lightIndex, bias, view, proj,
                                         cullingSphere, destination, shadowMatrix, soft);
    var a := AllocateAndBind(width, height, format);
    var b := CasterSetup(light, bias, view, proj);
    var c := RenderShadowSlice(MainCharacterSlice(width), lightIndex, cullingSphere, proj, view);
    var d := ReceiverConstants(destination, ShadowmapTextureName, shadowMatrix, light.shadowStrength,
                               width, height, cullingSphere);
    var e := KeywordCommands(soft);
    assert t == a + b + c + d + e;
    assert t[8] == c[3] && t[10] == d[0];
    forall k | 0 <= k < |t|
      ensures t[k].GetTemporaryTexture? ==> k == 0
      ensures t[k].SetRenderTarget? ==> k == 1
      ensures t[k].SetViewProjection? ==> k == 4 || k == 7
      ensures t[k].DrawShadows? ==> k == 8
      ensures t[k].SetGlobalTexture? ==> k == 10
    {
      if k < 2 {
        assert t[k] == a[k];
      } else if k < 5 {
        assert t[k] == b[k - 2];
      } else if k < 10 {
        assert t[k] == c[k - 5];
      } else if k < 19 {
        assert t[k] == d[k - 10];
      } else {
        assert t[k] == e[k - 19];
      }
    }
  }

  /** The order the shadow map needs: it is allocated before it is bound, drawn into
      or published; it is bound, and the light's view and projection are set, before
      the shadow draw; it is published to the receivers only after the draw. */
  lemma MainCharacterShadowOrder(width: int, height: int, format: RenderTextureFormat,
                                 light: VisibleLight, lightIndex: int, bias: Vec4,
                                 view: Matrix4x4, proj: Matrix4x4, cullingSphere: Vec4,
                                 destination: RenderTargetHandle, shadowMatrix: Matrix4x4, soft: bool)
    requires width != 0 && height != 0
    ensures var t := MainCharacterShadowCommands(width, height, format, light, lightIndex, bias, view, proj,
                                                 cullingSphere, destination, shadowMatrix, soft);
      && AllBefore(t, (c: Cmd) => c.GetTemporaryTexture?,
                      (c: Cmd) => c.SetRenderTarget? || c.DrawShadows? || c.SetGlobalTexture?)
      && AllBefore(t, (c: Cmd) => c.SetRenderTarget? || c.SetViewProjection?, (c: Cmd) => c.DrawShadows?)
      && AllBefore(t, (c: Cmd) => c.DrawShadows?, (c: Cmd) => c.SetGlobalTexture?)
  {
    MainCharacterShadowPositions(width, height, format, light, lightIndex, bias, view, proj,
                                 cullingSphere, destination, shadowMatrix, soft);
  }

  /** After the trace, main-character shadows are on and soft shadows are as `soft`
      says, whatever came before. */
  lemma MainCharacterShadowKeywords(before: seq<Cmd>, width: int, height: int, format: RenderTextureFormat,
                                    light: VisibleLight, lightIndex: int, bias: Vec4,
                                    view: Matrix4x4, proj: Matrix4x4, cullingSphere: Vec4,
                                    destination: RenderTargetHandle, shadowMatrix: Matrix4x4, soft: bool)
    requires width != 0 && height != 0
    ensures var t := MainCharacterShadowCommands(width, height, format, light, lightIndex, bias, view, proj,
                                                 cullingSphere, destination, shadowMatrix, soft);
      && KeywordState(before + t, MainCharacterShadowsKeyword) == Some(true)
      && KeywordState(before + t, SoftShadowsKeyword) == Some(soft)
  {
    var head := AllocateAndBind(width, height, format)
      + CasterSetup(light, bias, view, proj)
      + RenderShadowSlice(MainCharacterSlice(width), lightIndex, cullingSphere, proj, view)
      + ReceiverConstants(destination, ShadowmapTextureName, shadowMatrix, light.shadowStrength,
                          width, height, cullingSphere);
    var ks := KeywordCommands(soft);
    assert before + (head + ks) == (before + head) + ks;
    assert KeywordState(ks, MainCharacterShadowsKeyword) == Some(true) by {
      assert ks[..1] == [SetKeyword(MainCharacterShadowsKeyword, true)];
    }
    assert KeywordState(ks, SoftShadowsKeyword) == Some(soft);
    KeywordStateAppend(before + head, ks, MainCharacterShadowsKeyword);
    KeywordStateAppend(before + head, ks, SoftShadowsKeyword);
  }

  // ---------------------------------------------------------------------------------
  // Cleanup.

  /** What `FrameCleanup` records: `_IsMainCharacter` reset to 0, then the release of
      the shadow-map texture when the pass holds one. */
  function CleanupCommands(texture: Option<string>): (r: seq<Cmd>)
    ensures |r| >= 1 && r[0] == SetGlobalFloat(IsMainCharacterName, 0.0)
    ensures forall tex :: ReleaseTemporaryTexture(tex) in r <==> texture == Some(tex)
  {
    [SetGlobalFloat(IsMainCharacterName, 0.0)]
      + (if texture.Some? then [ReleaseTemporaryTexture(texture.value)] else [])
  }

  /** Every texture a trace allocates is released by the cleanup trace. */
  predicate CleanupReleasesTextures(execute: seq<Cmd>, cleanup: seq<Cmd>)
  {
    forall k :: 0 <= k < |execute| && execute[k].GetTemporaryTexture? ==>
      ReleaseTemporaryTexture(execute[k].tex) in cleanup
  }

  /** The cleanup after a recording `Execute` (which leaves the pass holding the
      texture) releases the one texture that `Execute` allocated. */
  lemma MainCharacterCleanupBalances(width: int, height: int, format: RenderTextureFormat,
                                     light: VisibleLight, lightIndex: int, bias: Vec4,
                                     view: Matrix4x4, proj: Matrix4x4, cullingSphere: Vec4,
                                     destination: RenderTargetHandle, shadowMatrix: Matrix4x4, soft: bool)
    requires width != 0 && height != 0
    ensures CleanupReleasesTextures(
              MainCharacterShadowCommands(width, height, format, light, lightIndex, bias, view, proj,
                                          cullingSphere, destination, shadowMatrix, soft),
              CleanupCommands(Some(ShadowmapTextureName)))
  {
    MainCharacterShadowPositions(width, height, format, light, lightIndex, bias, view, proj,
                                 cullingSphere, destination, shadowMatrix, soft);
  }

  class MainCharacterShadowCasterPass {
    var passNames: seq<string>
    var shadowmapFormat: RenderTextureFormat
    /** The shadow-map texture the pass holds, by name; None when it holds none. */
    var shadowmapTexture: Option<string>
    var viewMatrix: Matrix4x4
    var projMatrix: Matrix4x4
    var cullingSphere: Vec4
    var shadowMatrix: Matrix4x4
    var destination: RenderTargetHandle
    var renderers: seq<Renderer>

    /** Registers the "ShadowCaster" shader pass and picks the shadow-map format. */
    constructor (caps: DeviceCaps)
      ensures passNames == ["ShadowCaster"] && shadowmapFormat == ShadowmapFormat(caps)
      ensures shadowmapTexture.None? && renderers == []
    {
      passNames := ["ShadowCaster"];
      shadowmapFormat := if Supports(caps, Shadowmap) then Shadowmap else Depth;
      shadowmapTexture := None;
      viewMatrix, projMatrix, shadowMatrix := ZeroMatrix, ZeroMatrix, ZeroMatrix;
      cullingSphere := Zero4;
      destination := Unassigned;
      renderers := [];
    }

    /** `Setup`: stores the destination first, then fails without a main light, when the
        main light casts no shadows, or when it has no shadow-caster bounds. */
    method Setup(dest: RenderTargetHandle, renderingData: RenderingData) returns (ok: bool)
      requires renderingData.lightData.mainLightIndex == -1 || MainLight(renderingData).Some?
      modifies this
      ensures destination == dest
      ensures ok <==> renderingData.lightData.mainLightIndex != -1
                      && MainLight(renderingData).value.shadows != NoShadows
                      && renderingData.lightData.mainLightIndex in renderingData.lightsWithCasterBounds
      ensures ok <==> MainLightCastsShadows(renderingData)
      ensures passNames == old(passNames) && shadowmapFormat == old(shadowmapFormat)
      ensures shadowmapTexture == old(shadowmapTexture) && renderers == old(renderers)
      ensures viewMatrix == old(viewMatrix) && projMatrix == old(projMatrix)
      ensures cullingSphere == old(cullingSphere) && shadowMatrix == old(shadowMatrix)
    {
      destination := dest;
      var shadowLightIndex := renderingData.lightData.mainLightIndex;
      if shadowLightIndex == -1 {
        return false;
      }
      var shadowLight := renderingData.lightData.visibleLights[shadowLightIndex];
      if shadowLight.shadows == NoShadows {
        return false;
      }
      if shadowLightIndex !in renderingData.lightsWithCasterBounds {
        return false;
      }
      return true;
    }

    /** `GetVPMatrix`: scans the "Player" casters into the caster list and takes the view,
        projection and culling sphere the scan reports; when it finds casters, also
        derives the world-to-shadow matrix. */
    method GetVPMatrix(engine: ShadowEngine, light: VisibleLight, scene: map<string, seq<Option<Renderer>>>,
                       caps: DeviceCaps) returns (found: bool)
      modifies this
      ensures renderers == Kept(TaggedObjects(scene, "Player"), IsShadowCaster)
      ensures found <==> |renderers| > 0
      ensures !found ==> viewMatrix == Identity && projMatrix == Identity && cullingSphere == Zero4
      ensures !found ==> shadowMatrix == old(shadowMatrix)
      ensures found ==>
                GetVPMatrixWithWorldBounds(engine, light.worldToLocal, Union(renderers))
                  == ShadowVP(viewMatrix, projMatrix, cullingSphere)
      ensures found ==> shadowMatrix == GetShadowTransform(projMatrix, viewMatrix, caps.usesReversedZBuffer)
      ensures passNames == old(passNames) && shadowmapFormat == old(shadowmapFormat)
      ensures shadowmapTexture == old(shadowmapTexture) && destination == old(destination)
    {
      var vp;
      found, renderers, vp := GetVPMatrixWithTag(engine, light.worldToLocal, "Player", scene);
      viewMatrix, projMatrix, cullingSphere := vp.view, vp.proj, vp.cullingSphere;
      if !found {
        return false;
      }
      shadowMatrix := GetShadowTransform(projMatrix, viewMatrix, caps.usesReversedZBuffer);
      return true;
    }

    /** `RenderTexture.GetTemporary` for the shadow map (named, bilinear, clamped): the
        pass now holds the texture. */
    method AcquireShadowmap()
      modifies this
      ensures shadowmapTexture == Some(ShadowmapTextureName)
      ensures passNames == old(passNames) && shadowmapFormat == old(shadowmapFormat)
      ensures renderers == old(renderers) && destination == old(destination)
      ensures viewMatrix == old(viewMatrix) && projMatrix == old(projMatrix)
      ensures cullingSphere == old(cullingSphere) && shadowMatrix == old(shadowMatrix)
    {
      shadowmapTexture := Some(ShadowmapTextureName);
    }

    /** The part of `Execute` after the main light is known: the "Player" casters are
        scanned (`GetVPMatrix`); when there are none nothing is recorded; otherwise the
        pass takes a shadow-map texture and records the trace of
        `MainCharacterShadowCommands`, the soft-shadow keyword on exactly when the light's
        shadows are soft and soft shadows are supported. */
    method RenderForLight(light: VisibleLight, lightIndex: int, shadowData: ShadowData, engine: ShadowEngine,
                          scene: map<string, seq<Option<Renderer>>>, caps: DeviceCaps) returns (cmds: seq<Cmd>)
      requires shadowData.mainCharacterShadowmapWidth != 0 && shadowData.mainCharacterShadowmapHeight != 0
      requires OrthoScalesX(engine)
      modifies this
      ensures renderers == Kept(TaggedObjects(scene, "Player"), IsShadowCaster)
      ensures |renderers| == 0 ==> cmds == [] && shadowmapTexture == old(shadowmapTexture)
      ensures |renderers| == 0 ==> shadowMatrix == old(shadowMatrix)
      ensures |renderers| > 0 ==>
                && GetVPMatrixWithWorldBounds(engine, light.worldToLocal, Union(renderers))
                     == ShadowVP(viewMatrix, projMatrix, cullingSphere)
                && shadowMatrix == GetShadowTransform(projMatrix, viewMatrix, caps.usesReversedZBuffer)
                && shadowmapTexture == Some(ShadowmapTextureName)
      ensures |renderers| > 0 ==>
                && BiasInputsFinite(light, lightIndex, shadowData, projMatrix,
                                    shadowData.mainCharacterShadowmapWidth as real)
                && cmds == MainCharacterShadowCommands(
                             shadowData.mainCharacterShadowmapWidth, shadowData.mainCharacterShadowmapHeight,
                             shadowmapFormat, light, lightIndex,
                             MainCharacterMapBias(light, lightIndex, shadowData, projMatrix),
                             viewMatrix, projMatrix, cullingSphere, destination, shadowMatrix,
                             light.shadows == Soft && shadowData.supportsSoftShadows)
      ensures passNames == old(passNames) && shadowmapFormat == old(shadowmapFormat)
      ensures destination == old(destination)
    {
      var found := GetVPMatrix(engine, light, scene, caps);
      if !found {
        return [];
      }
      var width, height := shadowData.mainCharacterShadowmapWidth, shadowData.mainCharacterShadowmapHeight;
      OrthoBiasFinite(engine, light, lightIndex, shadowData, Union(renderers));
      var bias := GetShadowBias(light, lightIndex, shadowData, projMatrix, width as real);
      AcquireShadowmap();
      cmds := MainCharacterShadowCommands(width, height, shadowmapFormat, light, lightIndex, bias,
                                          viewMatrix, projMatrix, cullingSphere, destination, shadowMatrix,
                                          light.shadows == Soft && shadowData.supportsSoftShadows);
    }

    /** `Execute`: a null renderer throws and nothing changes; with the feature off or
        without a main light nothing is recorded and nothing changes; otherwise
        `RenderForLight` for the main light. */
    method Execute(rendererPresent: bool, renderingData: RenderingData, engine: ShadowEngine,
                   scene: map<string, seq<Option<Renderer>>>, caps: DeviceCaps) returns (r: Outcome)
      requires renderingData.lightData.mainLightIndex == -1 || MainLight(renderingData).Some?
      requires renderingData.shadowData.mainCharacterShadowmapWidth != 0
      requires renderingData.shadowData.mainCharacterShadowmapHeight != 0
      requires OrthoScalesX(engine)
      modifies this
      ensures !rendererPresent ==> r == ArgumentNull("renderer")
      ensures rendererPresent && !renderingData.shadowData.supportsMainCharacterShadows ==> r == Recorded([])
      ensures rendererPresent && renderingData.lightData.mainLightIndex == -1 ==> r == Recorded([])
      ensures !rendererPresent || !renderingData.shadowData.supportsMainCharacterShadows
              || renderingData.lightData.mainLightIndex == -1 ==>
                renderers == old(renderers) && shadowmapTexture == old(shadowmapTexture)
                && viewMatrix == old(viewMatrix) && projMatrix == old(projMatrix)
                && cullingSphere == old(cullingSphere) && shadowMatrix == old(shadowMatrix)
      ensures rendererPresent && renderingData.shadowData.supportsMainCharacterShadows
              && renderingData.lightData.mainLightIndex != -1 ==>
                && renderers == Kept(TaggedObjects(scene, "Player"), IsShadowCaster)
                && (|renderers| == 0 ==> r == Recorded([]) && shadowmapTexture == old(shadowmapTexture))
      ensures rendererPresent && renderingData.shadowData.supportsMainCharacterShadows
              && renderingData.lightData.mainLightIndex != -1 && |renderers| > 0 ==>
                var light := MainLight(renderingData).value;
                var lightIndex := renderingData.lightData.mainLightIndex;
                var shadowData := renderingData.shadowData;
                && shadowmapTexture == Some(ShadowmapTextureName)
                && GetVPMatrixWithWorldBounds(engine, light.worldToLocal, Union(renderers))
                     == ShadowVP(viewMatrix, projMatrix, cullingSphere)
                && shadowMatrix == GetShadowTransform(projMatrix, viewMatrix, caps.usesReversedZBuffer)
                && BiasInputsFinite(light, lightIndex, shadowData, projMatrix,
                                    shadowData.mainCharacterShadowmapWidth as real)
                && r == Recorded(MainCharacterShadowCommands(
                          shadowData.mainCharacterShadowmapWidth, shadowData.mainCharacterShadowmapHeight,
                          shadowmapFormat, light, lightIndex,
                          MainCharacterMapBias(light, lightIndex, shadowData, projMatrix),
                          viewMatrix, projMatrix, cullingSphere, destination, shadowMatrix,
                          light.shadows == Soft && shadowData.supportsSoftShadows))
      ensures passNames == old(passNames) && shadowmapFormat == old(shadowmapFormat)
      ensures destination == old(destination)
    {
      if !rendererPresent {
        return ArgumentNull("renderer");
      }
      if !renderingData.shadowData.supportsMainCharacterShadows {
        return Recorded([]);
      }
      var shadowLightIndex := renderingData.lightData.mainLightIndex;
      if shadowLightIndex == -1 {
        return Recorded([]);
      }
      var shadowLight := renderingData.lightData.visibleLights[shadowLightIndex];
      var cmds := RenderForLight(shadowLight, shadowLightIndex, renderingData.shadowData, engine, scene, caps);
      return Recorded(cmds);
    }

    /** `FrameCleanup`: a null command buffer throws; otherwise `_IsMainCharacter` is reset
        and the held texture, if any, is released and dropped, so a second cleanup
        releases nothing. */
    method FrameCleanup(cmdPresent: bool) returns (r: Outcome)
      modifies this
      ensures !cmdPresent ==> r == ArgumentNull("cmd") && shadowmapTexture == old(shadowmapTexture)
      ensures cmdPresent ==> r == Recorded(CleanupCommands(old(shadowmapTexture))) && shadowmapTexture.None?
      ensures passNames == old(passNames) && shadowmapFormat == old(shadowmapFormat)
      ensures renderers == old(renderers) && destination == old(destination)
      ensures viewMatrix == old(viewMatrix) && projMatrix == old(projMatrix)
      ensures cullingSphere == old(cullingSphere) && shadowMatrix == old(shadowMatrix)
    {
      if !cmdPresent {
        return ArgumentNull("cmd");
      }
      var cmds := [SetGlobalFloat(IsMainCharacterName, 0.0)];
      if shadowmapTexture.Some? {
        cmds := cmds + [ReleaseTemporaryTexture(shadowmapTexture.value)];
        shadowmapTexture := None;
      }
      return Recorded(cmds);
    }
  }

}
