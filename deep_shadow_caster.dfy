/** DeepShadowCasterPass: renders the objects tagged "Player" into a per-pixel linked
    deep shadow map. A compute kernel first resets the two buffers of the map (one
    fragment count per texel, and `DeepShadowMapDepth` fragment slots per texel); the
    casters are then drawn, material slot by material slot, with the buffers bound as
    random-write targets; finally the world-to-shadow matrix and the shadow strength
    are published for the screen-space resolve. */
module DeepShadowCaster {
  import opened Wrappers
  import opened Linear
  import opened SceneBounds
  import opened RenderTypes
  import opened PipelineCore
  import opened ShadowUtils

  const DeepShadowMapSize := 1024
  const DeepShadowMapDepth := 32

  /** Element count and stride in bytes of a compute buffer. */
  datatype BufferLayout = BufferLayout(count: nat, stride: nat)

  /** `NewDeepShadowMapsBuffer`: a 4-byte counter for each texel of the square map, and
      `DeepShadowMapDepth` 8-byte fragment slots (two floats) for each texel. */
  function NewDeepShadowMapsBuffer(): (r: (BufferLayout, BufferLayout))
    ensures r.0.count == DeepShadowMapSize * DeepShadowMapSize && r.0.stride == 4
    ensures r.1.count == r.0.count * DeepShadowMapDepth && r.1.stride == 8
  {
    (BufferLayout(DeepShadowMapSize * DeepShadowMapSize, 4),
     BufferLayout(DeepShadowMapSize * DeepShadowMapSize * DeepShadowMapDepth, 8))
  }

  /** The reset kernel runs in thread groups of 8 x 8 texels. */
  const ResetGroups := DeepShadowMapSize / 8

  /** The reset dispatch covers the map exactly: its groups of 8 x 8 threads span the
      whole square, one thread per counter of the count buffer. */
  lemma ResetDispatchCoversMap()
    ensures ResetGroups * 8 == DeepShadowMapSize
    ensures (ResetGroups * 8) * (ResetGroups * 8) == NewDeepShadowMapsBuffer().0.count
  {
  }

  /** The draws of one renderer: one per material slot, in slot order. */
  function MaterialDraws(r: Renderer): (d: seq<Cmd>)
    ensures |d| == r.materialCount
    ensures forall i :: 0 <= i < |d| ==> d[i] == DrawRenderer(r.id, i)
  {
    seq(r.materialCount, i requires 0 <= i < r.materialCount => DrawRenderer(r.id, i))
  }

  /** The draws of the caster list: each renderer's material slots, renderer by renderer. */
  function DeepShadowDraws(rs: seq<Renderer>): seq<Cmd>
  {
    if |rs| == 0 then [] else DeepShadowDraws(rs[..|rs| - 1]) + MaterialDraws(rs[|rs| - 1])
  }

  /** The draw list holds only per-renderer draws, and holds the draw of slot `i` of
      renderer `id` exactly when a caster with that id has a material in slot `i`. */
  lemma {:induction false} DeepShadowDrawsMembers(rs: seq<Renderer>)
    ensures forall c :: c in DeepShadowDraws(rs) ==> c.DrawRenderer?
    ensures forall id: nat, i: nat :: DrawRenderer(id, i) in DeepShadowDraws(rs) <==>
      exists k :: 0 <= k < |rs| && rs[k].id == id && i < rs[k].materialCount
  {
    if |rs| > 0 {
      var init := rs[..|rs| - 1];
      var last := rs[|rs| - 1];
      DeepShadowDrawsMembers(init);
      forall id: nat, i: nat
        ensures DrawRenderer(id, i) in DeepShadowDraws(rs) <==>
          exists k :: 0 <= k < |rs| && rs[k].id == id && i < rs[k].materialCount
      {
        if DrawRenderer(id, i) in MaterialDraws(last) {
          var j :| 0 <= j < |MaterialDraws(last)| && MaterialDraws(last)[j] == DrawRenderer(id, i);
          assert 0 <= |rs| - 1 < |rs| && rs[|rs| - 1].id == id && i < rs[|rs| - 1].materialCount;
        }
        if exists k :: 0 <= k < |rs| && rs[k].id == id && i < rs[k].materialCount {
          var k :| 0 <= k < |rs| && rs[k].id == id && i < rs[k].materialCount;
          if k < |init| {
            assert init[k] == rs[k];
          } else {
            assert MaterialDraws(last)[i] == DrawRenderer(id, i);
          }
        }
        if exists k :: 0 <= k < |init| && init[k].id == id && i < init[k].materialCount {
          var k :| 0 <= k < |init| && init[k].id == id && i < init[k].materialCount;
          assert rs[k] == init[k];
        }
      }
    }
  }

  /** Resets the deep shadow map: binds both buffers to the reset kernel and dispatches
      it over the map. */
  function ResetCommands(countBuffer: Option<ComputeBufferHandle>, dataBuffer: Option<ComputeBufferHandle>): (r: seq<Cmd>)
    ensures |r| == 3
  {
    [SetComputeBufferParam(ResetDeepShadowDataCompute, "_CountBuffer", countBuffer),
     SetComputeBufferParam(ResetDeepShadowDataCompute, "_DataBuffer", dataBuffer),
     DispatchCompute(ResetDeepShadowDataCompute, ResetGroups, ResetGroups, 1)]
  }

  /** The state the caster draws need: no render target (colour cleared), a viewport the
      size of the map, the caster constants with the bias for a map as wide as the
      main-character shadow map, the light's view and projection, the two buffers as
      random-write targets 1 and 2, and the map's size and depth. */
  function CastSetupCommands(light: VisibleLight, bias: Vec4, view: Matrix4x4, proj: Matrix4x4,
                             countBuffer: Option<ComputeBufferHandle>, dataBuffer: Option<ComputeBufferHandle>): (r: seq<Cmd>)
    ensures |r| == 9
  {
    [SetRenderTarget(ColorOnly(NoTarget, DontCare, DontCareStore), ClearColor),
     SetViewport(0, 0, DeepShadowMapSize, DeepShadowMapSize)]
      + SetupShadowCasterConstantBuffer(light, bias)
      + [SetViewProjection(view, proj),
         SetRandomWriteTarget(1, countBuffer),
         SetRandomWriteTarget(2, dataBuffer),
         SetGlobalInt("_DeepShadowMapSize", DeepShadowMapSize),
         SetGlobalInt("_DeepShadowMapDepth", DeepShadowMapDepth)]
  }

  /** The resolver constants, then the random-write targets unbound. */
  function ResolverCommands(deepShadowMatrix: Matrix4x4, shadowStrength: real): (r: seq<Cmd>)
    ensures |r| == 3 && r[2] == ClearRandomWriteTargets
  {
    [SetGlobalMatrix("_DeepShadowMapsWorldToShadow", deepShadowMatrix),
     SetGlobalFloat("_DeepShadowStrength", shadowStrength),
     ClearRandomWriteTargets]
  }

  /** What `Execute` records once the casters are found. */
  function DeepShadowCasterCommands(light: VisibleLight, bias: Vec4,
                                    view: Matrix4x4, proj: Matrix4x4, deepShadowMatrix: Matrix4x4,
                                    countBuffer: Option<ComputeBufferHandle>, dataBuffer: Option<ComputeBufferHandle>,
                                    renderers: seq<Renderer>): (r: seq<Cmd>)
    ensures |r| == 15 + |DeepShadowDraws(renderers)|
  {
    ResetCommands(countBuffer, dataBuffer)
      + CastSetupCommands(light, bias, view, proj, countBuffer, dataBuffer)
      + DeepShadowDraws(renderers)
      + ResolverCommands(deepShadowMatrix, light.shadowStrength)
  }


  /** The four stages of the trace, at their positions. */
  lemma DeepShadowCasterStages(light: VisibleLight, bias: Vec4,
                               view: Matrix4x4, proj: Matrix4x4, deepShadowMatrix: Matrix4x4,
                               countBuffer: Option<ComputeBufferHandle>, dataBuffer: Option<ComputeBufferHandle>,
                               renderers: seq<Renderer>)
    ensures var r := DeepShadowCasterCommands(light, bias, view, proj, deepShadowMatrix,
                                              countBuffer, dataBuffer, renderers);
      && r[..3] == ResetCommands(countBuffer, dataBuffer)
      && r[3..12] == CastSetupCommands(light, bias, view, proj, countBuffer, dataBuffer)
      && r[12..|r| - 3] == DeepShadowDraws(renderers)
      && r[|r| - 3..] == ResolverCommands(deepShadowMatrix, light.shadowStrength)
  {
    var a := ResetCommands(countBuffer, dataBuffer);
    var b := CastSetupCommands(light, bias, view, proj, countBuffer, dataBuffer);
    var d := DeepShadowDraws(renderers);
    var e := ResolverCommands(deepShadowMatrix, light.shadowStrength);
    var r := a + b + d + e;
    assert r[..3] == a && r[3..12] == b && r[12..|r| - 3] == d && r[|r| - 3..] == e;
  }

  /** Where each kind of command sits in the trace: the dispatch at 2, the bindings
      among 3..11, the draws among 12..n-4 and the unbinding last; nothing allocates. */
  lemma DeepShadowCasterPositions(light: VisibleLight, bias: Vec4,
                                  view: Matrix4x4, proj: Matrix4x4, deepShadowMatrix: Matrix4x4,
                                  countBuffer: Option<ComputeBufferHandle>, dataBuffer: Option<ComputeBufferHandle>,
                                  renderers: seq<Renderer>)
    ensures var t := DeepShadowCasterCommands(light, bias, view, proj, deepShadowMatrix,
                                              countBuffer, dataBuffer, renderers);
      forall k :: 0 <= k < |t| ==>
        && (t[k].DispatchCompute? ==> k == 2)
        && (t[k].SetRandomWriteTarget? || t[k].SetViewProjection? ==> 3 <= k < 12)
        && (t[k].DrawRenderer? ==> 12 <= k < |t| - 3)
        && (t[k].ClearRandomWriteTargets? ==> k == |t| - 1)
        && !t[k].GetTemporaryRT?
  {
    var t := DeepShadowCasterCommands(light, bias, view, proj, deepShadowMatrix,
                                      countBuffer, dataBuffer, renderers);
    var d := DeepShadowDraws(renderers);
    DeepShadowCasterStages(light, bias, view, proj, deepShadowMatrix, countBuffer, dataBuffer, renderers);
    DeepShadowDrawsMembers(renderers);
    var n := |t|;
    forall k | 0 <= k < n
      ensures t[k].DispatchCompute? ==> k == 2
      ensures t[k].SetRandomWriteTarget? || t[k].SetViewProjection? ==> 3 <= k < 12
      ensures t[k].DrawRenderer? ==> 12 <= k < n - 3
      ensures t[k].ClearRandomWriteTargets? ==> k == n - 1
      ensures !t[k].GetTemporaryRT?
    {
      if k < 3 {
        assert t[k] == t[..3][k];
      } else if k < 12 {
        assert t[k] == t[3..12][k - 3];
      } else if k < n - 3 {
        assert t[k] == d[k - 12];
        assert d[k - 12] in d;
      } else {
        assert t[k] == t[n - 3..][k - (n - 3)];
      }
    }
  }

  /** The order the deep shadow map needs: the reset dispatch comes before the buffers
      are bound for writing and before every caster draw; the buffers are bound as
      random-write targets, and the light's view and projection set, before every
      caster draw; the random-write targets are unbound after every caster draw, as the
      last command. The pass allocates no temporary. */
  lemma DeepShadowCasterOrder(light: VisibleLight, bias: Vec4,
                              view: Matrix4x4, proj: Matrix4x4, deepShadowMatrix: Matrix4x4,
                              countBuffer: Option<ComputeBufferHandle>, dataBuffer: Option<ComputeBufferHandle>,
                              renderers: seq<Renderer>)
    ensures var t := DeepShadowCasterCommands(light, bias, view, proj, deepShadowMatrix,
                                              countBuffer, dataBuffer, renderers);
      && AllBefore(t, (c: Cmd) => c.DispatchCompute?, (c: Cmd) => c.SetRandomWriteTarget? || c.DrawRenderer?)
      && AllBefore(t, (c: Cmd) => c.SetRandomWriteTarget? || c.SetViewProjection?, (c: Cmd) => c.DrawRenderer?)
      && AllBefore(t, (c: Cmd) => c.DrawRenderer?, (c: Cmd) => c.ClearRandomWriteTargets?)
      && t[|t| - 1] == ClearRandomWriteTargets
      && SetRandomWriteTarget(1, countBuffer) in t && SetRandomWriteTarget(2, dataBuffer) in t
      && Allocations(t) == []
  {
    var t := DeepShadowCasterCommands(light, bias, view, proj, deepShadowMatrix,
                                      countBuffer, dataBuffer, renderers);
    DeepShadowCasterPositions(light, bias, view, proj, deepShadowMatrix, countBuffer, dataBuffer, renderers);
    assert SetRandomWriteTarget(1, countBuffer) in t && SetRandomWriteTarget(2, dataBuffer) in t
        && t[|t| - 1] == ClearRandomWriteTargets by {
      DeepShadowCasterStages(light, bias, view, proj, deepShadowMatrix, countBuffer, dataBuffer, renderers);
      assert t[3..12][6] == t[9] && t[3..12][7] == t[10];
    }
    NoAllocations(t);
  }



  class DeepShadowCasterPass {
    var passNames: seq<string>
    var countBuffer: Option<ComputeBufferHandle>
    var dataBuffer: Option<ComputeBufferHandle>
    var resetComputeLoaded: bool
    var renderers: seq<Renderer>
    var viewMatrix: Matrix4x4
    var projMatrix: Matrix4x4
    var deepShadowMatrix: Matrix4x4

    /** Registers the "DeepShadowCaster" shader pass, with an empty caster list. */
    constructor ()
      ensures passNames == ["DeepShadowCaster"] && renderers == []
      ensures countBuffer.None? && dataBuffer.None? && !resetComputeLoaded
    {
      passNames := ["DeepShadowCaster"];
      countBuffer := None;
      dataBuffer := None;
      resetComputeLoaded := false;
      renderers := [];
      viewMatrix := Identity;
      projMatrix := Identity;
      deepShadowMatrix := Identity;
    }

    /** `Setup`: fails without a main light, when the main light casts no shadows, or
        when no shadow caster lies in its range; otherwise fetches the renderer's two
        deep-shadow buffers and succeeds. A failed setup changes nothing. */
    method Setup(renderingData: RenderingData) returns (ok: bool)
      requires renderingData.lightData.mainLightIndex == -1 || MainLight(renderingData).Some?
      modifies this
      ensures ok <==> renderingData.lightData.mainLightIndex != -1
                      && MainLight(renderingData).value.shadows != NoShadows
                      && renderingData.lightData.mainLightIndex in renderingData.lightsWithCasterBounds
      ensures ok <==> MainLightCastsShadows(renderingData)
      ensures ok ==> countBuffer == Some(DeepShadowMapsCount) && dataBuffer == Some(DeepShadowMapsData)
      ensures !ok ==> countBuffer == old(countBuffer) && dataBuffer == old(dataBuffer)
      ensures passNames == old(passNames) && renderers == old(renderers)
      ensures resetComputeLoaded == old(resetComputeLoaded)
      ensures viewMatrix == old(viewMatrix) && projMatrix == old(projMatrix)
      ensures deepShadowMatrix == old(deepShadowMatrix)
    {
      var shadowLightIndex := renderingData.lightData.mainLightIndex;
      if shadowLightIndex == -1 {
        return false;
      }
      var shadowLight := renderingData.lightData.visibleLights[shadowLightIndex];
      if shadowLight.shadows == NoShadows {
        return false;
      }
      if shadowLightIndex !in renderingData.lightsWithCasterBounds {
        return false;
      }
      countBuffer := Some(DeepShadowMapsCount);
      dataBuffer := Some(DeepShadowMapsData);
      return true;
    }

    /** `FrameCleanup`: a null command buffer throws; otherwise nothing is released, as
        the pass allocates no temporary. */
    method FrameCleanup(cmdPresent: bool) returns (r: Outcome)
      ensures r == if cmdPresent then Recorded([]) else ArgumentNull("cmd")
    {
      if !cmdPresent {
        return ArgumentNull("cmd");
      }
      return Recorded([]);
    }

    /** `GetVPMatrix`: scans the "Player" casters into the caster list and takes the view
        and projection the scan reports (the identity matrices when it finds nothing);
        when it finds casters, also derives the world-to-shadow matrix. */
    method GetVPMatrix(engine: ShadowEngine, light: VisibleLight, scene: map<string, seq<Option<Renderer>>>,
                       caps: DeviceCaps) returns (found: bool)
      modifies this
      ensures renderers == Kept(TaggedObjects(scene, "Player"), IsShadowCaster)
      ensures found <==> |renderers| > 0
      ensures !found ==> viewMatrix == Identity && projMatrix == Identity
      ensures !found ==> deepShadowMatrix == old(deepShadowMatrix)
      ensures found ==>
                var vp := GetVPMatrixWithWorldBounds(engine, light.worldToLocal, Union(renderers));
                viewMatrix == vp.view && projMatrix == vp.proj
      ensures found ==> deepShadowMatrix == GetShadowTransform(projMatrix, viewMatrix, caps.usesReversedZBuffer)
      ensures passNames == old(passNames) && countBuffer == old(countBuffer) && dataBuffer == old(dataBuffer)
      ensures resetComputeLoaded == old(resetComputeLoaded)
    {
      var vp;
      found, renderers, vp := GetVPMatrixWithTag(engine, light.worldToLocal, "Player", scene);
      viewMatrix := vp.view;
      projMatrix := vp.proj;
      if !found {
        return false;
      }
      deepShadowMatrix := GetShadowTransform(projMatrix, viewMatrix, caps.usesReversedZBuffer);
      return true;
    }

    /** Records the caster draws: for each caster in list order, one draw per material
        slot. */
    static method RecordDraws(casters: seq<Renderer>) returns (draws: seq<Cmd>)
      ensures draws == DeepShadowDraws(casters)
    {
      draws := [];
      var k := 0;
      while k < |casters|
        invariant 0 <= k <= |casters|
        invariant draws == DeepShadowDraws(casters[..k])
      {
        var r := casters[k];
        var i := 0;
        while i < r.materialCount
          invariant 0 <= i <= r.materialCount
          invariant draws == DeepShadowDraws(casters[..k]) + MaterialDraws(r)[..i]
        {
          assert MaterialDraws(r)[..i + 1] == MaterialDraws(r)[..i] + [DrawRenderer(r.id, i)];
          draws := draws + [DrawRenderer(r.id, i)];
          i := i + 1;
        }
        assert MaterialDraws(r)[..i] == MaterialDraws(r);
        assert casters[..k + 1][..k] == casters[..k];
        k := k + 1;
      }
      assert casters[..k] == casters;
    }

    /** Records the reset, the cast set-up (with the bias for a map as wide as the
        main-character shadow map), the caster draws and the resolver constants. */
    static method RecordCasting(light: VisibleLight, lightIndex: int, shadowData: ShadowData,
                                view: Matrix4x4, proj: Matrix4x4, deepShadowMatrix: Matrix4x4,
                                countBuffer: Option<ComputeBufferHandle>, dataBuffer: Option<ComputeBufferHandle>,
                                casters: seq<Renderer>) returns (cmds: seq<Cmd>)
      requires BiasInputsFinite(light, lightIndex, shadowData, proj, shadowData.mainCharacterShadowmapWidth as real)
      ensures cmds == DeepShadowCasterCommands(light, MainCharacterMapBias(light, lightIndex, shadowData, proj), view, proj,
                                               deepShadowMatrix, countBuffer, dataBuffer, casters)
    {
      var bias := GetShadowBias(light, lightIndex, shadowData, proj, shadowData.mainCharacterShadowmapWidth as real);
      cmds := ResetCommands(countBuffer, dataBuffer);
      cmds := cmds + CastSetupCommands(light, bias, view, proj, countBuffer, dataBuffer);
      var draws := RecordDraws(casters);
      cmds := cmds + draws;
      cmds := cmds + ResolverCommands(deepShadowMatrix, light.shadowStrength);
    }

    /** The part of `Execute` after the main light is known: the "Player" casters are
        scanned (`GetVPMatrix`); when there are none nothing is recorded; otherwise the
        reset compute shader is loaded if it was not yet, and the pass records the reset,
        the cast set-up, the caster draws and the resolver constants. */
    method CastForLight(light: VisibleLight, lightIndex: int, shadowData: ShadowData, engine: ShadowEngine,
                        scene: map<string, seq<Option<Renderer>>>, caps: DeviceCaps) returns (cmds: seq<Cmd>)
      requires shadowData.mainCharacterShadowmapWidth != 0 && OrthoScalesX(engine)
      modifies this
      ensures renderers == Kept(TaggedObjects(scene, "Player"), IsShadowCaster)
      ensures |renderers| == 0 ==> cmds == [] && resetComputeLoaded == old(resetComputeLoaded)
      ensures |renderers| == 0 ==> deepShadowMatrix == old(deepShadowMatrix)
      ensures |renderers| == 0 ==> viewMatrix == Identity && projMatrix == Identity
      ensures |renderers| > 0 ==>
                var vp := GetVPMatrixWithWorldBounds(engine, light.worldToLocal, Union(renderers));
                && viewMatrix == vp.view && projMatrix == vp.proj
                && deepShadowMatrix == GetShadowTransform(vp.proj, vp.view, caps.usesReversedZBuffer)
                && resetComputeLoaded
      ensures |renderers| > 0 ==>
                && BiasInputsFinite(light, lightIndex, shadowData, projMatrix,
                                    shadowData.mainCharacterShadowmapWidth as real)
                && cmds == DeepShadowCasterCommands(light, MainCharacterMapBias(light, lightIndex, shadowData, projMatrix),
                                                    viewMatrix, projMatrix, deepShadowMatrix,
                                                    countBuffer, dataBuffer, renderers)
      ensures passNames == old(passNames) && countBuffer == old(countBuffer) && dataBuffer == old(dataBuffer)
    {
      var found := GetVPMatrix(engine, light, scene, caps);
      if !found {
        return [];
      }
      LoadResetCompute();
      OrthoBiasFinite(engine, light, lightIndex, shadowData, Union(renderers));
      cmds := RecordCasting(light, lightIndex, shadowData, viewMatrix, projMatrix,
                            deepShadowMatrix, countBuffer, dataBuffer, renderers);
    }

    /** Loads the reset compute shader (and finds its kernel) on first use. */
    method LoadResetCompute()
      modifies this
      ensures resetComputeLoaded
      ensures passNames == old(passNames) && countBuffer == old(countBuffer) && dataBuffer == old(dataBuffer)
      ensures renderers == old(renderers) && viewMatrix == old(viewMatrix) && projMatrix == old(projMatrix)
      ensures deepShadowMatrix == old(deepShadowMatrix)
    {
      if !resetComputeLoaded {
        resetComputeLoaded := true;
      }
    }

    /** `Execute`: a null renderer throws and nothing changes; without a main light
        nothing is recorded and nothing changes; otherwise `CastForLight` for the main
        light. */
    method Execute(rendererPresent: bool, renderingData: RenderingData, engine: ShadowEngine,
                   scene: map<string, seq<Option<Renderer>>>, caps: DeviceCaps) returns (r: Outcome)
      requires renderingData.lightData.mainLightIndex == -1 || MainLight(renderingData).Some?
      requires renderingData.shadowData.mainCharacterShadowmapWidth != 0
      requires OrthoScalesX(engine)
      modifies this
      ensures !rendererPresent ==> r == ArgumentNull("renderer")
      ensures rendererPresent && renderingData.lightData.mainLightIndex == -1 ==> r == Recorded([])
      ensures !rendererPresent || renderingData.lightData.mainLightIndex == -1 ==>
                renderers == old(renderers) && viewMatrix == old(viewMatrix) && projMatrix == old(projMatrix)
      ensures !rendererPresent || renderingData.lightData.mainLightIndex == -1 ==>
                deepShadowMatrix == old(deepShadowMatrix) && resetComputeLoaded == old(resetComputeLoaded)
      ensures rendererPresent && renderingData.lightData.mainLightIndex != -1 ==>
                renderers == Kept(TaggedObjects(scene, "Player"), IsShadowCaster)
      ensures rendererPresent && renderingData.lightData.mainLightIndex != -1 && |renderers| == 0 ==>
                r == Recorded([]) && resetComputeLoaded == old(resetComputeLoaded)
                && deepShadowMatrix == old(deepShadowMatrix)
      ensures rendererPresent && renderingData.lightData.mainLightIndex != -1 && |renderers| > 0 ==>
                var light := MainLight(renderingData).value;
                var vp := GetVPMatrixWithWorldBounds(engine, light.worldToLocal, Union(renderers));
                && viewMatrix == vp.view && projMatrix == vp.proj
                && deepShadowMatrix == GetShadowTransform(vp.proj, vp.view, caps.usesReversedZBuffer)
                && resetComputeLoaded
      ensures rendererPresent && renderingData.lightData.mainLightIndex != -1 && |renderers| > 0 ==>
                var light := MainLight(renderingData).value;
                var lightIndex := renderingData.lightData.mainLightIndex;
                && BiasInputsFinite(light, lightIndex, renderingData.shadowData, projMatrix,
                                    renderingData.shadowData.mainCharacterShadowmapWidth as real)
                && r == Recorded(DeepShadowCasterCommands(light, MainCharacterMapBias(light, lightIndex, renderingData.shadowData, projMatrix),
                                                          viewMatrix, projMatrix, deepShadowMatrix,
                                                          countBuffer, dataBuffer, renderers))
      ensures passNames == old(passNames) && countBuffer == old(countBuffer) && dataBuffer == old(dataBuffer)
    {
      if !rendererPresent {
        return ArgumentNull("renderer");
      }
      var shadowLightIndex := renderingData.lightData.mainLightIndex;
      if shadowLightIndex == -1 {
        return Recorded([]);
      }
      var shadowLight := renderingData.lightData.visibleLights[shadowLightIndex];
      var cmds := CastForLight(shadowLight, shadowLightIndex, renderingData.shadowData, engine, scene, caps);
      return Recorded(cmds);
    }
  }

}
