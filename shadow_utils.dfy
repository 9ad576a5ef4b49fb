/** ShadowUtils: the arithmetic shared by the shadow-caster passes — how large a tile
    fits in a shadow atlas, where each cascade sits in it, the matrices that take world
    space to atlas texture space, the depth and normal bias, and the tag-filtered scan
    that decides whether a tagged shadow pass has anything to draw. */
module ShadowUtils {
  import opened Wrappers
  import opened Linear
  import opened SceneBounds
  import opened RenderTypes
  import opened PipelineCore

  /** `ShadowSliceData`: one tile of a shadow atlas and its matrices. */
  datatype ShadowSliceData = ShadowSliceData(viewMatrix: Matrix4x4, projectionMatrix: Matrix4x4,
                                             shadowTransform: Matrix4x4,
                                             offsetX: int, offsetY: int, resolution: int)

  /** `ShadowSliceData.Clear`: identity matrices, the tile at the origin, 1024 texels. */
  const ClearedSlice := ShadowSliceData(Identity, Identity, Identity, 0, 0, 1024)

  // ---------------------------------------------------------------------------------
  // Atlas tiling.

  /** `atlasWidth / resolution * atlasHeight / resolution`, evaluated left to right
      with C#'s integer division (all operands are positive here). */
  function TileCount(atlasWidth: int, atlasHeight: int, resolution: int): int
    requires resolution > 0
  {
    atlasWidth / resolution * atlasHeight / resolution
  }

  /** `resolution >> k` for a positive resolution. */
  function ShiftRight(resolution: nat, k: nat): (r: nat)
    ensures r <= resolution
    ensures k > 0 && resolution > 0 ==> r < resolution
  {
    if k == 0 then resolution else ShiftRight(resolution, k - 1) / 2
  }

  lemma TileCountAtOneTexel(atlasWidth: int, atlasHeight: int)
    ensures TileCount(atlasWidth, atlasHeight, 1) == atlasWidth * atlasHeight
  {
  }

  /** `GetMaxTileResolutionInAtlas`: starting from the shorter side of the atlas, halve
      the tile resolution until at least `tileCount` tiles fit. The result is the first
      resolution of the halving sequence that fits. A tile count above `w*h` would drive
      the resolution to 0 and divide by zero, so the callers must not ask for it. */
  method GetMaxTileResolutionInAtlas(atlasWidth: int, atlasHeight: int, tileCount: int)
    returns (resolution: int, ghost halvings: nat)
    requires atlasWidth > 0 && atlasHeight > 0
    requires tileCount <= atlasWidth * atlasHeight
    ensures 1 <= resolution <= MinInt(atlasWidth, atlasHeight)
    ensures resolution == ShiftRight(MinInt(atlasWidth, atlasHeight), halvings)
    ensures TileCount(atlasWidth, atlasHeight, resolution) >= tileCount
    ensures forall j :: 0 <= j < halvings ==>
      ShiftRight(MinInt(atlasWidth, atlasHeight), j) > 0 &&
      TileCount(atlasWidth, atlasHeight, ShiftRight(MinInt(atlasWidth, atlasHeight), j)) < tileCount
  {
    var shorter := MinInt(atlasWidth, atlasHeight);
    resolution := shorter;
    halvings := 0;
    TileCountAtOneTexel(atlasWidth, atlasHeight);
    var currentTileCount := atlasWidth / resolution * atlasHeight / resolution;
    while currentTileCount < tileCount
      invariant 1 <= resolution <= shorter
      invariant resolution == ShiftRight(shorter, halvings)
      invariant currentTileCount == TileCount(atlasWidth, atlasHeight, resolution)
      invariant forall j :: 0 <= j < halvings ==>
        ShiftRight(shorter, j) > 0 && TileCount(atlasWidth, atlasHeight, ShiftRight(shorter, j)) < tileCount
      decreases resolution
    {
      // At one texel every position of the atlas is a tile, so the loop has stopped
      // before the resolution could reach 0.
      assert resolution != 1;
      resolution := resolution / 2;
      halvings := halvings + 1;
      currentTileCount := atlasWidth / resolution * atlasHeight / resolution;
    }
  }

  // ---------------------------------------------------------------------------------
  // Cascade placement.

  /** The atlas tile of cascade `cascadeIndex` (`ExtractDirectionalLightMatrix`): the
      cascades fill a two-column grid row by row. */
  function CascadeOffset(cascadeIndex: nat, resolution: int): (int, int)
  {
    ((cascadeIndex % 2) * resolution, (cascadeIndex / 2) * resolution)
  }

  /** Texel (x, y) lies in the square tile of side `res` at `offset`. */
  predicate InTile(offset: (int, int), res: int, x: int, y: int)
  {
    offset.0 <= x < offset.0 + res && offset.1 <= y < offset.1 + res
  }

  /** Four cascades tile the 2x2 grid of side `2*res`: every tile lies in it and no
      texel belongs to two of them. */
  lemma CascadesTileWithoutOverlap(i: nat, j: nat, res: int, x: int, y: int)
    requires i < 4 && j < 4 && i != j && res > 0
    ensures InTile(CascadeOffset(i, res), res, x, y) ==> 0 <= x < 2 * res && 0 <= y < 2 * res
    ensures !(InTile(CascadeOffset(i, res), res, x, y) && InTile(CascadeOffset(j, res), res, x, y))
  {
    assert i == 0 || i == 1 || i == 2 || i == 3;
    assert j == 0 || j == 1 || j == 2 || j == 3;
  }

  /** The matrix `ApplySliceTransform` multiplies in: identity except for the scale
      `res / W`, `res / H` and the offset `offX / W`, `offY / H`. */
  function SliceTransform(slice: ShadowSliceData, atlasWidth: int, atlasHeight: int): (r: Matrix4x4)
    requires atlasWidth != 0 && atlasHeight != 0
  {
    TileTransform(slice.offsetX, slice.offsetY, slice.resolution, atlasWidth, atlasHeight)
  }

  function TileTransform(offsetX: int, offsetY: int, resolution: int, atlasWidth: int, atlasHeight: int): Matrix4x4
    requires atlasWidth != 0 && atlasHeight != 0
  {
    var oneOverW := 1.0 / atlasWidth as real;
    var oneOverH := 1.0 / atlasHeight as real;
    Matrix4x4(Vec4(resolution as real * oneOverW, 0.0, 0.0, offsetX as real * oneOverW),
              Vec4(0.0, resolution as real * oneOverH, 0.0, offsetY as real * oneOverH),
              Identity.r2, Identity.r3)
  }

  lemma DivMonotone(a: real, b: real, d: real)
    requires a <= b && d > 0.0
    ensures a / d <= b / d
  {
    assert b / d - a / d == (b - a) / d;
  }

  /** The slice transform maps the unit texture square of a whole shadow map onto the
      slice's tile of the atlas, in atlas texture coordinates, leaving depth alone. */
  lemma SliceTransformMapsIntoTile(slice: ShadowSliceData, atlasWidth: int, atlasHeight: int, p: Vec4)
    requires atlasWidth > 0 && atlasHeight > 0 && slice.resolution >= 0
    requires p.w == 1.0 && 0.0 <= p.x <= 1.0 && 0.0 <= p.y <= 1.0
    ensures Transform(SliceTransform(slice, atlasWidth, atlasHeight), p)
            == Vec4(TileCoord(slice.offsetX, slice.resolution, atlasWidth, p.x),
                    TileCoord(slice.offsetY, slice.resolution, atlasHeight, p.y), p.z, 1.0)
    ensures slice.offsetX as real / atlasWidth as real
            <= TileCoord(slice.offsetX, slice.resolution, atlasWidth, p.x)
            <= (slice.offsetX + slice.resolution) as real / atlasWidth as real
    ensures slice.offsetY as real / atlasHeight as real
            <= TileCoord(slice.offsetY, slice.resolution, atlasHeight, p.y)
            <= (slice.offsetY + slice.resolution) as real / atlasHeight as real
  {
    SliceTransformX(slice, atlasWidth, atlasHeight, p);
    SliceTransformY(slice, atlasWidth, atlasHeight, p);
    SliceTransformZW(slice, atlasWidth, atlasHeight, p);
    TileCoordInTile(slice.offsetX, slice.resolution, atlasWidth, p.x);
    TileCoordInTile(slice.offsetY, slice.resolution, atlasHeight, p.y);
  }

  lemma SliceTransformX(slice: ShadowSliceData, atlasWidth: int, atlasHeight: int, p: Vec4)
    requires atlasWidth > 0 && atlasHeight > 0 && slice.resolution >= 0
    requires p.w == 1.0 && 0.0 <= p.x <= 1.0
    ensures Transform(SliceTransform(slice, atlasWidth, atlasHeight), p).x
            == TileCoord(slice.offsetX, slice.resolution, atlasWidth, p.x)
  {
    var res, ox, w := slice.resolution as real, slice.offsetX as real, atlasWidth as real;
    assert SliceTransform(slice, atlasWidth, atlasHeight).r0 == Vec4(res * (1.0 / w), 0.0, 0.0, ox * (1.0 / w));
    TileCoordinate(ox, res, w, p.x, p.y, p.z);
  }

  lemma SliceTransformY(slice: ShadowSliceData, atlasWidth: int, atlasHeight: int, p: Vec4)
    requires atlasWidth > 0 && atlasHeight > 0 && slice.resolution >= 0
    requires p.w == 1.0 && 0.0 <= p.y <= 1.0
    ensures Transform(SliceTransform(slice, atlasWidth, atlasHeight), p).y
            == TileCoord(slice.offsetY, slice.resolution, atlasHeight, p.y)
  {
    var res, oy, h := slice.resolution as real, slice.offsetY as real, atlasHeight as real;
    assert SliceTransform(slice, atlasWidth, atlasHeight).r1 == Vec4(0.0, res * (1.0 / h), 0.0, oy * (1.0 / h));
    TileCoordinate(oy, res, h, p.y, p.x, p.z);
  }

  lemma SliceTransformZW(slice: ShadowSliceData, atlasWidth: int, atlasHeight: int, p: Vec4)
    requires atlasWidth > 0 && atlasHeight > 0 && p.w == 1.0
    ensures Transform(SliceTransform(slice, atlasWidth, atlasHeight), p).z == p.z
    ensures Transform(SliceTransform(slice, atlasWidth, atlasHeight), p).w == 1.0
  {
  }

  /** A tile coordinate lies between the tile's two edges. */
  lemma TileCoordInTile(offset: int, resolution: int, atlasSize: int, u: real)
    requires atlasSize > 0 && resolution >= 0 && 0.0 <= u <= 1.0
    ensures offset as real / atlasSize as real <= TileCoord(offset, resolution, atlasSize, u)
            <= (offset + resolution) as real / atlasSize as real
  {
    TileCoordinate(offset as real, resolution as real, atlasSize as real, u, 0.0, 0.0);
  }

  /** Where texture coordinate `u` of a whole shadow map lands in atlas texture
      coordinates, for a tile at `offset` of side `resolution`. */
  function TileCoord(offset: int, resolution: int, atlasSize: int, u: real): real
    requires atlasSize != 0
  {
    (offset as real + u * resolution as real) / atlasSize as real
  }

  /** One coordinate of the slice transform: texture coordinate `u` of the whole map
      lands at `(o + u res) / d`, between the tile's two edges. */
  lemma TileCoordinate(o: real, res: real, d: real, u: real, other: real, z: real)
    requires d > 0.0 && res >= 0.0 && 0.0 <= u <= 1.0
    ensures res * (1.0 / d) * u + 0.0 * other + 0.0 * z + o * (1.0 / d) * 1.0 == (o + u * res) / d
    ensures 0.0 * other + res * (1.0 / d) * u + 0.0 * z + o * (1.0 / d) * 1.0 == (o + u * res) / d
    ensures o / d <= (o + u * res) / d <= (o + res) / d
  {
    assert 0.0 <= u * res <= res by { assert (1.0 - u) * res >= 0.0; }
    DivMonotone(o, o + u * res, d);
    DivMonotone(o + u * res, o + res, d);
  }

  /** `ApplySliceTransform` (on a `ref` struct): only the shadow transform changes, and
      it now lands in the slice's tile. */
  function ApplySliceTransform(slice: ShadowSliceData, atlasWidth: int, atlasHeight: int): (r: ShadowSliceData)
    requires atlasWidth != 0 && atlasHeight != 0
    ensures r.viewMatrix == slice.viewMatrix && r.projectionMatrix == slice.projectionMatrix
    ensures r.offsetX == slice.offsetX && r.offsetY == slice.offsetY && r.resolution == slice.resolution
    ensures forall p :: Transform(r.shadowTransform, p)
                        == Transform(SliceTransform(slice, atlasWidth, atlasHeight), Transform(slice.shadowTransform, p))
  {
    var st := SliceTransform(slice, atlasWidth, atlasHeight);
    var r := slice.(shadowTransform := Mul(st, slice.shadowTransform));
    forall p ensures Transform(r.shadowTransform, p) == Transform(st, Transform(slice.shadowTransform, p)) {
      TransformMul(st, slice.shadowTransform, p);
    }
    r
  }

  // ---------------------------------------------------------------------------------
  // World-to-shadow transform.

  /** The z-reversal `GetShadowTransform` applies on reversed-Z devices: row 2 of the
      projection negated. */
  function ReverseZ(proj: Matrix4x4): (r: Matrix4x4)
    ensures r.r0 == proj.r0 && r.r1 == proj.r1 && r.r3 == proj.r3
  {
    Matrix4x4(proj.r0, proj.r1, Vec4(-proj.r2.x, -proj.r2.y, -proj.r2.z, -proj.r2.w), proj.r3)
  }

  /** The reversed projection maps every point where the projection does, with depth
      negated. */
  lemma ReverseZNegatesDepth(proj: Matrix4x4, p: Vec4)
    ensures var q := Transform(proj, p); Transform(ReverseZ(proj), p) == Vec4(q.x, q.y, -q.z, q.w)
  {
  }

  /** Clip space [-1, 1] to texture space [0, 1] on x, y and z. */
  const TextureScaleAndBias := Matrix4x4(Vec4(0.5, 0.0, 0.0, 0.5), Vec4(0.0, 0.5, 0.0, 0.5),
                                         Vec4(0.0, 0.0, 0.5, 0.5), Vec4(0.0, 0.0, 0.0, 1.0))

  lemma TextureScaleAndBiasMapsClipToTexture(p: Vec4)
    requires p.w == 1.0
    ensures var q := Transform(TextureScaleAndBias, p);
      q == Vec4((p.x + 1.0) / 2.0, (p.y + 1.0) / 2.0, (p.z + 1.0) / 2.0, 1.0)
    ensures -1.0 <= p.x <= 1.0 ==> 0.0 <= Transform(TextureScaleAndBias, p).x <= 1.0
  {
  }

  /** The projection `GetShadowTransform` uses: depth reversed on reversed-Z devices. */
  function DeviceProjection(proj: Matrix4x4, usesReversedZBuffer: bool): Matrix4x4
  {
    if usesReversedZBuffer then ReverseZ(proj) else proj
  }

  /** `GetShadowTransform`: world space through the light's view and projection (with
      depth reversed on reversed-Z devices) to shadow-map texture space, as one matrix. */
  function GetShadowTransform(proj: Matrix4x4, view: Matrix4x4, usesReversedZBuffer: bool): Matrix4x4
  {
    var worldToShadow := Mul(DeviceProjection(proj, usesReversedZBuffer), view);
    Mul(TextureScaleAndBias, worldToShadow)
  }

  /** The shadow transform sends every world point through the view, then the device
      projection, then clip-to-texture space. */
  lemma GetShadowTransformComposes(proj: Matrix4x4, view: Matrix4x4, usesReversedZBuffer: bool, p: Vec4)
    ensures Transform(GetShadowTransform(proj, view, usesReversedZBuffer), p)
            == Transform(TextureScaleAndBias, Transform(DeviceProjection(proj, usesReversedZBuffer), Transform(view, p)))
  {
    var pr := DeviceProjection(proj, usesReversedZBuffer);
    TransformMul(TextureScaleAndBias, Mul(pr, view), p);
    TransformMul(pr, view, p);
  }

  /** What the engine's `ComputeDirectionalShadowMatricesAndCullingPrimitives` reports
      for one cascade; it is an engine call, so its results are inputs. */
  datatype CascadeQuery = CascadeQuery(success: bool, view: Matrix4x4, proj: Matrix4x4, cullingSphere: Vec4)

  /** `ExtractDirectionalLightMatrix`: the cascade's split sphere, and its slice — the
      tile from `CascadeOffset`, the engine's matrices and the shadow transform, baked
      into the atlas tile only when there is more than one cascade. */
  function ExtractDirectionalLightMatrix(shadowData: ShadowData, cascadeIndex: nat, shadowResolution: int,
                                         query: CascadeQuery, usesReversedZBuffer: bool)
    : (r: (bool, Vec4, ShadowSliceData))
    requires shadowData.mainLightShadowCascadesCount > 1 ==>
               shadowData.mainLightShadowmapWidth != 0 && shadowData.mainLightShadowmapHeight != 0
    ensures r.0 == query.success && r.1 == query.cullingSphere
    ensures (r.2.offsetX, r.2.offsetY) == CascadeOffset(cascadeIndex, shadowResolution)
    ensures r.2.resolution == shadowResolution
    ensures r.2.viewMatrix == query.view && r.2.projectionMatrix == query.proj
    ensures shadowData.mainLightShadowCascadesCount <= 1 ==>
      r.2.shadowTransform == GetShadowTransform(query.proj, query.view, usesReversedZBuffer)
    ensures shadowData.mainLightShadowCascadesCount > 1 ==>
      r.2.shadowTransform == Mul(SliceTransform(r.2, shadowData.mainLightShadowmapWidth, shadowData.mainLightShadowmapHeight),
                                 GetShadowTransform(query.proj, query.view, usesReversedZBuffer))
  {
    var offset := CascadeOffset(cascadeIndex, shadowResolution);
    var slice := ShadowSliceData(query.view, query.proj, GetShadowTransform(query.proj, query.view, usesReversedZBuffer),
                                 offset.0, offset.1, shadowResolution);
    var sliced := if shadowData.mainLightShadowCascadesCount > 1
                  then ApplySliceTransform(slice, shadowData.mainLightShadowmapWidth, shadowData.mainLightShadowmapHeight)
                  else slice;
    (query.success, query.cullingSphere, sliced)
  }

  /** `ExtractSpotLightMatrix`: the shadow matrix of a spot light's single slice, which
      takes a world point through the view, the device projection and clip-to-texture
      space. */
  function ExtractSpotLightMatrix(view: Matrix4x4, proj: Matrix4x4, usesReversedZBuffer: bool): (r: Matrix4x4)
    ensures forall p :: Transform(r, p) == Transform(TextureScaleAndBias,
                                                     Transform(DeviceProjection(proj, usesReversedZBuffer), Transform(view, p)))
  {
    var r := GetShadowTransform(proj, view, usesReversedZBuffer);
    assert forall p :: Transform(r, p) == Transform(TextureScaleAndBias,
                                                    Transform(DeviceProjection(proj, usesReversedZBuffer), Transform(view, p))) by {
      forall p ensures Transform(r, p) == Transform(TextureScaleAndBias,
                                                    Transform(DeviceProjection(proj, usesReversedZBuffer), Transform(view, p))) {
        GetShadowTransformComposes(proj, view, usesReversedZBuffer, p);
      }
    }
    r
  }

  // ---------------------------------------------------------------------------------
  // Rendering one slice and the caster constants.

  /** `RenderShadowSlice`: the viewport is the slice's tile, the scissor the tile inset
      by 4 texels on every side, and the shadow draw (for the light and culling sphere of
      the draw settings) happens while the scissor is on. */
  function RenderShadowSlice(slice: ShadowSliceData, lightIndex: int, cullingSphere: Vec4,
                             proj: Matrix4x4, view: Matrix4x4): (r: seq<Cmd>)
    ensures |r| == 5 && r[0].SetViewport? && r[1].EnableScissor? && r[3].DrawShadows? && r[4].DisableScissor?
    ensures r[0].vx == slice.offsetX && r[0].vy == slice.offsetY
    ensures r[0].vw == slice.resolution && r[0].vh == slice.resolution
    ensures r[1].sx == r[0].vx + 4 && r[1].sx + r[1].sw == r[0].vx + r[0].vw - 4
    ensures r[1].sy == r[0].vy + 4 && r[1].sy + r[1].sh == r[0].vy + r[0].vh - 4
    ensures r[2] == SetViewProjection(view, proj)
    ensures r[3] == DrawShadows(lightIndex, cullingSphere)
  {
    [SetViewport(slice.offsetX, slice.offsetY, slice.resolution, slice.resolution),
     EnableScissor(slice.offsetX + 4, slice.offsetY + 4, slice.resolution - 8, slice.resolution - 8),
     SetViewProjection(view, proj),
     DrawShadows(lightIndex, cullingSphere),
     DisableScissor]
  }

  /** `SetupShadowCasterConstantBuffer`: uploads the bias and the direction the light
      shines from (its local z axis reversed), as a direction with w = 0. */
  function SetupShadowCasterConstantBuffer(light: VisibleLight, shadowBias: Vec4): (r: seq<Cmd>)
    ensures |r| == 2 && r[0] == SetGlobalVector("_ShadowBias", shadowBias)
    ensures r[1].SetGlobalVector? && r[1].vecName == "_LightDirection" && r[1].vec.w == 0.0
    ensures var axis := light.localToWorld.Column(2);
      r[1].vec.x + axis.x == 0.0 && r[1].vec.y + axis.y == 0.0 && r[1].vec.z + axis.z == 0.0
  {
    var axis := light.localToWorld.Column(2);
    [SetGlobalVector("_ShadowBias", shadowBias),
     SetGlobalVector("_LightDirection", Vec4(-axis.x, -axis.y, -axis.z, 0.0))]
  }

  // ---------------------------------------------------------------------------------
  // Shadow bias.

  /** The world-space size of the shadow frustum: `2 / m00` of an orthographic
      directional projection, the half-range footprint of a spot cone, and 0 for any
      other light type (which the pipeline warns about). */
  function FrustumSize(light: VisibleLight, proj: Matrix4x4): real
    requires light.lightType == Directional ==> proj.r0.x != 0.0
  {
    match light.lightType
    case Directional => 2.0 / proj.r0.x
    case Spot => light.tanHalfSpotAngle * light.range
    case _ => 0.0
  }

  /** The precondition under which `GetShadowBias` computes with finite numbers: a
      non-zero resolution, and for a directional light in range a non-zero `m00`. */
  predicate BiasInputsFinite(light: VisibleLight, lightIndex: int, shadowData: ShadowData,
                             proj: Matrix4x4, shadowResolution: real)
  {
    shadowResolution != 0.0 &&
    (0 <= lightIndex < |shadowData.bias| && light.lightType == Directional ==> proj.r0.x != 0.0)
  }

  /** `GetShadowBias`: (depth bias, normal bias, 0, 0) in world units of one shadow-map
      texel, scaled up by the 5x5 PCF kernel radius when soft shadows are on; the zero
      vector for a light index without a bias entry. */
  function GetShadowBias(light: VisibleLight, lightIndex: int, shadowData: ShadowData,
                         proj: Matrix4x4, shadowResolution: real): (r: Vec4)
    requires BiasInputsFinite(light, lightIndex, shadowData, proj, shadowResolution)
    ensures r.z == 0.0 && r.w == 0.0
    ensures !(0 <= lightIndex < |shadowData.bias|) ==> r == Zero4
    ensures light.lightType != Directional && light.lightType != Spot ==> r == Zero4
  {
    if lightIndex < 0 || lightIndex >= |shadowData.bias| then Zero4
    else
      var texelSize := FrustumSize(light, proj) / shadowResolution;
      var depthBias := -shadowData.bias[lightIndex].x * texelSize;
      var normalBias := -shadowData.bias[lightIndex].y * texelSize;
      var kernelRadius := 2.5;
      if shadowData.supportsSoftShadows then Vec4(depthBias * kernelRadius, normalBias * kernelRadius, 0.0, 0.0)
      else Vec4(depthBias, normalBias, 0.0, 0.0)
  }

  /** With hard shadows the biases are the configured bias in texels times the texel
      size, negated. */
  lemma ShadowBiasIsTexelScaled(light: VisibleLight, lightIndex: int, shadowData: ShadowData,
                                proj: Matrix4x4, shadowResolution: real)
    requires BiasInputsFinite(light, lightIndex, shadowData, proj, shadowResolution)
    requires 0 <= lightIndex < |shadowData.bias| && !shadowData.supportsSoftShadows
    ensures GetShadowBias(light, lightIndex, shadowData, proj, shadowResolution).x
            == -shadowData.bias[lightIndex].x * FrustumSize(light, proj) / shadowResolution
    ensures GetShadowBias(light, lightIndex, shadowData, proj, shadowResolution).y
            == -shadowData.bias[lightIndex].y * FrustumSize(light, proj) / shadowResolution
  {
  }

  /** Doubling the shadow-map resolution halves both biases. */
  lemma ShadowBiasHalvesWithDoubledResolution(light: VisibleLight, lightIndex: int, shadowData: ShadowData,
                                              proj: Matrix4x4, shadowResolution: real)
    requires BiasInputsFinite(light, lightIndex, shadowData, proj, shadowResolution)
    ensures var single := GetShadowBias(light, lightIndex, shadowData, proj, shadowResolution);
      var double := GetShadowBias(light, lightIndex, shadowData, proj, 2.0 * shadowResolution);
      double.x * 2.0 == single.x && double.y * 2.0 == single.y
  {
    if 0 <= lightIndex < |shadowData.bias| {
      var f := FrustumSize(light, proj);
      assert f / (2.0 * shadowResolution) * 2.0 == f / shadowResolution;
    }
  }

  /** Soft shadows scale both biases by exactly 2.5 and change nothing else. */
  lemma SoftShadowBiasIsScaled(light: VisibleLight, lightIndex: int, shadowData: ShadowData,
                               proj: Matrix4x4, shadowResolution: real)
    requires BiasInputsFinite(light, lightIndex, shadowData, proj, shadowResolution)
    ensures var soft := GetShadowBias(light, lightIndex, shadowData.(supportsSoftShadows := true), proj, shadowResolution);
      var hard := GetShadowBias(light, lightIndex, shadowData.(supportsSoftShadows := false), proj, shadowResolution);
      soft.x == 2.5 * hard.x && soft.y == 2.5 * hard.y && soft.z == hard.z && soft.w == hard.w
  {
  }

  // ---------------------------------------------------------------------------------
  // Tagged shadow casters.

  /** The view, projection and culling sphere of a tagged shadow pass. */
  datatype ShadowVP = ShadowVP(view: Matrix4x4, proj: Matrix4x4, cullingSphere: Vec4)

  /** The out-values `GetVPMatrixWithTags` starts from and keeps when nothing is found. */
  const DefaultVP := ShadowVP(Identity, Identity, Zero4)

  /** The engine calls `GetVPMatrixWithWorldBounds` needs: `Vector3.magnitude` (a square
      root) and the GPU orthographic projection for a given radius
      (`Matrix4x4.Ortho(-r, r, -r, r, 0.1 r, 2.3 r)` passed through
      `GL.GetGPUProjectionMatrix`). */
  datatype ShadowEngine = ShadowEngine(magnitude: Vec3 -> real, orthoProjection: real -> Matrix4x4)

  /** The engine's orthographic projections have a finite, non-zero x scale, so the
      directional texel size `2 / m00` is defined. */
  ghost predicate OrthoScalesX(engine: ShadowEngine)
  {
    forall radius: real :: engine.orthoProjection(radius).r0.x != 0.0
  }

  /** `Matrix4x4.MultiplyVector`: the linear (3x3) part applied to a direction. */
  function MultiplyVector(m: Matrix4x4, v: Vec3): Vec3
  {
    Vec3(m.r0.x * v.x + m.r0.y * v.y + m.r0.z * v.z,
         m.r1.x * v.x + m.r1.y * v.y + m.r1.z * v.z,
         m.r2.x * v.x + m.r2.y * v.y + m.r2.z * v.z)
  }

  /** `GetVPMatrixWithWorldBounds`: a sphere around the bounds (centre, extents'
      length); the light's world-to-local matrix with its translation replaced so that
      the light looks at the centre from 1.2 radii back; the orthographic projection for
      that radius. */
  function GetVPMatrixWithWorldBounds(engine: ShadowEngine, worldToLocal: Matrix4x4, bounds: Bounds): (r: ShadowVP)
    ensures var c := Center(bounds); var radius := engine.magnitude(Extents(bounds));
      && r.cullingSphere == Vec4(c.x, c.y, c.z, radius)
      && r.proj == engine.orthoProjection(radius)
  {
    var center := Center(bounds);
    var radius := engine.magnitude(Extents(bounds));
    var proj := engine.orthoProjection(radius);
    var rotated := MultiplyVector(worldToLocal, center);
    var tsl := Vec4(-rotated.x, -rotated.y, -rotated.z - radius * 1.2, 1.0);
    var view := Matrix4x4(worldToLocal.r0.(w := tsl.x), worldToLocal.r1.(w := tsl.y),
                          worldToLocal.r2.(w := tsl.z), worldToLocal.r3.(w := tsl.w));
    ShadowVP(view, proj, Vec4(center.x, center.y, center.z, radius))
  }

  /** For a light matrix without a projective row, the view places the centre of the
      bounds straight ahead of the light, 1.2 radii away. */
  lemma GetVPMatrixLooksAtCenter(engine: ShadowEngine, worldToLocal: Matrix4x4, bounds: Bounds)
    requires worldToLocal.r3 == Vec4(0.0, 0.0, 0.0, 1.0)
    ensures var c := Center(bounds); var radius := engine.magnitude(Extents(bounds));
      Transform(GetVPMatrixWithWorldBounds(engine, worldToLocal, bounds).view, Vec4(c.x, c.y, c.z, 1.0))
        == Vec4(0.0, 0.0, -(radius * 1.2), 1.0)
  {
  }

  /** A renderer a tagged shadow pass draws: enabled and casting shadows. */
  predicate IsShadowCaster(r: Renderer)
  {
    r.enabled && r.castsShadows
  }

  /** `GameObject.FindGameObjectsWithTag`: the renderer component of each object with
      the tag (None for an object without one); a tag with no objects finds nothing. */
  function TaggedObjects(scene: map<string, seq<Option<Renderer>>>, tag: string): seq<Option<Renderer>>
  {
    if tag in scene then scene[tag] else []
  }

  /** The renderers the scan collects: the qualifying renderers of each tag in turn. */
  function TaggedCasters(tags: seq<string>, scene: map<string, seq<Option<Renderer>>>): seq<Renderer>
  {
    if |tags| == 0 then []
    else TaggedCasters(tags[..|tags| - 1], scene) + Kept(TaggedObjects(scene, tags[|tags| - 1]), IsShadowCaster)
  }

  /** A renderer is collected exactly when it qualifies and some object with one of the
      tags holds it. */
  lemma {:induction false} TaggedCastersMembers(tags: seq<string>, scene: map<string, seq<Option<Renderer>>>, r: Renderer)
    ensures r in TaggedCasters(tags, scene) <==>
      IsShadowCaster(r) && exists k :: 0 <= k < |tags| && Some(r) in TaggedObjects(scene, tags[k])
  {
    if |tags| > 0 {
      var init := tags[..|tags| - 1];
      TaggedCastersMembers(init, scene, r);
      KeptMembers(TaggedObjects(scene, tags[|tags| - 1]), IsShadowCaster, r);
      if IsShadowCaster(r) && Some(r) in TaggedObjects(scene, tags[|tags| - 1]) {
        assert 0 <= |tags| - 1 < |tags|;
      }
      if exists k :: 0 <= k < |init| && Some(r) in TaggedObjects(scene, init[k]) {
        var k :| 0 <= k < |init| && Some(r) in TaggedObjects(scene, init[k]);
        assert tags[k] == init[k];
      }
      if exists k :: 0 <= k < |tags| && Some(r) in TaggedObjects(scene, tags[k]) {
        var k :| 0 <= k < |tags| && Some(r) in TaggedObjects(scene, tags[k]);
        if k < |init| { assert init[k] == tags[k]; }
      }
    }
  }

  /** The inner scan of `GetVPMatrixWithTags` over one tag's objects: appends each
      qualifying renderer and folds its bounds into the running union. */
  method CollectCasters(objs: seq<Option<Renderer>>, collected: seq<Renderer>, bounds: Bounds)
    returns (renderers: seq<Renderer>, union: Bounds)
    requires |collected| > 0 ==> bounds == Union(collected)
    ensures renderers == collected + Kept(objs, IsShadowCaster)
    ensures |renderers| > 0 ==> union == Union(renderers)
  {
    renderers, union := collected, bounds;
    var j := 0;
    while j < |objs|
      invariant 0 <= j <= |objs|
      invariant renderers == collected + Kept(objs[..j], IsShadowCaster)
      invariant |renderers| > 0 ==> union == Union(renderers)
    {
      KeptExtend(objs, IsShadowCaster, j);
      var p := objs[j];
      if p.Some? && p.value.enabled && p.value.castsShadows {
        var rb := p.value.bounds;
        if |renderers| != 0 {
          UnionSnoc(renderers, p.value);
          union := Encapsulate(union, rb);
        } else {
          union := rb;
        }
        renderers := renderers + [p.value];
      }
      j := j + 1;
    }
    assert objs[..j] == objs;
  }

  /** `GetVPMatrixWithTags`: clears the caller's renderer list and refills it with the
      qualifying renderers of the tagged objects in scan order, folding their bounds
      (seeded with the first). With no renderer it reports false and the identity
      matrices and a zero sphere; otherwise true and the view-projection around the
      union of their bounds. `renderers` is the list's new content. */
  method GetVPMatrixWithTags(engine: ShadowEngine, worldToLocal: Matrix4x4, tags: seq<string>,
                             scene: map<string, seq<Option<Renderer>>>)
    returns (found: bool, renderers: seq<Renderer>, vp: ShadowVP)
    ensures renderers == TaggedCasters(tags, scene)
    ensures found <==> |renderers| > 0
    ensures !found ==> vp == DefaultVP
    ensures found ==> vp == GetVPMatrixWithWorldBounds(engine, worldToLocal, Union(renderers))
  {
    vp := DefaultVP;
    renderers := [];
    var bounds := Bounds(Int3(0, 0, 0), Int3(0, 0, 0));
    var i := 0;
    while i < |tags|
      invariant 0 <= i <= |tags|
      invariant renderers == TaggedCasters(tags[..i], scene)
      invariant |renderers| > 0 ==> bounds == Union(renderers)
    {
      var objs := TaggedObjects(scene, tags[i]);
      renderers, bounds := CollectCasters(objs, renderers, bounds);
      assert tags[..i + 1][..i] == tags[..i];
      i := i + 1;
    }
    assert tags[..i] == tags;
    if |renderers| == 0 {
      found := false;
      return;
    }
    vp := GetVPMatrixWithWorldBounds(engine, worldToLocal, bounds);
    found := true;
  }

  /** `GetVPMatrixWithTag`: the same scan with the single tag `tag`. */
  method GetVPMatrixWithTag(engine: ShadowEngine, worldToLocal: Matrix4x4, tag: string,
                            scene: map<string, seq<Option<Renderer>>>)
    returns (found: bool, renderers: seq<Renderer>, vp: ShadowVP)
    ensures renderers == Kept(TaggedObjects(scene, tag), IsShadowCaster)
    ensures found <==> |renderers| > 0
    ensures !found ==> vp == DefaultVP
    ensures found ==> vp == GetVPMatrixWithWorldBounds(engine, worldToLocal, Union(renderers))
  {
    assert [tag][..0] == [];
    found, renderers, vp := GetVPMatrixWithTags(engine, worldToLocal, [tag], scene);
  }

  /** The bias of the tagged caster passes: `GetShadowBias` for a map as wide as the
      main-character shadow map. */
  function MainCharacterMapBias(light: VisibleLight, lightIndex: int, shadowData: ShadowData, proj: Matrix4x4): Vec4
    requires BiasInputsFinite(light, lightIndex, shadowData, proj, shadowData.mainCharacterShadowmapWidth as real)
  {
    GetShadowBias(light, lightIndex, shadowData, proj, shadowData.mainCharacterShadowmapWidth as real)
  }

  /** With the engine's orthographic scale non-zero and a non-zero map width, the bias
      of a tagged caster pass is computed with finite numbers. */
  lemma OrthoBiasFinite(engine: ShadowEngine, light: VisibleLight, lightIndex: int, shadowData: ShadowData,
                        bounds: Bounds)
    requires OrthoScalesX(engine) && shadowData.mainCharacterShadowmapWidth != 0
    ensures BiasInputsFinite(light, lightIndex, shadowData,
                             GetVPMatrixWithWorldBounds(engine, light.worldToLocal, bounds).proj,
                             shadowData.mainCharacterShadowmapWidth as real)
  {
    var vp := GetVPMatrixWithWorldBounds(engine, light.worldToLocal, bounds);
    assert vp.proj == engine.orthoProjection(engine.magnitude(Extents(bounds)));
  }

}
