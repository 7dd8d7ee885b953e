/**
 * ShadowManager.cs: the per-frame registry of shadow-casting directional
 * lights and the pass that renders their cascades into one atlas.
 */
module Shadows {
  import opened Rendering
  import opened ShadowAtlas
  import opened ShadowTransform

  const CmdBufferName := "Shadows"
  const MaxShadowDistanceProp := "_MaxShadowDistance"
  const FadeDistanceRatioProp := "_FadeDistanceRatio"
  /** The atlas texture; the property name is spelled as the shaders expect it. */
  const DirectionalShadowAtlas := Property("_DirectioanlShadowAtlas")
  const DirectionalShadowMatricesProp := "_DirectionalShadowMatrixs"
  const CascadeCullingSpheresProp := "_DirectionalCascadeCullingSpheres"
  const CascadeCountProp := "_DirectionalCascadeCount"
  const CascadeTileSizeProp := "_DirCasecadeTileSize"

  /** The shadow settings the manager reads, as plain values. */
  datatype ShadowSetting = ShadowSetting(
    maxDistance: real, fadeDistanceRatio: real, atlasSize: int, cascadeCount: int, cascadeSplitRatio: Vec3)

  /** Settings the shadow pass can render with: a non-empty atlas and one to four cascades. */
  predicate RenderableSetting(s: ShadowSetting)
  {
    s.atlasSize > 0 && 1 <= s.cascadeCount <= MaxDirectionalCascades
  }

  datatype ShadowedDirectionalLight = ShadowedDirectionalLight(visibleIndex: int, light: Light)

  /** The light at `visibleLightIndex` may cast a directional shadow this frame. */
  predicate CastsDirectionalShadow(cull: CullingResults, visibleLightIndex: int)
    requires 0 <= visibleLightIndex < |cull.visibleLights|
  {
    var light := cull.visibleLights[visibleLightIndex].light;
    light.lightType == Directional && light.shadows != NoShadows && light.shadowStrength > 0.0 &&
    cull.hasShadowCasterBounds(visibleLightIndex)
  }

  /** The registry after one GetDirectionalShadowData call, with the call's two results. */
  datatype Registration = Registration(registered: seq<ShadowedDirectionalLight>, tileIndex: int, shadowData: Vec4)

  /** GetDirectionalShadowData on the registry `registered`. */
  function RegisterDirectional(registered: seq<ShadowedDirectionalLight>, cull: CullingResults, visibleLightIndex: int): (r: Registration)
    requires |registered| < MaxDirectionalShadows ==> 0 <= visibleLightIndex < |cull.visibleLights|
    // a full registry, or a light that cannot cast, is refused: -1, zero data, registry untouched
    ensures |registered| >= MaxDirectionalShadows ==> r.tileIndex == -1
    ensures |registered| < MaxDirectionalShadows ==> (r.tileIndex != -1 <==> CastsDirectionalShadow(cull, visibleLightIndex))
    ensures r.tileIndex == -1 ==> r.registered == registered && r.shadowData == Zero4
    // an accepted light takes the next slot and gets that slot's first matrix index
    ensures r.tileIndex != -1 ==>
      |r.registered| == |registered| + 1 <= MaxDirectionalShadows &&
      r.registered[..|registered|] == registered &&
      r.registered[|registered|] == ShadowedDirectionalLight(visibleLightIndex, cull.visibleLights[visibleLightIndex].light) &&
      r.tileIndex == MatrixSlot(|registered|, 0)
    ensures r.tileIndex != -1 ==>
      var light := cull.visibleLights[visibleLightIndex].light;
      r.shadowData == Vec4(light.shadowStrength, light.shadowNormalBias, light.shadowBias, light.shadowNearPlane)
  {
    if |registered| >= MaxDirectionalShadows || !CastsDirectionalShadow(cull, visibleLightIndex) then
      Registration(registered, -1, Zero4)
    else
      var light := cull.visibleLights[visibleLightIndex].light;
      Registration(registered + [ShadowedDirectionalLight(visibleLightIndex, light)],
                   |registered| * MaxDirectionalCascades,
                   Vec4(light.shadowStrength, light.shadowNormalBias, light.shadowBias, light.shadowNearPlane))
  }

  predicate ValidRequests(cull: CullingResults, requests: seq<int>)
  {
    forall i | 0 <= i < |requests| :: 0 <= requests[i] < |cull.visibleLights|
  }

  /**
   * One GetDirectionalShadowData call per request, in order, starting from
   * the empty registry SetUp leaves: the final registry and the indices returned.
   */
  function RegisterAll(cull: CullingResults, requests: seq<int>): (r: (seq<ShadowedDirectionalLight>, seq<int>))
    requires ValidRequests(cull, requests)
    // one index per request, and never more than four lights
    ensures |r.1| == |requests| && |r.0| <= MaxDirectionalShadows
    decreases |requests|
  {
    if requests == [] then ([], [])
    else
      var previous := RegisterAll(cull, requests[..|requests| - 1]);
      var r := RegisterDirectional(previous.0, cull, requests[|requests| - 1]);
      (r.registered, previous.1 + [r.tileIndex])
  }

  /** The requests whose light can cast a directional shadow, in request order. */
  function Casters(cull: CullingResults, requests: seq<int>): seq<int>
    requires ValidRequests(cull, requests)
    decreases |requests|
  {
    if requests == [] then []
    else
      var last := requests[|requests| - 1];
      Casters(cull, requests[..|requests| - 1]) + (if CastsDirectionalShadow(cull, last) then [last] else [])
  }

  /**
   * Registration is first come, first served and dense: the registry holds
   * the first (at most four) casters in request order, every index returned
   * is -1 or the first matrix slot of a light, and accepted lights receive
   * increasing slots.
   */
  lemma {:induction false} RegistrationIsDense(cull: CullingResults, requests: seq<int>)
    requires ValidRequests(cull, requests)
    ensures var reg := RegisterAll(cull, requests).0;
      var casters := Casters(cull, requests);
      |reg| == Min(|casters|, MaxDirectionalShadows) &&
      forall i | 0 <= i < |reg| :: reg[i].visibleIndex == casters[i]
    ensures var tiles := RegisterAll(cull, requests).1;
      |tiles| == |requests| &&
      (forall i | 0 <= i < |tiles| :: tiles[i] == -1 || tiles[i] in {0, 4, 8, 12}) &&
      (forall i, j | 0 <= i < j < |tiles| && tiles[i] != -1 && tiles[j] != -1 :: tiles[i] < tiles[j])
    ensures var reg := RegisterAll(cull, requests).0;
      forall i | 0 <= i < |RegisterAll(cull, requests).1| && RegisterAll(cull, requests).1[i] != -1 ::
        RegisterAll(cull, requests).1[i] < MaxDirectionalCascades * |reg|
  {
    if requests != [] {
      var init := requests[..|requests| - 1];
      var last := requests[|requests| - 1];
      assert ValidRequests(cull, init);
      RegistrationIsDense(cull, init);
      var previous := RegisterAll(cull, init);
      var r := RegisterDirectional(previous.0, cull, last);
      assert RegisterAll(cull, requests) == (r.registered, previous.1 + [r.tileIndex]);
      assert Casters(cull, requests) == Casters(cull, init) + (if CastsDirectionalShadow(cull, last) then [last] else []);
    }
  }

  /** A fifth caster in one frame is refused; the fourth still gets the last slot. */
  lemma {:induction false} FifthCasterIsRefused(cull: CullingResults, requests: seq<int>)
    requires ValidRequests(cull, requests) && |requests| == MaxDirectionalShadows + 1
    requires forall i | 0 <= i < |requests| :: CastsDirectionalShadow(cull, requests[i])
    ensures RegisterAll(cull, requests).1 == [0, 4, 8, 12, -1]
  {
    var tiles := RegisterAll(cull, requests).1;
    RegistrationIsDense(cull, requests);
    forall k | 0 <= k <= |requests|
      ensures Casters(cull, requests[..k]) == requests[..k]
      ensures |RegisterAll(cull, requests[..k]).0| == Min(k, MaxDirectionalShadows)
    {
      CastersOfCasters(cull, requests[..k]);
      assert ValidRequests(cull, requests[..k]);
      RegistrationIsDense(cull, requests[..k]);
    }
    forall k | 0 <= k < |requests|
      ensures tiles[k] == (if k < MaxDirectionalShadows then MaxDirectionalCascades * k else -1)
    {
      var prefix := requests[..k + 1];
      assert prefix[..k] == requests[..k];
      assert ValidRequests(cull, prefix[..k]);
      TilesArePrefixStable(cull, requests, k + 1);
    }
  }

  lemma {:induction false} CastersOfCasters(cull: CullingResults, requests: seq<int>)
    requires ValidRequests(cull, requests)
    requires forall i | 0 <= i < |requests| :: CastsDirectionalShadow(cull, requests[i])
    ensures Casters(cull, requests) == requests
  {
    if requests != [] {
      var init := requests[..|requests| - 1];
      assert ValidRequests(cull, init);
      CastersOfCasters(cull, init);
      assert init + [requests[|requests| - 1]] == requests;
    }
  }

  /** The indices returned for the first `k` requests do not depend on the later ones. */
  lemma {:induction false} TilesArePrefixStable(cull: CullingResults, requests: seq<int>, k: int)
    requires ValidRequests(cull, requests) && 0 < k <= |requests|
    ensures ValidRequests(cull, requests[..k])
    ensures RegisterAll(cull, requests).1[k - 1] ==
            RegisterDirectional(RegisterAll(cull, requests[..k - 1]).0, cull, requests[k - 1]).tileIndex
  {
    assert ValidRequests(cull, requests[..k]);
    assert requests[..k][..k - 1] == requests[..k - 1];
    if k < |requests| {
      var init := requests[..|requests| - 1];
      assert ValidRequests(cull, init);
      TilesArePrefixStable(cull, init, k);
      assert RegisterAll(cull, requests).1[k - 1] == RegisterAll(cull, init).1[k - 1];
      assert init[..k] == requests[..k];
      assert init[..k - 1] == requests[..k - 1];
    } else {
      assert requests[..k] == requests;
    }
  }

  // ---------------------------------------------------------------------
  // The shadow pass, as the commands it records

  /** What RenderOneDirectionalShadow asks the engine for cascade `cascadeIdx` of `entry`. */
  function CascadeQueryFor(entry: ShadowedDirectionalLight, setting: ShadowSetting, count: int, cascadeIdx: int): CascadeQuery
  {
    CascadeQuery(entry.visibleIndex, cascadeIdx, setting.cascadeCount, setting.cascadeSplitRatio,
                 CascadeSize(setting.atlasSize, TileSplitFactor(count), CascadeSplitFactor(setting.cascadeCount)),
                 entry.light.shadowNearPlane)
  }

  function CascadeShadowOf(cull: CullingResults, entry: ShadowedDirectionalLight, setting: ShadowSetting, count: int, cascadeIdx: int): CascadeShadow
  {
    cull.directionalShadow(CascadeQueryFor(entry, setting, count, cascadeIdx))
  }

  /** The atlas-sampling matrix of light `lightIdx`, cascade `cascadeIdx`. */
  function AtlasTileMatrix(cull: CullingResults, entry: ShadowedDirectionalLight, setting: ShadowSetting, count: int,
                           lightIdx: int, cascadeIdx: int, reversedZ: bool): Mat4
    requires setting.atlasSize > 0 && lightIdx >= 0 && cascadeIdx >= 0
  {
    var shadow := CascadeShadowOf(cull, entry, setting, count, cascadeIdx);
    ShadowMatrixToAtlasTileMatrix(Mul(shadow.proj, shadow.view),
                                  AtlasViewport(count, setting.cascadeCount, lightIdx, cascadeIdx, setting.atlasSize),
                                  setting.atlasSize, reversedZ)
  }

  function CascadeCommands(cull: CullingResults, entry: ShadowedDirectionalLight, setting: ShadowSetting, count: int,
                           lightIdx: int, cascadeIdx: int): seq<Cmd>
    requires lightIdx >= 0 && cascadeIdx >= 0
  {
    var shadow := CascadeShadowOf(cull, entry, setting, count, cascadeIdx);
    [SetViewProjectionMatrices(shadow.view, shadow.proj),
     SetViewport(AtlasViewport(count, setting.cascadeCount, lightIdx, cascadeIdx, setting.atlasSize)),
     DrawShadows(entry.visibleIndex, shadow.split)]
  }

  /** The commands of the first `n` cascades of one light. */
  function CascadesCommands(cull: CullingResults, entry: ShadowedDirectionalLight, setting: ShadowSetting, count: int,
                            lightIdx: int, n: int): seq<Cmd>
    requires lightIdx >= 0
    decreases n
  {
    if n <= 0 then []
    else CascadesCommands(cull, entry, setting, count, lightIdx, n - 1) + CascadeCommands(cull, entry, setting, count, lightIdx, n - 1)
  }

  /** One light: publish the cascade size, set the light's bias, draw every cascade, reset the bias. */
  function LightCommands(cull: CullingResults, entry: ShadowedDirectionalLight, setting: ShadowSetting, count: int, lightIdx: int): seq<Cmd>
    requires lightIdx >= 0
  {
    [SetGlobalInt(CascadeTileSizeProp, CascadeSize(setting.atlasSize, TileSplitFactor(count), CascadeSplitFactor(setting.cascadeCount))),
     SetGlobalDepthBias(0.0, entry.light.shadowBias)]
    + CascadesCommands(cull, entry, setting, count, lightIdx, setting.cascadeCount)
    + [SetGlobalDepthBias(0.0, 0.0)]
  }

  /** The commands of the first `n` registered lights. */
  function LightsCommands(cull: CullingResults, lights: seq<ShadowedDirectionalLight>, setting: ShadowSetting, n: int): seq<Cmd>
    requires 0 <= n <= |lights|
  {
    if n == 0 then []
    else LightsCommands(cull, lights, setting, n - 1) + LightCommands(cull, lights[n - 1], setting, |lights|, n - 1)
  }

  function AtlasPrologue(setting: ShadowSetting): seq<Cmd>
  {
    [GetTemporaryRT(DirectionalShadowAtlas, setting.atlasSize, setting.atlasSize, 24, Shadowmap),
     SetRenderTarget(DirectionalShadowAtlas),
     ClearRenderTarget(true, false, Zero4),
     BeginSample(CmdBufferName)]
  }

  function AtlasEpilogue(setting: ShadowSetting, matrices: seq<Mat4>, spheres: seq<Vec4>): seq<Cmd>
  {
    [SetGlobalFloat(MaxShadowDistanceProp, setting.maxDistance),
     SetGlobalFloat(FadeDistanceRatioProp, setting.fadeDistanceRatio),
     SetGlobalMatrixArray(DirectionalShadowMatricesProp, matrices),
     SetGlobalInt(CascadeCountProp, setting.cascadeCount),
     SetGlobalVectorArray(CascadeCullingSpheresProp, spheres),
     EndSample(CmdBufferName)]
  }

  lemma {:induction false} CascadeViewportsInside(cull: CullingResults, entry: ShadowedDirectionalLight, setting: ShadowSetting,
                                                  count: int, lightIdx: int, n: int)
    requires RenderableSetting(setting) && 1 <= count <= MaxDirectionalShadows && 0 <= lightIdx < count
    requires n <= setting.cascadeCount
    ensures forall c | c in CascadesCommands(cull, entry, setting, count, lightIdx, n) && c.SetViewport? ::
      Inside(c.rect, setting.atlasSize)
    decreases n
  {
    if n > 0 {
      CascadeViewportsInside(cull, entry, setting, count, lightIdx, n - 1);
      ViewportInsideAtlas(count, setting.cascadeCount, lightIdx, n - 1, setting.atlasSize);
    }
  }

  /** Every viewport the shadow pass sets lies inside the atlas it allocated. */
  lemma {:induction false} ShadowPassViewportsInside(cull: CullingResults, lights: seq<ShadowedDirectionalLight>, setting: ShadowSetting, n: int)
    requires RenderableSetting(setting) && 1 <= |lights| <= MaxDirectionalShadows && 0 <= n <= |lights|
    ensures forall c | c in LightsCommands(cull, lights, setting, n) && c.SetViewport? :: Inside(c.rect, setting.atlasSize)
  {
    if n > 0 {
      ShadowPassViewportsInside(cull, lights, setting, n - 1);
      CascadeViewportsInside(cull, lights[n - 1], setting, |lights|, n - 1, setting.cascadeCount);
    }
  }


  // ---------------------------------------------------------------------
  // The two arrays the shadow pass fills

  /** The matrix array after light `lightIdx` has written its first `n` cascades. */
  function LightMatrices(m: seq<Mat4>, cull: CullingResults, entry: ShadowedDirectionalLight, setting: ShadowSetting,
                         count: int, lightIdx: int, n: int, reversedZ: bool): (r: seq<Mat4>)
    requires |m| == MaxDirectionalShadows * MaxDirectionalCascades
    requires setting.atlasSize > 0 && 0 <= lightIdx < MaxDirectionalShadows && n <= MaxDirectionalCascades
    ensures |r| == |m|
    decreases n
  {
    if n <= 0 then m
    else LightMatrices(m, cull, entry, setting, count, lightIdx, n - 1, reversedZ)
           [MatrixSlot(lightIdx, n - 1) := AtlasTileMatrix(cull, entry, setting, count, lightIdx, n - 1, reversedZ)]
  }

  /** The matrix array after the first `n` registered lights have written all their cascades. */
  function LightsMatrices(m: seq<Mat4>, cull: CullingResults, lights: seq<ShadowedDirectionalLight>, setting: ShadowSetting,
                          n: int, reversedZ: bool): (r: seq<Mat4>)
    requires |m| == MaxDirectionalShadows * MaxDirectionalCascades
    requires RenderableSetting(setting) && 0 <= n <= |lights| <= MaxDirectionalShadows
    ensures |r| == |m|
  {
    if n == 0 then m
    else LightMatrices(LightsMatrices(m, cull, lights, setting, n - 1, reversedZ), cull, lights[n - 1], setting,
                       |lights|, n - 1, setting.cascadeCount, reversedZ)
  }

  /** The culling-sphere array after the first `n` cascades of `entry` have written theirs. */
  function CascadeSpheres(s: seq<Vec4>, cull: CullingResults, entry: ShadowedDirectionalLight, setting: ShadowSetting,
                          count: int, n: int): (r: seq<Vec4>)
    requires |s| == MaxDirectionalCascades && n <= MaxDirectionalCascades
    ensures |r| == |s|
    decreases n
  {
    if n <= 0 then s
    else CascadeSpheres(s, cull, entry, setting, count, n - 1)[n - 1 := CascadeShadowOf(cull, entry, setting, count, n - 1).split.cullingSphere]
  }

  /** One light writes exactly the slots of its first `n` cascades. */
  lemma {:induction false} LightMatricesWritten(m: seq<Mat4>, cull: CullingResults, entry: ShadowedDirectionalLight,
                                                setting: ShadowSetting, count: int, lightIdx: int, n: int, reversedZ: bool)
    requires |m| == MaxDirectionalShadows * MaxDirectionalCascades
    requires setting.atlasSize > 0 && 0 <= lightIdx < MaxDirectionalShadows && 0 <= n <= MaxDirectionalCascades
    ensures forall l, c | 0 <= l < MaxDirectionalShadows && 0 <= c < MaxDirectionalCascades ::
      LightMatrices(m, cull, entry, setting, count, lightIdx, n, reversedZ)[MatrixSlot(l, c)] ==
        if l == lightIdx && c < n then AtlasTileMatrix(cull, entry, setting, count, lightIdx, c, reversedZ)
        else m[MatrixSlot(l, c)]
    decreases n
  {
    if n > 0 {
      LightMatricesWritten(m, cull, entry, setting, count, lightIdx, n - 1, reversedZ);
      forall l, c | 0 <= l < MaxDirectionalShadows && 0 <= c < MaxDirectionalCascades && (l != lightIdx || c != n - 1)
        ensures MatrixSlot(l, c) != MatrixSlot(lightIdx, n - 1)
      {
      }
    }
  }

  /**
   * After the light loop, slot (l, c) holds the atlas matrix of light l's
   * cascade c for every rendered pair, and every other slot is untouched.
   */
  lemma {:induction false} LightsMatricesWritten(m: seq<Mat4>, cull: CullingResults, lights: seq<ShadowedDirectionalLight>,
                                                 setting: ShadowSetting, n: int, reversedZ: bool)
    requires |m| == MaxDirectionalShadows * MaxDirectionalCascades
    requires RenderableSetting(setting) && 0 <= n <= |lights| <= MaxDirectionalShadows
    ensures forall l, c | 0 <= l < MaxDirectionalShadows && 0 <= c < MaxDirectionalCascades ::
      LightsMatrices(m, cull, lights, setting, n, reversedZ)[MatrixSlot(l, c)] ==
        if l < n && c < setting.cascadeCount
        then AtlasTileMatrix(cull, lights[l], setting, |lights|, l, c, reversedZ)
        else m[MatrixSlot(l, c)]
  {
    if n > 0 {
      var before := LightsMatrices(m, cull, lights, setting, n - 1, reversedZ);
      LightsMatricesWritten(m, cull, lights, setting, n - 1, reversedZ);
      LightMatricesWritten(before, cull, lights[n - 1], setting, |lights|, n - 1, setting.cascadeCount, reversedZ);
    }
  }

  /** The first `n` cascades write their own sphere slot and leave the rest. */
  lemma {:induction false} CascadeSpheresWritten(s: seq<Vec4>, cull: CullingResults, entry: ShadowedDirectionalLight,
                                                 setting: ShadowSetting, count: int, n: int)
    requires |s| == MaxDirectionalCascades && 0 <= n <= MaxDirectionalCascades
    ensures forall c | 0 <= c < MaxDirectionalCascades ::
      CascadeSpheres(s, cull, entry, setting, count, n)[c] ==
        if c < n then CascadeShadowOf(cull, entry, setting, count, c).split.cullingSphere else s[c]
    decreases n
  {
    if n > 0 {
      CascadeSpheresWritten(s, cull, entry, setting, count, n - 1);
    }
  }

  class ShadowManager {
    const shadowedDirLights: array<ShadowedDirectionalLight>
    const dirShadowMatrices: array<Mat4>
    const dirCascadeCullingSpheres: array<Vec4>
    var shadowedDirLightCount: int
    /** The manager's command buffer: recorded, not yet executed. */
    var pending: seq<Cmd>

    ghost predicate Valid()
      reads this`shadowedDirLightCount
    {
      shadowedDirLights.Length == MaxDirectionalShadows &&
      dirShadowMatrices.Length == MaxDirectionalShadows * MaxDirectionalCascades &&
      dirCascadeCullingSpheres.Length == MaxDirectionalCascades &&
      0 <= shadowedDirLightCount <= MaxDirectionalShadows
    }

    /** The lights registered this frame, in registration order. */
    ghost function Registered(): seq<ShadowedDirectionalLight>
      reads this`shadowedDirLightCount, shadowedDirLights
      requires Valid()
    {
      shadowedDirLights[..shadowedDirLightCount]
    }

    constructor ()
      ensures Valid() && shadowedDirLightCount == 0 && pending == []
      ensures fresh(shadowedDirLights) && fresh(dirShadowMatrices) && fresh(dirCascadeCullingSpheres)
      ensures forall k | 0 <= k < dirShadowMatrices.Length :: dirShadowMatrices[k] == ZeroMatrix
      ensures forall c | 0 <= c < dirCascadeCullingSpheres.Length :: dirCascadeCullingSpheres[c] == Zero4
    {
      shadowedDirLights := new ShadowedDirectionalLight[MaxDirectionalShadows];
      dirShadowMatrices := new Mat4[MaxDirectionalShadows * MaxDirectionalCascades](_ => ZeroMatrix);
      dirCascadeCullingSpheres := new Vec4[MaxDirectionalCascades](_ => Zero4);
      shadowedDirLightCount := 0;
      pending := [];
    }

    /** Starts a frame with an empty registry. */
    method SetUp()
      requires Valid()
      modifies this`shadowedDirLightCount
      ensures Valid() && Registered() == []
    {
      shadowedDirLightCount := 0;
    }

    method GetDirectionalShadowData(cull: CullingResults, visibleLightIndex: int) returns (tileIdx: int, shadowData: Vec4)
      requires Valid()
      requires shadowedDirLightCount < MaxDirectionalShadows ==> 0 <= visibleLightIndex < |cull.visibleLights|
      modifies this`shadowedDirLightCount, shadowedDirLights
      ensures Valid()
      ensures var r := RegisterDirectional(old(Registered()), cull, visibleLightIndex);
        Registered() == r.registered && tileIdx == r.tileIndex && shadowData == r.shadowData
      ensures forall k | shadowedDirLightCount <= k < MaxDirectionalShadows :: shadowedDirLights[k] == old(shadowedDirLights[k])
    {
      shadowData := Zero4;
      if shadowedDirLightCount >= MaxDirectionalShadows {
        return -1, shadowData;
      }
      var dirLight := cull.visibleLights[visibleLightIndex].light;
      if dirLight.lightType != Directional || dirLight.shadows == NoShadows || dirLight.shadowStrength <= 0.0 ||
         !cull.hasShadowCasterBounds(visibleLightIndex) {
        return -1, shadowData;
      }
      shadowedDirLights[shadowedDirLightCount] := ShadowedDirectionalLight(visibleLightIndex, dirLight);
      shadowData := Vec4(dirLight.shadowStrength, dirLight.shadowNormalBias, dirLight.shadowBias, dirLight.shadowNearPlane);
      tileIdx := shadowedDirLightCount * MaxDirectionalCascades;
      shadowedDirLightCount := shadowedDirLightCount + 1;
      assert shadowedDirLights[..shadowedDirLightCount] == old(Registered()) + [ShadowedDirectionalLight(visibleLightIndex, dirLight)];
    }

    /** Releases the atlas and ends the frame with an empty registry. */
    method CleanUp(ctx: RenderContext)
      requires Valid()
      modifies this`pending, this`shadowedDirLightCount, ctx
      ensures Valid() && Registered() == [] && pending == []
      ensures ctx.executed == old(ctx.executed) + old(pending) + [ReleaseTemporaryRT(DirectionalShadowAtlas)]
    {
      pending := pending + [ReleaseTemporaryRT(DirectionalShadowAtlas)];
      ExecuteCommandBuffer(ctx);
      shadowedDirLightCount := 0;
    }

    method ExecuteCommandBuffer(ctx: RenderContext)
      modifies this`pending, ctx
      ensures ctx.executed == old(ctx.executed) + old(pending) && pending == []
    {
      ctx.ExecuteCommandBuffer(pending);
      pending := [];
    }

    /** Render: the directional pass is the only one. */
    method Render(cull: CullingResults, setting: ShadowSetting, reversedZ: bool, ctx: RenderContext)
      requires Valid() && RenderableSetting(setting)
      modifies this`pending, dirShadowMatrices, dirCascadeCullingSpheres, ctx
      ensures shadowedDirLightCount == 0 ==>
        pending == old(pending) + [GetTemporaryRT(DirectionalShadowAtlas, 1, 1, 24, Shadowmap)] &&
        ctx.executed == old(ctx.executed) &&
        dirShadowMatrices[..] == old(dirShadowMatrices[..]) && dirCascadeCullingSpheres[..] == old(dirCascadeCullingSpheres[..])
      ensures shadowedDirLightCount > 0 ==>
        pending == [] &&
        ctx.executed == old(ctx.executed) + old(pending) + AtlasPrologue(setting)
          + LightsCommands(cull, Registered(), setting, shadowedDirLightCount)
          + AtlasEpilogue(setting, dirShadowMatrices[..], dirCascadeCullingSpheres[..])
      ensures shadowedDirLightCount > 0 ==>
        dirShadowMatrices[..] == LightsMatrices(old(dirShadowMatrices[..]), cull, Registered(), setting, shadowedDirLightCount, reversedZ)
      ensures shadowedDirLightCount > 0 ==>
        dirCascadeCullingSpheres[..] ==
          CascadeSpheres(old(dirCascadeCullingSpheres[..]), cull, Registered()[0], setting, shadowedDirLightCount, setting.cascadeCount)
    {
      RenderDirectionalShadows(cull, setting, reversedZ, ctx);
    }

    method RenderDirectionalShadows(cull: CullingResults, setting: ShadowSetting, reversedZ: bool, ctx: RenderContext)
      requires Valid() && RenderableSetting(setting)
      modifies this`pending, dirShadowMatrices, dirCascadeCullingSpheres, ctx
      // no caster: only a 1x1 dummy atlas is requested (executed later, with CleanUp)
      ensures shadowedDirLightCount == 0 ==>
        pending == old(pending) + [GetTemporaryRT(DirectionalShadowAtlas, 1, 1, 24, Shadowmap)] &&
        ctx.executed == old(ctx.executed) &&
        dirShadowMatrices[..] == old(dirShadowMatrices[..]) && dirCascadeCullingSpheres[..] == old(dirCascadeCullingSpheres[..])
      ensures shadowedDirLightCount > 0 ==>
        pending == [] &&
        ctx.executed == old(ctx.executed) + old(pending) + AtlasPrologue(setting)
          + LightsCommands(cull, Registered(), setting, shadowedDirLightCount)
          + AtlasEpilogue(setting, dirShadowMatrices[..], dirCascadeCullingSpheres[..])
      // the matrix and sphere arrays the pass leaves (LightsMatricesWritten and CascadeSpheresWritten say what they hold)
      ensures shadowedDirLightCount > 0 ==>
        dirShadowMatrices[..] == LightsMatrices(old(dirShadowMatrices[..]), cull, Registered(), setting, shadowedDirLightCount, reversedZ)
      ensures shadowedDirLightCount > 0 ==>
        dirCascadeCullingSpheres[..] ==
          CascadeSpheres(old(dirCascadeCullingSpheres[..]), cull, Registered()[0], setting, shadowedDirLightCount, setting.cascadeCount)
    {
      if shadowedDirLightCount > 0 {
        RenderAtlas(cull, setting, reversedZ, ctx);
      } else {
        pending := pending + [GetTemporaryRT(DirectionalShadowAtlas, 1, 1, 24, Shadowmap)];
      }
    }

    /** RenderDirectionalShadows with at least one caster: the atlas, every light's cascades, then the shader globals. */
    method RenderAtlas(cull: CullingResults, setting: ShadowSetting, reversedZ: bool, ctx: RenderContext)
      requires Valid() && RenderableSetting(setting) && shadowedDirLightCount > 0
      modifies this`pending, dirShadowMatrices, dirCascadeCullingSpheres, ctx
      ensures pending == []
      ensures ctx.executed == old(ctx.executed) + old(pending) + AtlasPrologue(setting)
        + LightsCommands(cull, Registered(), setting, shadowedDirLightCount)
        + AtlasEpilogue(setting, dirShadowMatrices[..], dirCascadeCullingSpheres[..])
      ensures dirShadowMatrices[..] == LightsMatrices(old(dirShadowMatrices[..]), cull, Registered(), setting, shadowedDirLightCount, reversedZ)
      ensures dirCascadeCullingSpheres[..] ==
        CascadeSpheres(old(dirCascadeCullingSpheres[..]), cull, Registered()[0], setting, shadowedDirLightCount, setting.cascadeCount)
    {
      var atlasSize := setting.atlasSize;
      // the atlas is allocated, bound, cleared, and the profiler sample opened
      pending := pending + [GetTemporaryRT(DirectionalShadowAtlas, atlasSize, atlasSize, 24, Shadowmap),
                            SetRenderTarget(DirectionalShadowAtlas),
                            ClearRenderTarget(true, false, Zero4),
                            BeginSample(CmdBufferName)];
      ExecuteCommandBuffer(ctx);

      var tileSplitFactor := if shadowedDirLightCount > 1 then 2 else 1;
      RenderLights(cull, setting, tileSplitFactor, reversedZ, ctx);
      ghost var beforeEpilogue := ctx.executed;

      // the shader globals the lit pass samples with, then the sample is closed
      pending := pending + [SetGlobalFloat(MaxShadowDistanceProp, setting.maxDistance),
                            SetGlobalFloat(FadeDistanceRatioProp, setting.fadeDistanceRatio),
                            SetGlobalMatrixArray(DirectionalShadowMatricesProp, dirShadowMatrices[..]),
                            SetGlobalInt(CascadeCountProp, setting.cascadeCount),
                            SetGlobalVectorArray(CascadeCullingSpheresProp, dirCascadeCullingSpheres[..]),
                            EndSample(CmdBufferName)];
      ExecuteCommandBuffer(ctx);
      AppendAssoc(beforeEpilogue, [SetGlobalDepthBias(0.0, 0.0)],
                  AtlasEpilogue(setting, dirShadowMatrices[..], dirCascadeCullingSpheres[..]));
    }

    /** The loop of RenderDirectionalShadows: every registered light, in registration order. */
    method RenderLights(cull: CullingResults, setting: ShadowSetting, tileSplitFactor: int, reversedZ: bool, ctx: RenderContext)
      requires Valid() && RenderableSetting(setting) && shadowedDirLightCount > 0 && pending == []
      requires tileSplitFactor == TileSplitFactor(shadowedDirLightCount)
      modifies this`pending, dirShadowMatrices, dirCascadeCullingSpheres, ctx
      ensures pending == [SetGlobalDepthBias(0.0, 0.0)]
      ensures ctx.executed + pending == old(ctx.executed) + LightsCommands(cull, Registered(), setting, shadowedDirLightCount)
      ensures dirShadowMatrices[..] ==
        LightsMatrices(old(dirShadowMatrices[..]), cull, Registered(), setting, shadowedDirLightCount, reversedZ)
      ensures dirCascadeCullingSpheres[..] ==
        CascadeSpheres(old(dirCascadeCullingSpheres[..]), cull, Registered()[0], setting, shadowedDirLightCount, setting.cascadeCount)
    {
      ghost var lights := Registered();
      var i := 0;
      while i < shadowedDirLightCount
        invariant 0 <= i <= shadowedDirLightCount
        invariant Registered() == lights
        invariant pending == if i == 0 then [] else [SetGlobalDepthBias(0.0, 0.0)]
        invariant ctx.executed + pending == old(ctx.executed) + LightsCommands(cull, lights, setting, i)
        invariant dirShadowMatrices[..] == LightsMatrices(old(dirShadowMatrices[..]), cull, lights, setting, i, reversedZ)
        invariant dirCascadeCullingSpheres[..] ==
          if i == 0 then old(dirCascadeCullingSpheres[..])
          else CascadeSpheres(old(dirCascadeCullingSpheres[..]), cull, lights[0], setting, shadowedDirLightCount, setting.cascadeCount)
      {
        RenderOneDirectionalShadow(i, shadowedDirLights[i], cull, setting, tileSplitFactor, reversedZ, ctx);
        AppendAssoc(old(ctx.executed), LightsCommands(cull, lights, setting, i),
                    LightCommands(cull, lights[i], setting, shadowedDirLightCount, i));
        i := i + 1;
      }
    }

    /** Renders every cascade of registered light `lightIdx` into its tile of the atlas. */
    method RenderOneDirectionalShadow(lightIdx: int, shadowedLight: ShadowedDirectionalLight, cull: CullingResults,
                                      setting: ShadowSetting, tileSplitFactor: int, reversedZ: bool, ctx: RenderContext)
      requires Valid() && RenderableSetting(setting) && 0 <= lightIdx < shadowedDirLightCount
      requires shadowedLight == shadowedDirLights[lightIdx]
      requires tileSplitFactor == TileSplitFactor(shadowedDirLightCount)
      modifies this`pending, dirShadowMatrices, dirCascadeCullingSpheres, ctx
      ensures pending == [SetGlobalDepthBias(0.0, 0.0)]
      ensures ctx.executed + pending ==
        old(ctx.executed) + old(pending) + LightCommands(cull, shadowedLight, setting, shadowedDirLightCount, lightIdx)
      // the light's matrix slots are written and no other slot
      ensures dirShadowMatrices[..] ==
        LightMatrices(old(dirShadowMatrices[..]), cull, shadowedLight, setting, shadowedDirLightCount, lightIdx,
                      setting.cascadeCount, reversedZ)
      // only light 0 writes the cascade culling spheres
      ensures dirCascadeCullingSpheres[..] ==
        if lightIdx == 0
        then CascadeSpheres(old(dirCascadeCullingSpheres[..]), cull, shadowedLight, setting, shadowedDirLightCount, setting.cascadeCount)
        else old(dirCascadeCullingSpheres[..])
    {
      var count := shadowedDirLightCount;
      var cascadeSplitFactor := if setting.cascadeCount > 1 then 2 else 1;
      var tileSize := setting.atlasSize / tileSplitFactor;
      var cascadeSize := setting.atlasSize / (tileSplitFactor * cascadeSplitFactor);
      var visibleIndex := shadowedDirLights[lightIdx].visibleIndex;

      ghost var head := [SetGlobalInt(CascadeTileSizeProp, cascadeSize), SetGlobalDepthBias(0.0, shadowedLight.light.shadowBias)];
      pending := pending + [SetGlobalInt(CascadeTileSizeProp, cascadeSize), SetGlobalDepthBias(0.0, shadowedLight.light.shadowBias)];
      RenderCascades(lightIdx, shadowedLight, visibleIndex, cull, setting, count, tileSize, cascadeSize, reversedZ, ctx);
      pending := pending + [SetGlobalDepthBias(0.0, 0.0)];

      ghost var cascades := CascadesCommands(cull, shadowedLight, setting, count, lightIdx, setting.cascadeCount);
      AppendEmpty([SetGlobalDepthBias(0.0, 0.0)]);
      AppendAssoc(old(ctx.executed), old(pending), head);
      AppendAssoc(old(ctx.executed) + old(pending), head, cascades);
      AppendAssoc(old(ctx.executed) + old(pending), head + cascades, [SetGlobalDepthBias(0.0, 0.0)]);
    }

    /**
     * The state after light `lightIdx` has drawn its first `n` cascades,
     * starting from the trace `start` and the arrays `m0` and `s0`.
     */
    ghost predicate CascadesDone(cull: CullingResults, entry: ShadowedDirectionalLight, setting: ShadowSetting, count: int,
                                 lightIdx: int, n: int, reversedZ: bool,
                                 start: seq<Cmd>, m0: seq<Mat4>, s0: seq<Vec4>, ctx: RenderContext)
      reads this, dirShadowMatrices, dirCascadeCullingSpheres, ctx
    {
      RenderableSetting(setting) && 0 <= lightIdx < MaxDirectionalShadows && 0 <= n <= setting.cascadeCount &&
      |m0| == MaxDirectionalShadows * MaxDirectionalCascades && |s0| == MaxDirectionalCascades &&
      ctx.executed + pending == start + CascadesCommands(cull, entry, setting, count, lightIdx, n) &&
      dirShadowMatrices[..] == LightMatrices(m0, cull, entry, setting, count, lightIdx, n, reversedZ) &&
      dirCascadeCullingSpheres[..] == if lightIdx == 0 then CascadeSpheres(s0, cull, entry, setting, count, n) else s0
    }

    /** The cascade loop of RenderOneDirectionalShadow: every cascade of the light, in order. */
    method RenderCascades(lightIdx: int, shadowedLight: ShadowedDirectionalLight, visibleIndex: int, cull: CullingResults,
                          setting: ShadowSetting, count: int, tileSize: int, cascadeSize: int, reversedZ: bool, ctx: RenderContext)
      requires Valid() && RenderableSetting(setting) && count == shadowedDirLightCount && 0 <= lightIdx < count
      requires visibleIndex == shadowedLight.visibleIndex
      requires tileSize == TileSize(setting.atlasSize, TileSplitFactor(count))
      requires cascadeSize == CascadeSize(setting.atlasSize, TileSplitFactor(count), CascadeSplitFactor(setting.cascadeCount))
      modifies this`pending, dirShadowMatrices, dirCascadeCullingSpheres, ctx
      ensures pending == []
      ensures ctx.executed ==
        old(ctx.executed) + old(pending) + CascadesCommands(cull, shadowedLight, setting, count, lightIdx, setting.cascadeCount)
      ensures dirShadowMatrices[..] ==
        LightMatrices(old(dirShadowMatrices[..]), cull, shadowedLight, setting, count, lightIdx, setting.cascadeCount, reversedZ)
      ensures dirCascadeCullingSpheres[..] ==
        if lightIdx == 0
        then CascadeSpheres(old(dirCascadeCullingSpheres[..]), cull, shadowedLight, setting, count, setting.cascadeCount)
        else old(dirCascadeCullingSpheres[..])
    {
      ghost var start := ctx.executed + pending;
      ghost var m0, s0 := dirShadowMatrices[..], dirCascadeCullingSpheres[..];
      AppendEmpty(start);
      var cascadeIdx := 0;
      while cascadeIdx < setting.cascadeCount
        invariant Valid() && count == shadowedDirLightCount
        invariant cascadeIdx > 0 ==> pending == []
        invariant CascadesDone(cull, shadowedLight, setting, count, lightIdx, cascadeIdx, reversedZ, start, m0, s0, ctx)
        decreases setting.cascadeCount - cascadeIdx
      {
        cascadeIdx := RenderCascade(lightIdx, shadowedLight, visibleIndex, cascadeIdx, cull, setting, count, tileSize,
                                    cascadeSize, reversedZ, start, m0, s0, ctx);
      }
      AppendEmpty(ctx.executed);
    }

    /** The cascade's atlas matrix goes to its slot; only light 0 records the cascade's culling sphere. */
    method StoreCascade(lightIdx: int, cascadeIdx: int, matrix: Mat4, sphere: Vec4)
      requires Valid() && 0 <= lightIdx < MaxDirectionalShadows && 0 <= cascadeIdx < MaxDirectionalCascades
      modifies dirShadowMatrices, dirCascadeCullingSpheres
      ensures dirShadowMatrices[..] == old(dirShadowMatrices[..])[MatrixSlot(lightIdx, cascadeIdx) := matrix]
      ensures dirCascadeCullingSpheres[..] ==
        if lightIdx == 0 then old(dirCascadeCullingSpheres[..])[cascadeIdx := sphere] else old(dirCascadeCullingSpheres[..])
    {
      dirShadowMatrices[MatrixSlot(lightIdx, cascadeIdx)] := matrix;
      if lightIdx == 0 {
        dirCascadeCullingSpheres[cascadeIdx] := sphere;
      }
    }

    /** The cascade's view, projection and split from the culling results, and its tile of the atlas. */
    method CascadeTile(lightIdx: int, shadowedLight: ShadowedDirectionalLight, visibleIndex: int, cascadeIdx: int, cull: CullingResults,
                       setting: ShadowSetting, count: int, tileSize: int, cascadeSize: int)
      returns (shadow: CascadeShadow, viewport: Rect)
      requires RenderableSetting(setting) && 1 <= count <= MaxDirectionalShadows && 0 <= lightIdx < count
      requires visibleIndex == shadowedLight.visibleIndex && 0 <= cascadeIdx < setting.cascadeCount
      requires tileSize == TileSize(setting.atlasSize, TileSplitFactor(count))
      requires cascadeSize == CascadeSize(setting.atlasSize, TileSplitFactor(count), CascadeSplitFactor(setting.cascadeCount))
      ensures shadow == CascadeShadowOf(cull, shadowedLight, setting, count, cascadeIdx)
      ensures viewport == AtlasViewport(count, setting.cascadeCount, lightIdx, cascadeIdx, setting.atlasSize)
    {
      shadow := cull.directionalShadow(CascadeQuery(visibleIndex, cascadeIdx, setting.cascadeCount, setting.cascadeSplitRatio,
                                                    cascadeSize, shadowedLight.light.shadowNearPlane));
      viewport := Rect((lightIdx % 2) * tileSize + (cascadeIdx % 2) * cascadeSize,
                       (lightIdx / 2) * tileSize + (cascadeIdx / 2) * cascadeSize,
                       cascadeSize, cascadeSize);
    }

    /** The cascade's three commands: its view and projection, its tile, and the shadow casters drawn into it. */
    method DrawCascade(visibleIndex: int, shadow: CascadeShadow, viewport: Rect, ctx: RenderContext)
      modifies this`pending, ctx
      ensures pending == []
      ensures ctx.executed == old(ctx.executed) + old(pending) +
        [SetViewProjectionMatrices(shadow.view, shadow.proj), SetViewport(viewport), DrawShadows(visibleIndex, shadow.split)]
    {
      pending := pending + [SetViewProjectionMatrices(shadow.view, shadow.proj), SetViewport(viewport)];
      ExecuteCommandBuffer(ctx);
      ctx.Issue(DrawShadows(visibleIndex, shadow.split));
      AppendAssoc(old(ctx.executed) + old(pending), [SetViewProjectionMatrices(shadow.view, shadow.proj), SetViewport(viewport)],
                  [DrawShadows(visibleIndex, shadow.split)]);
    }

    /**
     * The body of the cascade loop of RenderCascades: cascade `cascadeIdx` is
     * drawn, and the trace and the two arrays move on from their state after
     * `cascadeIdx` cascades (starting from `start`, `m0` and `s0`) to their
     * state after one more.
     */
    method RenderCascade(lightIdx: int, shadowedLight: ShadowedDirectionalLight, visibleIndex: int, cascadeIdx: int, cull: CullingResults,
                         setting: ShadowSetting, count: int, tileSize: int, cascadeSize: int, reversedZ: bool,
                         ghost start: seq<Cmd>, ghost m0: seq<Mat4>, ghost s0: seq<Vec4>, ctx: RenderContext)
      returns (next: int)
      requires Valid() && count == shadowedDirLightCount && 0 <= lightIdx < count
      requires visibleIndex == shadowedLight.visibleIndex
      requires cascadeIdx < setting.cascadeCount
      requires tileSize == TileSize(setting.atlasSize, TileSplitFactor(count))
      requires cascadeSize == CascadeSize(setting.atlasSize, TileSplitFactor(count), CascadeSplitFactor(setting.cascadeCount))
      requires CascadesDone(cull, shadowedLight, setting, count, lightIdx, cascadeIdx, reversedZ, start, m0, s0, ctx)
      modifies this`pending, dirShadowMatrices, dirCascadeCullingSpheres, ctx
      ensures next == cascadeIdx + 1 && pending == []
      ensures CascadesDone(cull, shadowedLight, setting, count, lightIdx, next, reversedZ, start, m0, s0, ctx)
    {
      var shadow, viewport := CascadeTile(lightIdx, shadowedLight, visibleIndex, cascadeIdx, cull, setting, count, tileSize, cascadeSize);
      DrawCascade(visibleIndex, shadow, viewport, ctx);
      AppendEmpty(ctx.executed);
      AppendAssoc(start, CascadesCommands(cull, shadowedLight, setting, count, lightIdx, cascadeIdx),
                  CascadeCommands(cull, shadowedLight, setting, count, lightIdx, cascadeIdx));
      StoreCascade(lightIdx, cascadeIdx,
                   ShadowMatrixToAtlasTileMatrix(Mul(shadow.proj, shadow.view), viewport, setting.atlasSize, reversedZ),
                   shadow.split.cullingSphere);
      next := cascadeIdx + 1;
    }
  }
}
