/**
 * The per-camera renderer (CameraRenderer.cs): culls, sets the camera up
 * and clears its target, lets the light manager publish the lights, draws
 * opaque geometry, the skybox and transparent geometry, and submits.
 *
 * The three editor hooks (EmitSceneUIGeometry, DrawUnsupportedShaders,
 * DrawGizmos) are recorded as single trace entries at the point they run.
 */
module CameraRendering {
  import opened Rendering
  import Lights

  const UnlitShaderTag := "SRPDefaultUnlit"
  const LitShaderTag := "CustomLit"

  /** The pipeline asset's batching options. */
  datatype BatchingSetting = BatchingSetting(useDynamicBatching: bool, useSRPBatching: bool, useGPUInstancing: bool)

  /**
   * The clear issued for a camera: depth for every flag up to Depth, colour
   * for every flag up to SolidColor, and the linear background colour when
   * colour is cleared (Color.clear otherwise).
   */
  function ClearCommand(flags: CameraClearFlags, backgroundColorLinear: Vec4): Cmd
  {
    var v := ClearFlagsValue(flags);
    ClearRenderTarget(v <= ClearFlagsValue(Depth), v <= ClearFlagsValue(SolidColor),
                      if v <= ClearFlagsValue(SolidColor) then backgroundColorLinear else Zero4)
  }

  /** The drawing settings of a geometry pass: the two pass names and the batching flags. */
  function Drawing(batching: BatchingSetting, sorting: SortingCriteria): DrawingSettings
  {
    DrawingSettings([UnlitShaderTag, LitShaderTag], sorting, batching.useDynamicBatching, batching.useGPUInstancing)
  }

  /** SetUp: camera properties on the context, then the recorded clear and the camera's sample. */
  function SetUpCommands(camera: Camera): seq<Cmd>
  {
    [SetupCameraProperties(camera.name),
     ClearCommand(camera.clearFlags, camera.backgroundColorLinear),
     BeginSample(camera.name)]
  }

  /** DrawVisibleGeometry: opaque geometry, the skybox, then transparent geometry. */
  function GeometryCommands(batching: BatchingSetting): seq<Cmd>
  {
    [DrawRenderers(Drawing(batching, CommonOpaque), OpaqueQueues),
     DrawSkybox,
     DrawRenderers(Drawing(batching, CommonTransparent), TransparentQueues)]
  }

  /** Everything drawn after the lights: the geometry, then the two editor hooks. */
  function DrawCommands(batching: BatchingSetting): seq<Cmd>
  {
    GeometryCommands(batching) + [DrawUnsupportedShaders, DrawGizmos]
  }

  /** Flush: the camera's sample is closed and the frame submitted. */
  function FlushCommands(camera: Camera): seq<Cmd>
  {
    [EndSample(camera.name), Submit]
  }

  /** The frame after a successful cull, given what the light manager records (`lightCommands`). */
  function CulledFrameCommands(camera: Camera, batching: BatchingSetting, lightCommands: seq<Cmd>): seq<Cmd>
  {
    SetUpCommands(camera) + lightCommands + DrawCommands(batching) + FlushCommands(camera)
  }

  /** Everything one Render call hands to the engine. */
  function FrameCommands(camera: Camera, batching: BatchingSetting, lightCommands: seq<Cmd>): seq<Cmd>
  {
    [EmitSceneUIGeometry] +
    if camera.culling.None? then [] else CulledFrameCommands(camera, batching, lightCommands)
  }

  /** The draw calls of a trace, in order. */
  function Draws(trace: seq<Cmd>): seq<Cmd>
  {
    if |trace| == 0 then []
    else Draws(trace[..|trace| - 1]) +
         (if IsDraw(trace[|trace| - 1]) then [trace[|trace| - 1]] else [])
  }

  predicate IsDraw(c: Cmd)
  {
    c.DrawRenderers? || c.DrawSkybox?
  }

  /** The trace draws nothing. */
  predicate NoDraws(trace: seq<Cmd>)
  {
    forall i | 0 <= i < |trace| :: !IsDraw(trace[i])
  }

  lemma {:induction false} DrawsConcat(a: seq<Cmd>, b: seq<Cmd>)
    ensures Draws(a + b) == Draws(a) + Draws(b)
    decreases |b|
  {
    if |b| == 0 {
      assert a + b == a;
    } else {
      assert (a + b)[..|a + b| - 1] == a + b[..|b| - 1];
      DrawsConcat(a, b[..|b| - 1]);
    }
  }

  /** A trace without draw calls contributes none. */
  lemma {:induction false} DrawsNone(trace: seq<Cmd>)
    requires NoDraws(trace)
    ensures Draws(trace) == []
    decreases |trace|
  {
    if |trace| > 0 {
      DrawsNone(trace[..|trace| - 1]);
    }
  }

  /**
   * The clear follows the flag's place in the enum: Skybox and SolidColor
   * clear depth and colour to the background, Depth clears depth only, and
   * Nothing clears nothing.
   */
  lemma ClearFollowsFlags(flags: CameraClearFlags, backgroundColorLinear: Vec4)
    ensures var c := ClearCommand(flags, backgroundColorLinear);
      (c.clearDepth <==> flags != Nothing) &&
      (c.clearColor <==> flags == Skybox || flags == SolidColor) &&
      c.backgroundColor == (if c.clearColor then backgroundColorLinear else Zero4)
  {
  }

  /** Both geometry passes draw the unlit pass then the lit pass, with the asset's batching flags. */
  lemma DrawingFollowsBatching(batching: BatchingSetting, sorting: SortingCriteria)
    ensures var d := Drawing(batching, sorting);
      |d.passNames| == 2 && d.passNames[0] == "SRPDefaultUnlit" && d.passNames[1] == "CustomLit" &&
      d.enableDynamicBatching == batching.useDynamicBatching && d.enableInstancing == batching.useGPUInstancing
  {
  }

  /** When culling fails the frame ends after the scene-view geometry hook: no clear, draw or submit. */
  lemma CullFailureStopsFrame(camera: Camera, batching: BatchingSetting, lightCommands: seq<Cmd>)
    requires camera.culling.None?
    ensures FrameCommands(camera, batching, lightCommands) == [EmitSceneUIGeometry]
    ensures forall c | c in FrameCommands(camera, batching, lightCommands) ::
      !c.ClearRenderTarget? && !c.DrawRenderers? && !c.DrawSkybox? && !c.Submit?
  {
  }

  /** The geometry pass draws exactly its three draw calls. */
  lemma {:induction false} DrawsOfDrawCommands(batching: BatchingSetting)
    ensures Draws(DrawCommands(batching)) == GeometryCommands(batching)
  {
    var g := GeometryCommands(batching);
    var s1 := [g[0]];
    var s2 := s1 + [g[1]];
    var s3 := s2 + [g[2]];
    var s4 := s3 + [DrawUnsupportedShaders];
    assert DrawCommands(batching) == s4 + [DrawGizmos];
    DrawsSnoc([], g[0]);
    assert [] + [g[0]] == s1;
    DrawsSnoc(s1, g[1]);
    DrawsSnoc(s2, g[2]);
    DrawsSnoc(s3, DrawUnsupportedShaders);
    DrawsSnoc(s4, DrawGizmos);
    assert s3 == g;
  }

  /** Draws of a trace extended by one command. */
  lemma DrawsSnoc(trace: seq<Cmd>, c: Cmd)
    ensures Draws(trace + [c]) == Draws(trace) + if IsDraw(c) then [c] else []
  {
    assert (trace + [c])[..|trace|] == trace;
  }

  /** The frame of a culled camera, cut where the camera's sample opens and closes. */
  lemma FrameParts(camera: Camera, batching: BatchingSetting, lightCommands: seq<Cmd>)
    requires camera.culling.Some?
    ensures FrameCommands(camera, batching, lightCommands) ==
      [EmitSceneUIGeometry, SetupCameraProperties(camera.name), ClearCommand(camera.clearFlags, camera.backgroundColorLinear)] +
      [BeginSample(camera.name)] + lightCommands + DrawCommands(batching) + [EndSample(camera.name)] + [Submit]
  {
  }

  /**
   * A culled frame draws exactly three times, in this order: opaque
   * geometry sorted front to back, the skybox, transparent geometry sorted
   * back to front.
   */
  lemma {:induction false} GeometryOrder(camera: Camera, batching: BatchingSetting, lightCommands: seq<Cmd>)
    requires camera.culling.Some?
    requires NoDraws(lightCommands)
    ensures Draws(FrameCommands(camera, batching, lightCommands)) ==
      [DrawRenderers(Drawing(batching, CommonOpaque), OpaqueQueues),
       DrawSkybox,
       DrawRenderers(Drawing(batching, CommonTransparent), TransparentQueues)]
  {
    var head := [EmitSceneUIGeometry, SetupCameraProperties(camera.name), ClearCommand(camera.clearFlags, camera.backgroundColorLinear)] +
                [BeginSample(camera.name)];
    var withLights := head + lightCommands;
    var withDraws := withLights + DrawCommands(batching);
    var withEnd := withDraws + [EndSample(camera.name)];
    FrameParts(camera, batching, lightCommands);
    DrawsNone(head);
    DrawsNone(lightCommands);
    DrawsConcat(head, lightCommands);
    DrawsConcat(withLights, DrawCommands(batching));
    DrawsOfDrawCommands(batching);
    DrawsSnoc(withDraws, EndSample(camera.name));
    DrawsSnoc(withEnd, Submit);
  }

  /** A culled frame submits exactly once, as its last command. */
  lemma {:induction false} FrameSubmitsOnce(camera: Camera, batching: BatchingSetting, lightCommands: seq<Cmd>)
    requires camera.culling.Some?
    requires forall i | 0 <= i < |lightCommands| :: lightCommands[i] != Submit
    ensures var t := FrameCommands(camera, batching, lightCommands);
      t[|t| - 1] == Submit && forall i | 0 <= i < |t| - 1 :: t[i] != Submit
  {
    var head := [EmitSceneUIGeometry, SetupCameraProperties(camera.name), ClearCommand(camera.clearFlags, camera.backgroundColorLinear)] +
                [BeginSample(camera.name)];
    var withLights := head + lightCommands;
    var withEnd := withLights + DrawCommands(batching) + [EndSample(camera.name)];
    FrameParts(camera, batching, lightCommands);
    var t := withEnd + [Submit];
    assert forall i | 0 <= i < |withLights| :: withLights[i] != Submit by {
      forall i | 0 <= i < |withLights|
        ensures withLights[i] != Submit
      {
        if i >= |head| {
          assert withLights[i] == lightCommands[i - |head|];
        }
      }
    }
    assert forall i | 0 <= i < |t| - 1 :: t[i] == withEnd[i];
  }

  /**
   * The profiler samples of a culled frame are balanced, and just before
   * the flush the camera's own sample is the only one open.
   */
  lemma {:induction false} FrameSamplesBalanced(camera: Camera, batching: BatchingSetting, lightCommands: seq<Cmd>)
    requires camera.culling.Some? && SamplesBalanced(lightCommands)
    ensures var t := FrameCommands(camera, batching, lightCommands);
      SampleStack(t[..|t| - 2], []) == Some([camera.name]) && SamplesBalanced(t)
  {
    var name := camera.name;
    var prefix := [EmitSceneUIGeometry, SetupCameraProperties(name), ClearCommand(camera.clearFlags, camera.backgroundColorLinear)];
    var withBegin := prefix + [BeginSample(name)];
    var withLights := withBegin + lightCommands;
    var withDraws := withLights + DrawCommands(batching);
    var withEnd := withDraws + [EndSample(name)];
    FrameParts(camera, batching, lightCommands);
    var t := withEnd + [Submit];
    assert t[..|t| - 2] == withDraws;
    SampleStackNoSamples(prefix, []);
    SampleStackConcat(prefix, [BeginSample(name)], []);
    SampleStackOne(BeginSample(name), []);
    SampleStackConcat(withBegin, lightCommands, []);
    SampleStackShift(lightCommands, [], [name]);
    assert [name] + [] == [name] && [] + [name] == [name];
    SampleStackConcat(withLights, DrawCommands(batching), []);
    SampleStackNoSamples(DrawCommands(batching), [name]);
    SampleStackConcat(withDraws, [EndSample(name)], []);
    SampleStackOne(EndSample(name), [name]);
    SampleStackConcat(withEnd, [Submit], []);
    SampleStackOne(Submit, []);
  }

  /**
   * The frame Render hands to the engine after a successful cull, whatever
   * the light manager publishes: three draws in order, one submit at the
   * end, and balanced profiler samples.
   */
  lemma {:induction false} RenderedFrameIsWellFormed(camera: Camera, batching: BatchingSetting,
                                                     count: int, colors: seq<Vec4>, directions: seq<Vec4>)
    requires camera.culling.Some?
    ensures var t := FrameCommands(camera, batching, Lights.SetUpCommands(count, colors, directions));
      Draws(t) == GeometryCommands(batching) &&
      t[|t| - 1] == Submit && (forall i | 0 <= i < |t| - 1 :: t[i] != Submit) &&
      SamplesBalanced(t)
  {
    var lightCommands := Lights.SetUpCommands(count, colors, directions);
    Lights.SetUpCommandsBalanced(count, colors, directions);
    GeometryOrder(camera, batching, lightCommands);
    FrameSubmitsOnce(camera, batching, lightCommands);
    FrameSamplesBalanced(camera, batching, lightCommands);
  }

  class CameraRenderer {
    /** The renderer's command buffer: recorded, not yet executed. */
    var pending: seq<Cmd>
    /** The command buffer's name, which SetUp sets to the camera's name. */
    var cmdBufName: string
    /** The culling results of the last camera that culled. */
    var cullResults: Option<CullingResults>
    const lightMgr: Lights.LightManager

    ghost predicate Valid()
      reads this, lightMgr
    {
      pending == [] && lightMgr.Valid() && lightMgr.pending == []
    }

    constructor ()
      ensures Valid() && fresh(lightMgr) && fresh(lightMgr.dirLightColors) && fresh(lightMgr.dirLightDirections)
      ensures cullResults == None
    {
      pending := [];
      cmdBufName := "";
      cullResults := None;
      lightMgr := new Lights.LightManager();
    }

    /**
     * Renders one camera: the whole trace it hands to the engine is
     * FrameCommands, with the light manager's commands from the state SetUp
     * leaves it in; when culling fails nothing past the first hook runs.
     */
    method Render(ctx: RenderContext, camera: Camera, batching: BatchingSetting)
      requires Valid()
      modifies this, lightMgr, lightMgr.dirLightColors, lightMgr.dirLightDirections, ctx
      ensures Valid()
      ensures ctx.executed == old(ctx.executed) +
        FrameCommands(camera, batching,
                      Lights.SetUpCommands(lightMgr.dirLightCount, lightMgr.dirLightColors[..], lightMgr.dirLightDirections[..]))
      ensures camera.culling.None? ==>
        cullResults == old(cullResults) && cmdBufName == old(cmdBufName) && lightMgr.dirLightCount == old(lightMgr.dirLightCount) &&
        lightMgr.dirLightColors[..] == old(lightMgr.dirLightColors[..]) &&
        lightMgr.dirLightDirections[..] == old(lightMgr.dirLightDirections[..])
      ensures camera.culling.Some? ==>
        var published := Lights.Published(camera.culling.value.visibleLights);
        cullResults == camera.culling && cmdBufName == camera.name &&
        lightMgr.dirLightCount == |published| &&
        lightMgr.dirLightColors[..] == Lights.Overlay(old(lightMgr.dirLightColors[..]), Lights.Colors(published)) &&
        lightMgr.dirLightDirections[..] == Lights.Overlay(old(lightMgr.dirLightDirections[..]), Lights.Directions(published))
    {
      ctx.Issue(EmitSceneUIGeometry);
      var culled := Cull(camera);
      if culled {
        RenderCulled(ctx, camera, cullResults.value, batching);
      }
    }

    /** The frame after a successful cull: SetUp, the light pass, the draws and Flush. */
    method RenderCulled(ctx: RenderContext, camera: Camera, cull: CullingResults, batching: BatchingSetting)
      requires Valid()
      modifies this`pending, this`cmdBufName, lightMgr, lightMgr.dirLightColors, lightMgr.dirLightDirections, ctx
      ensures Valid() && cmdBufName == camera.name
      ensures ctx.executed == old(ctx.executed) +
        CulledFrameCommands(camera, batching,
                            Lights.SetUpCommands(lightMgr.dirLightCount, lightMgr.dirLightColors[..], lightMgr.dirLightDirections[..]))
      ensures var published := Lights.Published(cull.visibleLights);
        lightMgr.dirLightCount == |published| &&
        lightMgr.dirLightColors[..] == Lights.Overlay(old(lightMgr.dirLightColors[..]), Lights.Colors(published)) &&
        lightMgr.dirLightDirections[..] == Lights.Overlay(old(lightMgr.dirLightDirections[..]), Lights.Directions(published))
    {
      ghost var start := ctx.executed;
      SetUpWithLights(ctx, camera, cull);
      DrawAndFlush(ctx, batching);
      AppendAssoc(start, SetUpCommands(camera) +
                         Lights.SetUpCommands(lightMgr.dirLightCount, lightMgr.dirLightColors[..], lightMgr.dirLightDirections[..]),
                  DrawCommands(batching) + FlushCommands(camera));
    }

    /** SetUp followed by the light manager's SetUp. */
    method SetUpWithLights(ctx: RenderContext, camera: Camera, cull: CullingResults)
      requires Valid()
      modifies this`pending, this`cmdBufName, lightMgr, lightMgr.dirLightColors, lightMgr.dirLightDirections, ctx
      ensures Valid() && cmdBufName == camera.name
      ensures ctx.executed == old(ctx.executed) + SetUpCommands(camera) +
        Lights.SetUpCommands(lightMgr.dirLightCount, lightMgr.dirLightColors[..], lightMgr.dirLightDirections[..])
      ensures var published := Lights.Published(cull.visibleLights);
        lightMgr.dirLightCount == |published| &&
        lightMgr.dirLightColors[..] == Lights.Overlay(old(lightMgr.dirLightColors[..]), Lights.Colors(published)) &&
        lightMgr.dirLightDirections[..] == Lights.Overlay(old(lightMgr.dirLightDirections[..]), Lights.Directions(published))
    {
      SetUp(ctx, camera);
      lightMgr.SetUp(cull, ctx);
    }

    /** DrawVisibleGeometry, the two editor hooks, and Flush. */
    method DrawAndFlush(ctx: RenderContext, batching: BatchingSetting)
      requires pending == []
      modifies this`pending, ctx
      ensures pending == []
      ensures ctx.executed == old(ctx.executed) + DrawCommands(batching) + [EndSample(cmdBufName), Submit]
    {
      DrawVisibleGeometry(ctx, batching);
      ctx.Issue(DrawUnsupportedShaders);
      ctx.Issue(DrawGizmos);
      Flush(ctx);
    }

    /** TryGetCullingParameters and Cull: keeps the results when the camera can be culled. */
    method Cull(camera: Camera) returns (culled: bool)
      modifies this`cullResults
      ensures culled <==> camera.culling.Some?
      ensures cullResults == if culled then camera.culling else old(cullResults)
    {
      if camera.culling.Some? {
        cullResults := camera.culling;
        return true;
      }
      return false;
    }

    method SetUp(ctx: RenderContext, camera: Camera)
      requires pending == []
      modifies this`pending, this`cmdBufName, ctx
      ensures pending == [] && cmdBufName == camera.name
      ensures ctx.executed == old(ctx.executed) + SetUpCommands(camera)
    {
      var flags := camera.clearFlags;
      cmdBufName := camera.name;
      ctx.Issue(SetupCameraProperties(camera.name));
      var v := ClearFlagsValue(flags);
      pending := pending + [ClearRenderTarget(v <= ClearFlagsValue(Depth), v <= ClearFlagsValue(SolidColor),
                                              if v <= ClearFlagsValue(SolidColor) then camera.backgroundColorLinear else Zero4),
                            BeginSample(cmdBufName)];
      ExecuteCmdBuffer(ctx);
    }

    method DrawVisibleGeometry(ctx: RenderContext, batching: BatchingSetting)
      modifies ctx
      ensures ctx.executed == old(ctx.executed) + GeometryCommands(batching)
    {
      var drawing := DrawingSettings([UnlitShaderTag, LitShaderTag], CommonOpaque,
                                     batching.useDynamicBatching, batching.useGPUInstancing);
      ctx.Issue(DrawRenderers(drawing, OpaqueQueues));
      ctx.Issue(DrawSkybox);
      drawing := drawing.(sorting := CommonTransparent);
      ctx.Issue(DrawRenderers(drawing, TransparentQueues));
    }

    method Flush(ctx: RenderContext)
      requires pending == []
      modifies this`pending, ctx
      ensures pending == []
      ensures ctx.executed == old(ctx.executed) + [EndSample(cmdBufName), Submit]
    {
      pending := pending + [EndSample(cmdBufName)];
      ExecuteCmdBuffer(ctx);
      ctx.Issue(Submit);
    }

    method ExecuteCmdBuffer(ctx: RenderContext)
      modifies this`pending, ctx
      ensures pending == []
      ensures ctx.executed == old(ctx.executed) + old(pending)
    {
      ctx.ExecuteCommandBuffer(pending);
      pending := [];
    }
  }
}
