/**
 * Values shared by the render pipeline: vectors, matrices, rectangles, texture
 * identifiers, and the commands the pipeline records for the engine.
 *
 * The engine's ScriptableRenderContext is a `RenderContext` object whose
 * `executed` sequence is everything that has reached it, in order: the
 * contents of command buffers at each ExecuteCommandBuffer, and the calls made
 * on the context directly (DrawRenderers, DrawSkybox, DrawShadows, Submit).
 */
module Rendering {

  datatype Option<+T> = None | Some(value: T)

  datatype Vec3 = Vec3(x: real, y: real, z: real)

  /** Vector4 and Color alike. */
  datatype Vec4 = Vec4(x: real, y: real, z: real, w: real)

  /** Vector4.zero, which is also Color.clear. */
  const Zero4 := Vec4(0.0, 0.0, 0.0, 0.0)

  /** A 4x4 matrix, entries named row-then-column as in Matrix4x4 (m23 is row 2, column 3). */
  datatype Mat4 = Mat4(
    m00: real, m01: real, m02: real, m03: real,
    m10: real, m11: real, m12: real, m13: real,
    m20: real, m21: real, m22: real, m23: real,
    m30: real, m31: real, m32: real, m33: real)

  /** A pixel rectangle (its corner and its size). */
  datatype Rect = Rect(x: int, y: int, width: int, height: int)

  /**
   * Render-texture identifiers. `Property(n)` is the id of shader property
   * name `n`; `BloomLevel(w, h)` is the id of the name the bloom stack formats
   * from a level's size; `Unassigned` is the 0 a fresh int array holds.
   */
  datatype TextureId = Unassigned | Property(name: string) | BloomLevel(width: int, height: int) | CameraTarget

  datatype TextureFormat = Shadowmap | DefaultLDR | DefaultHDR

  datatype SortingCriteria = CommonOpaque | CommonTransparent

  datatype RenderQueueRange = OpaqueQueues | TransparentQueues

  datatype DrawingSettings = DrawingSettings(
    passNames: seq<string>, sorting: SortingCriteria, enableDynamicBatching: bool, enableInstancing: bool)

  /** What the engine hands back for one cascade of one directional light. */
  datatype ShadowSplitData = ShadowSplitData(cullingSphere: Vec4)

  datatype Cmd =
    // recorded into a command buffer
    | BeginSample(sampleName: string)
    | EndSample(sampleName: string)
    | ClearRenderTarget(clearDepth: bool, clearColor: bool, backgroundColor: Vec4)
    | GetTemporaryRT(texture: TextureId, width: int, height: int, depthBits: int, format: TextureFormat)
    | ReleaseTemporaryRT(texture: TextureId)
    | SetRenderTarget(texture: TextureId)
    | Blit(source: TextureId, dest: TextureId)
    | BlitPass(source: TextureId, dest: TextureId, pass: int)
    | SetViewport(rect: Rect)
    | SetViewProjectionMatrices(view: Mat4, proj: Mat4)
    | SetGlobalDepthBias(bias: real, slopeBias: real)
    | SetGlobalInt(property: string, intValue: int)
    | SetGlobalFloat(property: string, floatValue: real)
    | SetGlobalTexture(property: string, texture: TextureId)
    | SetGlobalVectorArray(property: string, vectors: seq<Vec4>)
    | SetGlobalMatrixArray(property: string, matrices: seq<Mat4>)
    // made on the render context directly
    | SetupCameraProperties(cameraName: string)
    | DrawRenderers(drawing: DrawingSettings, queues: RenderQueueRange)
    | DrawSkybox
    | DrawShadows(visibleLightIndex: int, split: ShadowSplitData)
    | Submit
    // editor-only hooks of the camera renderer; their bodies are not modelled
    | EmitSceneUIGeometry
    | DrawUnsupportedShaders
    | DrawGizmos

  // ---------------------------------------------------------------------
  // What culling hands to the pipeline

  /** Unity's LightType in declaration order. */
  datatype LightType = Spot | Directional | Point | Area

  datatype LightShadows = NoShadows | Hard | Soft

  /** The Light component of a visible light; `forward` is its transform's forward axis. */
  datatype Light = Light(
    lightType: LightType, intensity: real, shadows: LightShadows, shadowStrength: real,
    shadowBias: real, shadowNormalBias: real, shadowNearPlane: real, forward: Vec3)

  /** One entry of CullingResults.visibleLights; `finalColorLinear` is finalColor.linear. */
  datatype VisibleLight = VisibleLight(lightType: LightType, finalColorLinear: Vec4, light: Light)

  /** The arguments of ComputeDirectionalShadowMatricesAndCullingPrimitives. */
  datatype CascadeQuery = CascadeQuery(
    visibleLightIndex: int, cascadeIndex: int, cascadeCount: int, splitRatio: Vec3,
    resolution: int, nearPlane: real)

  /** What ComputeDirectionalShadowMatricesAndCullingPrimitives gives back. */
  datatype CascadeShadow = CascadeShadow(view: Mat4, proj: Mat4, split: ShadowSplitData)

  /**
   * The culling results of one camera. The engine's two queries on them are
   * inputs: `hasShadowCasterBounds(i)` is what GetShadowCasterBounds(i)
   * returns, and `directionalShadow(q)` is what the cascade computation
   * produces for the query `q`.
   */
  datatype CullingResults = CullingResults(
    visibleLights: seq<VisibleLight>,
    hasShadowCasterBounds: int -> bool,
    directionalShadow: CascadeQuery -> CascadeShadow)

  // ---------------------------------------------------------------------
  // Cameras

  /** Unity's CameraType: Game = 1, SceneView = 2, Preview = 4, VR = 8, Reflection = 16. */
  datatype CameraType = Game | SceneView | Preview | VR | Reflection

  /** Unity's CameraClearFlags; SolidColor is also named Color. */
  datatype CameraClearFlags = Skybox | SolidColor | Depth | Nothing

  /** The enum value of a clear flag, which the camera renderer compares numerically. */
  function ClearFlagsValue(f: CameraClearFlags): (v: int)
    ensures 1 <= v <= 4
  {
    match f
    case Skybox => 1
    case SolidColor => 2
    case Depth => 3
    case Nothing => 4
  }

  /**
   * What the pipeline reads from a camera. `culling` stands for the engine's
   * two culling steps: None when TryGetCullingParameters fails, otherwise
   * the results of Cull with the parameters it produced.
   */
  datatype Camera = Camera(
    name: string, cameraType: CameraType, clearFlags: CameraClearFlags, backgroundColorLinear: Vec4,
    pixelWidth: int, pixelHeight: int, allowHDR: bool, culling: Option<CullingResults>)

  // ---------------------------------------------------------------------
  // Profiler samples in a command stream

  /**
   * The profiler's stack of open samples (innermost last) after `trace`,
   * starting from `open`; None once an EndSample does not close the
   * innermost open sample.
   */
  function SampleStack(trace: seq<Cmd>, open: seq<string>): Option<seq<string>>
    decreases |trace|
  {
    if |trace| == 0 then Some(open)
    else match trace[0]
      case BeginSample(n) => SampleStack(trace[1..], open + [n])
      case EndSample(n) =>
        if |open| > 0 && open[|open| - 1] == n then SampleStack(trace[1..], open[..|open| - 1]) else None
      case _ => SampleStack(trace[1..], open)
  }

  /** Every sample the trace opens it closes, innermost first. */
  predicate SamplesBalanced(trace: seq<Cmd>)
  {
    SampleStack(trace, []) == Some([])
  }

  /** The trace neither opens nor closes a sample. */
  predicate NoSamples(trace: seq<Cmd>)
  {
    forall c | c in trace :: !c.BeginSample? && !c.EndSample?
  }

  /** Running the sample stack over two traces in turn. */
  lemma {:induction false} SampleStackConcat(a: seq<Cmd>, b: seq<Cmd>, open: seq<string>)
    ensures SampleStack(a + b, open) == if SampleStack(a, open).None? then None else SampleStack(b, SampleStack(a, open).value)
    decreases |a|
  {
    if |a| > 0 {
      assert (a + b)[0] == a[0] && (a + b)[1..] == a[1..] + b;
      match a[0]
      case BeginSample(n) => SampleStackConcat(a[1..], b, open + [n]);
      case EndSample(n) =>
        if |open| > 0 && open[|open| - 1] == n {
          SampleStackConcat(a[1..], b, open[..|open| - 1]);
        }
      case _ => SampleStackConcat(a[1..], b, open);
    } else {
      assert a + b == b;
    }
  }

  /** The sample stack after a single command. */
  lemma SampleStackOne(c: Cmd, open: seq<string>)
    ensures c.BeginSample? ==> SampleStack([c], open) == Some(open + [c.sampleName])
    ensures c.EndSample? && |open| > 0 && open[|open| - 1] == c.sampleName ==>
      SampleStack([c], open) == Some(open[..|open| - 1])
    ensures !c.BeginSample? && !c.EndSample? ==> SampleStack([c], open) == Some(open)
  {
    assert [c][1..] == [];
  }

  /** Commands that are not samples leave the stack as it is. */
  lemma {:induction false} SampleStackNoSamples(trace: seq<Cmd>, open: seq<string>)
    requires NoSamples(trace)
    ensures SampleStack(trace, open) == Some(open)
    decreases |trace|
  {
    if |trace| > 0 {
      assert trace[0] in trace;
      assert forall c | c in trace[1..] :: c in trace;
      SampleStackNoSamples(trace[1..], open);
    }
  }

  /** A sample opened around a balanced trace is closed again by its EndSample. */
  lemma {:induction false} SampleAround(name: string, inner: seq<Cmd>, open: seq<string>)
    requires SamplesBalanced(inner)
    ensures SampleStack([BeginSample(name)] + inner + [EndSample(name)], open) == Some(open)
  {
    SampleStackConcat([BeginSample(name)] + inner, [EndSample(name)], open);
    SampleStackConcat([BeginSample(name)], inner, open);
    assert [BeginSample(name)][1..] == [];
    assert SampleStack([BeginSample(name)], open) == Some(open + [name]);
    assert open + [name] + [] == open + [name];
    SampleStackShift(inner, [], open + [name]);
    assert [EndSample(name)][1..] == [];
    assert (open + [name])[..|open|] == open;
  }

  /** A balanced trace is balanced on top of any open samples. */
  lemma {:induction false} SampleStackShift(trace: seq<Cmd>, inner: seq<string>, outer: seq<string>)
    requires SampleStack(trace, inner) == Some([])
    ensures SampleStack(trace, outer + inner) == Some(outer)
    decreases |trace|
  {
    if |trace| > 0 {
      match trace[0]
      case BeginSample(n) =>
        assert outer + inner + [n] == outer + (inner + [n]);
        SampleStackShift(trace[1..], inner + [n], outer);
      case EndSample(n) =>
        assert (outer + inner)[..|outer + inner| - 1] == outer + inner[..|inner| - 1];
        SampleStackShift(trace[1..], inner[..|inner| - 1], outer);
      case _ => SampleStackShift(trace[1..], inner, outer);
    } else {
      assert outer + [] == outer;
    }
  }

  function Min(a: int, b: int): int
  {
    if a <= b then a else b
  }

  /** The indices lo, lo+1, ..., hi-1. */
  function Range(lo: int, hi: int): seq<int>
    decreases hi - lo
  {
    if lo >= hi then [] else [lo] + Range(lo + 1, hi)
  }

  lemma {:induction false} RangeBounds(lo: int, hi: int)
    ensures forall s | s in Range(lo, hi) :: lo <= s < hi
    decreases hi - lo
  {
    if lo < hi {
      RangeBounds(lo + 1, hi);
    }
  }

  /** Concatenation is associative; the command-stream proofs regroup with it. */
  lemma AppendAssoc<T>(a: seq<T>, b: seq<T>, c: seq<T>)
    ensures (a + b) + c == a + (b + c)
  {
  }

  lemma AppendEmpty<T>(s: seq<T>)
    ensures s + [] == s && [] + s == s
  {
  }

  class RenderContext {
    var executed: seq<Cmd>

    constructor ()
      ensures executed == []
    {
      executed := [];
    }

    /** ExecuteCommandBuffer: the buffer's commands reach the engine in recorded order. */
    method ExecuteCommandBuffer(buffer: seq<Cmd>)
      modifies this
      ensures executed == old(executed) + buffer
    {
      executed := executed + buffer;
    }

    /** A call made on the context itself rather than through a command buffer. */
    method Issue(c: Cmd)
      modifies this
      ensures executed == old(executed) + [c]
    {
      executed := executed + [c];
    }
  }
}
