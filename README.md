# CustomSRP core, modelled in Dafny

This project models the bookkeeping at the heart of a small Unity scriptable render pipeline
(CustomSRP) and the three material editors that come with it:

- **ShadowManager.** The per-frame registry of shadow-casting directional lights: at most four,
  first come first served, each given the first of its four matrix slots. It also renders the
  shadow pass: one atlas, a 2×2 grid of light tiles, each tile cut 2×2 again into cascades. Each
  cascade gets an integer viewport and a matrix slot `light*4+cascade`, and only the first light
  writes the cascade culling spheres.
- **LightManager.** Once per camera it compacts the visible directional lights that emit into two
  fixed four-entry arrays with a count, then publishes the three as shader globals.
- **CameraRenderer.** One frame per camera in a fixed order:
  - the scene-view geometry hook, then cull (the one abort path);
  - set-up with a clear that follows the clear flags' enum order;
  - the light pass, then opaque geometry, the skybox and transparent geometry;
  - the two editor hooks, then flush and one submit.
- **PostFXStack.** The activation decision, then either a plain copy or a bloom. The bloom is:
  - a threshold pass;
  - a chain of down-sampled levels, halved with integer division until a side reaches 1;
  - an up-sampling chain back to the first level, then an add pass;
  - the release of every level.
- **LitShaderEditor, UnlitShaderEditor, UnlitParticlesShaderEditor.** A render mode is encoded by
  at most one keyword. Choosing a mode rewrites:
  - the keywords;
  - the render queue;
  - the RenderType tag;
  - depth writing and the two blend factors.
  The particles editor also has three keyword toggles.

The engine is an input or a trace:
- A `RenderContext` holds `executed`, the list of every command that reached the engine, in
  order.
- Each component's command buffer is a `pending` list. Executing the buffer appends it to the
  trace and clears it.
- Culling results, the cascade matrices the engine computes, the scene-view image-effects switch
  and Material.FindPass are parameters of the operations.
- Components whose fields the original updates in place are classes with those fields. Their
  fixed-size arrays are Dafny `array`s.
- Each loop is a `while` loop proved against a specification function on values. Lemmas state
  what those functions mean.

Modules:
- `Rendering` (rendering.dfy): shared value types, the command datatype, profiler-sample
  bracketing, the context.
- `ShadowTransform` (shadow_transform.dfy): the atlas-tile matrix.
- `ShadowAtlas` (shadow_atlas.dfy): tile and cascade layout.
- `Shadows` (shadow_manager.dfy).
- `Lights` (light_manager.dfy).
- `CameraRendering` (camera_renderer.dfy).
- `PostFX` (post_fx_stack.dfy).
- `Materials` (materials.dfy): the material the editors change.
- `LitShaderEditor`, `UnlitShaderEditor`, `UnlitParticlesShaderEditor`.

The particles editor's render modes, its GetRenderMode and its SetRenderMode are line for line
those of the unlit editor. It therefore uses `UnlitShaderEditor`'s definitions; its own rows
below cite its own file.

## Model

| member | source | states |
|---|---|---|
| ShadowTransform.ReverseDepth | Assets/CustomRP/RunTime/ShadowManager.cs:141-146 | under a reversed Z buffer exactly row 2 (m20..m23) of the shadow matrix is negated and every other entry is kept; otherwise the matrix is unchanged |
| ShadowTransform.ReverseDepthInvolution | Assets/CustomRP/RunTime/ShadowManager.cs:141-146 | applying the depth convention twice gives back the original matrix |
| ShadowTransform.FullAtlasTileIsTextureRemap | Assets/CustomRP/RunTime/ShadowManager.cs:148-151 | for a viewport covering the whole atlas the tile matrix reduces to the clip-to-texture remap times the (depth-corrected) shadow matrix |
| ShadowAtlas.TileSplitFactor | Assets/CustomRP/RunTime/ShadowManager.cs:86 | the light-tile split is 1 or 2, is 2 only for more than one light, and its square holds every count from 1 to 4 |
| ShadowAtlas.CascadeSplitFactor | Assets/CustomRP/RunTime/ShadowManager.cs:112 | the cascade split is 1 or 2, is 2 only for more than one cascade, and its square holds every cascade count from 1 to 4 |
| ShadowAtlas.MatrixSlot | Assets/CustomRP/RunTime/ShadowManager.cs:129 | the slot `light*4+cascade` is below 16, the array's length, and decodes back to its (light, cascade) pair, so distinct pairs get distinct slots |
| ShadowAtlas.SizesFit | Assets/CustomRP/RunTime/ShadowManager.cs:113-114 | under integer division the cascades fit in their tile and the tiles fit in the atlas, for every atlas size ≥ 0 |
| ShadowAtlas.ViewportInsideAtlas | Assets/CustomRP/RunTime/ShadowManager.cs:123-125 | every viewport of a rendered (light, cascade) pair lies inside [0, atlasSize]² |
| ShadowAtlas.ViewportsDisjoint | Assets/CustomRP/RunTime/ShadowManager.cs:123-125 | the viewports of two different rendered pairs of one frame share no pixel |
| Shadows.RegisterDirectional | Assets/CustomRP/RunTime/ShadowManager.cs:40-59 | a full registry or a light that cannot cast (not directional, no shadows, strength ≤ 0, no caster bounds) gives -1 and zero data and leaves the registry unchanged; otherwise the light is appended, the result is 4 × the prior count and the data is (strength, normal bias, bias, near plane) |
| Shadows.RegisterAll | Assets/CustomRP/RunTime/ShadowManager.cs:40-59 | a frame of requests returns one index per request and never registers more than four lights |
| Shadows.RegistrationIsDense | Assets/CustomRP/RunTime/ShadowManager.cs:42-56 | the registry holds the first min(casters, 4) casters in request order; every index returned is -1 or one of 0, 4, 8, 12; accepted lights get increasing indices |
| Shadows.FifthCasterIsRefused | Assets/CustomRP/RunTime/ShadowManager.cs:42-43 | five casters in one frame receive 0, 4, 8, 12 and -1 |
| Shadows.TilesArePrefixStable | Assets/CustomRP/RunTime/ShadowManager.cs:40-59 | the index a request receives depends only on the requests before it |
| Shadows.CascadeViewportsInside | Assets/CustomRP/RunTime/ShadowManager.cs:119-126 | every viewport one light's cascade loop sets lies inside the atlas |
| Shadows.ShadowPassViewportsInside | Assets/CustomRP/RunTime/ShadowManager.cs:87-89 | every viewport the whole shadow pass sets lies inside the atlas it allocated |
| Shadows.LightMatricesWritten | Assets/CustomRP/RunTime/ShadowManager.cs:129 | one light's cascade loop writes its atlas matrix to exactly its own cascade slots and leaves every other slot |
| Shadows.LightsMatricesWritten | Assets/CustomRP/RunTime/ShadowManager.cs:87-89 | after the light loop, slot (l, c) of every rendered pair holds that pair's atlas matrix and every other slot is untouched |
| Shadows.CascadeSpheresWritten | Assets/CustomRP/RunTime/ShadowManager.cs:130-132 | the first n cascades each write their own culling sphere and leave the other entries |
| Shadows.ShadowManager.constructor | Assets/CustomRP/RunTime/ShadowManager.cs:30-33 | the registry is empty, the three arrays are fresh with lengths 4, 16 and 4, and the matrices and spheres start at zero |
| Shadows.ShadowManager.SetUp | Assets/CustomRP/RunTime/ShadowManager.cs:35-38 | the registry is empty afterwards |
| Shadows.ShadowManager.GetDirectionalShadowData | Assets/CustomRP/RunTime/ShadowManager.cs:40-59 | the registry, the index returned and the shadow data are RegisterDirectional's, and slots past the count are untouched |
| Shadows.ShadowManager.CleanUp | Assets/CustomRP/RunTime/ShadowManager.cs:69-74 | the atlas release goes to the engine after what was pending, and the registry is emptied |
| Shadows.ShadowManager.ExecuteCommandBuffer | Assets/CustomRP/RunTime/ShadowManager.cs:106-109 | the buffer reaches the engine in recorded order and is then empty |
| Shadows.ShadowManager.Render | Assets/CustomRP/RunTime/ShadowManager.cs:62-66 | the directional pass, with RenderDirectionalShadows' whole contract |
| Shadows.ShadowManager.RenderDirectionalShadows | Assets/CustomRP/RunTime/ShadowManager.cs:77-104 | no caster: only a 1×1 dummy atlas is recorded, nothing reaches the engine and neither array changes; otherwise the engine receives the atlas set-up, every light's commands in order and the shader globals, and the arrays end as LightsMatrices and light 0's CascadeSpheres |
| Shadows.ShadowManager.RenderAtlas | Assets/CustomRP/RunTime/ShadowManager.cs:78-99 | the atlas of atlasSize² is allocated, bound, cleared and sampled; every light follows; then the distance, fade, matrix, cascade-count and sphere globals are set, with the arrays as the light loop left them |
| Shadows.ShadowManager.RenderLights | Assets/CustomRP/RunTime/ShadowManager.cs:86-89 | the registered lights are rendered in registration order; the trace and both arrays are the specification functions over the registry |
| Shadows.ShadowManager.RenderOneDirectionalShadow | Assets/CustomRP/RunTime/ShadowManager.cs:111-138 | the cascade tile size is published; the depth bias is the light's before its cascades and 0 after them; only this light's matrix slots change; the spheres change only for light 0 |
| Shadows.ShadowManager.RenderCascades | Assets/CustomRP/RunTime/ShadowManager.cs:119-136 | every cascade of the light is drawn in order, and the two arrays move from their old values by exactly those cascades |
| Shadows.ShadowManager.RenderCascade | Assets/CustomRP/RunTime/ShadowManager.cs:120-135 | one cascade extends the trace by its three commands, writes its matrix slot and, for light 0 only, its sphere |
| Shadows.ShadowManager.CascadeTile | Assets/CustomRP/RunTime/ShadowManager.cs:120-125 | the cascade's matrices and split come from the culling results, and its viewport is the layout's AtlasViewport |
| Shadows.ShadowManager.DrawCascade | Assets/CustomRP/RunTime/ShadowManager.cs:121-135 | the view/projection and viewport commands reach the engine before the shadow casters are drawn |
| Shadows.ShadowManager.StoreCascade | Assets/CustomRP/RunTime/ShadowManager.cs:129-132 | the matrix goes to slot light*4+cascade and nowhere else; the sphere is stored only when the light is light 0 |
| Lights.Qualifying | Assets/CustomRP/RunTime/LightManager.cs:30 | exactly the directional lights with intensity > 0 survive the filter |
| Lights.QualifyingConcat | Assets/CustomRP/RunTime/LightManager.cs:26-34 | the filter distributes over concatenation, so it keeps visible-light order |
| Lights.PublishedStep | Assets/CustomRP/RunTime/LightManager.cs:26-34 | a light that does not qualify changes nothing; a qualifying one is appended while fewer than four are kept, and dropped after that |
| Lights.PublishedCount | Assets/CustomRP/RunTime/LightManager.cs:26-37 | the count is the number of qualifying lights capped at 4; with at most four qualifying lights nothing is dropped; entry i is the i-th qualifying light |
| Lights.ArraysAfterSetUp | Assets/CustomRP/RunTime/LightManager.cs:26-39 | slot i < count holds the colour and direction of the i-th qualifying light; every slot from count on keeps what an earlier frame left |
| Lights.PublishedPrefix | Assets/CustomRP/RunTime/LightManager.cs:26-28 | where the loop stops, the lights seen so far are the published ones |
| Lights.SlotsAreRange | Assets/CustomRP/RunTime/LightManager.cs:26-33 | with the guard `count >= 4` the loop writes slots count, count+1, … up to min(count + qualifying, 4) |
| Lights.AsWrittenSlotsAreRange | Assets/CustomRP/RunTime/LightManager.cs:26-33 | with the guard as written the loop writes slots up to min(count + qualifying, 5) |
| Lights.AsWrittenFifthLightOverruns | Assets/CustomRP/RunTime/LightManager.cs:27-33 | a fifth qualifying light is written at index 4 of the four-entry arrays |
| Lights.SlotsInBounds | Assets/CustomRP/RunTime/LightManager.cs:14-33 | the corrected loop writes exactly slots 0..count-1, all inside the arrays, and agrees with the original whenever at most four lights qualify |
| Lights.SetUpCommandsBalanced | Assets/CustomRP/RunTime/LightManager.cs:23-40 | the light pass closes the profiler sample it opens and neither draws nor submits |
| Lights.LightManager.constructor | Assets/CustomRP/RunTime/LightManager.cs:14-16 | two fresh, distinct four-entry arrays of zero vectors and a count of 0 |
| Lights.LightManager.SetUp | Assets/CustomRP/RunTime/LightManager.cs:21-43 | the count restarts at 0 and ends at the number of published lights; the published lights overwrite the array prefix; the count and both full arrays reach the engine inside one sample |
| Lights.LightManager.Compact | Assets/CustomRP/RunTime/LightManager.cs:25-35 | the loop leaves the count and the array prefix as the published lights, and the rest of both arrays untouched |
| Lights.LightManager.CompactStep | Assets/CustomRP/RunTime/LightManager.cs:30-34 | one visible light: if it qualifies it takes the next slot, otherwise nothing changes |
| Lights.LightManager.Accept | Assets/CustomRP/RunTime/LightManager.cs:31-33 | the light's linear colour and negated forward axis go to slot count, and the count grows by one |
| CameraRendering.ClearFollowsFlags | Assets/CustomRP/RunTime/CameraRenderer.cs:39 | depth is cleared iff the flag is not Nothing; colour is cleared iff it is Skybox or SolidColor; the clear colour is the linear background exactly when colour is cleared, else clear black |
| CameraRendering.DrawingFollowsBatching | Assets/CustomRP/RunTime/CameraRenderer.cs:49-53 | pass 0 is SRPDefaultUnlit and pass 1 CustomLit; the dynamic-batching and instancing flags are the asset's |
| CameraRendering.CullFailureStopsFrame | Assets/CustomRP/RunTime/CameraRenderer.cs:22-25 | a failed cull leaves only the scene-view geometry hook: no clear, draw or submit |
| CameraRendering.DrawsOfDrawCommands | Assets/CustomRP/RunTime/CameraRenderer.cs:44-63 | the draws of the geometry step plus the two editor hooks are exactly the opaque draw, the skybox and the transparent draw; the hook tokens are not counted as draws, as in a player build, where the partial methods are empty (see Left out) |
| CameraRendering.GeometryOrder | Assets/CustomRP/RunTime/CameraRenderer.cs:27-32 | the draws of a frame are opaque (CommonOpaque, opaque queues), skybox, transparent (CommonTransparent, transparent queues), in that order; the editor hooks' own draws are not counted (see Left out) |
| CameraRendering.FrameSubmitsOnce | Assets/CustomRP/RunTime/CameraRenderer.cs:67-69 | a rendered frame ends with its only Submit |
| CameraRendering.FrameSamplesBalanced | Assets/CustomRP/RunTime/CameraRenderer.cs:37-40 | the camera's sample is the only one open before Flush, and the frame's samples are balanced |
| CameraRendering.RenderedFrameIsWellFormed | Assets/CustomRP/RunTime/CameraRenderer.cs:18-33 | with the light manager's commands the frame draws opaque, skybox, transparent, submits once at the end and closes every sample; the editor hooks' draws are not counted and the light pass uses the corrected guard (see Left out) |
| CameraRendering.CameraRenderer.Render | Assets/CustomRP/RunTime/CameraRenderer.cs:18-33 | the trace gains FrameCommands; a failed cull leaves the light arrays, the cull results and the command buffer's name as they were; otherwise the light manager holds the published lights |
| CameraRendering.CameraRenderer.RenderCulled | Assets/CustomRP/RunTime/CameraRenderer.cs:27-32 | the phases SetUp, light SetUp, geometry, unsupported shaders, gizmos and Flush run once each, in that order |
| CameraRendering.CameraRenderer.SetUpWithLights | Assets/CustomRP/RunTime/CameraRenderer.cs:27-28 | the camera's set-up commands and then the light pass's reach the engine |
| CameraRendering.CameraRenderer.DrawAndFlush | Assets/CustomRP/RunTime/CameraRenderer.cs:29-32 | the geometry and both editor hooks, then the sample's end and the submit |
| CameraRendering.CameraRenderer.Cull | Assets/CustomRP/RunTime/CameraRenderer.cs:73-80 | succeeds iff the camera yields culling parameters, and only then replaces the cull results |
| CameraRendering.CameraRenderer.SetUp | Assets/CustomRP/RunTime/CameraRenderer.cs:35-42 | camera properties, the flag-driven clear and the camera-named sample reach the engine in that order |
| CameraRendering.CameraRenderer.DrawVisibleGeometry | Assets/CustomRP/RunTime/CameraRenderer.cs:44-63 | opaque draw, skybox, transparent draw, with the asset's batching flags |
| CameraRendering.CameraRenderer.Flush | Assets/CustomRP/RunTime/CameraRenderer.cs:66-70 | the sample is closed and then the frame is submitted |
| CameraRendering.CameraRenderer.ExecuteCmdBuffer | Assets/CustomRP/RunTime/CameraRenderer.cs:83-86 | the buffer reaches the engine in recorded order and is then empty |
| PostFX.LevelSizes | Assets/CustomRP/RunTime/PostFXStack.cs:103-126 | at most `iteration` levels; level i is (pixelWidth/2^(i+1), pixelHeight/2^(i+1)) with both sides above 1; fewer levels only when the next size has a side ≤ 1 |
| PostFX.NoLevelsIffTinyCamera | Assets/CustomRP/RunTime/PostFXStack.cs:103-110 | no level is allocated exactly when a side of the camera is under 4 pixels |
| PostFX.LevelIdsDistinct | Assets/CustomRP/RunTime/PostFXStack.cs:112-113 | the level textures are distinct and none of them is the threshold texture |
| PostFX.UpCommandsOrder | Assets/CustomRP/RunTime/PostFXStack.cs:131-135 | up-sampling visits levels actual-1 down to 1, each blitted into the level before it |
| PostFX.BloomTextures | Assets/CustomRP/RunTime/PostFXStack.cs:90-152 | a bloom allocates the threshold texture and then each level, and releases each level once in allocation order |
| PostFX.BloomPathTextures | Assets/CustomRP/RunTime/PostFXStack.cs:64-72 | the bloom path allocates the threshold texture and the levels, and releases the levels and then the threshold texture |
| PostFX.RenderReleasesWhatItAcquires | Assets/CustomRP/RunTime/PostFXStack.cs:48-73 | on every path Render releases exactly the textures it allocates, each allocated once |
| PostFX.UpSampleCounterEnd | Assets/CustomRP/RunTime/PostFXStack.cs:131 | `while (--cur > 0)` leaves the counter at 0, or at -1 when there are no levels |
| PostFX.AsWrittenReleaseAgrees | Assets/CustomRP/RunTime/PostFXStack.cs:145-149 | with at least one level the release loop as written frees levels 0..actual-1 |
| PostFX.AsWrittenReleaseOnTinyCamera | Assets/CustomRP/RunTime/PostFXStack.cs:128-149 | for a camera under 4 pixels the release loop as written reads bloomSampleRTs[-1] |
| PostFX.PostFXStack.SetUp | Assets/CustomRP/RunTime/PostFXStack.cs:26-46 | inactive iff there is no material, or the camera is neither game nor scene view, or it is a scene view with image effects off; the camera, setting and HDR permission are kept |
| PostFX.PostFXStack.Render | Assets/CustomRP/RunTime/PostFXStack.cs:48-73 | nothing when inactive; one copy without a material or without bloom; otherwise the bloom, the copy of its result and its release |
| PostFX.PostFXStack.RenderBloom | Assets/CustomRP/RunTime/PostFXStack.cs:64-72 | the processed texture is copied to the camera target and released iff it differs from the source |
| PostFX.PostFXStack.ExecuteCommandBuffer | Assets/CustomRP/RunTime/PostFXStack.cs:80-83 | the buffer reaches the engine in recorded order and is then empty |
| PostFX.PostFXStack.DoCopy | Assets/CustomRP/RunTime/PostFXStack.cs:85-88 | one blit from source to destination reaches the engine |
| PostFX.PostFXStack.DoBloom | Assets/CustomRP/RunTime/PostFXStack.cs:90-152 | the trace gains the threshold pass, the down chain, the up chain with the add pass and the releases; the result is always the threshold texture |
| PostFX.PostFXStack.LevelPasses | Assets/CustomRP/RunTime/PostFXStack.cs:103-149 | down-sampling, up-sampling with the add pass, and the releases of the allocated levels, in that order |
| PostFX.PostFXStack.Threshold | Assets/CustomRP/RunTime/PostFXStack.cs:91-100 | opens the Bloom sample, allocates the camera-sized threshold texture in the HDR-dependent format and draws the source into it |
| PostFX.PostFXStack.DownSample | Assets/CustomRP/RunTime/PostFXStack.cs:103-126 | allocates exactly the DownLevels sizes, records their ids in the array's prefix, leaves the rest unassigned, and draws each level from the one before |
| PostFX.PostFXStack.DownSampleRound | Assets/CustomRP/RunTime/PostFXStack.cs:109-125 | one level is allocated, recorded in the next array slot and drawn from the previous level; the levels still to come are those of the next size |
| PostFX.PostFXStack.UpSampleAndAdd | Assets/CustomRP/RunTime/PostFXStack.cs:131-143 | the up chain from the last level to the first, then the add pass over the first level, reach the engine together |
| PostFX.PostFXStack.ReleaseLevels | Assets/CustomRP/RunTime/PostFXStack.cs:145-149 | each allocated level is released once, in allocation order |
| Materials.KeywordNamesDistinct | Assets/Editor/UnlitParticlesShaderEditor.cs:25-29 | the keyword constructors stand for the editors' keyword strings, and among canonically named keywords two keywords are equal iff their names are |
| Materials.FloatNamesDistinct | Assets/Editor/LitShaderEditor.cs:35-37 | the three float constructors stand for `_ZWrite`, `_SrcBlend` and `_DstBlend`, and among canonically named properties two are equal iff their names are |
| Materials.WithBlend | Assets/Editor/LitShaderEditor.cs:78-86 | the three floats get their new values and every other float is kept |
| LitShaderEditor.KeywordsOf | Assets/Editor/LitShaderEditor.cs:59-64 | a mode enables at most one mode keyword, and none exactly for Opaque |
| LitShaderEditor.SetRenderMode | Assets/Editor/LitShaderEditor.cs:58-87 | the keywords become WithMode; the queue is the mode's; the RenderType tag is the mode's; the three floats are the mode's; nothing else changes |
| LitShaderEditor.DisableModeKeywords | Assets/Editor/LitShaderEditor.cs:59-61 | the three mode keywords are off and the other keywords are kept |
| LitShaderEditor.RoundTrip | Assets/Editor/LitShaderEditor.cs:46-87 | GetRenderMode after SetRenderMode(m) is m, for each of the four modes |
| LitShaderEditor.OneModeKeyword | Assets/Editor/LitShaderEditor.cs:59-69 | after SetRenderMode(m) the only mode keyword enabled is m's (none for Opaque) |
| LitShaderEditor.OtherKeywordsUnchanged | Assets/Editor/LitShaderEditor.cs:58-87 | keywords other than the three mode keywords keep their state |
| LitShaderEditor.QueueAndTag | Assets/Editor/LitShaderEditor.cs:65-75 | Geometry iff Opaque, AlphaTest iff CutOff, Transparent iff Fade or Transparent; the tag is "Transparent" iff Fade or Transparent, "Opaque" otherwise |
| LitShaderEditor.DepthAndBlend | Assets/Editor/LitShaderEditor.cs:78-86 | ZWrite is 0 iff Fade or Transparent; SrcBlend is SrcAlpha iff Fade, One otherwise; DstBlend is OneMinusSrcAlpha iff Fade or Transparent, Zero otherwise |
| LitShaderEditor.ModePriority | Assets/Editor/LitShaderEditor.cs:46-56 | CutOff wins over Fade, Fade over Transparent; the mode reads Opaque exactly when no mode keyword is set |
| LitShaderEditor.SetRenderModeIdempotent | Assets/Editor/LitShaderEditor.cs:58-87 | setting the same mode again changes neither the keywords, nor the tags, nor the floats |
| UnlitShaderEditor.KeywordsOf | Assets/Editor/UnlitShaderEditor.cs:37-47 | a mode enables at most one of the two mode keywords, and none exactly for Opaque |
| UnlitShaderEditor.SetRenderMode | Assets/Editor/UnlitShaderEditor.cs:36-64 | the keywords become WithMode; the queue is the mode's; the RenderType tag is the mode's; the three floats are the mode's; nothing else changes |
| UnlitShaderEditor.DisableModeKeywords | Assets/Editor/UnlitShaderEditor.cs:37-38 | cut-off and fade are off and the other keywords are kept |
| UnlitShaderEditor.RoundTrip | Assets/Editor/UnlitShaderEditor.cs:25-64 | GetRenderMode after SetRenderMode(m) is m for Opaque, CutOff and Fade |
| UnlitShaderEditor.OneModeKeyword | Assets/Editor/UnlitShaderEditor.cs:37-47 | after SetRenderMode cut-off and fade are never both on, and the one on is m's |
| UnlitShaderEditor.OtherKeywordsUnchanged | Assets/Editor/UnlitShaderEditor.cs:36-64 | every other keyword, RENDER_MODE_TRANSPARENT included, keeps its state |
| UnlitShaderEditor.QueueAndTag | Assets/Editor/UnlitShaderEditor.cs:42-52 | Geometry/AlphaTest/Transparent and Opaque/Opaque/Transparent for Opaque/CutOff/Fade, in both directions |
| UnlitShaderEditor.DepthAndBlend | Assets/Editor/UnlitShaderEditor.cs:55-63 | 0, SrcAlpha, OneMinusSrcAlpha for Fade; 1, One, Zero otherwise |
| UnlitShaderEditor.ModePriority | Assets/Editor/UnlitShaderEditor.cs:25-34 | CutOff wins over Fade; Opaque exactly when neither keyword is set |
| UnlitShaderEditor.SetRenderModeIdempotent | Assets/Editor/UnlitShaderEditor.cs:36-64 | setting the same mode again changes neither the keywords, nor the tags, nor the floats |
| UnlitParticlesShaderEditor.RenderModePopup | Assets/Editor/UnlitParticlesShaderEditor.cs:77-83 | an untouched popup shows the mode read from the keywords and changes nothing; a picked mode is set, with the unlit rules for queue, tag and floats |
| UnlitParticlesShaderEditor.PickedModeReadsBack | Assets/Editor/UnlitParticlesShaderEditor.cs:33-83 | a mode picked in the popup reads back as that mode, whatever the toggles do afterwards |
| UnlitParticlesShaderEditor.ToggleKeyword | Assets/Editor/UnlitParticlesShaderEditor.cs:102-109 | a changed toggle enables or disables its keyword; an untouched one changes nothing |
| UnlitParticlesShaderEditor.UpdateToggles | Assets/Editor/UnlitParticlesShaderEditor.cs:102-129 | the three toggles in order; the near-fade result is whether PARTICLE_NEAR_FADE is on afterwards |
| UnlitParticlesShaderEditor.OnGUI | Assets/Editor/UnlitParticlesShaderEditor.cs:75-131 | the popup then the toggles: keywords, queue, tag and floats as RenderModePopup and UpdateToggles say, and near-fade properties shown iff the keyword ends up on |
| UnlitParticlesShaderEditor.ToggleEffect | Assets/Editor/UnlitParticlesShaderEditor.cs:104-109 | a changed toggle sets its keyword's membership to the toggle's value and touches no other keyword |
| UnlitParticlesShaderEditor.TogglesIndependent | Assets/Editor/UnlitParticlesShaderEditor.cs:102-129 | each toggled keyword matches its toggle, untouched ones keep their state, every other keyword and so the render mode are unchanged |

## Left out

- Engine calls are parameters or trace entries:
  - culling (TryGetCullingParameters and Cull) is `Camera.culling`;
  - GetShadowCasterBounds and ComputeDirectionalShadowMatricesAndCullingPrimitives are fields of `CullingResults`;
  - Material.FindPass is `PostFXSetting.findPass`;
  - DrawShadows, DrawRenderers, DrawSkybox, SetupCameraProperties and Submit are trace entries;
  - the scene view's image-effects switch is a parameter of `PostFX.PostFXStack.SetUp`.
- The render context is passed to each operation rather than stored in a field.
- Float arithmetic is over `real`, without rounding:
  - the matrix product and TRS matrices of ShadowMatrixToAtlasTileMatrix;
  - light colours and directions, which are opaque values;
  - shadow data and blend floats.
- Render-texture filter modes, load/store actions and depth bits are not recorded, except the depth bits of the bloom and shadow textures.
- The two material writes of the bloom, `_BloomThreshold` and `_BloomStrength` (PostFXStack.cs:98 and 139), are not modelled. They change a shared material, not the command stream.
- PostFXStack.CleanUp has an empty body and is not modelled.
- Tone mapping (PostFXSetting.cs) is never read by PostFXStack and is not modelled.
- The shader property ids are their names. A level texture's id is its size: `BloomLevel(w, h)` stands for the id of the name formatted from w and h.
- Keywords and float properties are datatypes (`Materials.KeywordName` and `Materials.FloatPropertyName` give their names). Names are not case-folded.
- The mode and toggle properties hold only for canonically named keywords and floats (`Materials.CanonicalKeyword`, `Materials.CanonicalFloat`). An `OtherKeyword` or `OtherFloat` carrying a reserved name such as `RENDER_MODE_FADE` or `_ZWrite` is one keyword or property to the engine but a different value in the model.
- OnGUI in all three editors is layout:
  - property drawing, FindProperty, texture fields, the instancing field and undo registration are not modelled;
  - the global-illumination flag update of the lit editor (LitShaderEditor.cs:174) is not modelled;
  - the render-mode popup is modelled only for the particles editor, where the keyword toggles follow it. The lit and unlit popups call the same SetRenderMode that is modelled.
- The editor-only hooks of CameraRenderer.Editor.cs are single trace tokens (EmitSceneUIGeometry, DrawUnsupportedShaders, DrawGizmos) that are not counted as draws. Their bodies are not modelled: in an editor build DrawUnsupportedShaders issues one more DrawRenderers with the error material after the transparent draw (CameraRenderer.Editor.cs:22-31), DrawGizmos issues two gizmo draws when gizmos are shown (35-39), and EmitSceneUIGeometry emits scene-view geometry for scene cameras (43-46). In a player build the three are empty.
- `CameraRendering.DrawsOfDrawCommands`, `CameraRendering.GeometryOrder` and `CameraRendering.RenderedFrameIsWellFormed` describe the draws of a player build: in an editor build the frame also draws the error-material pass and the gizmos, which these lemmas do not count.
- Settings are plain values. `ShadowSetting` takes cascadeCount, cascadeSplitRatio and fadeDistanceRatio as fields, with 1 ≤ cascadeCount ≤ 4. The atlas size is the integer the pipeline casts from its enum.
- The bloom iteration count is at least 1, as the settings asset's `[Min(1)]` (PostFXSetting.cs:10) ensures.
- `PostFX.PostFXStack.DownSample`: the loop's early `break` is part of its `while` condition. The size test comes first in the body, so the two are the same.
- `Lights.LightManager.SetUp` and `Lights.LightManager.Compact` use the corrected loop guard (see Findings). The guard as written is modelled by `Lights.AsWrittenSlots`.
- `CameraRendering.CameraRenderer.Render` and `CameraRendering.RenderedFrameIsWellFormed` inherit that corrected guard. As written, five qualifying lights make the light pass throw after the camera's sample was opened (CameraRenderer.cs:40), so that frame would end with an open sample and no Submit.
- `PostFX.PostFXStack.LevelPasses` uses the corrected release loop `PostFX.PostFXStack.ReleaseLevels` (see Findings). The loop as written is modelled by `PostFX.AsWrittenReleaseIndices`.
- Integers are unbounded. All counts and sizes here are small and non-negative, where Dafny's division agrees with C#'s.

## Findings

| source | as written | input that shows it | evidently intended | confidence | as-written member | corrected member |
|---|---|---|---|---|---|---|
| Assets/CustomRP/RunTime/LightManager.cs:27 | the loop breaks only once `_dirLightCount > 4`, so a fifth qualifying light is written at index 4 of the four-entry arrays | five visible directional lights, each with intensity > 0 | break once the arrays are full (`>= 4`), publishing the first four | high (not executed) | Lights.AsWrittenFifthLightOverruns | Lights.SlotsInBounds |
| Assets/CustomRP/RunTime/PostFXStack.cs:131 | after `while (--curIteration > 0)` the counter is -1 when no level was allocated, and the release loop at 145-149 then reads `bloomSampleRTs[-1]` | a camera 3 pixels wide (or high), with bloom enabled | release levels 0 .. actual-1, which is nothing when there are no levels | high (not executed) | PostFX.AsWrittenReleaseOnTinyCamera | PostFX.PostFXStack.ReleaseLevels |
