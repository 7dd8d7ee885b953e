/**
 * The unlit particles material editor. Its render modes are the unlit
 * editor's (same three modes, same keywords, queue, tag and blend
 * rules), so it uses UnlitShaderEditor's definitions; what it adds are
 * three keyword toggles: vertex colour, blend-sheet animation and near
 * fade.
 *
 * A toggle the user changed is `Some(on)`, an untouched one `None`.
 */
module UnlitParticlesShaderEditor {
  import opened Materials
  import opened Rendering
  import Unlit = UnlitShaderEditor

  /** The keywords after one toggle: a changed toggle enables or disables its keyword. */
  function Toggled(keywords: set<Keyword>, keyword: Keyword, toggled: Option<bool>): set<Keyword>
  {
    match toggled
    case None => keywords
    case Some(on) => if on then keywords + {keyword} else keywords - {keyword}
  }

  /** The keywords after the three toggles, in the order the editor draws them. */
  function AfterToggles(keywords: set<Keyword>, vertexColor: Option<bool>, sheetAnimation: Option<bool>,
                        nearFade: Option<bool>): set<Keyword>
  {
    Toggled(Toggled(Toggled(keywords, VertexColor, vertexColor), BlendingSheetAnimation, sheetAnimation),
            ParticleNearFade, nearFade)
  }

  /** One toggle: if it changed, its keyword is enabled or disabled to match. */
  method ToggleKeyword(target: Material, keyword: Keyword, toggled: Option<bool>)
    modifies target`keywords
    ensures target.keywords == Toggled(old(target.keywords), keyword, toggled)
  {
    if toggled.Some? {
      if toggled.value {
        target.EnableKeyword(keyword);
      } else {
        target.DisableKeyword(keyword);
      }
    }
  }

  /**
   * The keyword work of the editor's GUI pass: the render-mode popup
   * (`picked` is the mode the user chose, if the popup changed), then the
   * three toggles. Returns the mode shown, and whether the near-fade
   * properties are shown.
   */
  method OnGUI(target: Material, picked: Option<Unlit.RenderMode>,
               vertexColor: Option<bool>, sheetAnimation: Option<bool>, nearFade: Option<bool>)
    returns (renderMode: Unlit.RenderMode, showNearFade: bool)
    modifies target
    ensures renderMode == if picked.Some? then picked.value else Unlit.GetRenderMode(old(target.keywords))
    ensures target.keywords ==
      AfterToggles(if picked.Some? then Unlit.WithMode(old(target.keywords), picked.value) else old(target.keywords),
                   vertexColor, sheetAnimation, nearFade)
    ensures picked.None? ==> target.renderQueue == old(target.renderQueue) && target.tags == old(target.tags) &&
                             target.floats == old(target.floats)
    ensures picked.Some? ==> target.renderQueue == Unlit.QueueOf(renderMode) &&
                             target.tags == old(target.tags)[RenderTypeTag := Unlit.TagOf(renderMode)] &&
                             target.floats == WithBlend(old(target.floats), Unlit.ZWriteOf(renderMode),
                                                        Unlit.SrcBlendOf(renderMode), Unlit.DstBlendOf(renderMode))
    ensures showNearFade <==> ParticleNearFade in target.keywords
  {
    renderMode := RenderModePopup(target, picked);
    showNearFade := UpdateToggles(target, vertexColor, sheetAnimation, nearFade);
  }

  /** The render-mode popup: the mode read from the keywords, or the one picked, which is then set. */
  method RenderModePopup(target: Material, picked: Option<Unlit.RenderMode>) returns (renderMode: Unlit.RenderMode)
    modifies target
    ensures renderMode == if picked.Some? then picked.value else Unlit.GetRenderMode(old(target.keywords))
    ensures target.keywords == if picked.Some? then Unlit.WithMode(old(target.keywords), picked.value) else old(target.keywords)
    ensures picked.None? ==> target.renderQueue == old(target.renderQueue) && target.tags == old(target.tags) &&
                             target.floats == old(target.floats)
    ensures picked.Some? ==> target.renderQueue == Unlit.QueueOf(renderMode) &&
                             target.tags == old(target.tags)[RenderTypeTag := Unlit.TagOf(renderMode)] &&
                             target.floats == WithBlend(old(target.floats), Unlit.ZWriteOf(renderMode),
                                                        Unlit.SrcBlendOf(renderMode), Unlit.DstBlendOf(renderMode))
  {
    renderMode := Unlit.GetRenderMode(target.keywords);
    if picked.Some? {
      renderMode := picked.value;
      Unlit.SetRenderMode(target, renderMode);
    }
  }

  /** The three toggles; the result is whether near fade is on afterwards. */
  method UpdateToggles(target: Material, vertexColor: Option<bool>, sheetAnimation: Option<bool>, nearFade: Option<bool>)
    returns (isNearFade: bool)
    modifies target`keywords
    ensures target.keywords == AfterToggles(old(target.keywords), vertexColor, sheetAnimation, nearFade)
    ensures isNearFade <==> ParticleNearFade in target.keywords
  {
    ToggleKeyword(target, VertexColor, vertexColor);
    ToggleKeyword(target, BlendingSheetAnimation, sheetAnimation);
    isNearFade := target.IsKeywordEnabled(ParticleNearFade);
    if nearFade.Some? {
      isNearFade := nearFade.value;
    }
    ToggleKeyword(target, ParticleNearFade, nearFade);
  }

  /** A changed toggle sets its keyword's membership to its value; no other keyword moves. */
  lemma ToggleEffect(keywords: set<Keyword>, keyword: Keyword, toggled: Option<bool>)
    ensures toggled.Some? ==> (keyword in Toggled(keywords, keyword, toggled) <==> toggled.value)
    ensures toggled.None? ==> Toggled(keywords, keyword, toggled) == keywords
    ensures forall kw | kw != keyword :: kw in Toggled(keywords, keyword, toggled) <==> kw in keywords
  {
  }

  /**
   * After the three toggles each toggled keyword matches its toggle, an
   * untouched one keeps its state, every other keyword is unchanged, and
   * so the render mode read back is unchanged too.
   */
  lemma {:induction false} TogglesIndependent(keywords: set<Keyword>, vertexColor: Option<bool>,
                                             sheetAnimation: Option<bool>, nearFade: Option<bool>)
    ensures VertexColor in AfterToggles(keywords, vertexColor, sheetAnimation, nearFade) <==>
      if vertexColor.Some? then vertexColor.value else VertexColor in keywords
    ensures BlendingSheetAnimation in AfterToggles(keywords, vertexColor, sheetAnimation, nearFade) <==>
      if sheetAnimation.Some? then sheetAnimation.value else BlendingSheetAnimation in keywords
    ensures ParticleNearFade in AfterToggles(keywords, vertexColor, sheetAnimation, nearFade) <==>
      if nearFade.Some? then nearFade.value else ParticleNearFade in keywords
    ensures forall kw | kw !in {VertexColor, BlendingSheetAnimation, ParticleNearFade} ::
      kw in AfterToggles(keywords, vertexColor, sheetAnimation, nearFade) <==> kw in keywords
    ensures Unlit.GetRenderMode(AfterToggles(keywords, vertexColor, sheetAnimation, nearFade)) ==
            Unlit.GetRenderMode(keywords)
  {
    var k1 := Toggled(keywords, VertexColor, vertexColor);
    var k2 := Toggled(k1, BlendingSheetAnimation, sheetAnimation);
    ToggleEffect(keywords, VertexColor, vertexColor);
    ToggleEffect(k1, BlendingSheetAnimation, sheetAnimation);
    ToggleEffect(k2, ParticleNearFade, nearFade);
  }

  /** A mode chosen in the popup reads back as that mode, whatever the toggles do. */
  lemma PickedModeReadsBack(keywords: set<Keyword>, mode: Unlit.RenderMode, vertexColor: Option<bool>,
                            sheetAnimation: Option<bool>, nearFade: Option<bool>)
    ensures Unlit.GetRenderMode(AfterToggles(Unlit.WithMode(keywords, mode), vertexColor, sheetAnimation, nearFade)) == mode
  {
    TogglesIndependent(Unlit.WithMode(keywords, mode), vertexColor, sheetAnimation, nearFade);
    Unlit.RoundTrip(keywords, mode);
  }
}
