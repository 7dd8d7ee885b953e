/**
 * The unlit material editor's render modes: opaque, cut-off and fade,
 * encoded by at most one of two keywords. The particles editor has the
 * same three modes and the same rules, and shares this module's
 * definitions.
 */
module UnlitShaderEditor {
  import opened Materials

  datatype RenderMode = Opaque | CutOff | Fade

  /** The keywords that encode the mode. */
  const ModeKeywords: set<Keyword> := {RenderModeCutOff, RenderModeFade}

  /** The mode the keywords select: cut-off first, then fade, else opaque. */
  function GetRenderMode(keywords: set<Keyword>): RenderMode
  {
    if RenderModeCutOff in keywords then CutOff
    else if RenderModeFade in keywords then Fade
    else Opaque
  }

  /** The keyword a mode enables; opaque enables none. */
  function KeywordsOf(mode: RenderMode): (r: set<Keyword>)
    ensures r <= ModeKeywords && |r| <= 1
    ensures r == {} <==> mode == Opaque
  {
    match mode
    case Opaque => {}
    case CutOff => {RenderModeCutOff}
    case Fade => {RenderModeFade}
  }

  /** The keywords after choosing `mode`: both mode keywords are cleared, then the mode's own is set. */
  function WithMode(keywords: set<Keyword>, mode: RenderMode): set<Keyword>
  {
    keywords - ModeKeywords + KeywordsOf(mode)
  }

  function QueueOf(mode: RenderMode): int
  {
    match mode
    case Opaque => GeometryQueue
    case CutOff => AlphaTestQueue
    case Fade => TransparentQueue
  }

  function TagOf(mode: RenderMode): string
  {
    if mode == Fade then TransparentTag else OpaqueTag
  }

  function ZWriteOf(mode: RenderMode): real
  {
    if mode == Fade then 0.0 else 1.0
  }

  function SrcBlendOf(mode: RenderMode): real
  {
    if mode == Fade then BlendSrcAlpha else BlendOne
  }

  function DstBlendOf(mode: RenderMode): real
  {
    if mode == Fade then BlendOneMinusSrcAlpha else BlendZero
  }

  /** The first step of SetRenderMode: both mode keywords are disabled. */
  method DisableModeKeywords(target: Material)
    modifies target`keywords
    ensures target.keywords == old(target.keywords) - ModeKeywords
  {
    target.DisableKeyword(RenderModeCutOff);
    target.DisableKeyword(RenderModeFade);
    DisableTwo(old(target.keywords), RenderModeCutOff, RenderModeFade);
  }

  /** Rewrites the material for `renderMode`; nothing but the keywords, queue, tag and three floats changes. */
  method SetRenderMode(target: Material, renderMode: RenderMode)
    modifies target
    ensures target.keywords == WithMode(old(target.keywords), renderMode)
    ensures target.renderQueue == QueueOf(renderMode)
    ensures target.tags == old(target.tags)[RenderTypeTag := TagOf(renderMode)]
    ensures target.floats == WithBlend(old(target.floats), ZWriteOf(renderMode), SrcBlendOf(renderMode), DstBlendOf(renderMode))
  {
    DisableModeKeywords(target);

    if renderMode == Fade {
      target.EnableKeyword(RenderModeFade);
      target.renderQueue := TransparentQueue;
      target.SetOverrideTag(RenderTypeTag, TransparentTag);
    } else if renderMode == CutOff {
      target.EnableKeyword(RenderModeCutOff);
      target.renderQueue := AlphaTestQueue;
      target.SetOverrideTag(RenderTypeTag, OpaqueTag);
    } else {
      target.renderQueue := GeometryQueue;
      target.SetOverrideTag(RenderTypeTag, OpaqueTag);
    }

    if renderMode == Fade {
      target.SetFloat(ZWrite, 0.0);
      target.SetFloat(SrcBlend, BlendSrcAlpha);
      target.SetFloat(DstBlend, BlendOneMinusSrcAlpha);
    } else {
      target.SetFloat(ZWrite, 1.0);
      target.SetFloat(SrcBlend, BlendOne);
      target.SetFloat(DstBlend, BlendZero);
    }
  }

  /** Reading the mode back after setting it gives the mode that was set. */
  lemma RoundTrip(keywords: set<Keyword>, mode: RenderMode)
    ensures GetRenderMode(WithMode(keywords, mode)) == mode
  {
  }

  /** After setting a mode, cut-off and fade are never both enabled, and the enabled one is the mode's. */
  lemma OneModeKeyword(keywords: set<Keyword>, mode: RenderMode)
    ensures WithMode(keywords, mode) * ModeKeywords == KeywordsOf(mode)
    ensures !(RenderModeCutOff in WithMode(keywords, mode) && RenderModeFade in WithMode(keywords, mode))
  {
  }

  /**
   * Keywords other than cut-off and fade are left as they were; in
   * particular a transparent keyword left by the lit editor stays.
   */
  lemma OtherKeywordsUnchanged(keywords: set<Keyword>, mode: RenderMode)
    ensures WithMode(keywords, mode) - ModeKeywords == keywords - ModeKeywords
    ensures forall kw | kw !in ModeKeywords :: kw in WithMode(keywords, mode) <==> kw in keywords
    ensures RenderModeTransparent in WithMode(keywords, mode) <==> RenderModeTransparent in keywords
  {
  }

  /** Geometry, alpha test and transparent queues; the Transparent tag only for fade. */
  lemma QueueAndTag(mode: RenderMode)
    ensures QueueOf(mode) == GeometryQueue <==> mode == Opaque
    ensures QueueOf(mode) == AlphaTestQueue <==> mode == CutOff
    ensures QueueOf(mode) == TransparentQueue <==> mode == Fade
    ensures TagOf(mode) == TransparentTag <==> mode == Fade
    ensures TagOf(mode) == OpaqueTag <==> mode != Fade
  {
  }

  /** Fade does not write depth and blends by source alpha; the other modes write depth and replace. */
  lemma DepthAndBlend(mode: RenderMode)
    ensures mode == Fade ==> ZWriteOf(mode) == 0.0 && SrcBlendOf(mode) == BlendSrcAlpha && DstBlendOf(mode) == BlendOneMinusSrcAlpha
    ensures mode != Fade ==> ZWriteOf(mode) == 1.0 && SrcBlendOf(mode) == BlendOne && DstBlendOf(mode) == BlendZero
  {
  }

  /** Cut-off wins over fade; neither reads as opaque. */
  lemma ModePriority(keywords: set<Keyword>)
    ensures GetRenderMode(keywords) == CutOff <==> RenderModeCutOff in keywords
    ensures GetRenderMode(keywords) == Fade <==> RenderModeCutOff !in keywords && RenderModeFade in keywords
    ensures GetRenderMode(keywords) == Opaque <==> keywords * ModeKeywords == {}
  {
    if GetRenderMode(keywords) != Opaque {
      assert RenderModeCutOff in keywords * ModeKeywords || RenderModeFade in keywords * ModeKeywords;
    }
  }

  /** Setting the same mode a second time changes nothing more. */
  lemma SetRenderModeIdempotent(keywords: set<Keyword>, tags: map<string, string>, floats: map<FloatProperty, real>, mode: RenderMode)
    ensures WithMode(WithMode(keywords, mode), mode) == WithMode(keywords, mode)
    ensures tags[RenderTypeTag := TagOf(mode)][RenderTypeTag := TagOf(mode)] == tags[RenderTypeTag := TagOf(mode)]
    ensures WithBlend(WithBlend(floats, ZWriteOf(mode), SrcBlendOf(mode), DstBlendOf(mode)),
                      ZWriteOf(mode), SrcBlendOf(mode), DstBlendOf(mode)) ==
            WithBlend(floats, ZWriteOf(mode), SrcBlendOf(mode), DstBlendOf(mode))
  {
    ReplaceIdempotent(keywords, ModeKeywords, KeywordsOf(mode));
    WithBlendIdempotent(floats, ZWriteOf(mode), SrcBlendOf(mode), DstBlendOf(mode));
  }
}
