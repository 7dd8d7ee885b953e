/**
 * The lit material editor's render modes. The mode lives in the
 * material's keywords (at most one of three); choosing a mode rewrites
 * those keywords and the queue, the RenderType tag, depth writing and the
 * blend factors that go with it.
 */
module LitShaderEditor {
  import opened Materials

  datatype RenderMode = Opaque | CutOff | Fade | Transparent

  /** The keywords that encode the mode. */
  const ModeKeywords: set<Keyword> := {RenderModeCutOff, RenderModeFade, RenderModeTransparent}

  predicate IsBlended(mode: RenderMode)
  {
    mode == Fade || mode == Transparent
  }

  /** The mode the keywords select: cut-off first, then fade, then transparent, else opaque. */
  function GetRenderMode(keywords: set<Keyword>): RenderMode
  {
    if RenderModeCutOff in keywords then CutOff
    else if RenderModeFade in keywords then Fade
    else if RenderModeTransparent in keywords then Transparent
    else Opaque
  }

  /** The keyword a mode enables; opaque enables none. */
  function KeywordsOf(mode: RenderMode): (r: set<Keyword>)
    ensures r <= ModeKeywords && |r| <= 1
    ensures r == {} <==> mode == Opaque
  {
    match mode
    case Opaque => {}
    case CutOff => {RenderModeCutOff}
    case Fade => {RenderModeFade}
    case Transparent => {RenderModeTransparent}
  }

  /** The keywords after choosing `mode`: the mode keywords are cleared, then the mode's own is set. */
  function WithMode(keywords: set<Keyword>, mode: RenderMode): set<Keyword>
  {
    keywords - ModeKeywords + KeywordsOf(mode)
  }

  function QueueOf(mode: RenderMode): int
  {
    match mode
    case Opaque => GeometryQueue
    case CutOff => AlphaTestQueue
    case _ => TransparentQueue
  }

  function TagOf(mode: RenderMode): string
  {
    if IsBlended(mode) then TransparentTag else OpaqueTag
  }

  function ZWriteOf(mode: RenderMode): real
  {
    if IsBlended(mode) then 0.0 else 1.0
  }

  function SrcBlendOf(mode: RenderMode): real
  {
    if mode == Fade then BlendSrcAlpha else BlendOne
  }

  function DstBlendOf(mode: RenderMode): real
  {
    if IsBlended(mode) then BlendOneMinusSrcAlpha else BlendZero
  }

  /** Rewrites the material for `renderMode`; nothing but the keywords, queue, tag and three floats changes. */
  method SetRenderMode(target: Material, renderMode: RenderMode)
    modifies target
    ensures target.keywords == WithMode(old(target.keywords), renderMode)
    ensures target.renderQueue == QueueOf(renderMode)
    ensures target.tags == old(target.tags)[RenderTypeTag := TagOf(renderMode)]
    ensures target.floats == WithBlend(old(target.floats), ZWriteOf(renderMode), SrcBlendOf(renderMode), DstBlendOf(renderMode))
  {
    DisableModeKeywords(target);

    if renderMode == Fade || renderMode == Transparent {
      target.EnableKeyword(if renderMode == Fade then RenderModeFade else RenderModeTransparent);
      target.renderQueue := TransparentQueue;
      target.SetOverrideTag(RenderTypeTag, TransparentTag);
    } else if renderMode == CutOff {
      target.EnableKeyword(RenderModeCutOff);
      target.renderQueue := AlphaTestQueue;
      target.SetOverrideTag(RenderTypeTag, OpaqueTag);
    } else {
      target.renderQueue := GeometryQueue;
      target.SetOverrideTag(RenderTypeTag, OpaqueTag);
    }

    if renderMode == Fade || renderMode == Transparent {
      target.SetFloat(ZWrite, 0.0);
      target.SetFloat(SrcBlend, if renderMode == Fade then BlendSrcAlpha else BlendOne);
      target.SetFloat(DstBlend, BlendOneMinusSrcAlpha);
    } else {
      target.SetFloat(ZWrite, 1.0);
      target.SetFloat(SrcBlend, BlendOne);
      target.SetFloat(DstBlend, BlendZero);
    }
  }

  /** The first step of SetRenderMode: all three mode keywords are disabled. */
  method DisableModeKeywords(target: Material)
    modifies target`keywords
    ensures target.keywords == old(target.keywords) - ModeKeywords
  {
    target.DisableKeyword(RenderModeCutOff);
    target.DisableKeyword(RenderModeFade);
    target.DisableKeyword(RenderModeTransparent);
    DisableThree(old(target.keywords), RenderModeCutOff, RenderModeFade, RenderModeTransparent);
  }

  /** Reading the mode back after setting it gives the mode that was set. */
  lemma RoundTrip(keywords: set<Keyword>, mode: RenderMode)
    ensures GetRenderMode(WithMode(keywords, mode)) == mode
  {
  }

  /** After setting a mode, its keyword is the only mode keyword enabled (none for opaque). */
  lemma OneModeKeyword(keywords: set<Keyword>, mode: RenderMode)
    ensures WithMode(keywords, mode) * ModeKeywords == KeywordsOf(mode)
    ensures forall kw | kw in ModeKeywords :: kw in WithMode(keywords, mode) <==> kw in KeywordsOf(mode)
  {
  }

  /** Keywords other than the three mode keywords are left as they were. */
  lemma OtherKeywordsUnchanged(keywords: set<Keyword>, mode: RenderMode)
    ensures WithMode(keywords, mode) - ModeKeywords == keywords - ModeKeywords
    ensures forall kw | kw !in ModeKeywords :: kw in WithMode(keywords, mode) <==> kw in keywords
  {
  }

  /** Geometry for opaque, alpha test for cut-off, transparent for fade and transparent; the tag follows. */
  lemma QueueAndTag(mode: RenderMode)
    ensures QueueOf(mode) == GeometryQueue <==> mode == Opaque
    ensures QueueOf(mode) == AlphaTestQueue <==> mode == CutOff
    ensures QueueOf(mode) == TransparentQueue <==> IsBlended(mode)
    ensures TagOf(mode) == TransparentTag <==> IsBlended(mode)
    ensures TagOf(mode) == OpaqueTag <==> !IsBlended(mode)
  {
  }

  /**
   * Blended modes do not write depth and blend over the destination;
   * only fade scales the source by its alpha (transparent is premultiplied).
   */
  lemma DepthAndBlend(mode: RenderMode)
    ensures ZWriteOf(mode) == 0.0 <==> IsBlended(mode)
    ensures ZWriteOf(mode) == 1.0 <==> !IsBlended(mode)
    ensures SrcBlendOf(mode) == BlendSrcAlpha <==> mode == Fade
    ensures SrcBlendOf(mode) == BlendOne <==> mode != Fade
    ensures DstBlendOf(mode) == BlendOneMinusSrcAlpha <==> IsBlended(mode)
    ensures DstBlendOf(mode) == BlendZero <==> !IsBlended(mode)
  {
  }

  /** Cut-off wins over fade, fade over transparent; no mode keyword reads as opaque. */
  lemma ModePriority(keywords: set<Keyword>)
    ensures GetRenderMode(keywords) == CutOff <==> RenderModeCutOff in keywords
    ensures GetRenderMode(keywords) == Fade <==> RenderModeCutOff !in keywords && RenderModeFade in keywords
    ensures GetRenderMode(keywords) == Transparent <==>
      RenderModeCutOff !in keywords && RenderModeFade !in keywords && RenderModeTransparent in keywords
    ensures GetRenderMode(keywords) == Opaque <==> keywords * ModeKeywords == {}
  {
    if GetRenderMode(keywords) != Opaque {
      assert RenderModeCutOff in keywords * ModeKeywords || RenderModeFade in keywords * ModeKeywords ||
             RenderModeTransparent in keywords * ModeKeywords;
    }
  }

  /** Setting the same mode a second time changes nothing more. */
  lemma SetRenderModeIdempotent(keywords: set<Keyword>, tags: map<string, string>, floats: map<FloatProperty, real>, mode: RenderMode)
    ensures WithMode(WithMode(keywords, mode), mode) == WithMode(keywords, mode)
    ensures tags[RenderTypeTag := TagOf(mode)][RenderTypeTag := TagOf(mode)] == tags[RenderTypeTag := TagOf(mode)]
    ensures WithBlend(WithBlend(floats, ZWriteOf(mode), SrcBlendOf(mode), DstBlendOf(mode)),
                      ZWriteOf(mode), SrcBlendOf(mode), DstBlendOf(mode)) ==
            WithBlend(floats, ZWriteOf(mode), SrcBlendOf(mode), DstBlendOf(mode))
  {
    ReplaceIdempotent(keywords, ModeKeywords, KeywordsOf(mode));
    WithBlendIdempotent(floats, ZWriteOf(mode), SrcBlendOf(mode), DstBlendOf(mode));
  }
}
