/**
 * The part of an engine material that the shader editors change: its
 * enabled shader keywords, its render queue, its override tags and its
 * float properties. Values the editors write are the engine's own
 * constants, given here with their numeric values.
 */
module Materials {

  // Render queues (the engine's RenderQueue values)
  const GeometryQueue: int := 2000
  const AlphaTestQueue: int := 2450
  const TransparentQueue: int := 3000

  // Blend factors (the engine's BlendMode values, stored as floats)
  const BlendZero: real := 0.0
  const BlendOne: real := 1.0
  const BlendSrcAlpha: real := 5.0
  const BlendOneMinusSrcAlpha: real := 10.0

  /**
   * Shader keywords. The ones the editors set have their own constructors
   * (their names are given by KeywordName); any other keyword is kept by name.
   */
  datatype Keyword =
    | RenderModeCutOff | RenderModeFade | RenderModeTransparent
    | VertexColor | BlendingSheetAnimation | ParticleNearFade
    | OtherKeyword(name: string)

  function KeywordName(k: Keyword): string
  {
    match k
    case RenderModeCutOff => "RENDER_MODE_CUTOFF"
    case RenderModeFade => "RENDER_MODE_FADE"
    case RenderModeTransparent => "RENDER_MODE_TRANSPARENT"
    case VertexColor => "VERTEX_COLOR"
    case BlendingSheetAnimation => "BLENDING_SHEET_ANIMATION"
    case ParticleNearFade => "PARTICLE_NEAR_FADE"
    case OtherKeyword(name) => name
  }

  /** The names the dedicated keyword constructors stand for. */
  const ReservedKeywordNames: set<string> :=
    {"RENDER_MODE_CUTOFF", "RENDER_MODE_FADE", "RENDER_MODE_TRANSPARENT",
     "VERTEX_COLOR", "BLENDING_SHEET_ANIMATION", "PARTICLE_NEAR_FADE"}

  /** A keyword is named canonically when an `OtherKeyword` does not carry a reserved name. */
  predicate CanonicalKeyword(k: Keyword)
  {
    k.OtherKeyword? ==> k.name !in ReservedKeywordNames
  }

  /** Among canonically named keywords, the name determines the keyword. */
  lemma KeywordNamesDistinct(a: Keyword, b: Keyword)
    requires CanonicalKeyword(a) && CanonicalKeyword(b)
    ensures KeywordName(a) == KeywordName(b) <==> a == b
    ensures !a.OtherKeyword? ==> KeywordName(a) in ReservedKeywordNames
  {
  }

  /** Float properties: the three the render modes write, and any other by name. */
  datatype FloatProperty = ZWrite | SrcBlend | DstBlend | OtherFloat(name: string)

  function FloatPropertyName(p: FloatProperty): string
  {
    match p
    case ZWrite => "_ZWrite"
    case SrcBlend => "_SrcBlend"
    case DstBlend => "_DstBlend"
    case OtherFloat(name) => name
  }
  /** The names the dedicated float-property constructors stand for. */
  const ReservedFloatNames: set<string> := {"_ZWrite", "_SrcBlend", "_DstBlend"}

  /** A float property is named canonically when an `OtherFloat` does not carry a reserved name. */
  predicate CanonicalFloat(p: FloatProperty)
  {
    p.OtherFloat? ==> p.name !in ReservedFloatNames
  }

  /** Among canonically named float properties, the name determines the property. */
  lemma FloatNamesDistinct(a: FloatProperty, b: FloatProperty)
    requires CanonicalFloat(a) && CanonicalFloat(b)
    ensures FloatPropertyName(a) == FloatPropertyName(b) <==> a == b
    ensures !a.OtherFloat? ==> FloatPropertyName(a) in ReservedFloatNames
  {
  }


  const RenderTypeTag: string := "RenderType"
  const OpaqueTag: string := "Opaque"
  const TransparentTag: string := "Transparent"

  class Material {
    var keywords: set<Keyword>
    var renderQueue: int
    var tags: map<string, string>
    var floats: map<FloatProperty, real>

    constructor (keywords: set<Keyword>, renderQueue: int, tags: map<string, string>, floats: map<FloatProperty, real>)
      ensures this.keywords == keywords && this.renderQueue == renderQueue
      ensures this.tags == tags && this.floats == floats
    {
      this.keywords := keywords;
      this.renderQueue := renderQueue;
      this.tags := tags;
      this.floats := floats;
    }

    predicate IsKeywordEnabled(keyword: Keyword)
      reads this
    {
      keyword in keywords
    }

    method EnableKeyword(keyword: Keyword)
      modifies this`keywords
      ensures keywords == old(keywords) + {keyword}
    {
      keywords := keywords + {keyword};
    }

    method DisableKeyword(keyword: Keyword)
      modifies this`keywords
      ensures keywords == old(keywords) - {keyword}
    {
      keywords := keywords - {keyword};
    }

    method SetOverrideTag(tag: string, value: string)
      modifies this`tags
      ensures tags == old(tags)[tag := value]
    {
      tags := tags[tag := value];
    }

    method SetFloat(name: FloatProperty, value: real)
      modifies this`floats
      ensures floats == old(floats)[name := value]
    {
      floats := floats[name := value];
    }
  }

  /** The depth-write and blend floats a render mode writes, over the previous floats. */
  function WithBlend(floats: map<FloatProperty, real>, zWrite: real, srcBlend: real, dstBlend: real): (r: map<FloatProperty, real>)
    ensures r.Keys == floats.Keys + {ZWrite, SrcBlend, DstBlend}
    ensures r[ZWrite] == zWrite && r[SrcBlend] == srcBlend && r[DstBlend] == dstBlend
    ensures forall name | name in floats && name !in {ZWrite, SrcBlend, DstBlend} :: r[name] == floats[name]
  {
    floats[ZWrite := zWrite][SrcBlend := srcBlend][DstBlend := dstBlend]
  }

  /** Disabling two keywords one after the other disables both. */
  lemma DisableTwo<T>(keywords: set<T>, a: T, b: T)
    ensures keywords - {a} - {b} == keywords - {a, b}
  {
  }

  /** Disabling three keywords one after another disables the three of them. */
  lemma DisableThree<T>(keywords: set<T>, a: T, b: T, c: T)
    ensures keywords - {a} - {b} - {c} == keywords - {a, b, c}
  {
  }

  /** Clearing a group of keywords and enabling some of them is the same the second time. */
  lemma ReplaceIdempotent<T>(keywords: set<T>, group: set<T>, enabled: set<T>)
    requires enabled <= group
    ensures keywords - group + enabled - group + enabled == keywords - group + enabled
  {
  }

  /** Writing the same blend floats twice is writing them once. */
  lemma WithBlendIdempotent(floats: map<FloatProperty, real>, zWrite: real, srcBlend: real, dstBlend: real)
    ensures WithBlend(WithBlend(floats, zWrite, srcBlend, dstBlend), zWrite, srcBlend, dstBlend) ==
            WithBlend(floats, zWrite, srcBlend, dstBlend)
  {
  }
}
