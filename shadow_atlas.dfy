/**
 * The integer layout of the directional shadow atlas (ShadowManager.cs):
 * up to four lights, each owning a tile of a 2x2 grid (or the whole atlas
 * when only one light casts), each tile cut 2x2 again into cascades.
 */
module ShadowAtlas {
  import opened Rendering

  const MaxDirectionalShadows := 4
  const MaxDirectionalCascades := 4

  /** Tiles per atlas side for `count` shadowed lights: `count > 1 ? 2 : 1`. */
  function TileSplitFactor(count: int): (f: int)
    ensures f == 1 || f == 2
    // the factor is the least power of two whose square holds every light
    ensures 1 <= count <= MaxDirectionalShadows ==> count <= f * f
    ensures f == 2 ==> 1 < count
  {
    if count > 1 then 2 else 1
  }

  /** Cascades per tile side: `cascadeCount > 1 ? 2 : 1`. */
  function CascadeSplitFactor(cascadeCount: int): (f: int)
    ensures f == 1 || f == 2
    ensures 1 <= cascadeCount <= MaxDirectionalCascades ==> cascadeCount <= f * f
    ensures f == 2 ==> 1 < cascadeCount
  {
    if cascadeCount > 1 then 2 else 1
  }

  /** Side of one light's tile, in pixels. */
  function TileSize(atlasSize: int, tileSplit: int): int
    requires tileSplit > 0
  {
    atlasSize / tileSplit
  }

  /** Side of one cascade's square, in pixels. */
  function CascadeSize(atlasSize: int, tileSplit: int, cascadeSplit: int): int
    requires tileSplit > 0 && cascadeSplit > 0
  {
    atlasSize / (tileSplit * cascadeSplit)
  }

  /** The viewport of cascade `cascadeIdx` of light `lightIdx`. */
  function Viewport(lightIdx: int, cascadeIdx: int, atlasSize: int, tileSplit: int, cascadeSplit: int): Rect
    requires lightIdx >= 0 && cascadeIdx >= 0 && tileSplit > 0 && cascadeSplit > 0
  {
    var tileSize := TileSize(atlasSize, tileSplit);
    var cascadeSize := CascadeSize(atlasSize, tileSplit, cascadeSplit);
    Rect((lightIdx % 2) * tileSize + (cascadeIdx % 2) * cascadeSize,
         (lightIdx / 2) * tileSize + (cascadeIdx / 2) * cascadeSize,
         cascadeSize, cascadeSize)
  }

  /** The viewport the shadow pass uses for (light, cascade), with the split factors of the frame. */
  function AtlasViewport(count: int, cascadeCount: int, lightIdx: int, cascadeIdx: int, atlasSize: int): Rect
    requires lightIdx >= 0 && cascadeIdx >= 0
  {
    Viewport(lightIdx, cascadeIdx, atlasSize, TileSplitFactor(count), CascadeSplitFactor(cascadeCount))
  }

  /** (lightIdx, cascadeIdx) is a tile the shadow pass renders when `count` lights cast with `cascadeCount` cascades. */
  predicate RenderedTile(count: int, cascadeCount: int, lightIdx: int, cascadeIdx: int)
  {
    1 <= count <= MaxDirectionalShadows && 1 <= cascadeCount <= MaxDirectionalCascades &&
    0 <= lightIdx < count && 0 <= cascadeIdx < cascadeCount
  }

  predicate Inside(r: Rect, atlasSize: int)
  {
    0 <= r.width && 0 <= r.height &&
    0 <= r.x && r.x + r.width <= atlasSize && 0 <= r.y && r.y + r.height <= atlasSize
  }

  /** The two rectangles share at least one pixel. */
  predicate Overlap(a: Rect, b: Rect)
  {
    a.x < b.x + b.width && b.x < a.x + a.width && a.y < b.y + b.height && b.y < a.y + a.height
  }

  /** Slot of the atlas matrix of (light, cascade) in the 16-entry matrix array. */
  function MatrixSlot(lightIdx: int, cascadeIdx: int): (slot: int)
    requires 0 <= lightIdx < MaxDirectionalShadows && 0 <= cascadeIdx < MaxDirectionalCascades
    ensures 0 <= slot < MaxDirectionalShadows * MaxDirectionalCascades
    // the slot determines the pair, so distinct pairs never share a slot
    ensures slot / MaxDirectionalCascades == lightIdx && slot % MaxDirectionalCascades == cascadeIdx
  {
    lightIdx * MaxDirectionalCascades + cascadeIdx
  }

  /** Integer division keeps the cascades inside their tile and the tiles inside the atlas. */
  lemma SizesFit(atlasSize: int, tileSplit: int, cascadeSplit: int)
    requires atlasSize >= 0
    requires tileSplit == 1 || tileSplit == 2
    requires cascadeSplit == 1 || cascadeSplit == 2
    ensures 0 <= CascadeSize(atlasSize, tileSplit, cascadeSplit)
    ensures CascadeSize(atlasSize, tileSplit, cascadeSplit) * cascadeSplit <= TileSize(atlasSize, tileSplit)
    ensures TileSize(atlasSize, tileSplit) * tileSplit <= atlasSize
  {
    if tileSplit == 1 && cascadeSplit == 1 {
      assert CascadeSize(atlasSize, tileSplit, cascadeSplit) == atlasSize / 1;
    } else if tileSplit == 1 {
      assert CascadeSize(atlasSize, tileSplit, cascadeSplit) == atlasSize / 2;
    } else if cascadeSplit == 1 {
      assert CascadeSize(atlasSize, tileSplit, cascadeSplit) == atlasSize / 2;
    } else {
      assert CascadeSize(atlasSize, tileSplit, cascadeSplit) == atlasSize / 4;
    }
  }

  /** Along one axis: tile offset `a` and cascade offset `b` place a cascade inside the atlas. */
  lemma AxisInside(a: int, b: int, tileSplit: int, cascadeSplit: int, tileSize: int, cascadeSize: int, atlasSize: int)
    requires 0 <= a < tileSplit <= 2 && 0 <= b < cascadeSplit <= 2
    requires 0 <= cascadeSize && cascadeSize * cascadeSplit <= tileSize && tileSize * tileSplit <= atlasSize
    ensures 0 <= a * tileSize + b * cascadeSize
    ensures a * tileSize + b * cascadeSize + cascadeSize <= atlasSize
  {
    if a == 0 && b == 0 {
    } else if a == 0 {
      assert cascadeSplit == 2;
    } else if b == 0 {
      assert tileSplit == 2;
    } else {
      assert tileSplit == 2 && cascadeSplit == 2;
    }
  }

  /**
   * Along one axis: when the cell index `a*split + b` of the first cascade is
   * below that of the second, the first ends where the second starts or before.
   */
  lemma AxisSeparated(a1: int, b1: int, a2: int, b2: int, cascadeSplit: int, tileSize: int, cascadeSize: int)
    requires 0 <= a1 < 2 && 0 <= a2 < 2 && 0 <= b1 < cascadeSplit && 0 <= b2 < cascadeSplit && cascadeSplit <= 2
    requires 0 <= cascadeSize && cascadeSize * cascadeSplit <= tileSize
    requires a1 * cascadeSplit + b1 < a2 * cascadeSplit + b2
    ensures a1 * tileSize + b1 * cascadeSize + cascadeSize <= a2 * tileSize + b2 * cascadeSize
  {
    if a1 == a2 {
      assert b1 < b2;
      assert b1 == 0 && b2 == 1;
    } else {
      assert a1 == 0 && a2 == 1;
      if b1 == 1 {
        assert cascadeSplit == 2;
      }
    }
  }

  /** Every viewport the shadow pass sets lies inside the atlas, for any atlas size. */
  lemma {:induction false} ViewportInsideAtlas(count: int, cascadeCount: int, lightIdx: int, cascadeIdx: int, atlasSize: int)
    requires RenderedTile(count, cascadeCount, lightIdx, cascadeIdx)
    requires atlasSize >= 0
    ensures Inside(AtlasViewport(count, cascadeCount, lightIdx, cascadeIdx, atlasSize), atlasSize)
  {
    var t, c := TileSplitFactor(count), CascadeSplitFactor(cascadeCount);
    var ts, cs := TileSize(atlasSize, t), CascadeSize(atlasSize, t, c);
    SizesFit(atlasSize, t, c);
    assert t == 1 ==> lightIdx == 0;
    assert c == 1 ==> cascadeIdx == 0;
    AxisInside(lightIdx % 2, cascadeIdx % 2, t, c, ts, cs, atlasSize);
    AxisInside(lightIdx / 2, cascadeIdx / 2, t, c, ts, cs, atlasSize);
  }

  /** A cell index `a*split + b` of the grid gives back both of its parts. */
  lemma CellDecodes(a: int, b: int, split: int)
    requires 0 <= a < 2 && 0 <= b < split && (split == 1 || split == 2)
    ensures (a * split + b) / split == a && (a * split + b) % split == b
  {
    if split == 2 {
      assert a * split + b == 2 * a + b;
    }
  }

  /** Different (light, cascade) pairs sit in different cells of the (t*c) x (t*c) cascade grid. */
  lemma CellsDiffer(cascadeSplit: int, l1: int, c1: int, l2: int, c2: int)
    requires cascadeSplit == 1 || cascadeSplit == 2
    requires 0 <= l1 < MaxDirectionalShadows && 0 <= l2 < MaxDirectionalShadows
    requires 0 <= c1 < cascadeSplit * cascadeSplit && 0 <= c2 < cascadeSplit * cascadeSplit
    requires l1 != l2 || c1 != c2
    ensures (l1 % 2) * cascadeSplit + c1 % 2 != (l2 % 2) * cascadeSplit + c2 % 2 ||
            (l1 / 2) * cascadeSplit + c1 / 2 != (l2 / 2) * cascadeSplit + c2 / 2
  {
    if (l1 % 2) * cascadeSplit + c1 % 2 == (l2 % 2) * cascadeSplit + c2 % 2 &&
       (l1 / 2) * cascadeSplit + c1 / 2 == (l2 / 2) * cascadeSplit + c2 / 2 {
      CellDecodes(l1 % 2, c1 % 2, cascadeSplit);
      CellDecodes(l2 % 2, c2 % 2, cascadeSplit);
      CellDecodes(l1 / 2, c1 / 2, cascadeSplit);
      CellDecodes(l2 / 2, c2 / 2, cascadeSplit);
      assert false;
    }
  }

  /** Two different (light, cascade) pairs of one frame never draw into the same pixel. */
  lemma {:induction false} ViewportsDisjoint(count: int, cascadeCount: int, l1: int, c1: int, l2: int, c2: int, atlasSize: int)
    requires RenderedTile(count, cascadeCount, l1, c1) && RenderedTile(count, cascadeCount, l2, c2)
    requires l1 != l2 || c1 != c2
    requires atlasSize >= 0
    ensures !Overlap(AtlasViewport(count, cascadeCount, l1, c1, atlasSize),
                     AtlasViewport(count, cascadeCount, l2, c2, atlasSize))
  {
    var t, c := TileSplitFactor(count), CascadeSplitFactor(cascadeCount);
    var ts, cs := TileSize(atlasSize, t), CascadeSize(atlasSize, t, c);
    SizesFit(atlasSize, t, c);
    CellsDiffer(c, l1, c1, l2, c2);
    // the cell of each cascade in the (t*c) x (t*c) grid
    var x1, y1 := (l1 % 2) * c + c1 % 2, (l1 / 2) * c + c1 / 2;
    var x2, y2 := (l2 % 2) * c + c2 % 2, (l2 / 2) * c + c2 / 2;
    if x1 < x2 {
      AxisSeparated(l1 % 2, c1 % 2, l2 % 2, c2 % 2, c, ts, cs);
    } else if x2 < x1 {
      AxisSeparated(l2 % 2, c2 % 2, l1 % 2, c1 % 2, c, ts, cs);
    } else if y1 < y2 {
      AxisSeparated(l1 / 2, c1 / 2, l2 / 2, c2 / 2, c, ts, cs);
    } else {
      AxisSeparated(l2 / 2, c2 / 2, l1 / 2, c1 / 2, c, ts, cs);
    }
  }
}
