/**
 * ShadowMatrixToAtlasTileMatrix (ShadowManager.cs): turns a light's
 * world-to-clip matrix into one that samples its tile of the shadow atlas.
 * Matrices are over `real`; float rounding is not modelled.
 */
module ShadowTransform {
  import opened Rendering

  const Identity := Mat4(1.0, 0.0, 0.0, 0.0,
                         0.0, 1.0, 0.0, 0.0,
                         0.0, 0.0, 1.0, 0.0,
                         0.0, 0.0, 0.0, 1.0)

  /** The default Matrix4x4 value, which fills a fresh matrix array. */
  const ZeroMatrix := Mat4(0.0, 0.0, 0.0, 0.0,
                           0.0, 0.0, 0.0, 0.0,
                           0.0, 0.0, 0.0, 0.0,
                           0.0, 0.0, 0.0, 0.0)

  /** The matrix product `a * b`. */
  function Mul(a: Mat4, b: Mat4): Mat4
  {
    Mat4(
      a.m00 * b.m00 + a.m01 * b.m10 + a.m02 * b.m20 + a.m03 * b.m30,
      a.m00 * b.m01 + a.m01 * b.m11 + a.m02 * b.m21 + a.m03 * b.m31,
      a.m00 * b.m02 + a.m01 * b.m12 + a.m02 * b.m22 + a.m03 * b.m32,
      a.m00 * b.m03 + a.m01 * b.m13 + a.m02 * b.m23 + a.m03 * b.m33,
      a.m10 * b.m00 + a.m11 * b.m10 + a.m12 * b.m20 + a.m13 * b.m30,
      a.m10 * b.m01 + a.m11 * b.m11 + a.m12 * b.m21 + a.m13 * b.m31,
      a.m10 * b.m02 + a.m11 * b.m12 + a.m12 * b.m22 + a.m13 * b.m32,
      a.m10 * b.m03 + a.m11 * b.m13 + a.m12 * b.m23 + a.m13 * b.m33,
      a.m20 * b.m00 + a.m21 * b.m10 + a.m22 * b.m20 + a.m23 * b.m30,
      a.m20 * b.m01 + a.m21 * b.m11 + a.m22 * b.m21 + a.m23 * b.m31,
      a.m20 * b.m02 + a.m21 * b.m12 + a.m22 * b.m22 + a.m23 * b.m32,
      a.m20 * b.m03 + a.m21 * b.m13 + a.m22 * b.m23 + a.m23 * b.m33,
      a.m30 * b.m00 + a.m31 * b.m10 + a.m32 * b.m20 + a.m33 * b.m30,
      a.m30 * b.m01 + a.m31 * b.m11 + a.m32 * b.m21 + a.m33 * b.m31,
      a.m30 * b.m02 + a.m31 * b.m12 + a.m32 * b.m22 + a.m33 * b.m32,
      a.m30 * b.m03 + a.m31 * b.m13 + a.m32 * b.m23 + a.m33 * b.m33)
  }

  /** Matrix4x4.TRS(t, Quaternion.identity, s): scale each axis by `s`, then translate by `t`. */
  function TranslateScale(t: Vec3, s: Vec3): Mat4
  {
    Mat4(s.x, 0.0, 0.0, t.x,
         0.0, s.y, 0.0, t.y,
         0.0, 0.0, s.z, t.z,
         0.0, 0.0, 0.0, 1.0)
  }

  /**
   * The depth-convention step: on a platform with a reversed Z buffer the
   * row that produces clip-space depth (row 2) is negated, and nothing else.
   */
  function ReverseDepth(m: Mat4, reversedZ: bool): (r: Mat4)
    ensures !reversedZ ==> r == m
    ensures reversedZ ==> r.m20 == -m.m20 && r.m21 == -m.m21 && r.m22 == -m.m22 && r.m23 == -m.m23
    ensures r.(m20 := m.m20, m21 := m.m21, m22 := m.m22, m23 := m.m23) == m
  {
    if reversedZ then m.(m20 := -m.m20, m21 := -m.m21, m22 := -m.m22, m23 := -m.m23) else m
  }

  /** Remaps clip space [-1, 1] to texture space [0, 1] on every axis. */
  const NdcToTexture := TranslateScale(Vec3(0.5, 0.5, 0.5), Vec3(0.5, 0.5, 0.5))

  /** Remaps [0, 1] onto the viewport's fraction of the atlas. */
  function TileTransform(viewport: Rect, atlasSize: int): Mat4
    requires atlasSize > 0
  {
    var a := atlasSize as real;
    TranslateScale(Vec3(viewport.x as real / a, viewport.y as real / a, 0.0),
                   Vec3(viewport.width as real / a, viewport.height as real / a, 1.0))
  }

  function ShadowMatrixToAtlasTileMatrix(shadowMatrix: Mat4, viewport: Rect, atlasSize: int, reversedZ: bool): Mat4
    requires atlasSize > 0
  {
    Mul(Mul(TileTransform(viewport, atlasSize), NdcToTexture), ReverseDepth(shadowMatrix, reversedZ))
  }

  /** Applying the depth convention twice gives back the original matrix. */
  lemma ReverseDepthInvolution(m: Mat4, reversedZ: bool)
    ensures ReverseDepth(ReverseDepth(m, reversedZ), reversedZ) == m
  {
  }

  lemma MulIdentityLeft(m: Mat4)
    ensures Mul(Identity, m) == m
  {
  }

  /**
   * A viewport covering the whole atlas adds nothing to the plain
   * clip-to-texture remap: the tile matrix is NdcToTexture times the
   * (possibly depth-reversed) shadow matrix.
   */
  lemma {:induction false} FullAtlasTileIsTextureRemap(shadowMatrix: Mat4, atlasSize: int, reversedZ: bool)
    requires atlasSize > 0
    ensures ShadowMatrixToAtlasTileMatrix(shadowMatrix, Rect(0, 0, atlasSize, atlasSize), atlasSize, reversedZ)
         == Mul(NdcToTexture, ReverseDepth(shadowMatrix, reversedZ))
  {
    var a := atlasSize as real;
    assert a / a == 1.0;
    assert TileTransform(Rect(0, 0, atlasSize, atlasSize), atlasSize) == Identity;
    MulIdentityLeft(NdcToTexture);
  }
}
