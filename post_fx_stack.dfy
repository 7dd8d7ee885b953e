/**
 * The post-processing stack (PostFXStack.cs) and the parts of its settings
 * asset it reads (PostFXSetting.cs). An active stack copies the camera's
 * frame to the camera target; when the bloom passes exist and the strength
 * is positive it first runs a bloom: a threshold pass into a temporary
 * texture, a chain of down-sampled levels, an up-sampling chain back to the
 * first level, and an add pass that combines the bloom with the source.
 */
module PostFX {
  import opened Rendering

  const BloomSampleName := "Bloom"
  /** The temporary texture the threshold pass writes and the add pass writes again; DoBloom returns it. */
  const BloomThresholdRT := Property("BloomThreshold")
  const BloomTexProp := "_BloomTex"
  /** The depth-buffer bits every bloom texture is allocated with. */
  const BloomDepthBits := 16

  datatype BloomPass = ThresholdPass | DownSamplingPass | UpSamplingPass | AddPass

  /** The bloom block of the settings asset. */
  datatype BloomSetting = BloomSetting(iteration: int, threshold: real, strength: real)

  /**
   * The settings asset. `hasFxShader` says whether a shader is assigned,
   * which is exactly when the lazily created material exists; `findPass`
   * is the engine's Material.FindPass for each pass name of that shader.
   */
  datatype PostFXSetting = PostFXSetting(hasFxShader: bool, findPass: BloomPass -> int, bloom: BloomSetting)

  /** The inspector keeps the bloom iteration count at one or more. */
  predicate WellFormed(s: PostFXSetting)
  {
    s.bloom.iteration >= 1
  }

  /** GetPass: the index of the pass, or -1 when there is no material. */
  function GetPass(s: PostFXSetting, p: BloomPass): int
  {
    if s.hasFxShader then s.findPass(p) else -1
  }

  /** The condition under which Render runs the bloom. */
  predicate BloomEnabled(s: PostFXSetting)
  {
    GetPass(s, ThresholdPass) >= 0 && GetPass(s, DownSamplingPass) >= 0 &&
    GetPass(s, UpSamplingPass) >= 0 && GetPass(s, AddPass) >= 0 && s.bloom.strength > 0.0
  }

  function Format(useHDR: bool): TextureFormat
  {
    if useHDR then DefaultHDR else DefaultLDR
  }

  // ---------------------------------------------------------------------
  // The down-sampled levels

  /** `x` halved `n` times with integer division, as the down-sampling loop does. */
  function Halve(x: int, n: int): int
    decreases n
  {
    if n <= 0 then x else Halve(x / 2, n - 1)
  }

  function Pow2(n: nat): (p: int)
    ensures p >= 1
  {
    if n == 0 then 1 else 2 * Pow2(n - 1)
  }

  /**
   * The sizes of the levels the down-sampling loop allocates when it starts
   * at size (w, h) with `n` iterations left: one level per iteration while
   * both sides exceed 1, each half the size of the one before.
   */
  function DownLevels(w: int, h: int, n: int): seq<(int, int)>
    decreases n
  {
    if n <= 0 || w <= 1 || h <= 1 then [] else [(w, h)] + DownLevels(w / 2, h / 2, n - 1)
  }

  /** The levels of a bloom over `camera` with `iteration` iterations; the first is half the camera's size. */
  function Levels(camera: Camera, iteration: int): seq<(int, int)>
  {
    DownLevels(camera.pixelWidth / 2, camera.pixelHeight / 2, iteration)
  }

  /** The texture of a level: the id of a name formatted from its size. */
  function LevelId(l: (int, int)): TextureId
  {
    BloomLevel(l.0, l.1)
  }

  function Ids(levels: seq<(int, int)>): (ids: seq<TextureId>)
    ensures |ids| == |levels|
    ensures forall i | 0 <= i < |levels| :: ids[i] == LevelId(levels[i])
  {
    seq(|levels|, i requires 0 <= i < |levels| => LevelId(levels[i]))
  }

  /** What bloomSampleRTs[0] holds once the down-sampling loop is done. */
  function FirstLevel(ids: seq<TextureId>): TextureId
  {
    if |ids| > 0 then ids[0] else Unassigned
  }

  predicate NoDuplicates<T(==)>(s: seq<T>)
  {
    forall i, j | 0 <= i < j < |s| :: s[i] != s[j]
  }

  lemma MulBelow(b: int, k: int)
    requires b > 0 && b * k < b && b * k > -b
    ensures k == 0
  {
  }

  lemma MulSplit(b: int, c: int, q: int, r: int)
    ensures b * (c * q + r) == (b * c) * q + b * r
  {
  }

  lemma MulMono(b: int, x: int, y: int)
    requires b > 0 && x <= y
    ensures b * x <= b * y
  {
  }

  /** Euclidean division has one quotient for a remainder in [0, b). */
  lemma DivUnique(a: int, b: int, q: int, r: int)
    requires b > 0 && 0 <= r < b && a == b * q + r
    ensures a / b == q
  {
    var q0, r0 := a / b, a % b;
    assert b * (q - q0) == r0 - r;
    MulBelow(b, q - q0);
  }

  /** Dividing by b and then by c is dividing by b * c. */
  lemma DivDiv(a: int, b: int, c: int)
    requires a >= 0 && b > 0 && c > 0
    ensures (a / b) / c == a / (b * c)
  {
    var q, r := a / b, a % b;
    var q2, r2 := q / c, q % c;
    assert a == b * q + r && q == c * q2 + r2;
    MulSplit(b, c, q2, r2);
    MulMono(b, r2, c - 1);
    MulSplit(b, c, 1, -1);
    DivUnique(a, b * c, q2, b * r2 + r);
  }

  /** Halving n times is dividing by 2^n. */
  lemma {:induction false} HalveIsDivision(x: int, n: nat)
    requires x >= 0
    ensures Halve(x, n) == x / Pow2(n)
  {
    if n > 0 {
      HalveIsDivision(x / 2, n - 1);
      DivDiv(x, 2, Pow2(n - 1));
    }
  }

  /**
   * The loop allocates at most `n` levels, level i has the start size halved
   * i times and both its sides exceed 1, and when it stops before `n` it is
   * because a side of the next size is 1 or less.
   */
  lemma {:induction false} DownLevelsShape(w: int, h: int, n: int)
    ensures |DownLevels(w, h, n)| <= if n < 0 then 0 else n
    ensures forall i | 0 <= i < |DownLevels(w, h, n)| ::
      DownLevels(w, h, n)[i] == (Halve(w, i), Halve(h, i)) && Halve(w, i) > 1 && Halve(h, i) > 1
    ensures |DownLevels(w, h, n)| < n ==>
      Halve(w, |DownLevels(w, h, n)|) <= 1 || Halve(h, |DownLevels(w, h, n)|) <= 1
    decreases n
  {
    if !(n <= 0 || w <= 1 || h <= 1) {
      var rest := DownLevels(w / 2, h / 2, n - 1);
      DownLevelsShape(w / 2, h / 2, n - 1);
      assert DownLevels(w, h, n) == [(w, h)] + rest;
      forall i | 0 < i <= |rest|
        ensures Halve(w, i) == Halve(w / 2, i - 1) && Halve(h, i) == Halve(h / 2, i - 1)
      {
      }
    }
  }

  /** Each level is strictly narrower than every level before it. */
  lemma {:induction false} DownLevelsShrink(w: int, h: int, n: int)
    ensures forall i | 0 <= i < |DownLevels(w, h, n)| :: DownLevels(w, h, n)[i].0 <= w
    ensures forall i, j | 0 <= i < j < |DownLevels(w, h, n)| ::
      DownLevels(w, h, n)[j].0 < DownLevels(w, h, n)[i].0
    decreases n
  {
    if !(n <= 0 || w <= 1 || h <= 1) {
      var rest := DownLevels(w / 2, h / 2, n - 1);
      DownLevelsShrink(w / 2, h / 2, n - 1);
      assert DownLevels(w, h, n) == [(w, h)] + rest;
    }
  }

  /**
   * The level count and sizes: at most `iteration` levels, level i of size
   * (pixelWidth / 2^(i+1), pixelHeight / 2^(i+1)) with both sides above 1,
   * and fewer levels than iterations only when the next size has a side of
   * 1 or less.
   */
  lemma LevelSizes(camera: Camera, iteration: int)
    requires camera.pixelWidth >= 0 && camera.pixelHeight >= 0
    ensures |Levels(camera, iteration)| <= if iteration < 0 then 0 else iteration
    ensures forall i | 0 <= i < |Levels(camera, iteration)| ::
      Levels(camera, iteration)[i] == (camera.pixelWidth / Pow2(i + 1), camera.pixelHeight / Pow2(i + 1)) &&
      Levels(camera, iteration)[i].0 > 1 && Levels(camera, iteration)[i].1 > 1
    ensures |Levels(camera, iteration)| < iteration ==>
      var next := |Levels(camera, iteration)| + 1;
      camera.pixelWidth / Pow2(next) <= 1 || camera.pixelHeight / Pow2(next) <= 1
  {
    var pw, ph := camera.pixelWidth, camera.pixelHeight;
    var levels := Levels(camera, iteration);
    DownLevelsShape(pw / 2, ph / 2, iteration);
    forall i | 0 <= i <= |levels|
      ensures Halve(pw / 2, i) == pw / Pow2(i + 1) && Halve(ph / 2, i) == ph / Pow2(i + 1)
    {
      assert Halve(pw, i + 1) == Halve(pw / 2, i) && Halve(ph, i + 1) == Halve(ph / 2, i);
      HalveIsDivision(pw, i + 1);
      HalveIsDivision(ph, i + 1);
    }
  }

  /** No level is allocated exactly when a side of the camera is under 4 pixels. */
  lemma NoLevelsIffTinyCamera(camera: Camera, iteration: int)
    requires iteration >= 1 && camera.pixelWidth >= 0 && camera.pixelHeight >= 0
    ensures |Levels(camera, iteration)| == 0 <==> camera.pixelWidth < 4 || camera.pixelHeight < 4
  {
  }

  /** The levels are distinct textures, none of them the threshold texture. */
  lemma LevelIdsDistinct(camera: Camera, iteration: int)
    ensures NoDuplicates([BloomThresholdRT] + Ids(Levels(camera, iteration)))
  {
    var levels := Levels(camera, iteration);
    var all := [BloomThresholdRT] + Ids(levels);
    DownLevelsShrink(camera.pixelWidth / 2, camera.pixelHeight / 2, iteration);
    forall i, j | 0 <= i < j < |all|
      ensures all[i] != all[j]
    {
      assert all[j] == LevelId(levels[j - 1]);
      if i > 0 {
        assert all[i] == LevelId(levels[i - 1]);
        assert levels[j - 1].0 < levels[i - 1].0;
      }
    }
  }

  // ---------------------------------------------------------------------
  // The commands of a bloom

  function ThresholdCommands(src: TextureId, camera: Camera, format: TextureFormat, pass: int): seq<Cmd>
  {
    [BeginSample(BloomSampleName),
     GetTemporaryRT(BloomThresholdRT, camera.pixelWidth, camera.pixelHeight, BloomDepthBits, format),
     SetRenderTarget(BloomThresholdRT),
     BlitPass(src, BloomThresholdRT, pass)]
  }

  /** Allocating level `l` and down-sampling `from` into it. */
  function DownStep(from: TextureId, l: (int, int), format: TextureFormat, pass: int): seq<Cmd>
  {
    [GetTemporaryRT(LevelId(l), l.0, l.1, BloomDepthBits, format),
     SetRenderTarget(LevelId(l)),
     BlitPass(from, LevelId(l), pass)]
  }

  /** The down-sampling chain: level 0 is drawn from the threshold texture, each later level from the one before. */
  function DownCommands(levels: seq<(int, int)>, format: TextureFormat, pass: int): seq<Cmd>
    decreases |levels|
  {
    if |levels| == 0 then []
    else
      var n := |levels| - 1;
      DownCommands(levels[..n], format, pass) +
      DownStep(if n == 0 then BloomThresholdRT else LevelId(levels[n - 1]), levels[n], format, pass)
  }

  /** The up-sampling chain from level `cur` down to level 1, each level blitted into the one before it. */
  function UpCommands(ids: seq<TextureId>, cur: int, pass: int): seq<Cmd>
    requires cur < |ids|
    decreases cur
  {
    if cur <= 0 then []
    else [SetRenderTarget(ids[cur - 1]), BlitPass(ids[cur], ids[cur - 1], pass)] + UpCommands(ids, cur - 1, pass)
  }

  function AddCommands(src: TextureId, bloomTex: TextureId, pass: int): seq<Cmd>
  {
    [SetRenderTarget(BloomThresholdRT), SetGlobalTexture(BloomTexProp, bloomTex),
     BlitPass(src, BloomThresholdRT, pass), EndSample(BloomSampleName)]
  }

  /** Releasing each level once, in allocation order. */
  function ReleaseCommands(ids: seq<TextureId>): seq<Cmd>
    decreases |ids|
  {
    if |ids| == 0 then [] else ReleaseCommands(ids[..|ids| - 1]) + [ReleaseTemporaryRT(ids[|ids| - 1])]
  }

  /** Everything DoBloom sends to the engine. */
  function BloomCommands(src: TextureId, camera: Camera, s: PostFXSetting, useHDR: bool): seq<Cmd>
  {
    var levels := Levels(camera, s.bloom.iteration);
    var ids := Ids(levels);
    ThresholdCommands(src, camera, Format(useHDR), GetPass(s, ThresholdPass)) +
    DownCommands(levels, Format(useHDR), GetPass(s, DownSamplingPass)) +
    UpCommands(ids, |ids| - 1, GetPass(s, UpSamplingPass)) +
    AddCommands(src, FirstLevel(ids), GetPass(s, AddPass)) +
    ReleaseCommands(ids)
  }

  /** Everything Render sends to the engine for a stack in the given state. */
  function PostFXCommands(active: bool, setting: Option<PostFXSetting>, camera: Camera, useHDR: bool, src: TextureId): seq<Cmd>
  {
    if !active || setting.None? then []
    else if !setting.value.hasFxShader then [Blit(src, CameraTarget)]
    else if BloomEnabled(setting.value) then BloomPathCommands(src, camera, setting.value, useHDR)
    else [Blit(src, CameraTarget)]
  }

  /** Render's bloom path: the bloom, the copy of its result, and the release of that result. */
  function BloomPathCommands(src: TextureId, camera: Camera, s: PostFXSetting, useHDR: bool): seq<Cmd>
  {
    BloomCommands(src, camera, s, useHDR) + [Blit(BloomThresholdRT, CameraTarget)] +
    (if BloomThresholdRT != src then [ReleaseTemporaryRT(BloomThresholdRT)] else [])
  }

  // ---------------------------------------------------------------------
  // Properties of the command streams

  /** The up-sampling chain visits levels cur, cur-1, ..., 1, blitting level i into level i-1. */
  lemma {:induction false} UpCommandsOrder(ids: seq<TextureId>, cur: int, pass: int)
    requires cur < |ids|
    ensures |UpCommands(ids, cur, pass)| == if cur <= 0 then 0 else 2 * cur
    ensures forall k | 0 <= k < |UpCommands(ids, cur, pass)| ::
      UpCommands(ids, cur, pass)[k] ==
        if k % 2 == 0 then SetRenderTarget(ids[cur - 1 - k / 2])
        else BlitPass(ids[cur - k / 2], ids[cur - 1 - k / 2], pass)
    decreases cur
  {
    if cur > 0 {
      UpCommandsOrder(ids, cur - 1, pass);
      var rest := UpCommands(ids, cur - 1, pass);
      assert UpCommands(ids, cur, pass) == [SetRenderTarget(ids[cur - 1]), BlitPass(ids[cur], ids[cur - 1], pass)] + rest;
      forall k | 2 <= k < 2 * cur
        ensures UpCommands(ids, cur, pass)[k] == rest[k - 2]
        ensures (k - 2) / 2 == k / 2 - 1 && (k - 2) % 2 == k % 2
      {
      }
    }
  }

  /** The textures a command stream allocates, in order. */
  function Acquired(trace: seq<Cmd>): seq<TextureId>
    decreases |trace|
  {
    if |trace| == 0 then []
    else
      var c := trace[|trace| - 1];
      Acquired(trace[..|trace| - 1]) + (if c.GetTemporaryRT? then [c.texture] else [])
  }

  /** The textures a command stream releases, in order. */
  function Released(trace: seq<Cmd>): seq<TextureId>
    decreases |trace|
  {
    if |trace| == 0 then []
    else
      var c := trace[|trace| - 1];
      Released(trace[..|trace| - 1]) + (if c.ReleaseTemporaryRT? then [c.texture] else [])
  }

  lemma {:induction false} TexturesConcat(a: seq<Cmd>, b: seq<Cmd>)
    ensures Acquired(a + b) == Acquired(a) + Acquired(b)
    ensures Released(a + b) == Released(a) + Released(b)
    decreases |b|
  {
    if |b| == 0 {
      assert a + b == a;
    } else {
      var n := |b| - 1;
      assert (a + b)[..|a + b| - 1] == a + b[..n];
      TexturesConcat(a, b[..n]);
    }
  }

  /** A stream with no allocation and no release. */
  predicate NoTemporaries(trace: seq<Cmd>)
  {
    forall i | 0 <= i < |trace| :: !trace[i].GetTemporaryRT? && !trace[i].ReleaseTemporaryRT?
  }

  lemma {:induction false} NoTemporariesTextures(trace: seq<Cmd>)
    requires NoTemporaries(trace)
    ensures Acquired(trace) == [] && Released(trace) == []
    decreases |trace|
  {
    if |trace| > 0 {
      NoTemporariesTextures(trace[..|trace| - 1]);
    }
  }

  /** The textures of a single command. */
  lemma TexturesOne(c: Cmd)
    ensures Acquired([c]) == if c.GetTemporaryRT? then [c.texture] else []
    ensures Released([c]) == if c.ReleaseTemporaryRT? then [c.texture] else []
  {
    assert [c][..0] == [];
  }

  /** The textures of a command followed by more. */
  lemma TexturesCons(c: Cmd, rest: seq<Cmd>)
    ensures Acquired([c] + rest) == (if c.GetTemporaryRT? then [c.texture] else []) + Acquired(rest)
    ensures Released([c] + rest) == (if c.ReleaseTemporaryRT? then [c.texture] else []) + Released(rest)
  {
    TexturesOne(c);
    TexturesConcat([c], rest);
  }

  lemma DownStepTextures(from: TextureId, l: (int, int), format: TextureFormat, pass: int)
    ensures Acquired(DownStep(from, l, format, pass)) == [LevelId(l)]
    ensures Released(DownStep(from, l, format, pass)) == []
  {
    var step := DownStep(from, l, format, pass);
    var tail := [step[1], step[2]];
    assert step == [step[0]] + tail;
    assert NoTemporaries(tail);
    NoTemporariesTextures(tail);
    TexturesCons(step[0], tail);
  }

  lemma IdsSnoc(levels: seq<(int, int)>)
    requires |levels| > 0
    ensures Ids(levels) == Ids(levels[..|levels| - 1]) + [LevelId(levels[|levels| - 1])]
  {
  }

  lemma {:induction false} DownTextures(levels: seq<(int, int)>, format: TextureFormat, pass: int)
    ensures Acquired(DownCommands(levels, format, pass)) == Ids(levels)
    ensures Released(DownCommands(levels, format, pass)) == []
    decreases |levels|
  {
    if |levels| > 0 {
      var n := |levels| - 1;
      var from := if n == 0 then BloomThresholdRT else LevelId(levels[n - 1]);
      var prefix := DownCommands(levels[..n], format, pass);
      var step := DownStep(from, levels[n], format, pass);
      assert DownCommands(levels, format, pass) == prefix + step;
      DownTextures(levels[..n], format, pass);
      DownStepTextures(from, levels[n], format, pass);
      TexturesConcat(prefix, step);
      IdsSnoc(levels);
      AppendEmpty(Released(prefix));
    }
  }

  lemma {:induction false} UpTextures(ids: seq<TextureId>, cur: int, pass: int)
    requires cur < |ids|
    ensures Acquired(UpCommands(ids, cur, pass)) == [] && Released(UpCommands(ids, cur, pass)) == []
  {
    UpCommandsOrder(ids, cur, pass);
    NoTemporariesTextures(UpCommands(ids, cur, pass));
  }

  lemma {:induction false} ReleaseTextures(ids: seq<TextureId>)
    ensures Acquired(ReleaseCommands(ids)) == [] && Released(ReleaseCommands(ids)) == ids
    decreases |ids|
  {
    if |ids| > 0 {
      var n := |ids| - 1;
      ReleaseTextures(ids[..n]);
      TexturesOne(ReleaseTemporaryRT(ids[n]));
      TexturesConcat(ReleaseCommands(ids[..n]), [ReleaseTemporaryRT(ids[n])]);
      assert ids[..n] + [ids[n]] == ids;
    }
  }

  /** The threshold pass allocates the threshold texture. */
  lemma ThresholdTextures(src: TextureId, camera: Camera, format: TextureFormat, pass: int)
    ensures Acquired(ThresholdCommands(src, camera, format, pass)) == [BloomThresholdRT]
    ensures Released(ThresholdCommands(src, camera, format, pass)) == []
  {
    var t := ThresholdCommands(src, camera, format, pass);
    var tail := [t[2], t[3]];
    assert NoTemporaries(tail);
    NoTemporariesTextures(tail);
    TexturesCons(t[1], tail);
    TexturesCons(t[0], [t[1]] + tail);
    assert t == [t[0]] + ([t[1]] + tail);
  }

  lemma AddTextures(src: TextureId, bloomTex: TextureId, pass: int)
    ensures Acquired(AddCommands(src, bloomTex, pass)) == [] && Released(AddCommands(src, bloomTex, pass)) == []
  {
    assert NoTemporaries(AddCommands(src, bloomTex, pass));
    NoTemporariesTextures(AddCommands(src, bloomTex, pass));
  }

  /**
   * A bloom allocates the threshold texture and then each level, and
   * releases every level in allocation order; the threshold texture is
   * left for Render to release.
   */
  lemma {:induction false} BloomTextures(src: TextureId, camera: Camera, s: PostFXSetting, useHDR: bool)
    ensures Acquired(BloomCommands(src, camera, s, useHDR)) == [BloomThresholdRT] + Ids(Levels(camera, s.bloom.iteration))
    ensures Released(BloomCommands(src, camera, s, useHDR)) == Ids(Levels(camera, s.bloom.iteration))
  {
    var levels := Levels(camera, s.bloom.iteration);
    var ids := Ids(levels);
    var t := ThresholdCommands(src, camera, Format(useHDR), GetPass(s, ThresholdPass));
    var d := DownCommands(levels, Format(useHDR), GetPass(s, DownSamplingPass));
    var u := UpCommands(ids, |ids| - 1, GetPass(s, UpSamplingPass));
    var a := AddCommands(src, FirstLevel(ids), GetPass(s, AddPass));
    var r := ReleaseCommands(ids);
    ThresholdTextures(src, camera, Format(useHDR), GetPass(s, ThresholdPass));
    DownTextures(levels, Format(useHDR), GetPass(s, DownSamplingPass));
    UpTextures(ids, |ids| - 1, GetPass(s, UpSamplingPass));
    AddTextures(src, FirstLevel(ids), GetPass(s, AddPass));
    ReleaseTextures(ids);
    FivePartsTextures(t, d, u, a, r);
  }

  /** The textures of the five parts of a bloom, when only the first two allocate and only the last releases. */
  lemma FivePartsTextures(t: seq<Cmd>, d: seq<Cmd>, u: seq<Cmd>, a: seq<Cmd>, r: seq<Cmd>)
    requires Released(t) == [] && Released(d) == [] && Acquired(u) == [] && Released(u) == []
    requires Acquired(a) == [] && Released(a) == [] && Acquired(r) == []
    ensures Acquired(t + d + u + a + r) == Acquired(t) + Acquired(d)
    ensures Released(t + d + u + a + r) == Released(r)
  {
    TexturesConcat(t, d);
    TexturesConcat(t + d, u);
    TexturesConcat(t + d + u, a);
    TexturesConcat(t + d + u + a, r);
    AppendEmpty(Acquired(t) + Acquired(d));
    AppendEmpty(Released(r));
  }

  /**
   * The bloom path of Render: the threshold texture and the levels are
   * allocated in that order, and released levels first, threshold last.
   */
  lemma {:induction false} BloomPathTextures(setting: PostFXSetting, camera: Camera, useHDR: bool, src: TextureId)
    requires setting.hasFxShader && BloomEnabled(setting) && src != BloomThresholdRT
    ensures Acquired(PostFXCommands(true, Some(setting), camera, useHDR, src)) ==
            [BloomThresholdRT] + Ids(Levels(camera, setting.bloom.iteration))
    ensures Released(PostFXCommands(true, Some(setting), camera, useHDR, src)) ==
            Ids(Levels(camera, setting.bloom.iteration)) + [BloomThresholdRT]
  {
    var b := BloomCommands(src, camera, setting, useHDR);
    var c1, c2 := Blit(BloomThresholdRT, CameraTarget), ReleaseTemporaryRT(BloomThresholdRT);
    assert PostFXCommands(true, Some(setting), camera, useHDR, src) == BloomPathCommands(src, camera, setting, useHDR);
    assert BloomPathCommands(src, camera, setting, useHDR) == b + [c1] + [c2];
    BloomTextures(src, camera, setting, useHDR);
    TexturesOne(c1);
    TexturesOne(c2);
    TexturesConcat(b, [c1]);
    TexturesConcat(b + [c1], [c2]);
    AppendEmpty(Acquired(b));
    AppendEmpty(Released(b));
  }

  /**
   * Whatever path Render takes, it releases exactly the textures it
   * allocates, each allocated once, provided the source is not the
   * threshold texture itself.
   */
  lemma RenderReleasesWhatItAcquires(active: bool, setting: Option<PostFXSetting>, camera: Camera, useHDR: bool, src: TextureId)
    requires src != BloomThresholdRT
    ensures multiset(Acquired(PostFXCommands(active, setting, camera, useHDR, src))) ==
            multiset(Released(PostFXCommands(active, setting, camera, useHDR, src)))
    ensures NoDuplicates(Acquired(PostFXCommands(active, setting, camera, useHDR, src)))
  {
    var t := PostFXCommands(active, setting, camera, useHDR, src);
    if active && setting.Some? && setting.value.hasFxShader && BloomEnabled(setting.value) {
      var ids := Ids(Levels(camera, setting.value.bloom.iteration));
      BloomPathTextures(setting.value, camera, useHDR, src);
      LevelIdsDistinct(camera, setting.value.bloom.iteration);
      assert multiset([BloomThresholdRT] + ids) == multiset(ids + [BloomThresholdRT]);
    } else if !active || setting.None? {
      assert t == [];
      NoTemporariesTextures(t);
    } else {
      assert t == [Blit(src, CameraTarget)];
      TexturesOne(Blit(src, CameraTarget));
    }
  }

  // ---------------------------------------------------------------------
  // The release loop as written

  /** The counter after `while (--cur > 0)` starting from `cur` (the body leaves the counter alone). */
  function UpSampleCounterAfter(cur: int): int
    decreases cur
  {
    if cur - 1 > 0 then UpSampleCounterAfter(cur - 1) else cur - 1
  }

  /** The indices of bloomSampleRTs the release loop as written reads: from where the up-sampling counter stops, up to the level count. */
  function AsWrittenReleaseIndices(actual: int): seq<int>
  {
    Range(UpSampleCounterAfter(actual), actual)
  }

  /** The up-sampling counter stops at 0, or at -1 when there are no levels. */
  lemma {:induction false} UpSampleCounterEnd(cur: int)
    ensures UpSampleCounterAfter(cur) == if cur >= 1 then 0 else cur - 1
    decreases cur
  {
    if cur - 1 > 0 {
      UpSampleCounterEnd(cur - 1);
    }
  }

  /** With at least one level, the loop as written releases levels 0 .. actual-1, as the corrected loop does. */
  lemma AsWrittenReleaseAgrees(actual: int)
    requires actual >= 1
    ensures AsWrittenReleaseIndices(actual) == Range(0, actual)
  {
    UpSampleCounterEnd(actual);
  }

  /**
   * A camera narrower or shorter than 4 pixels allocates no level, the
   * up-sampling counter stops at -1, and the release loop as written reads
   * bloomSampleRTs[-1].
   */
  lemma AsWrittenReleaseOnTinyCamera(camera: Camera, iteration: int)
    requires iteration >= 1 && camera.pixelWidth >= 0 && camera.pixelHeight >= 0
    requires camera.pixelWidth < 4 || camera.pixelHeight < 4
    ensures |Levels(camera, iteration)| == 0
    ensures AsWrittenReleaseIndices(|Levels(camera, iteration)|) == [-1]
  {
    NoLevelsIffTinyCamera(camera, iteration);
    UpSampleCounterEnd(0);
    assert Range(-1, 0) == [-1] + Range(0, 0);
  }

  /** Appending a level to the chain appends its step, drawn from the level before it. */
  lemma DownCommandsSnoc(done: seq<(int, int)>, l: (int, int), format: TextureFormat, pass: int)
    ensures DownCommands(done + [l], format, pass) ==
      DownCommands(done, format, pass) +
      DownStep(if |done| == 0 then BloomThresholdRT else LevelId(done[|done| - 1]), l, format, pass)
  {
    assert (done + [l])[..|done|] == done;
  }

  /** One more round of the down-sampling loop, seen on the levels still to come. */
  lemma DownLevelsStep(all: seq<(int, int)>, done: seq<(int, int)>, w: int, h: int, n: int)
    requires all == done + DownLevels(w, h, n)
    requires n > 0 && w > 1 && h > 1
    ensures all == (done + [(w, h)]) + DownLevels(w / 2, h / 2, n - 1)
  {
    AppendAssoc(done, [(w, h)], DownLevels(w / 2, h / 2, n - 1));
  }

  lemma ChainOfFive(e: seq<Cmd>, t: seq<Cmd>, d: seq<Cmd>, u: seq<Cmd>, a: seq<Cmd>, r: seq<Cmd>)
    ensures e + t + d + (u + a) + r == e + (t + d + u + a + r)
  {
  }

  /** The bloom's commands grouped the way DoBloom sends them. */
  lemma BloomCommandsGrouped(e: seq<Cmd>, src: TextureId, camera: Camera, s: PostFXSetting, useHDR: bool)
    ensures e + BloomCommands(src, camera, s, useHDR) ==
      e + ThresholdCommands(src, camera, Format(useHDR), GetPass(s, ThresholdPass)) +
      DownCommands(Levels(camera, s.bloom.iteration), Format(useHDR), GetPass(s, DownSamplingPass)) +
      (UpCommands(Ids(Levels(camera, s.bloom.iteration)), |Ids(Levels(camera, s.bloom.iteration))| - 1, GetPass(s, UpSamplingPass)) +
       AddCommands(src, FirstLevel(Ids(Levels(camera, s.bloom.iteration))), GetPass(s, AddPass))) +
      ReleaseCommands(Ids(Levels(camera, s.bloom.iteration)))
  {
    var levels := Levels(camera, s.bloom.iteration);
    var ids := Ids(levels);
    ChainOfFive(e, ThresholdCommands(src, camera, Format(useHDR), GetPass(s, ThresholdPass)),
                DownCommands(levels, Format(useHDR), GetPass(s, DownSamplingPass)),
                UpCommands(ids, |ids| - 1, GetPass(s, UpSamplingPass)),
                AddCommands(src, FirstLevel(ids), GetPass(s, AddPass)),
                ReleaseCommands(ids));
  }

  // ---------------------------------------------------------------------
  // The stack

  class PostFXStack {
    var isActive: bool
    var allowHDR: bool
    var camera: Camera
    var postFXSetting: Option<PostFXSetting>
    /** The stack's command buffer. */
    var pending: seq<Cmd>

    ghost predicate Valid()
      reads this
    {
      (isActive ==> postFXSetting.Some?) &&
      (postFXSetting.Some? ==> WellFormed(postFXSetting.value))
    }

    constructor ()
      ensures Valid() && !isActive && pending == []
    {
      isActive := false;
      allowHDR := false;
      camera := Camera("", Game, Skybox, Zero4, 0, 0, false, None);
      postFXSetting := None;
      pending := [];
    }

    /** HDR is used when both the pipeline and the camera allow it. */
    function UseHDR(): bool
      reads this
    {
      allowHDR && camera.allowHDR
    }

    /**
     * Keeps the camera, the setting and the HDR permission, and decides
     * whether the stack runs. `showImageEffects` is the scene view's
     * image-effects switch.
     */
    method SetUp(camera: Camera, setting: Option<PostFXSetting>, allowHDR: bool, showImageEffects: bool)
      requires setting.Some? ==> WellFormed(setting.value)
      modifies this`isActive, this`allowHDR, this`camera, this`postFXSetting
      ensures Valid()
      ensures this.camera == camera && postFXSetting == setting && this.allowHDR == allowHDR
      // inactive iff there is no material, or the camera is not a game or scene view,
      // or it is a scene view with image effects turned off
      ensures !isActive <==>
        (setting.None? || !setting.value.hasFxShader) ||
        (camera.cameraType != SceneView && camera.cameraType != Game) ||
        (camera.cameraType == SceneView && !showImageEffects)
    {
      this.camera := camera;
      postFXSetting := setting;
      this.allowHDR := allowHDR;
      isActive := true;
      if setting.None? || !setting.value.hasFxShader {
        isActive := false;
      }
      if camera.cameraType != SceneView && camera.cameraType != Game {
        isActive := false;
      }
      if camera.cameraType == SceneView && !showImageEffects {
        isActive := false;
      }
    }

    /**
     * Post-processes the frame in `src` onto the camera target: nothing when
     * inactive, a plain copy without a material or without bloom, otherwise
     * a bloom whose result is copied and then released.
     */
    method Render(ctx: RenderContext, src: TextureId)
      requires Valid() && pending == []
      modifies this`pending, ctx
      ensures pending == []
      ensures ctx.executed == old(ctx.executed) + PostFXCommands(isActive, postFXSetting, camera, UseHDR(), src)
    {
      if !isActive {
        AppendEmpty(ctx.executed);
        return;
      }
      var s := postFXSetting.value;
      if !s.hasFxShader {
        DoCopy(ctx, src, CameraTarget);
        return;
      }
      // all four bloom passes exist and the strength is positive
      if BloomEnabled(s) {
        RenderBloom(ctx, src);
      } else {
        DoCopy(ctx, src, CameraTarget);
      }
    }

    /** Render's bloom path: the bloom, the copy of its result, and the release of that result. */
    method RenderBloom(ctx: RenderContext, src: TextureId)
      requires Valid() && postFXSetting.Some? && pending == []
      modifies this`pending, ctx
      ensures pending == []
      ensures ctx.executed == old(ctx.executed) + BloomPathCommands(src, camera, postFXSetting.value, UseHDR())
    {
      ghost var e0 := ctx.executed;
      ghost var b := BloomCommands(src, camera, postFXSetting.value, UseHDR());
      ghost var copy := [Blit(BloomThresholdRT, CameraTarget)];
      ghost var release: seq<Cmd> := if BloomThresholdRT != src then [ReleaseTemporaryRT(BloomThresholdRT)] else [];
      var processed := src;
      processed := DoBloom(ctx, processed);
      DoCopy(ctx, processed, CameraTarget);
      AppendEmpty(e0 + b);
      if processed != src {
        pending := pending + [ReleaseTemporaryRT(processed)];
        ExecuteCommandBuffer(ctx);
      } else {
        AppendEmpty(ctx.executed);
      }
      AppendAssoc(e0, b + copy, release);
      AppendAssoc(e0, b, copy);
    }

    method ExecuteCommandBuffer(ctx: RenderContext)
      modifies this`pending, ctx
      ensures pending == []
      ensures ctx.executed == old(ctx.executed) + old(pending)
    {
      ctx.ExecuteCommandBuffer(pending);
      pending := [];
    }

    method DoCopy(ctx: RenderContext, src: TextureId, dst: TextureId)
      modifies this`pending, ctx
      ensures pending == []
      ensures ctx.executed == old(ctx.executed) + old(pending) + [Blit(src, dst)]
    {
      pending := pending + [Blit(src, dst)];
      ExecuteCommandBuffer(ctx);
    }

    /** The bloom over `src`; its result is the threshold texture. */
    method DoBloom(ctx: RenderContext, src: TextureId) returns (r: TextureId)
      requires Valid() && postFXSetting.Some? && pending == []
      modifies this`pending, ctx
      ensures pending == [] && r == BloomThresholdRT
      ensures ctx.executed == old(ctx.executed) + BloomCommands(src, camera, postFXSetting.value, UseHDR())
    {
      var s := postFXSetting.value;
      var cam := camera;
      var hdr := allowHDR && cam.allowHDR;
      var format := Format(hdr);
      ghost var e0 := ctx.executed;
      BloomCommandsGrouped(e0, src, cam, s, hdr);
      Threshold(ctx, src, format, GetPass(s, ThresholdPass));
      LevelPasses(ctx, src, s, cam.pixelWidth, cam.pixelHeight, format, Levels(cam, s.bloom.iteration));
      r := BloomThresholdRT;
    }

    /**
     * Everything of the bloom after the threshold pass: the levels array
     * with the down-sampling loop, the up-sampling loop with the add pass,
     * and the release loop.
     */
    method LevelPasses(ctx: RenderContext, src: TextureId, s: PostFXSetting, pixelWidth: int, pixelHeight: int,
                       format: TextureFormat, ghost levels: seq<(int, int)>)
      requires pending == [] && WellFormed(s)
      requires levels == DownLevels(pixelWidth / 2, pixelHeight / 2, s.bloom.iteration)
      modifies this`pending, ctx
      ensures pending == []
      ensures ctx.executed == old(ctx.executed) + DownCommands(levels, format, GetPass(s, DownSamplingPass)) +
        (UpCommands(Ids(levels), |Ids(levels)| - 1, GetPass(s, UpSamplingPass)) +
         AddCommands(src, FirstLevel(Ids(levels)), GetPass(s, AddPass))) +
        ReleaseCommands(Ids(levels))
    {
      var rts := new TextureId[s.bloom.iteration](_ => Unassigned);
      var actual := DownSample(ctx, rts, pixelWidth, pixelHeight, format, GetPass(s, DownSamplingPass));
      ghost var ids := Ids(levels);
      UpSampleAndAdd(ctx, rts, actual, ids, src, GetPass(s, UpSamplingPass), GetPass(s, AddPass));
      ReleaseLevels(ctx, rts, actual, ids);
    }

    /** The threshold pass: opens the Bloom sample and draws `src` into the threshold texture. */
    method Threshold(ctx: RenderContext, src: TextureId, format: TextureFormat, pass: int)
      requires pending == []
      modifies this`pending, ctx
      ensures pending == []
      ensures ctx.executed == old(ctx.executed) + ThresholdCommands(src, camera, format, pass)
    {
      pending := pending + [BeginSample(BloomSampleName),
                            GetTemporaryRT(BloomThresholdRT, camera.pixelWidth, camera.pixelHeight, BloomDepthBits, format),
                            SetRenderTarget(BloomThresholdRT),
                            BlitPass(src, BloomThresholdRT, pass)];
      ExecuteCommandBuffer(ctx);
    }

    /**
     * The down-sampling loop: allocates the levels into `rts` and returns
     * how many it allocated. Stopping when a side is 1 or less is the
     * loop's `break`, tested before anything else in its body.
     */
    method DownSample(ctx: RenderContext, rts: array<TextureId>, pixelWidth: int, pixelHeight: int,
                      format: TextureFormat, pass: int) returns (actual: int)
      requires pending == []
      requires forall i | 0 <= i < rts.Length :: rts[i] == Unassigned
      modifies this`pending, ctx, rts
      ensures pending == [] && 0 <= actual <= rts.Length
      ensures actual == |DownLevels(pixelWidth / 2, pixelHeight / 2, rts.Length)|
      ensures forall i | 0 <= i < actual :: rts[i] == LevelId(DownLevels(pixelWidth / 2, pixelHeight / 2, rts.Length)[i])
      ensures forall i | actual <= i < rts.Length :: rts[i] == Unassigned
      ensures ctx.executed == old(ctx.executed) + DownCommands(DownLevels(pixelWidth / 2, pixelHeight / 2, rts.Length), format, pass)
    {
      ghost var e0 := ctx.executed;
      ghost var all := DownLevels(pixelWidth / 2, pixelHeight / 2, rts.Length);
      var width := pixelWidth / 2;
      var height := pixelHeight / 2;
      var curSrc := BloomThresholdRT;
      var cur := 0;
      ghost var done: seq<(int, int)> := [];
      while cur < rts.Length && width > 1 && height > 1
        invariant 0 <= cur <= rts.Length && |done| == cur
        invariant all == done + DownLevels(width, height, rts.Length - cur)
        invariant curSrc == if cur == 0 then BloomThresholdRT else LevelId(done[cur - 1])
        invariant forall i | 0 <= i < cur :: rts[i] == LevelId(done[i])
        invariant forall i | cur <= i < rts.Length :: rts[i] == Unassigned
        invariant pending == []
        invariant ctx.executed == e0 + DownCommands(done, format, pass)
        decreases rts.Length - cur
      {
        cur, width, height, curSrc, done := DownSampleRound(ctx, rts, cur, width, height, curSrc, format, pass, all, done, e0);
      }
      assert DownLevels(width, height, rts.Length - cur) == [];
      AppendEmpty(done);
      actual := cur;
    }

    /**
     * One round of the down-sampling loop: level `cur` of size (width,
     * height) is allocated, recorded in `rts` and drawn from `curSrc`; the
     * size halves for the next round. The contract is the loop's invariant
     * before and after the round.
     */
    method DownSampleRound(ctx: RenderContext, rts: array<TextureId>, cur: int, width: int, height: int,
                           curSrc: TextureId, format: TextureFormat, pass: int,
                           ghost all: seq<(int, int)>, ghost done: seq<(int, int)>, ghost e0: seq<Cmd>)
      returns (next: int, nextWidth: int, nextHeight: int, nextSrc: TextureId, ghost done': seq<(int, int)>)
      requires pending == [] && 0 <= cur < rts.Length && |done| == cur && width > 1 && height > 1
      requires all == done + DownLevels(width, height, rts.Length - cur)
      requires curSrc == if cur == 0 then BloomThresholdRT else LevelId(done[cur - 1])
      requires forall i | 0 <= i < cur :: rts[i] == LevelId(done[i])
      requires forall i | cur <= i < rts.Length :: rts[i] == Unassigned
      requires ctx.executed == e0 + DownCommands(done, format, pass)
      modifies this`pending, ctx, rts
      ensures pending == [] && next == cur + 1 && |done'| == next
      ensures all == done' + DownLevels(nextWidth, nextHeight, rts.Length - next)
      ensures nextSrc == if next == 0 then BloomThresholdRT else LevelId(done'[next - 1])
      ensures forall i | 0 <= i < next :: rts[i] == LevelId(done'[i])
      ensures forall i | next <= i < rts.Length :: rts[i] == Unassigned
      ensures ctx.executed == e0 + DownCommands(done', format, pass)
    {
      var dst := BloomLevel(width, height);
      rts[cur] := dst;
      pending := pending + [GetTemporaryRT(dst, width, height, BloomDepthBits, format),
                            SetRenderTarget(dst),
                            BlitPass(curSrc, dst, pass)];
      ExecuteCommandBuffer(ctx);
      DownCommandsSnoc(done, (width, height), format, pass);
      AppendAssoc(e0, DownCommands(done, format, pass), DownStep(curSrc, (width, height), format, pass));
      DownLevelsStep(all, done, width, height, rts.Length - cur);
      done' := done + [(width, height)];
      nextWidth := width / 2;
      nextHeight := height / 2;
      nextSrc := dst;
      next := cur + 1;
    }

    /**
     * The up-sampling loop, `while (--cur > 0)`, recording level cur into
     * level cur-1 from the last level down, and then the add pass; both go
     * to the engine together.
     */
    method UpSampleAndAdd(ctx: RenderContext, rts: array<TextureId>, actual: int, ghost ids: seq<TextureId>,
                          src: TextureId, upPass: int, addPass: int)
      requires pending == [] && 1 <= rts.Length && actual == |ids| <= rts.Length
      requires forall i | 0 <= i < actual :: rts[i] == ids[i]
      requires actual == 0 ==> rts[0] == Unassigned
      modifies this`pending, ctx
      ensures pending == []
      ensures ctx.executed == old(ctx.executed) + (UpCommands(ids, |ids| - 1, upPass) + AddCommands(src, FirstLevel(ids), addPass))
    {
      var cur := actual - 1;
      while cur > 0
        invariant -1 <= cur <= actual - 1
        invariant pending + UpCommands(ids, cur, upPass) == UpCommands(ids, actual - 1, upPass)
        modifies this`pending
      {
        pending := pending + [SetRenderTarget(rts[cur - 1]), BlitPass(rts[cur], rts[cur - 1], upPass)];
        cur := cur - 1;
      }
      assert UpCommands(ids, cur, upPass) == [];
      AppendEmpty(pending);
      var add := [SetRenderTarget(BloomThresholdRT), SetGlobalTexture(BloomTexProp, rts[0]),
                  BlitPass(src, BloomThresholdRT, addPass), EndSample(BloomSampleName)];
      assert add == AddCommands(src, FirstLevel(ids), addPass);
      pending := pending + add;
      ExecuteCommandBuffer(ctx);
    }

    /**
     * The release loop, releasing levels 0 .. actual-1 in order. The
     * original starts it from where the up-sampling counter stopped,
     * which is -1 when there are no levels (see AsWrittenReleaseIndices).
     */
    method ReleaseLevels(ctx: RenderContext, rts: array<TextureId>, actual: int, ghost ids: seq<TextureId>)
      requires pending == [] && actual == |ids| <= rts.Length
      requires forall i | 0 <= i < actual :: rts[i] == ids[i]
      modifies this`pending, ctx
      ensures pending == []
      ensures ctx.executed == old(ctx.executed) + ReleaseCommands(ids)
    {
      ghost var e0 := ctx.executed;
      var i := 0;
      while i < actual
        invariant 0 <= i <= actual
        invariant pending == []
        invariant ctx.executed == e0 + ReleaseCommands(ids[..i])
      {
        assert rts[i] == ids[i];
        pending := pending + [ReleaseTemporaryRT(rts[i])];
        ExecuteCommandBuffer(ctx);
        assert ids[..i + 1][..i] == ids[..i];
        i := i + 1;
      }
      assert ids[..actual] == ids;
    }
  }
}
