/**
 * The light manager (LightManager.cs): once per camera it compacts the
 * visible directional lights into two fixed four-entry arrays (linear
 * colours and directions) with a count, and publishes all three as shader
 * globals through its command buffer.
 */
module Lights {
  import opened Rendering

  const MaxDirLights := 4
  const CmdBufferName := "LightMgrCmdBuffer"
  const DirLightCountProp := "_DirLightCount"
  const DirLightColorsProp := "_DirLightColors"
  const DirLightDirectionsProp := "_DirLightDirections"

  /** The light manager keeps a visible light: a directional light that emits. */
  predicate Qualifies(v: VisibleLight)
  {
    v.lightType == Directional && v.light.intensity > 0.0
  }

  /** The direction published for a light: its negated forward axis as a Vector4 with w = 0. */
  function DirectionOf(v: VisibleLight): Vec4
  {
    Vec4(-v.light.forward.x, -v.light.forward.y, -v.light.forward.z, 0.0)
  }

  /** The qualifying lights among `vs`, in visible-light order. */
  function Qualifying(vs: seq<VisibleLight>): (r: seq<VisibleLight>)
    ensures |r| <= |vs|
    // exactly the qualifying lights survive the filter
    ensures forall v | v in r :: v in vs && Qualifies(v)
    ensures forall v | v in vs && Qualifies(v) :: v in r
  {
    if |vs| == 0 then []
    else (if Qualifies(vs[0]) then [vs[0]] else []) + Qualifying(vs[1..])
  }

  /** The lights that end up in the arrays: the first four qualifying ones. */
  function Published(vs: seq<VisibleLight>): seq<VisibleLight>
  {
    var q := Qualifying(vs);
    if |q| <= MaxDirLights then q else q[..MaxDirLights]
  }

  /** The colour array as published for the lights `q`. */
  function Colors(q: seq<VisibleLight>): (r: seq<Vec4>)
    ensures |r| == |q|
  {
    if |q| == 0 then [] else Colors(q[..|q| - 1]) + [q[|q| - 1].finalColorLinear]
  }

  /** The direction array as published for the lights `q`. */
  function Directions(q: seq<VisibleLight>): (r: seq<Vec4>)
    ensures |r| == |q|
  {
    if |q| == 0 then [] else Directions(q[..|q| - 1]) + [DirectionOf(q[|q| - 1])]
  }

  /** `base` with its first |vs| entries replaced by `vs`: an array whose prefix was rewritten. */
  function Overlay(base: seq<Vec4>, vs: seq<Vec4>): (r: seq<Vec4>)
    requires |vs| <= |base|
  {
    vs + base[|vs|..]
  }

  /** The filter distributes over concatenation, so it keeps the visible-light order. */
  lemma {:induction false} QualifyingConcat(a: seq<VisibleLight>, b: seq<VisibleLight>)
    ensures Qualifying(a + b) == Qualifying(a) + Qualifying(b)
    decreases |a|
  {
    if |a| == 0 {
      assert a + b == b;
    } else {
      assert (a + b)[1..] == a[1..] + b;
      QualifyingConcat(a[1..], b);
    }
  }

  /** The filter over one more element of a prefix. */
  lemma QualifyingStep(vs: seq<VisibleLight>, k: int)
    requires 0 <= k < |vs|
    ensures Qualifying(vs[..k + 1]) == Qualifying(vs[..k]) + (if Qualifies(vs[k]) then [vs[k]] else [])
  {
    QualifyingConcat(vs[..k], [vs[k]]);
    assert vs[..k + 1] == vs[..k] + [vs[k]];
    assert [vs[k]][1..] == [];
  }

  /**
   * One more visible light: a light that does not qualify changes nothing,
   * and a qualifying one is appended while fewer than four are published.
   */
  lemma {:induction false} PublishedStep(vs: seq<VisibleLight>, v: VisibleLight)
    ensures !Qualifies(v) ==> Published(vs + [v]) == Published(vs)
    ensures Qualifies(v) && |Published(vs)| < MaxDirLights ==> Published(vs + [v]) == Published(vs) + [v]
    ensures Qualifies(v) && |Published(vs)| == MaxDirLights ==> Published(vs + [v]) == Published(vs)
  {
    QualifyingConcat(vs, [v]);
    assert [v][1..] == [];
    var q := Qualifying(vs);
    if Qualifies(v) && |q| >= MaxDirLights {
      assert (q + [v])[..MaxDirLights] == q[..MaxDirLights];
    }
  }

  /**
   * The published count is the number of qualifying lights, capped at four;
   * with at most four qualifying lights nothing is dropped.
   */
  lemma {:induction false} PublishedCount(vs: seq<VisibleLight>)
    ensures |Published(vs)| <= MaxDirLights
    ensures |Published(vs)| == |Qualifying(vs)| || |Published(vs)| == MaxDirLights
    ensures |Qualifying(vs)| <= MaxDirLights ==> Published(vs) == Qualifying(vs)
    ensures forall i | 0 <= i < |Published(vs)| :: Published(vs)[i] == Qualifying(vs)[i]
  {
  }

  /** Appending one light extends both published arrays by its entry. */
  lemma {:induction false} ColorsAndDirectionsAppend(q: seq<VisibleLight>, v: VisibleLight)
    ensures Colors(q + [v]) == Colors(q) + [v.finalColorLinear]
    ensures Directions(q + [v]) == Directions(q) + [DirectionOf(v)]
  {
    assert (q + [v])[..|q|] == q;
  }

  /** Rewriting one more slot of the prefix. */
  lemma {:induction false} OverlayAppend(base: seq<Vec4>, vs: seq<Vec4>, x: Vec4)
    requires |vs| < |base|
    ensures Overlay(base, vs + [x]) == Overlay(base, vs)[|vs| := x]
  {
    var lhs, rhs := Overlay(base, vs + [x]), Overlay(base, vs)[|vs| := x];
    assert |lhs| == |rhs|;
    forall i | 0 <= i < |lhs|
      ensures lhs[i] == rhs[i]
    {
    }
  }

  /**
   * What the arrays hold after a frame: slot i < count holds the colour
   * and direction of the i-th qualifying light, in visible-light order, and
   * every slot from count on keeps what an earlier frame left there.
   */
  lemma {:induction false} ArraysAfterSetUp(colors0: seq<Vec4>, directions0: seq<Vec4>, vs: seq<VisibleLight>)
    requires |colors0| == MaxDirLights && |directions0| == MaxDirLights
    ensures var p := Published(vs);
      |p| <= MaxDirLights &&
      (forall i | 0 <= i < MaxDirLights ::
        Overlay(colors0, Colors(p))[i] == (if i < |p| then Qualifying(vs)[i].finalColorLinear else colors0[i])) &&
      (forall i | 0 <= i < MaxDirLights ::
        Overlay(directions0, Directions(p))[i] == (if i < |p| then DirectionOf(Qualifying(vs)[i]) else directions0[i]))
  {
    var p := Published(vs);
    PublishedCount(vs);
    ColorsAt(p);
    OverlayAt(colors0, Colors(p));
    OverlayAt(directions0, Directions(p));
  }

  lemma {:induction false} OverlayAt(base: seq<Vec4>, vs: seq<Vec4>)
    requires |vs| <= |base|
    ensures |Overlay(base, vs)| == |base|
    ensures forall i | 0 <= i < |base| :: Overlay(base, vs)[i] == if i < |vs| then vs[i] else base[i]
  {
  }

  /** Entry i of the published arrays belongs to light i. */
  lemma {:induction false} ColorsAt(q: seq<VisibleLight>)
    ensures forall i | 0 <= i < |q| :: Colors(q)[i] == q[i].finalColorLinear && Directions(q)[i] == DirectionOf(q[i])
  {
    if |q| > 0 {
      ColorsAt(q[..|q| - 1]);
    }
  }

  // ---------------------------------------------------------------------
  // The loop guard as written

  /**
   * The array indices the compaction loop of LightManager.cs writes, from
   * light `vs[0]` on with `count` lights already written, under the guard
   * as written: the loop stops only once count exceeds four.
   */
  function AsWrittenSlots(vs: seq<VisibleLight>, count: int): seq<int>
    decreases |vs|
  {
    if |vs| == 0 || count > MaxDirLights then []
    else if Qualifies(vs[0]) then [count] + AsWrittenSlots(vs[1..], count + 1)
    else AsWrittenSlots(vs[1..], count)
  }

  /** The same loop with the guard `count >= 4`: it stops once the arrays are full. */
  function Slots(vs: seq<VisibleLight>, count: int): seq<int>
    decreases |vs|
  {
    if |vs| == 0 || count >= MaxDirLights then []
    else if Qualifies(vs[0]) then [count] + Slots(vs[1..], count + 1)
    else Slots(vs[1..], count)
  }

  /** The corrected loop writes slots count.. up to four, one per qualifying light. */
  lemma {:induction false} SlotsAreRange(vs: seq<VisibleLight>, count: int)
    requires 0 <= count <= MaxDirLights
    ensures Slots(vs, count) == Range(count, Min(count + |Qualifying(vs)|, MaxDirLights))
    decreases |vs|
  {
    if |vs| > 0 && count < MaxDirLights {
      var next := if Qualifies(vs[0]) then count + 1 else count;
      assert |Qualifying(vs)| == next - count + |Qualifying(vs[1..])|;
      SlotsAreRange(vs[1..], next);
      var hi := Min(count + |Qualifying(vs)|, MaxDirLights);
      if Qualifies(vs[0]) {
        assert Slots(vs, count) == [count] + Slots(vs[1..], next);
        assert Range(count, hi) == [count] + Range(next, hi);
      } else {
        assert Slots(vs, count) == Slots(vs[1..], next);
      }
    }
  }

  /** The loop as written writes slots count.. up to five, one per qualifying light. */
  lemma {:induction false} AsWrittenSlotsAreRange(vs: seq<VisibleLight>, count: int)
    requires 0 <= count <= MaxDirLights + 1
    ensures AsWrittenSlots(vs, count) == Range(count, Min(count + |Qualifying(vs)|, MaxDirLights + 1))
    decreases |vs|
  {
    if |vs| > 0 && count <= MaxDirLights {
      var next := if Qualifies(vs[0]) then count + 1 else count;
      assert |Qualifying(vs)| == next - count + |Qualifying(vs[1..])|;
      AsWrittenSlotsAreRange(vs[1..], next);
      var hi := Min(count + |Qualifying(vs)|, MaxDirLights + 1);
      if Qualifies(vs[0]) {
        assert AsWrittenSlots(vs, count) == [count] + AsWrittenSlots(vs[1..], next);
        assert Range(count, hi) == [count] + Range(next, hi);
      } else {
        assert AsWrittenSlots(vs, count) == AsWrittenSlots(vs[1..], next);
      }
    }
  }

  /**
   * With the guard as written, a fifth qualifying light is written at index
   * 4, one past the end of the four-entry arrays.
   */
  lemma {:induction false} AsWrittenFifthLightOverruns(vs: seq<VisibleLight>)
    requires |Qualifying(vs)| > MaxDirLights
    ensures AsWrittenSlots(vs, 0) == [0, 1, 2, 3, 4]
    ensures MaxDirLights in AsWrittenSlots(vs, 0)
  {
    AsWrittenSlotsAreRange(vs, 0);
    assert Range(0, 5) == [0, 1, 2, 3, 4];
  }

  /**
   * With the guard `count >= 4` every write is inside the arrays, the
   * written slots are exactly 0..count-1 for the published lights, and the
   * two guards agree whenever at most four lights qualify.
   */
  lemma {:induction false} SlotsInBounds(vs: seq<VisibleLight>)
    ensures Slots(vs, 0) == Range(0, |Published(vs)|)
    ensures forall s | s in Slots(vs, 0) :: 0 <= s < MaxDirLights
    ensures |Qualifying(vs)| <= MaxDirLights ==> AsWrittenSlots(vs, 0) == Slots(vs, 0)
  {
    SlotsAreRange(vs, 0);
    AsWrittenSlotsAreRange(vs, 0);
    RangeBounds(0, |Published(vs)|);
  }

  /**
   * Where the loop stops, the lights seen so far are the published ones:
   * either every light was seen, or four had qualified and the rest are dropped.
   */
  lemma {:induction false} PublishedPrefix(vs: seq<VisibleLight>, k: int)
    requires 0 <= k <= |vs| && |Qualifying(vs[..k])| <= MaxDirLights
    requires k == |vs| || |Qualifying(vs[..k])| == MaxDirLights
    ensures Published(vs) == Qualifying(vs[..k])
  {
    QualifyingConcat(vs[..k], vs[k..]);
    assert vs[..k] + vs[k..] == vs;
  }

  /** What SetUp records: the count and both full arrays, inside one profiler sample. */
  function SetUpCommands(count: int, colors: seq<Vec4>, directions: seq<Vec4>): seq<Cmd>
  {
    [BeginSample(CmdBufferName),
     SetGlobalInt(DirLightCountProp, count),
     SetGlobalVectorArray(DirLightColorsProp, colors),
     SetGlobalVectorArray(DirLightDirectionsProp, directions),
     EndSample(CmdBufferName)]
  }

  /** The light pass closes the sample it opens and neither draws nor submits. */
  lemma {:induction false} SetUpCommandsBalanced(count: int, colors: seq<Vec4>, directions: seq<Vec4>)
    ensures SamplesBalanced(SetUpCommands(count, colors, directions))
    ensures var t := SetUpCommands(count, colors, directions);
      forall i | 0 <= i < |t| :: !t[i].Submit? && !t[i].DrawRenderers? && !t[i].DrawSkybox? && !t[i].DrawShadows?
  {
    var middle := [SetGlobalInt(DirLightCountProp, count),
                   SetGlobalVectorArray(DirLightColorsProp, colors),
                   SetGlobalVectorArray(DirLightDirectionsProp, directions)];
    SampleStackNoSamples(middle, []);
    SampleAround(CmdBufferName, middle, []);
    assert SetUpCommands(count, colors, directions) == [BeginSample(CmdBufferName)] + middle + [EndSample(CmdBufferName)];
  }

  // ---------------------------------------------------------------------

  class LightManager {
    const dirLightColors: array<Vec4>
    const dirLightDirections: array<Vec4>
    var dirLightCount: int
    /** The manager's command buffer: recorded, not yet executed. */
    var pending: seq<Cmd>

    ghost predicate Valid()
      reads this`dirLightCount
    {
      dirLightColors.Length == MaxDirLights && dirLightDirections.Length == MaxDirLights &&
      dirLightColors != dirLightDirections &&
      0 <= dirLightCount <= MaxDirLights
    }

    constructor ()
      ensures Valid() && dirLightCount == 0 && pending == []
      ensures fresh(dirLightColors) && fresh(dirLightDirections)
      ensures dirLightColors[..] == [Zero4, Zero4, Zero4, Zero4]
      ensures dirLightDirections[..] == [Zero4, Zero4, Zero4, Zero4]
    {
      dirLightColors := new Vec4[MaxDirLights](_ => Zero4);
      dirLightDirections := new Vec4[MaxDirLights](_ => Zero4);
      dirLightCount := 0;
      pending := [];
    }

    /**
     * SetUp with the loop guard `count >= 4` (see AsWrittenSlots for the
     * guard as written): the count restarts at zero, the published lights
     * overwrite the array prefix, and the count and both full arrays are
     * published between a begin/end sample pair.
     */
    method SetUp(cull: CullingResults, ctx: RenderContext)
      requires Valid()
      modifies this`dirLightCount, this`pending, dirLightColors, dirLightDirections, ctx
      ensures Valid()
      ensures dirLightCount == |Published(cull.visibleLights)|
      ensures dirLightColors[..] == Overlay(old(dirLightColors[..]), Colors(Published(cull.visibleLights)))
      ensures dirLightDirections[..] == Overlay(old(dirLightDirections[..]), Directions(Published(cull.visibleLights)))
      ensures pending == []
      ensures ctx.executed == old(ctx.executed) + old(pending) +
        SetUpCommands(dirLightCount, dirLightColors[..], dirLightDirections[..])
    {
      pending := pending + [BeginSample(CmdBufferName)];
      dirLightCount := 0;
      Compact(cull.visibleLights);
      pending := pending + [SetGlobalInt(DirLightCountProp, dirLightCount),
                            SetGlobalVectorArray(DirLightColorsProp, dirLightColors[..]),
                            SetGlobalVectorArray(DirLightDirectionsProp, dirLightDirections[..]),
                            EndSample(CmdBufferName)];
      ctx.ExecuteCommandBuffer(pending);
      pending := [];
    }

    /**
     * The foreach loop. The guard `count < 4` in the loop condition is the
     * corrected form of the source's break test at the top of each iteration.
     */
    method Compact(vs: seq<VisibleLight>)
      requires Valid() && dirLightCount == 0
      modifies this`dirLightCount, dirLightColors, dirLightDirections
      ensures Valid()
      ensures dirLightCount == |Published(vs)|
      ensures dirLightColors[..] == Overlay(old(dirLightColors[..]), Colors(Published(vs)))
      ensures dirLightDirections[..] == Overlay(old(dirLightDirections[..]), Directions(Published(vs)))
    {
      ghost var colors0, directions0 := dirLightColors[..], dirLightDirections[..];
      var k := 0;
      assert vs[..0] == [];
      while k < |vs| && dirLightCount < MaxDirLights
        invariant 0 <= k <= |vs| && Valid()
        invariant dirLightCount == |Qualifying(vs[..k])|
        invariant dirLightColors[..] == Overlay(colors0, Colors(Qualifying(vs[..k])))
        invariant dirLightDirections[..] == Overlay(directions0, Directions(Qualifying(vs[..k])))
      {
        CompactStep(vs, k, colors0, directions0);
        k := k + 1;
      }
      PublishedPrefix(vs, k);
    }

    /** One iteration of the foreach loop, on light `vs[k]`. */
    method CompactStep(vs: seq<VisibleLight>, k: int, ghost colors0: seq<Vec4>, ghost directions0: seq<Vec4>)
      requires 0 <= k < |vs| && Valid() && dirLightCount < MaxDirLights
      requires |colors0| == MaxDirLights && |directions0| == MaxDirLights
      requires dirLightCount == |Qualifying(vs[..k])|
      requires dirLightColors[..] == Overlay(colors0, Colors(Qualifying(vs[..k])))
      requires dirLightDirections[..] == Overlay(directions0, Directions(Qualifying(vs[..k])))
      modifies this`dirLightCount, dirLightColors, dirLightDirections
      ensures Valid()
      ensures dirLightCount == |Qualifying(vs[..k + 1])|
      ensures dirLightColors[..] == Overlay(colors0, Colors(Qualifying(vs[..k + 1])))
      ensures dirLightDirections[..] == Overlay(directions0, Directions(Qualifying(vs[..k + 1])))
    {
      var v := vs[k];
      ghost var q := Qualifying(vs[..k]);
      QualifyingStep(vs, k);
      if Qualifies(v) {
        Accept(v, q, colors0, directions0);
      } else {
        AppendEmpty(q);
      }
    }

    /** A qualifying light takes the next slot of both arrays. */
    method Accept(v: VisibleLight, ghost q: seq<VisibleLight>, ghost colors0: seq<Vec4>, ghost directions0: seq<Vec4>)
      requires Valid() && dirLightCount == |q| < MaxDirLights
      requires |colors0| == MaxDirLights && |directions0| == MaxDirLights
      requires dirLightColors[..] == Overlay(colors0, Colors(q))
      requires dirLightDirections[..] == Overlay(directions0, Directions(q))
      modifies this`dirLightCount, dirLightColors, dirLightDirections
      ensures Valid() && dirLightCount == |q + [v]|
      ensures dirLightColors[..] == Overlay(colors0, Colors(q + [v]))
      ensures dirLightDirections[..] == Overlay(directions0, Directions(q + [v]))
    {
      ColorsAndDirectionsAppend(q, v);
      OverlayAppend(colors0, Colors(q), v.finalColorLinear);
      OverlayAppend(directions0, Directions(q), DirectionOf(v));
      dirLightColors[dirLightCount] := v.finalColorLinear;
      dirLightDirections[dirLightCount] := DirectionOf(v);
      dirLightCount := dirLightCount + 1;
    }
  }
}
