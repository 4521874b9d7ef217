/** The contents of horizon portals: a horizon plane drawn as a run of
    triangle strips, and the Eternity-style horizon that combines a sky with
    a ceiling and a floor horizon. */
module Horizons {
  import opened RenderDevice
  import opened Portals

  /** The horizon plane of a portal, reduced to what DrawContents asks of it:
      whether its texture yields a usable material. */
  datatype HorizonInfo = HorizonInfo(hasMaterial: bool)

  /** Where a horizon's vertices sit in the vertex buffer, and its vertex
      attribute index, as the buffer set-up computes them. */
  datatype VertexRange = VertexRange(voffset: nat, vcount: nat, attrIndex: int)

  // ---------------------------------------------------------------------
  // The strips of one horizon
  // ---------------------------------------------------------------------

  /** The first `n` four-vertex strips of a horizon, starting every fourth
      vertex from `voffset`. */
  function QuadStrips(voffset: nat, n: nat, rs: RenderState): (r: seq<Event>)
    ensures |r| == n
  {
    if n == 0 then []
    else QuadStrips(voffset, n - 1, rs) + [Draw(TriangleStrip, At(voffset + 4 * (n - 1)), 4, rs)]
  }

  /** The k-th strip starts at vertex voffset + 4k. */
  lemma {:induction false} QuadStripsAt(voffset: nat, n: nat, rs: RenderState, k: nat)
    requires k < n
    ensures QuadStrips(voffset, n, rs)[k] == Draw(TriangleStrip, At(voffset + 4 * k), 4, rs)
  {
    if k < n - 1 {
      QuadStripsAt(voffset, n - 1, rs, k);
    }
  }

  /** How many four-vertex strips cover `vcount` vertices. */
  function StripCount(vcount: nat): nat
  {
    (vcount + 3) / 4
  }

  /** Everything a horizon with a material draws: the four-vertex strips, then
      the ten-vertex closing strip at voffset + vcount. */
  function HorizonStrips(voffset: nat, vcount: nat, rs: RenderState): seq<Event>
  {
    QuadStrips(voffset, StripCount(vcount), rs) + [Draw(TriangleStrip, At(voffset + vcount), 10, rs)]
  }

  /** The strips start at every fourth vertex below vcount and nowhere else,
      none is missing (the last of them reaches vcount), and the closing strip
      comes last. */
  lemma HorizonStripsCover(voffset: nat, vcount: nat, rs: RenderState)
    ensures var r := HorizonStrips(voffset, vcount, rs);
      && |r| == StripCount(vcount) + 1
      && (forall k :: 0 <= k < |r| - 1 ==>
            r[k] == Draw(TriangleStrip, At(voffset + 4 * k), 4, rs) && 4 * k < vcount)
      && 4 * (|r| - 1) >= vcount
      && r[|r| - 1] == Draw(TriangleStrip, At(voffset + vcount), 10, rs)
  {
    var r := HorizonStrips(voffset, vcount, rs);
    var n := StripCount(vcount);
    forall k | 0 <= k < n
      ensures r[k] == Draw(TriangleStrip, At(voffset + 4 * k), 4, rs) && 4 * k < vcount
    {
      QuadStripsAt(voffset, n, rs, k);
    }
  }

  /** The draws of one horizon DrawContents starting from the settings `rs`:
      the strips under plain blending, or, without a material, a screen clear. */
  function HorizonLog(info: HorizonInfo, voffset: nat, vcount: nat, rs: RenderState): seq<Event>
  {
    if info.hasMaterial then HorizonStrips(voffset, vcount, rs.(blendSrc := One, blendDst := Zero))
    else [Draw(TriangleStrip, FullscreenIndex, 4, rs.(texture := false, depthTest := false))]
  }

  /** The settings one horizon DrawContents leaves. */
  function HorizonState(info: HorizonInfo, rs: RenderState): RenderState
  {
    if info.hasMaterial then rs.(blendSrc := One, blendDst := Zero)
    else rs.(texture := false, depthTest := true)
  }

  /** A horizon's contents are draws and nothing else. */
  lemma HorizonLogDraws(info: HorizonInfo, voffset: nat, vcount: nat, rs: RenderState)
    ensures forall e :: e in HorizonLog(info, voffset, vcount, rs) ==> e.Draw?
  {
    if info.hasMaterial {
      var r := HorizonLog(info, voffset, vcount, rs);
      HorizonStripsCover(voffset, vcount, rs.(blendSrc := One, blendDst := Zero));
      forall e | e in r
        ensures e.Draw?
      {
        var k :| 0 <= k < |r| && r[k] == e;
      }
    }
  }

  /** Drawing the same horizon again right away repeats exactly the same
      draws and leaves the same settings. */
  lemma HorizonRedraw(info: HorizonInfo, voffset: nat, vcount: nat, rs: RenderState)
    ensures HorizonLog(info, voffset, vcount, HorizonState(info, rs)) == HorizonLog(info, voffset, vcount, rs)
    ensures HorizonState(info, HorizonState(info, rs)) == HorizonState(info, rs)
  {
    var rs2 := HorizonState(info, rs);
    if info.hasMaterial {
      assert rs2.(blendSrc := One, blendDst := Zero) == rs.(blendSrc := One, blendDst := Zero);
    } else {
      assert rs2.(texture := false, depthTest := false) == rs.(texture := false, depthTest := false);
    }
  }

  /** A horizon portal. A stand-alone one takes its vertex range from the
      buffer set-up; a local one, owned by an Eternity-style horizon, is
      given its range by the owner right after construction. */
  class HorizonPortal {
    const origin: HorizonInfo
    var voffset: nat
    var vcount: nat
    var attrIndex: int

    constructor (origin: HorizonInfo, local: bool, computed: VertexRange)
      ensures this.origin == origin
      ensures !local ==> voffset == computed.voffset && vcount == computed.vcount && attrIndex == computed.attrIndex
    {
      this.origin := origin;
      if !local {
        voffset := computed.voffset;
        vcount := computed.vcount;
        attrIndex := computed.attrIndex;
      } else {
        voffset := 0;
        vcount := 0;
        attrIndex := 0;
      }
    }

    /** Without a material the screen is cleared instead; otherwise plain
        blending, one four-vertex strip at every fourth vertex below vcount,
        then the closing strip. */
    method DrawContents(gl: Device)
      modifies gl
      ensures gl.log == old(gl.log) + HorizonLog(origin, voffset, vcount, old(gl.rs))
      ensures gl.rs == HorizonState(origin, old(gl.rs))
    {
      if !origin.hasMaterial {
        Portal.ClearScreen(gl);
        return;
      }
      gl.BlendFunc(One, Zero);

      ghost var log0 := gl.log;
      var i: nat := 0;
      while i < vcount
        invariant i % 4 == 0 && i <= vcount + 3
        invariant gl.rs == old(gl.rs).(blendSrc := One, blendDst := Zero)
        invariant gl.log == log0 + QuadStrips(voffset, i / 4, gl.rs)
      {
        gl.RenderArray(TriangleStrip, At(voffset + i), 4);
        i := i + 4;
      }
      assert i / 4 == StripCount(vcount);
      gl.RenderArray(TriangleStrip, At(voffset + vcount), 10);
    }
  }

  // ---------------------------------------------------------------------
  // Eternity-style horizons
  // ---------------------------------------------------------------------

  /** The origin sector of an Eternity-style horizon, reduced to its floor
      and ceiling textures. */
  datatype Sector = Sector(floorTexture: int, ceilingTexture: int)

  /** What an Eternity-style horizon draws, step by step. */
  datatype Content = Sky | CeilingHorizon | FloorHorizon

  /** The drawing plan for `sector` when `skyFlat` is the sky texture. */
  function EEPlan(sector: Sector, skyFlat: int): seq<Content>
  {
    (if sector.floorTexture == skyFlat || sector.ceilingTexture == skyFlat then [Sky] else [])
    + (if sector.ceilingTexture != skyFlat then [CeilingHorizon] else [])
    + (if sector.floorTexture != skyFlat then [FloorHorizon, FloorHorizon] else [])
  }

  /** The order the plan keeps. */
  function Rank(c: Content): nat
  {
    match c
    case Sky => 0
    case CeilingHorizon => 1
    case FloorHorizon => 2
  }

  /** The plan, case by case on which planes are sky. */
  lemma EEPlanCases(sector: Sector, skyFlat: int)
    ensures var plan := EEPlan(sector, skyFlat);
      var floorSky := sector.floorTexture == skyFlat;
      var ceilingSky := sector.ceilingTexture == skyFlat;
      && (floorSky && ceilingSky ==> plan == [Sky])
      && (floorSky && !ceilingSky ==> plan == [Sky, CeilingHorizon])
      && (!floorSky && ceilingSky ==> plan == [Sky, FloorHorizon, FloorHorizon])
      && (!floorSky && !ceilingSky ==> plan == [CeilingHorizon, FloorHorizon, FloorHorizon])
  {
  }

  /** The sky is drawn once exactly when either plane is sky, the ceiling
      horizon once exactly when the ceiling is not sky, and the floor horizon
      twice exactly when the floor is not sky; something is always drawn. */
  lemma EEPlanCounts(sector: Sector, skyFlat: int)
    ensures var plan := EEPlan(sector, skyFlat);
      && multiset(plan)[Sky] == (if sector.floorTexture == skyFlat || sector.ceilingTexture == skyFlat then 1 else 0)
      && multiset(plan)[CeilingHorizon] == (if sector.ceilingTexture != skyFlat then 1 else 0)
      && multiset(plan)[FloorHorizon] == (if sector.floorTexture != skyFlat then 2 else 0)
      && |plan| > 0
  {
    EEPlanCases(sector, skyFlat);
    var plan := EEPlan(sector, skyFlat);
    if sector.floorTexture == skyFlat {
      assert multiset(plan)[FloorHorizon] == 0;
    } else {
      assert multiset(plan)[FloorHorizon] == 2;
    }
  }

  /** The sky comes first, then the ceiling horizon, then the floor horizon. */
  lemma EEPlanOrder(sector: Sector, skyFlat: int)
    ensures var plan := EEPlan(sector, skyFlat);
      forall i, j :: 0 <= i < j < |plan| ==> Rank(plan[i]) <= Rank(plan[j])
  {
    EEPlanCases(sector, skyFlat);
  }

  /** An Eternity-style horizon: a sky, a ceiling horizon (slot 0) and a floor
      horizon (slot 1), each with the vertex range the buffer set-up computed
      at construction. */
  class EEHorizonPortal {
    const origin: Sector
    const ceiling: HorizonInfo
    const floor: HorizonInfo
    const ceilingRange: VertexRange
    const floorRange: VertexRange

    constructor (origin: Sector, ceiling: HorizonInfo, floor: HorizonInfo,
                 ceilingRange: VertexRange, floorRange: VertexRange)
      ensures this.origin == origin && this.ceiling == ceiling && this.floor == floor
      ensures this.ceilingRange == ceilingRange && this.floorRange == floorRange
    {
      this.origin := origin;
      this.ceiling := ceiling;
      this.floor := floor;
      this.ceilingRange := ceilingRange;
      this.floorRange := floorRange;
    }

    /** The draws of one step of the plan, from the settings `rs`. */
    function StepLog(c: Content, rs: RenderState): seq<Event>
    {
      match c
      case Sky => [SkyContents]
      case CeilingHorizon => HorizonLog(ceiling, ceilingRange.voffset, ceilingRange.vcount, rs)
      case FloorHorizon => HorizonLog(floor, floorRange.voffset, floorRange.vcount, rs)
    }

    /** The settings one step of the plan leaves. */
    function StepState(c: Content, rs: RenderState): RenderState
    {
      match c
      case Sky => rs
      case CeilingHorizon => HorizonState(ceiling, rs)
      case FloorHorizon => HorizonState(floor, rs)
    }

    /** The draws of a whole plan, each step starting from the settings the
        one before it left. */
    function PlanLog(plan: seq<Content>, rs: RenderState): seq<Event>
      decreases |plan|
    {
      if plan == [] then [] else StepLog(plan[0], rs) + PlanLog(plan[1..], StepState(plan[0], rs))
    }

    function PlanState(plan: seq<Content>, rs: RenderState): RenderState
      decreases |plan|
    {
      if plan == [] then rs else PlanState(plan[1..], StepState(plan[0], rs))
    }

    /** Carrying out a plan in two parts is carrying out the whole. */
    lemma {:induction false} PlanAppend(a: seq<Content>, b: seq<Content>, rs: RenderState)
      ensures PlanLog(a + b, rs) == PlanLog(a, rs) + PlanLog(b, PlanState(a, rs))
      ensures PlanState(a + b, rs) == PlanState(b, PlanState(a, rs))
      decreases |a|
    {
      if a == [] {
        assert a + b == b;
      } else {
        assert (a + b)[1..] == a[1..] + b;
        PlanAppend(a[1..], b, StepState(a[0], rs));
      }
    }

    /** The sky is among the draws of a plan exactly when the plan has a sky
        step: the horizon steps draw strips or clear the screen only. */
    lemma {:induction false} PlanLogSky(plan: seq<Content>, rs: RenderState)
      ensures SkyContents in PlanLog(plan, rs) <==> Sky in plan
      decreases |plan|
    {
      if plan != [] {
        PlanLogSky(plan[1..], StepState(plan[0], rs));
        assert plan == [plan[0]] + plan[1..];
        match plan[0]
        case Sky =>
        case CeilingHorizon =>
          HorizonLogDraws(ceiling, ceilingRange.voffset, ceilingRange.vcount, rs);
        case FloorHorizon =>
          HorizonLogDraws(floor, floorRange.voffset, floorRange.vcount, rs);
      }
    }

    /** DrawContents draws the sky exactly when the floor or the ceiling of the
        origin sector is sky. */
    lemma SkyDrawn(skyFlat: int, rs: RenderState)
      ensures SkyContents in PlanLog(EEPlan(origin, skyFlat), rs)
              <==> origin.floorTexture == skyFlat || origin.ceilingTexture == skyFlat
    {
      PlanLogSky(EEPlan(origin, skyFlat), rs);
      EEPlanCases(origin, skyFlat);
    }

    /** The ceiling horizon, through a local horizon portal given slot 0's
        vertex range. */
    method DrawCeiling(gl: Device)
      modifies gl
      ensures gl.log == old(gl.log) + PlanLog([CeilingHorizon], old(gl.rs))
      ensures gl.rs == PlanState([CeilingHorizon], old(gl.rs))
    {
      var ceil := new HorizonPortal(ceiling, true, ceilingRange);
      ceil.vcount := ceilingRange.vcount;
      ceil.voffset := ceilingRange.voffset;
      ceil.attrIndex := ceilingRange.attrIndex;
      ceil.DrawContents(gl);
      assert PlanLog([CeilingHorizon], old(gl.rs)) == StepLog(CeilingHorizon, old(gl.rs)) + [];
    }

    /** The floor horizon, drawn twice through one local horizon portal given
        slot 1's vertex range. */
    method DrawFloor(gl: Device)
      modifies gl
      ensures gl.log == old(gl.log) + PlanLog([FloorHorizon, FloorHorizon], old(gl.rs))
      ensures gl.rs == PlanState([FloorHorizon, FloorHorizon], old(gl.rs))
      // the second draw repeats the first exactly
      ensures var once := HorizonLog(floor, floorRange.voffset, floorRange.vcount, old(gl.rs));
        gl.log == old(gl.log) + once + once
    {
      var fl := new HorizonPortal(floor, true, floorRange);
      fl.vcount := floorRange.vcount;
      fl.voffset := floorRange.voffset;
      fl.attrIndex := floorRange.attrIndex;
      ghost var rs0 := gl.rs;
      ghost var log0 := gl.log;
      fl.DrawContents(gl);
      ghost var first := StepLog(FloorHorizon, rs0);
      ghost var rs1 := StepState(FloorHorizon, rs0);
      fl.DrawContents(gl);
      ghost var second := StepLog(FloorHorizon, rs1);
      assert [FloorHorizon, FloorHorizon][1..] == [FloorHorizon];
      assert PlanLog([FloorHorizon], rs1) == second + [];
      assert PlanLog([FloorHorizon, FloorHorizon], rs0) == first + second;
      assert gl.log == log0 + first + second;
      HorizonRedraw(floor, floorRange.voffset, floorRange.vcount, rs0);
      assert second == first;
    }

    /** Draws the sky if either plane is sky, then the ceiling horizon unless
        the ceiling is sky, then the floor horizon, twice, unless the floor is
        sky. */
    method DrawContents(gl: Device, skyFlat: int)
      modifies gl
      ensures gl.log == old(gl.log) + PlanLog(EEPlan(origin, skyFlat), old(gl.rs))
      ensures gl.rs == PlanState(EEPlan(origin, skyFlat), old(gl.rs))
    {
      ghost var rs0 := gl.rs;
      ghost var log0 := gl.log;
      ghost var done: seq<Content> := [];
      if origin.floorTexture == skyFlat || origin.ceilingTexture == skyFlat {
        gl.DrawSky();
        done := [Sky];
        assert PlanLog(done, rs0) == [SkyContents] + [];
      }
      ghost var log1 := gl.log;
      if origin.ceilingTexture != skyFlat {
        DrawCeiling(gl);
        PlanAppend(done, [CeilingHorizon], rs0);
        assert gl.log == log1 + PlanLog([CeilingHorizon], PlanState(done, rs0));
        done := done + [CeilingHorizon];
      }
      ghost var log2 := gl.log;
      if origin.floorTexture != skyFlat {
        DrawFloor(gl);
        PlanAppend(done, [FloorHorizon, FloorHorizon], rs0);
        assert gl.log == log2 + PlanLog([FloorHorizon, FloorHorizon], PlanState(done, rs0));
        done := done + [FloorHorizon, FloorHorizon];
      }
      assert done == EEPlan(origin, skyFlat);
    }
  }
}
