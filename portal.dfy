/** The stencil-portal lifecycle of the GL renderer: the cached stencil
    geometry of a portal, Start and End around the rendering of what lies
    behind it, and the shared recursion counter that layers nested portals
    in the stencil buffer. */
module Portals {
  import opened RenderDevice

  /** A boundary line of a portal: where its tessellated vertices start in the
      vertex buffer and how many there are. */
  datatype Line = Line(vertIndex: nat, vertCount: nat)

  /** The pass DrawPortalStencil is drawing for (STP_Stencil, STP_DepthClear,
      STP_AllInOne, STP_DepthRestore). */
  datatype StencilPass = StencilWrite | DepthClear | AllInOne | DepthRestore

  /** The console variables Start consults: gl_portals and gl_noquery. */
  datatype Config = Config(portals: bool, noQuery: bool)

  /** An actor render flag. Only RF_MAYBEINVISIBLE is named: the portal code
      treats every other flag alike. */
  datatype RenderFlag = MaybeInvisible | OtherFlag(bit: nat)

  /** A set of actor render flags (ActorRenderFlags): the flags that are on. */
  type RenderFlags = set<RenderFlag>

  // ---------------------------------------------------------------------
  // Stencil geometry
  // ---------------------------------------------------------------------

  /** The primitive cache of a portal: one (vertindex, vertcount) pair per
      boundary line, in line order. */
  function Flatten(lines: seq<Line>): (r: seq<nat>)
    ensures |r| == 2 * |lines|
  {
    if lines == [] then []
    else
      var last := lines[|lines| - 1];
      Flatten(lines[..|lines| - 1]) + [last.vertIndex, last.vertCount]
  }

  /** Line i's pair sits at positions 2i and 2i+1 of the cache. */
  lemma {:induction false} FlattenAt(lines: seq<Line>, i: nat)
    requires i < |lines|
    ensures Flatten(lines)[2 * i] == lines[i].vertIndex
    ensures Flatten(lines)[2 * i + 1] == lines[i].vertCount
  {
    var front := lines[..|lines| - 1];
    if i < |front| {
      FlattenAt(front, i);
      assert lines[i] == front[i];
    }
  }

  /** Any sequence holding each line's pair at positions 2i and 2i+1 is the
      cache Flatten describes. */
  lemma PairsAreFlatten(a: seq<nat>, lines: seq<Line>)
    requires |a| == 2 * |lines|
    requires forall k :: 0 <= k < |lines| ==> a[2 * k] == lines[k].vertIndex && a[2 * k + 1] == lines[k].vertCount
    ensures a == Flatten(lines)
  {
    var f := Flatten(lines);
    forall j | 0 <= j < |a|
      ensures a[j] == f[j]
    {
      var k := j / 2;
      FlattenAt(lines, k);
      assert a[2 * k] == lines[k].vertIndex == f[2 * k];
      assert a[2 * k + 1] == lines[k].vertCount == f[2 * k + 1];
      assert j == 2 * k || j == 2 * k + 1;
    }
  }

  /** One triangle fan per cached pair, in order, all under the settings `rs`. */
  function FanDraws(prims: seq<nat>, rs: RenderState): (r: seq<Event>)
    requires |prims| % 2 == 0
    ensures |r| == |prims| / 2
    decreases |prims|
  {
    if prims == [] then []
    else FanDraws(prims[..|prims| - 2], rs)
         + [Draw(TriangleFan, At(prims[|prims| - 2]), prims[|prims| - 1], rs)]
  }

  /** The k-th fan is drawn from the k-th cached pair. */
  lemma {:induction false} FanDrawsAt(prims: seq<nat>, rs: RenderState, k: nat)
    requires |prims| % 2 == 0 && k < |prims| / 2
    ensures FanDraws(prims, rs)[k] == Draw(TriangleFan, At(prims[2 * k]), prims[2 * k + 1], rs)
    decreases |prims|
  {
    var front := prims[..|prims| - 2];
    if k < |front| / 2 {
      FanDrawsAt(front, rs, k);
    }
  }

  /** The settings the two stencil caps are drawn under: depth writes off in
      the all-in-one pass, depth pinned to the far plane in the restore pass. */
  function CapState(rs: RenderState, pass: StencilPass): RenderState
  {
    match pass
    case AllInOne => rs.(depthMask := false)
    case DepthRestore => rs.(depthRange := FarPlane)
    case _ => rs
  }

  /** The settings DrawPortalStencil leaves behind. */
  function AfterStencil(rs: RenderState, capped: bool, pass: StencilPass): RenderState
  {
    if !capped then rs
    else match pass
      case AllInOne => rs.(depthMask := false)
      case DepthRestore => rs.(depthRange := FullRange)
      case _ => rs
  }

  /** The top and bottom caps, drawn only for a capped portal. */
  function CapDraws(capped: bool, pass: StencilPass, rs: RenderState): seq<Event>
  {
    if capped then [Draw(TriangleFan, StencilTopIndex, 4, CapState(rs, pass)),
                    Draw(TriangleFan, StencilBottomIndex, 4, CapState(rs, pass))]
    else []
  }

  /** Everything one DrawPortalStencil call draws. */
  function StencilDraws(prims: seq<nat>, capped: bool, pass: StencilPass, rs: RenderState): seq<Event>
    requires |prims| % 2 == 0
  {
    FanDraws(prims, rs) + CapDraws(capped, pass, rs)
  }

  /** Every stencil draw is a draw under the caller's settings, or, for a
      cap, under the pass's adjustment of them; one per cached pair plus the
      caps. */
  lemma StencilDrawsStates(prims: seq<nat>, capped: bool, pass: StencilPass, rs: RenderState)
    requires |prims| % 2 == 0
    ensures var r := StencilDraws(prims, capped, pass, rs);
      && |r| == |prims| / 2 + (if capped then 2 else 0)
      && (forall e :: e in r ==> e.Draw? && (e.state == rs || e.state == CapState(rs, pass)))
  {
    var r := StencilDraws(prims, capped, pass, rs);
    var fans := FanDraws(prims, rs);
    forall e | e in r
      ensures e.Draw? && (e.state == rs || e.state == CapState(rs, pass))
    {
      var k :| 0 <= k < |r| && r[k] == e;
      if k < |fans| {
        FanDrawsAt(prims, rs, k);
        assert e == fans[k];
      }
    }
  }

  /** What a stencil draw of a portal amounts to: one fan per boundary line,
      in line order, then (only when capped) the top cap and the bottom cap;
      and every one of them is drawn under the caller's settings, except that
      the caps see the pass's depth adjustment. */
  lemma StencilDrawsOfLines(lines: seq<Line>, capped: bool, pass: StencilPass, rs: RenderState)
    ensures var r := StencilDraws(Flatten(lines), capped, pass, rs);
      && |r| == |lines| + (if capped then 2 else 0)
      && (forall i :: 0 <= i < |lines| ==>
            r[i] == Draw(TriangleFan, At(lines[i].vertIndex), lines[i].vertCount, rs))
      && (capped ==>
            (&& r[|lines|] == Draw(TriangleFan, StencilTopIndex, 4, CapState(rs, pass))
             && r[|lines| + 1] == Draw(TriangleFan, StencilBottomIndex, 4, CapState(rs, pass))))
      && (forall e :: e in r ==> e.Draw? && (e.state == rs || e.state == CapState(rs, pass)))
  {
    var prims := Flatten(lines);
    var r := StencilDraws(prims, capped, pass, rs);
    var fans := FanDraws(prims, rs);
    forall i | 0 <= i < |lines|
      ensures r[i] == Draw(TriangleFan, At(lines[i].vertIndex), lines[i].vertCount, rs)
    {
      FanDrawsAt(prims, rs, i);
      FlattenAt(lines, i);
      assert r[i] == fans[i];
    }
    StencilDrawsStates(prims, capped, pass, rs);
  }

  /** The settings under which Start paints the stencil: pass where the
      stencil equals `rec` and increment there, no colour, no texture, the
      stencil effect, depth LESS; `depthWrite` says whether depth is written
      in the same pass. */
  function StencilWriteState(rs: RenderState, rec: int, depthWrite: bool): RenderState
  {
    rs.(stencilRef := rec, stencilOp := Incr, colorMask := NoChannels, effect := StencilEffect,
        texture := false, depthFunc := Less, depthMask := depthWrite)
  }

  /** Start's second pass: where the stencil now equals rec + 1, keep the
      stencil and write depth, always, at the far plane. */
  function DepthClearState(write: RenderState, rec: int): RenderState
  {
    write.(stencilRef := rec + 1, stencilOp := Keep, depthMask := true, depthRange := FarPlane,
           depthFunc := Always)
  }

  /** The settings a stencil Start with a depth buffer leaves: normal drawing
      inside the new stencil level or, when the query found the portal
      invisible, back at the level it started from. */
  function AfterDepthPasses(write: RenderState, rec: int, visible: bool): RenderState
  {
    var normal := DepthClearState(write, rec).(texture := true, depthFunc := Less, colorMask := AllChannels,
                                              effect := NoEffect, depthRange := FullRange);
    if visible then normal else normal.(stencilOp := Keep, stencilRef := rec)
  }

  /** End starts with colour writes, the shader effect and texturing off. */
  function Masked(rs: RenderState): RenderState
  {
    rs.(colorMask := NoChannels, effect := NoEffect, texture := false)
  }

  /** Depth written, always, at the far plane. */
  function FarPlaneState(rs: RenderState): RenderState
  {
    rs.(depthRange := FarPlane, depthFunc := Always)
  }

  /** The settings of the non-stencil End's footprint draw: depth LEQUAL over
      the full range, alpha channel only, flat stencil effect, plain blending. */
  function MarkState(rs: RenderState): RenderState
  {
    rs.(depthFunc := LEqual, depthRange := FullRange, colorMask := AlphaOnly, effect := StencilEffect,
        texture := false, blendSrc := One, blendDst := Zero, blendEquation := FuncAdd)
  }

  /** Regrouping a log extended by four pieces in turn. */
  lemma AppendFour(log: seq<Event>, a: seq<Event>, b: seq<Event>, c: seq<Event>, d: seq<Event>)
    ensures log + a + b + c + d == log + (a + b + c + d)
  {
  }

  // ---------------------------------------------------------------------
  // The camera's transient visibility flag
  // ---------------------------------------------------------------------

  /** What Start saves of the outer camera's render flags: the
      maybe-invisible flag alone. */
  function SaveVisibility(flags: RenderFlags): (saved: RenderFlags)
    ensures saved <= {MaybeInvisible}
    ensures MaybeInvisible in saved <==> MaybeInvisible in flags
  {
    flags * {MaybeInvisible}
  }

  /** End's restore: the saved maybe-invisible flag comes back, every other
      flag is kept as it is. */
  function RestoreVisibility(flags: RenderFlags, saved: RenderFlags): (r: RenderFlags)
    requires saved <= {MaybeInvisible}
    ensures MaybeInvisible in r <==> MaybeInvisible in saved
    ensures forall f :: f != MaybeInvisible ==> (f in r <==> f in flags)
  {
    (flags - {MaybeInvisible}) + saved
  }

  /** Saving at Start and restoring at End gives back the flags Start saw,
      provided that what ran in between touched no flag but that one. */
  lemma VisibilityRoundTrip(before: RenderFlags, during: RenderFlags)
    requires during - {MaybeInvisible} == before - {MaybeInvisible}
    ensures RestoreVisibility(during, SaveVisibility(before)) == before
  {
    var r := RestoreVisibility(during, SaveVisibility(before));
    forall f
      ensures f in r <==> f in before
    {
      if f != MaybeInvisible {
        assert f in during <==> f in during - {MaybeInvisible};
        assert f in before <==> f in before - {MaybeInvisible};
      }
    }
  }

  // ---------------------------------------------------------------------
  // Objects
  // ---------------------------------------------------------------------

  /** The portal scene state shared by every portal of a frame. */
  class SceneState {
    var recursion: int
    var renderedPortals: nat

    constructor ()
      ensures recursion == 0 && renderedPortals == 0
    {
      recursion := 0;
      renderedPortals := 0;
    }
  }

  class Camera {
    var renderFlags: RenderFlags

    constructor (flags: RenderFlags)
      ensures renderFlags == flags
    {
      renderFlags := flags;
    }
  }

  /** A draw context. The child context Start opens copies the outer one's
      viewpoint (and so its camera) and remembers the outer one, which is what
      End goes back to. */
  class DrawInfo {
    const camera: Camera?
    const parent: DrawInfo?
    var currentPortal: Portal?

    constructor Root(camera: Camera?)
      ensures this.camera == camera && parent == null && currentPortal == null
    {
      this.camera := camera;
      parent := null;
      currentPortal := null;
    }

    constructor Child(outer: DrawInfo)
      ensures camera == outer.camera && parent == outer && currentPortal == null
    {
      camera := outer.camera;
      parent := outer;
      currentPortal := null;
    }
  }

  class Portal {
    const state: SceneState
    const lines: seq<Line>
    /** NeedDepthBuffer() and NeedCap() of this portal's variant; constant per
        instance, so Start and End always agree on them. */
    const needDepth: bool
    const needCap: bool
    /** mPrimIndices: empty until the first stencil draw fills it. */
    var primIndices: array<nat>
    var savedVisibility: RenderFlags

    ghost predicate Valid()
      reads this, primIndices
    {
      primIndices.Length == 0 || primIndices[..] == Flatten(lines)
    }

    /** Whether the stencil caps are drawn. */
    predicate Capped()
    {
      needCap && |lines| > 1
    }

    constructor (state: SceneState, lines: seq<Line>, needDepth: bool, needCap: bool)
      ensures Valid() && fresh(primIndices) && primIndices.Length == 0
      ensures this.state == state && this.lines == lines
      ensures this.needDepth == needDepth && this.needCap == needCap
    {
      this.state := state;
      this.lines := lines;
      this.needDepth := needDepth;
      this.needCap := needCap;
      primIndices := new nat[0];
      savedVisibility := {};
    }

    /** Clears the screen to the current flat colour with one full-screen strip
        drawn without texture and without depth test. */
    static method ClearScreen(gl: Device)
      modifies gl
      ensures gl.rs == old(gl.rs).(texture := false, depthTest := true)
      ensures gl.log == old(gl.log)
        + [Draw(TriangleStrip, FullscreenIndex, 4, old(gl.rs).(texture := false, depthTest := false))]
    {
      gl.EnableTexture(false);
      gl.SetDepthTest(false);
      gl.RenderArray(TriangleStrip, FullscreenIndex, 4);
      gl.SetDepthTest(true);
    }

    /** Draws the portal's footprint for `pass`: builds the primitive cache on
        first use, draws one fan per cached pair, then the caps if needed. */
    method DrawPortalStencil(gl: Device, pass: StencilPass)
      requires Valid()
      modifies this`primIndices, gl
      ensures Valid() && primIndices[..] == Flatten(lines)
      ensures old(primIndices.Length) != 0 ==> primIndices == old(primIndices)
      ensures old(primIndices.Length) == 0 ==> fresh(primIndices)
      ensures gl.rs == AfterStencil(old(gl.rs), Capped(), pass)
      ensures gl.log == old(gl.log) + StencilDraws(Flatten(lines), Capped(), pass, old(gl.rs))
    {
      if primIndices.Length == 0 {
        BuildPrimIndices();
      }
      DrawFromCache(gl, pass);
    }

    /** The fans of the filled cache, then the caps. */
    method DrawFromCache(gl: Device, pass: StencilPass)
      requires primIndices[..] == Flatten(lines)
      modifies gl
      ensures gl.rs == AfterStencil(old(gl.rs), Capped(), pass)
      ensures gl.log == old(gl.log) + StencilDraws(Flatten(lines), Capped(), pass, old(gl.rs))
    {
      ghost var rs0 := gl.rs;
      ghost var log0 := gl.log;
      ghost var prims := primIndices[..];
      ghost var fans := FanDraws(prims, rs0);
      DrawCachedFans(gl);
      assert gl.log == log0 + fans;
      DrawCaps(gl, pass);
      ghost var caps := CapDraws(Capped(), pass, rs0);
      assert gl.log == log0 + fans + caps;
      assert log0 + fans + caps == log0 + (fans + caps);
    }

    /** The top and bottom caps, when this portal needs them. */
    method DrawCaps(gl: Device, pass: StencilPass)
      modifies gl
      ensures gl.rs == AfterStencil(old(gl.rs), Capped(), pass)
      ensures gl.log == old(gl.log) + CapDraws(Capped(), pass, old(gl.rs))
    {
      if Capped() {
        if pass == AllInOne {
          gl.DepthMask(false);
        } else if pass == DepthRestore {
          gl.SetDepthRange(FarPlane);
        }
        gl.RenderArray(TriangleFan, StencilTopIndex, 4);
        gl.RenderArray(TriangleFan, StencilBottomIndex, 4);
        if pass == DepthRestore {
          gl.SetDepthRange(FullRange);
        }
      }
    }

    /** The lazy build of the primitive cache: a fresh array with each line's
        vertex index and count at positions 2i and 2i+1. */
    method BuildPrimIndices()
      modifies this`primIndices
      ensures fresh(primIndices) && primIndices[..] == Flatten(lines)
    {
      var a := new nat[2 * |lines|];
      var i := 0;
      while i < |lines|
        invariant 0 <= i <= |lines|
        invariant forall k :: 0 <= k < i ==>
          a[2 * k] == lines[k].vertIndex && a[2 * k + 1] == lines[k].vertCount
      {
        a[2 * i] := lines[i].vertIndex;
        a[2 * i + 1] := lines[i].vertCount;
        i := i + 1;
      }
      PairsAreFlatten(a[..], lines);
      primIndices := a;
    }

    /** One triangle fan per cached pair, in order. */
    method DrawCachedFans(gl: Device)
      requires primIndices.Length % 2 == 0
      modifies gl
      ensures gl.rs == old(gl.rs)
      ensures gl.log == old(gl.log) + FanDraws(primIndices[..], gl.rs)
    {
      var i := 0;
      while i < primIndices.Length
        invariant 0 <= i <= primIndices.Length && i % 2 == 0
        invariant primIndices.Length % 2 == 0
        invariant gl.rs == old(gl.rs)
        invariant gl.log == old(gl.log) + FanDraws(primIndices[..i], gl.rs)
      {
        gl.RenderArray(TriangleFan, At(primIndices[i]), primIndices[i + 1]);
        assert primIndices[..i + 2][..i] == primIndices[..i];
        i := i + 2;
      }
      assert primIndices[..i] == primIndices[..];
    }

    // What Start and End draw, as functions of the settings they start from

    /** The draws a stencil Start issues when it opens the stencil level above
        `rec`, starting from the settings `rs`; `query` says whether an
        occlusion query was asked for. */
    function StencilCreation(rs: RenderState, rec: int, query: bool): seq<Event>
    {
      if needDepth then
        var write := StencilWriteState(rs, rec, false);
        (if query then [BeginQuery] else [])
        + StencilDraws(Flatten(lines), Capped(), StencilWrite, write)
        + (if query then [EndQuery] else [])
        + StencilDraws(Flatten(lines), Capped(), DepthClear, DepthClearState(write, rec))
      else StencilDraws(Flatten(lines), Capped(), AllInOne, StencilWriteState(rs, rec, true))
    }

    /** The settings a stencil Start leaves; only the depth-buffer variant can
        find the portal invisible. */
    function CreatedState(rs: RenderState, rec: int, visible: bool): (r: RenderState)
      requires needDepth || visible
      ensures r.stencilRef == (if visible then rec + 1 else rec) && r.stencilOp == Keep
      ensures r.colorMask == AllChannels && r.effect == NoEffect && r.texture
      ensures r.depthRange == rs.depthRange || r.depthRange == FullRange
    {
      if needDepth then AfterDepthPasses(StencilWriteState(rs, rec, false), rec, visible)
      else StencilWriteState(rs, rec, true).(stencilRef := rec + 1, stencilOp := Keep, texture := true,
                                             colorMask := AllChannels, effect := NoEffect,
                                             depthTest := false, depthMask := false)
    }

    /** The settings of End's stencil-decrementing pass at level `rec`. */
    function RestoreState(rs: RenderState, rec: int): RenderState
    {
      (if needDepth then FarPlaneState(Masked(rs)) else Masked(rs).(depthTest := true))
        .(depthFunc := LEqual, depthRange := FullRange, stencilOp := Decr, stencilRef := rec)
    }

    /** The draws a stencil End issues when it closes level `rec`. */
    function StencilRemoval(rs: RenderState, rec: int): seq<Event>
    {
      (if needDepth then StencilDraws(Flatten(lines), Capped(), DepthClear, FarPlaneState(Masked(rs))) else [])
      + StencilDraws(Flatten(lines), Capped(), DepthRestore, RestoreState(rs, rec))
    }

    /** The settings a stencil End leaves. */
    function RemovedState(rs: RenderState, rec: int): (r: RenderState)
      ensures r.stencilRef == rec - 1 && r.stencilOp == Keep
      ensures r.colorMask == AllChannels && r.effect == NoEffect && r.texture
      ensures r.depthFunc == Less && r.depthRange == FullRange
    {
      RestoreState(rs, rec).(depthFunc := Less, texture := true, effect := NoEffect,
                             colorMask := AllChannels, stencilOp := Keep, stencilRef := rec - 1)
    }

    /** The number of draws one stencil pass of this portal issues. */
    function PassSize(): nat
    {
      |lines| + if Capped() then 2 else 0
    }

    /** Opening the stencil level above `rec` writes no colour. Each of its
        draws either increments the stencil where it equals `rec`, or keeps
        the stencil and writes far-plane depth where it equals rec + 1. */
    lemma CreationLayers(rs: RenderState, rec: int, query: bool)
      ensures forall e :: e in StencilCreation(rs, rec, query) && e.Draw? ==>
        && e.state.colorMask == NoChannels
        && ((e.state.stencilRef == rec && e.state.stencilOp == Incr)
            || (&& e.state.stencilRef == rec + 1 && e.state.stencilOp == Keep
                && e.state.depthRange == FarPlane && e.state.depthFunc == Always))
    {
      var prims := Flatten(lines);
      var r := StencilCreation(rs, rec, query);
      if needDepth {
        var write := StencilWriteState(rs, rec, false);
        var clear := DepthClearState(write, rec);
        var q1: seq<Event> := if query then [BeginQuery] else [];
        var q2: seq<Event> := if query then [EndQuery] else [];
        var d1 := StencilDraws(prims, Capped(), StencilWrite, write);
        var d2 := StencilDraws(prims, Capped(), DepthClear, clear);
        StencilDrawsStates(prims, Capped(), StencilWrite, write);
        StencilDrawsStates(prims, Capped(), DepthClear, clear);
        assert r == q1 + d1 + q2 + d2;
        forall e | e in r && e.Draw?
          ensures e in d1 || e in d2
        {
        }
      } else {
        StencilDrawsStates(prims, Capped(), AllInOne, StencilWriteState(rs, rec, true));
      }
    }

    /** Stencil creation issues one stencil pass, or two with a depth buffer.
        An occlusion query is issued exactly when the portal needs a depth
        buffer and one was asked for, and it brackets the first pass. */
    lemma CreationQuery(rs: RenderState, rec: int, query: bool)
      ensures var r := StencilCreation(rs, rec, query);
        && |r| == (if needDepth then 2 * PassSize() else PassSize()) + (if needDepth && query then 2 else 0)
        && (BeginQuery in r <==> needDepth && query)
        && (needDepth && query ==> r[0] == BeginQuery && r[PassSize() + 1] == EndQuery)
    {
      var prims := Flatten(lines);
      var r := StencilCreation(rs, rec, query);
      if needDepth {
        var write := StencilWriteState(rs, rec, false);
        var clear := DepthClearState(write, rec);
        var q1: seq<Event> := if query then [BeginQuery] else [];
        var q2: seq<Event> := if query then [EndQuery] else [];
        var d1 := StencilDraws(prims, Capped(), StencilWrite, write);
        var d2 := StencilDraws(prims, Capped(), DepthClear, clear);
        StencilDrawsStates(prims, Capped(), StencilWrite, write);
        StencilDrawsStates(prims, Capped(), DepthClear, clear);
        assert r == q1 + d1 + q2 + d2;
        if query {
          assert r[PassSize() + 1] == (q1 + d1 + q2)[PassSize() + 1];
        } else {
          assert r == d1 + d2;
        }
      } else {
        StencilDrawsStates(prims, Capped(), AllInOne, StencilWriteState(rs, rec, true));
      }
    }

    /** Closing level `rec` writes no colour. Each of its draws either leaves
        the stencil settings as End found them or decrements the stencil where
        it equals `rec`. */
    lemma RemovalLayers(rs: RenderState, rec: int)
      ensures var r := StencilRemoval(rs, rec);
        && |r| == (if needDepth then 2 * PassSize() else PassSize())
        && (forall e :: e in r ==>
              && e.Draw? && e.state.colorMask == NoChannels
              && ((e.state.stencilRef == rs.stencilRef && e.state.stencilOp == rs.stencilOp)
                  || (e.state.stencilRef == rec && e.state.stencilOp == Decr)))
    {
      var prims := Flatten(lines);
      var r := StencilRemoval(rs, rec);
      var restore := RestoreState(rs, rec);
      var d2 := StencilDraws(prims, Capped(), DepthRestore, restore);
      StencilDrawsStates(prims, Capped(), DepthRestore, restore);
      if needDepth {
        var reset := FarPlaneState(Masked(rs));
        var d1 := StencilDraws(prims, Capped(), DepthClear, reset);
        StencilDrawsStates(prims, Capped(), DepthClear, reset);
        assert r == d1 + d2;
        forall e | e in r
          ensures e.Draw? && e.state.colorMask == NoChannels
          ensures (e.state.stencilRef == rs.stencilRef && e.state.stencilOp == rs.stencilOp)
                  || (e.state.stencilRef == rec && e.state.stencilOp == Decr)
        {
          if e in d1 {
            assert e.state == reset;
          } else {
            assert e in d2;
          }
        }
      } else {
        assert r == d2;
      }
    }

    /** The first pass of a stencil Start, right after the query begins if
        there is one, increments the stencil where it equals `rec`. */
    lemma CreationIncrements(rs: RenderState, rec: int, query: bool)
      ensures var r := StencilCreation(rs, rec, query);
        var first := if needDepth && query then 1 else 0;
        && first + PassSize() <= |r|
        && (forall k :: first <= k < first + PassSize() ==>
              && r[k].Draw? && r[k].state.stencilRef == rec && r[k].state.stencilOp == Incr)
    {
      var prims := Flatten(lines);
      var r := StencilCreation(rs, rec, query);
      if needDepth {
        var write := StencilWriteState(rs, rec, false);
        var q1: seq<Event> := if query then [BeginQuery] else [];
        var d1 := StencilDraws(prims, Capped(), StencilWrite, write);
        StencilDrawsStates(prims, Capped(), StencilWrite, write);
        var rest := (if query then [EndQuery] else [])
                    + StencilDraws(prims, Capped(), DepthClear, DepthClearState(write, rec));
        assert r == q1 + d1 + rest;
        forall k | |q1| <= k < |q1| + PassSize()
          ensures r[k].Draw? && r[k].state.stencilRef == rec && r[k].state.stencilOp == Incr
        {
          assert r[k] == d1[k - |q1|];
          assert d1[k - |q1|] in d1;
        }
      } else {
        StencilDrawsStates(prims, Capped(), AllInOne, StencilWriteState(rs, rec, true));
        forall k | 0 <= k < PassSize()
          ensures r[k].Draw? && r[k].state.stencilRef == rec && r[k].state.stencilOp == Incr
        {
          assert r[k] in r;
        }
      }
    }

    /** With a depth buffer, the last pass of a stencil Start keeps the
        stencil and writes depth, always, at the far plane, where the stencil
        equals rec + 1. */
    lemma CreationFarPlane(rs: RenderState, rec: int, query: bool)
      ensures needDepth ==> var r := StencilCreation(rs, rec, query);
        && PassSize() <= |r|
        && (forall k :: |r| - PassSize() <= k < |r| ==>
              && r[k].Draw? && r[k].state.stencilRef == rec + 1 && r[k].state.stencilOp == Keep
              && r[k].state.depthRange == FarPlane && r[k].state.depthFunc == Always)
    {
      if needDepth {
        var prims := Flatten(lines);
        var r := StencilCreation(rs, rec, query);
        var write := StencilWriteState(rs, rec, false);
        var clear := DepthClearState(write, rec);
        var front := (if query then [BeginQuery] else [])
                     + StencilDraws(prims, Capped(), StencilWrite, write)
                     + (if query then [EndQuery] else []);
        var d2 := StencilDraws(prims, Capped(), DepthClear, clear);
        StencilDrawsStates(prims, Capped(), DepthClear, clear);
        assert r == front + d2;
        forall k | |r| - PassSize() <= k < |r|
          ensures r[k].Draw? && r[k].state.stencilRef == rec + 1 && r[k].state.stencilOp == Keep
          ensures r[k].state.depthRange == FarPlane && r[k].state.depthFunc == Always
        {
          assert r[k] == d2[k - |front|];
          assert d2[k - |front|] in d2;
        }
      }
    }

    /** The last pass of a stencil End decrements the stencil where it equals
        `rec`. */
    lemma RemovalDecrements(rs: RenderState, rec: int)
      ensures var r := StencilRemoval(rs, rec);
        && PassSize() <= |r|
        && (forall k :: |r| - PassSize() <= k < |r| ==>
              && r[k].Draw? && r[k].state.stencilRef == rec && r[k].state.stencilOp == Decr)
    {
      var prims := Flatten(lines);
      var r := StencilRemoval(rs, rec);
      var restore := RestoreState(rs, rec);
      var d1 := if needDepth then StencilDraws(prims, Capped(), DepthClear, FarPlaneState(Masked(rs))) else [];
      var d2 := StencilDraws(prims, Capped(), DepthRestore, restore);
      StencilDrawsStates(prims, Capped(), DepthRestore, restore);
      assert r == d1 + d2;
      forall k | |r| - PassSize() <= k < |r|
        ensures r[k].Draw? && r[k].state.stencilRef == rec && r[k].state.stencilOp == Decr
      {
        assert r[k] == d2[k - |d1|];
        assert d2[k - |d1|] in d2;
      }
    }

    /** With a depth buffer, the first pass of a stencil End writes depth,
        always, at the far plane, under the stencil settings End found. */
    lemma RemovalFarPlane(rs: RenderState, rec: int)
      ensures needDepth ==> var r := StencilRemoval(rs, rec);
        && PassSize() <= |r|
        && (forall k :: 0 <= k < PassSize() ==>
              && r[k].Draw? && r[k].state.stencilRef == rs.stencilRef && r[k].state.stencilOp == rs.stencilOp
              && r[k].state.depthRange == FarPlane && r[k].state.depthFunc == Always)
    {
      if needDepth {
        var prims := Flatten(lines);
        var r := StencilRemoval(rs, rec);
        var reset := FarPlaneState(Masked(rs));
        var d1 := StencilDraws(prims, Capped(), DepthClear, reset);
        StencilDrawsStates(prims, Capped(), DepthClear, reset);
        assert r == d1 + StencilDraws(prims, Capped(), DepthRestore, RestoreState(rs, rec));
        forall k | 0 <= k < PassSize()
          ensures r[k].Draw? && r[k].state.stencilRef == rs.stencilRef && r[k].state.stencilOp == rs.stencilOp
          ensures r[k].state.depthRange == FarPlane && r[k].state.depthFunc == Always
        {
          assert r[k] == d1[k];
          assert d1[k] in d1;
        }
      }
    }

    // Start and End

    /** Starts rendering through this portal. `doquery` is the caller's wish for
        an occlusion query, `samples` what the query would report. */
    method Start(gl: Device, usestencil: bool, doquery: bool, cfg: Config, samples: nat, outer: DrawInfo)
      returns (ok: bool, child: DrawInfo?)
      requires Valid()
      modifies this, gl, state
      ensures Valid()
      ensures state.renderedPortals == old(state.renderedPortals) + 1
      // accept or reject
      ensures ok == (!usestencil || (cfg.portals && (needDepth && doquery && !cfg.noQuery ==> samples != 0)))
      ensures ok == (child != null)
      ensures ok ==> (&& fresh(child) && child.parent == outer && child.camera == outer.camera
                      && child.currentPortal == this)
      ensures ok ==> savedVisibility == (if outer.camera == null then {}
                                         else SaveVisibility(outer.camera.renderFlags))
      ensures !ok ==> savedVisibility == old(savedVisibility)
      ensures state.recursion == old(state.recursion) + (if usestencil && ok then 1 else 0)
      // the stencil cache
      ensures usestencil && cfg.portals ==> primIndices[..] == Flatten(lines)
      ensures old(primIndices.Length) != 0 || !(usestencil && cfg.portals) ==> primIndices == old(primIndices)
      // the device
      ensures !usestencil ==>
        (&& gl.log == old(gl.log)
         && gl.rs == if needDepth then old(gl.rs) else old(gl.rs).(depthMask := false, depthTest := false))
      ensures usestencil && !cfg.portals ==> gl.log == old(gl.log) && gl.rs == old(gl.rs)
      ensures usestencil && cfg.portals ==>
        (&& gl.log == old(gl.log) + StencilCreation(old(gl.rs), old(state.recursion), doquery && !cfg.noQuery)
         && gl.rs == CreatedState(old(gl.rs), old(state.recursion), ok))
    {
      child := null;
      state.renderedPortals := state.renderedPortals + 1;

      if usestencil {
        if !cfg.portals {
          ok := false;
          return;
        }
        var visible := CreateStencil(gl, doquery, cfg.noQuery, samples);
        if !visible {
          ok := false;
          return;
        }
        state.recursion := state.recursion + 1;
      } else {
        if !needDepth {
          gl.DepthMask(false);
          gl.SetDepthTest(false);
        }
      }
      child := new DrawInfo.Child(outer);
      child.currentPortal := this;
      savedVisibility := if outer.camera != null then SaveVisibility(outer.camera.renderFlags) else {};
      ok := true;
    }

    /** Start's stencil work for the level above the current recursion: the
        common set-up, then the depth-buffer or the all-in-one variant. */
    method CreateStencil(gl: Device, doquery: bool, noQuery: bool, samples: nat) returns (visible: bool)
      requires Valid()
      modifies this`primIndices, gl
      ensures Valid() && primIndices[..] == Flatten(lines)
      ensures old(primIndices.Length) != 0 ==> primIndices == old(primIndices)
      ensures visible == (needDepth && doquery && !noQuery ==> samples != 0)
      ensures gl.log == old(gl.log) + StencilCreation(old(gl.rs), state.recursion, doquery && !noQuery)
      ensures gl.rs == CreatedState(old(gl.rs), state.recursion, visible)
    {
      StencilSetup(gl);
      if needDepth {
        ghost var write := gl.rs.(depthMask := false);
        assert write == StencilWriteState(old(gl.rs), state.recursion, false);
        visible := DepthVariant(gl, doquery, noQuery, samples);
        ghost var query := doquery && !noQuery;
        ghost var q1: seq<Event> := if query then [BeginQuery] else [];
        ghost var q2: seq<Event> := if query then [EndQuery] else [];
        ghost var d1 := StencilDraws(Flatten(lines), Capped(), StencilWrite, write);
        ghost var d2 := StencilDraws(Flatten(lines), Capped(), DepthClear, DepthClearState(write, state.recursion));
        AppendFour(old(gl.log), q1, d1, q2, d2);
      } else {
        gl.DepthMask(true);
        AllInOnePass(gl);
        visible := true;
      }
    }

    /** The depth-buffer variant: no depth writes while the stencil is
        written, and an occlusion query unless queries are switched off. */
    method DepthVariant(gl: Device, doquery: bool, noQuery: bool, samples: nat) returns (visible: bool)
      requires Valid() && needDepth
      modifies this`primIndices, gl
      ensures Valid() && primIndices[..] == Flatten(lines)
      ensures old(primIndices.Length) != 0 ==> primIndices == old(primIndices)
      ensures visible == (doquery && !noQuery ==> samples != 0)
      ensures var write := old(gl.rs).(depthMask := false);
        && gl.log == old(gl.log)
             + (if doquery && !noQuery then [BeginQuery] else [])
             + StencilDraws(Flatten(lines), Capped(), StencilWrite, write)
             + (if doquery && !noQuery then [EndQuery] else [])
             + StencilDraws(Flatten(lines), Capped(), DepthClear, DepthClearState(write, state.recursion))
        && gl.rs == AfterDepthPasses(write, state.recursion, visible)
    {
      gl.DepthMask(false);
      var query := doquery;
      if !needDepth {
        // NeedDepthBuffer() is constant per portal: this branch never runs
        assert false;
        query := false;
      } else if noQuery {
        query := false;
      }
      visible := DepthPasses(gl, query, samples);
    }

    /** The settings common to both variants of stencil creation: pass where
        the stencil equals the current level and increment it there, no
        colour, the stencil effect, no texture, depth LESS. */
    method StencilSetup(gl: Device)
      modifies gl
      ensures gl.log == old(gl.log)
      ensures gl.rs == old(gl.rs).(stencilRef := state.recursion, stencilOp := Incr, colorMask := NoChannels,
                                   effect := StencilEffect, texture := false, depthFunc := Less)
    {
      gl.StencilFunc(state.recursion);
      gl.SetStencilOp(Incr);
      gl.SetColorMask(NoChannels);
      gl.SetEffect(StencilEffect);
      gl.EnableTexture(false);
      gl.SetDepthFunc(Less);
    }

    /** The depth-buffer variant: the stencil-writing pass (inside the query,
        if there is one), then the far-plane depth pass over the new level,
        then normal drawing; an invisible portal goes back to its level. */
    method DepthPasses(gl: Device, query: bool, samples: nat) returns (visible: bool)
      requires Valid()
      modifies this`primIndices, gl
      ensures Valid() && primIndices[..] == Flatten(lines)
      ensures old(primIndices.Length) != 0 ==> primIndices == old(primIndices)
      ensures visible == (query ==> samples != 0)
      ensures gl.log == old(gl.log)
        + (if query then [BeginQuery] else [])
        + StencilDraws(Flatten(lines), Capped(), StencilWrite, old(gl.rs))
        + (if query then [EndQuery] else [])
        + StencilDraws(Flatten(lines), Capped(), DepthClear, DepthClearState(old(gl.rs), state.recursion))
      ensures gl.rs == AfterDepthPasses(old(gl.rs), state.recursion, visible)
    {
      QueriedStencilPass(gl, query);
      FarPlanePass(gl);

      // back to normal drawing
      gl.EnableTexture(true);
      gl.SetDepthFunc(Less);
      gl.SetColorMask(AllChannels);
      gl.SetEffect(NoEffect);
      gl.SetDepthRange(FullRange);

      var sampleCount := 1;
      if query {
        sampleCount := samples;
      }
      visible := sampleCount != 0;
      if !visible {
        gl.SetStencilOp(Keep);
        gl.StencilFunc(state.recursion);
      }
    }

    /** The stencil-writing pass, inside the occlusion query if there is one. */
    method QueriedStencilPass(gl: Device, query: bool)
      requires Valid()
      modifies this`primIndices, gl
      ensures Valid() && primIndices[..] == Flatten(lines)
      ensures old(primIndices.Length) != 0 ==> primIndices == old(primIndices)
      ensures gl.log == old(gl.log)
        + (if query then [BeginQuery] else [])
        + StencilDraws(Flatten(lines), Capped(), StencilWrite, old(gl.rs))
        + (if query then [EndQuery] else [])
      ensures gl.rs == old(gl.rs)
    {
      if query {
        gl.BeginSamplesQuery();
      }
      DrawPortalStencil(gl, StencilWrite);
      if query {
        gl.EndSamplesQuery();
      }
    }

    /** The pass that writes far-plane depth over the footprint where the
        stencil now equals the next level, leaving the stencil alone. */
    method FarPlanePass(gl: Device)
      requires Valid()
      modifies this`primIndices, gl
      ensures Valid() && primIndices[..] == Flatten(lines)
      ensures old(primIndices.Length) != 0 ==> primIndices == old(primIndices)
      ensures gl.log == old(gl.log)
        + StencilDraws(Flatten(lines), Capped(), DepthClear, DepthClearState(old(gl.rs), state.recursion))
      ensures gl.rs == DepthClearState(old(gl.rs), state.recursion)
    {
      gl.StencilFunc(state.recursion + 1);
      gl.SetStencilOp(Keep);
      gl.DepthMask(true);
      gl.SetDepthRange(FarPlane);
      gl.SetDepthFunc(Always);
      DrawPortalStencil(gl, DepthClear);
    }

    /** The variant without a depth buffer: one pass writes stencil and depth,
        then drawing continues inside the new level without depth test. */
    method AllInOnePass(gl: Device)
      requires Valid()
      modifies this`primIndices, gl
      ensures Valid() && primIndices[..] == Flatten(lines)
      ensures old(primIndices.Length) != 0 ==> primIndices == old(primIndices)
      ensures gl.log == old(gl.log) + StencilDraws(Flatten(lines), Capped(), AllInOne, old(gl.rs))
      ensures gl.rs == old(gl.rs).(stencilRef := state.recursion + 1, stencilOp := Keep, texture := true,
                                   colorMask := AllChannels, effect := NoEffect,
                                   depthTest := false, depthMask := false)
    {
      DrawPortalStencil(gl, AllInOne);
      gl.StencilFunc(state.recursion + 1);
      gl.SetStencilOp(Keep);
      gl.EnableTexture(true);
      gl.SetColorMask(AllChannels);
      gl.SetEffect(NoEffect);
      gl.SetDepthTest(false);
      gl.DepthMask(false);
    }

    /** Ends rendering through this portal: closes the child context `child`
        that Start returned and restores the outer state. */
    method End(gl: Device, child: DrawInfo, usestencil: bool)
      requires Valid() && child.parent != null
      requires savedVisibility <= {MaybeInvisible}  // saved by the matching Start
      modifies this`primIndices, gl, state, child.parent.camera
      ensures Valid() && primIndices[..] == Flatten(lines)
      ensures old(primIndices.Length) != 0 ==> primIndices == old(primIndices)
      ensures state.renderedPortals == old(state.renderedPortals)
      ensures child.parent.camera != null ==>
        child.parent.camera.renderFlags == RestoreVisibility(old(child.parent.camera.renderFlags), savedVisibility)
      ensures state.recursion == old(state.recursion) - (if usestencil then 1 else 0)
      ensures usestencil ==>
        (&& gl.log == old(gl.log) + StencilRemoval(old(gl.rs), old(state.recursion))
         && gl.rs == RemovedState(old(gl.rs), old(state.recursion)))
      ensures !usestencil ==>
        var depth := if needDepth then old(gl.rs) else old(gl.rs).(depthTest := true, depthMask := true);
        && gl.log == old(gl.log)
             + (if needDepth then [ClearDepth] else [])
             + StencilDraws(Flatten(lines), Capped(), DepthRestore, MarkState(depth))
        && gl.rs == MarkState(depth).(effect := NoEffect, texture := true, colorMask := AllChannels,
                                      depthFunc := Less)
    {
      var outer := child.parent;
      if usestencil {
        if outer.camera != null {
          outer.camera.renderFlags := RestoreVisibility(outer.camera.renderFlags, savedVisibility);
        }
        RemoveStencil(gl);
      } else {
        ReleaseDepth(gl);
        if outer.camera != null {
          outer.camera.renderFlags := RestoreVisibility(outer.camera.renderFlags, savedVisibility);
        }
        MarkFootprint(gl);
      }
    }

    /** End's stencil work: reset depth over the footprint to the far plane
        (or, without a depth buffer, turn the depth test back on), then restore
        depth and decrement the stencil where it equals the current level, and
        leave the level. */
    method RemoveStencil(gl: Device)
      requires Valid()
      modifies this`primIndices, gl, state`recursion
      ensures Valid() && primIndices[..] == Flatten(lines)
      ensures old(primIndices.Length) != 0 ==> primIndices == old(primIndices)
      ensures state.recursion == old(state.recursion) - 1
      ensures gl.log == old(gl.log) + StencilRemoval(old(gl.rs), old(state.recursion))
      ensures gl.rs == RemovedState(old(gl.rs), old(state.recursion))
    {
      UnwindStencil(gl);
      gl.EnableTexture(true);
      gl.SetEffect(NoEffect);
      gl.SetColorMask(AllChannels);
      state.recursion := state.recursion - 1;

      // back to the stencil settings of the outer level
      gl.SetStencilOp(Keep);
      gl.StencilFunc(state.recursion);
    }

    /** The footprint passes of a stencil End: depth reset, then the stencil
        decremented. */
    method UnwindStencil(gl: Device)
      requires Valid()
      modifies this`primIndices, gl
      ensures Valid() && primIndices[..] == Flatten(lines)
      ensures old(primIndices.Length) != 0 ==> primIndices == old(primIndices)
      ensures gl.log == old(gl.log) + StencilRemoval(old(gl.rs), state.recursion)
      ensures gl.rs == RestoreState(old(gl.rs), state.recursion).(depthFunc := Less)
    {
      ghost var rs0 := gl.rs;
      ghost var log0 := gl.log;
      ResetDepth(gl);
      ghost var reset := if needDepth then StencilDraws(Flatten(lines), Capped(), DepthClear, FarPlaneState(Masked(rs0)))
                         else [];
      DecrementPass(gl);
      ghost var restore := StencilDraws(Flatten(lines), Capped(), DepthRestore, RestoreState(rs0, state.recursion));
      assert gl.log == log0 + reset + restore;
      assert log0 + reset + restore == log0 + (reset + restore);
    }

    /** The first step of a stencil End: no colour, no effect, no texture;
        then depth reset to the far plane over the footprint, or, without a
        depth buffer, the depth test switched back on. */
    method ResetDepth(gl: Device)
      requires Valid()
      modifies this`primIndices, gl
      ensures Valid() && (needDepth ==> primIndices[..] == Flatten(lines))
      ensures old(primIndices.Length) != 0 || !needDepth ==> primIndices == old(primIndices)
      ensures gl.log == old(gl.log)
        + if needDepth then StencilDraws(Flatten(lines), Capped(), DepthClear, FarPlaneState(Masked(old(gl.rs))))
          else []
      ensures gl.rs == if needDepth then FarPlaneState(Masked(old(gl.rs))) else Masked(old(gl.rs)).(depthTest := true)
    {
      gl.SetColorMask(NoChannels);
      gl.SetEffect(NoEffect);
      gl.EnableTexture(false);
      if needDepth {
        gl.SetDepthRange(FarPlane);
        gl.SetDepthFunc(Always);
        DrawPortalStencil(gl, DepthClear);
      } else {
        gl.SetDepthTest(true);
      }
    }

    /** The second step: depth restored to what it was outside the portal, and
        the stencil decremented where it equals the current level. */
    method DecrementPass(gl: Device)
      requires Valid()
      modifies this`primIndices, gl
      ensures Valid() && primIndices[..] == Flatten(lines)
      ensures old(primIndices.Length) != 0 ==> primIndices == old(primIndices)
      ensures var restore := old(gl.rs).(depthFunc := LEqual, depthRange := FullRange, stencilOp := Decr,
                                         stencilRef := state.recursion);
        && gl.log == old(gl.log) + StencilDraws(Flatten(lines), Capped(), DepthRestore, restore)
        && gl.rs == restore.(depthFunc := Less)
    {
      gl.SetDepthFunc(LEqual);
      gl.SetDepthRange(FullRange);
      gl.SetStencilOp(Decr);
      gl.StencilFunc(state.recursion);
      DrawPortalStencil(gl, DepthRestore);
      gl.SetDepthFunc(Less);
    }

    /** The non-stencil End's first step: a portal with its own depth buffer
        clears it; one without turns depth test and depth writes back on. */
    method ReleaseDepth(gl: Device)
      modifies gl
      ensures gl.log == old(gl.log) + if needDepth then [ClearDepth] else []
      ensures gl.rs == if needDepth then old(gl.rs) else old(gl.rs).(depthTest := true, depthMask := true)
    {
      if needDepth {
        gl.ClearDepthBuffer();
      } else {
        gl.SetDepthTest(true);
        gl.DepthMask(true);
      }
    }

    /** The non-stencil End's footprint draw: the portal's shape goes into the
        alpha channel and the depth buffer only. */
    method MarkFootprint(gl: Device)
      requires Valid()
      modifies this`primIndices, gl
      ensures Valid() && primIndices[..] == Flatten(lines)
      ensures old(primIndices.Length) != 0 ==> primIndices == old(primIndices)
      ensures gl.log == old(gl.log) + StencilDraws(Flatten(lines), Capped(), DepthRestore, MarkState(old(gl.rs)))
      ensures gl.rs == MarkState(old(gl.rs)).(effect := NoEffect, texture := true, colorMask := AllChannels,
                                              depthFunc := Less)
    {
      gl.SetDepthFunc(LEqual);
      gl.SetDepthRange(FullRange);
      gl.SetColorMask(AlphaOnly);
      gl.SetEffect(StencilEffect);
      gl.EnableTexture(false);
      gl.BlendFunc(One, Zero);
      gl.SetBlendEquation(FuncAdd);
      DrawPortalStencil(gl, DepthRestore);
      gl.SetEffect(NoEffect);
      gl.EnableTexture(true);
      gl.SetColorMask(AllChannels);
      gl.SetDepthFunc(Less);
    }
  }

  /** A caller rendering through the portals `ps`, each nested inside the one
      before it: Start, then the next portal (or, innermost, the contents,
      which may set or clear the camera's maybe-invisible flag as `contentInvisible`
      says), then End. Between portals the stencil reference equals the
      recursion counter with op KEEP; the whole nest leaves the counter, that
      invariant and the camera's flags as it found them. Portal i is started
      with its own stencil choice `stencils[i]`, query wish `queries[i]` and
      query result `samples[i]`; a portal Start rejects is not rendered
      through. */
  method RenderNested(ps: seq<Portal>, gl: Device, st: SceneState, outer: DrawInfo,
                      stencils: seq<bool>, queries: seq<bool>, cfg: Config, samples: seq<nat>,
                      contentInvisible: bool)
    requires |stencils| == |ps| && |queries| == |ps| && |samples| == |ps|
    requires forall i :: 0 <= i < |ps| ==> ps[i].Valid() && ps[i].state == st
    requires forall i, j :: 0 <= i < j < |ps| ==> ps[i] != ps[j]
    requires gl.rs.stencilRef == st.recursion && gl.rs.stencilOp == Keep
    modifies ps, gl, st, outer.camera
    ensures forall i :: 0 <= i < |ps| ==> ps[i].Valid()
    ensures st.recursion == old(st.recursion)
    ensures gl.rs.stencilRef == st.recursion && gl.rs.stencilOp == Keep
    ensures outer.camera != null ==>
      outer.camera.renderFlags - {MaybeInvisible} == old(outer.camera.renderFlags) - {MaybeInvisible}
    ensures outer.camera != null && |ps| > 0 ==> outer.camera.renderFlags == old(outer.camera.renderFlags)
    decreases |ps|, 0
  {
    if |ps| == 0 {
      if outer.camera != null {
        outer.camera.renderFlags := (outer.camera.renderFlags - {MaybeInvisible})
                                    + if contentInvisible then {MaybeInvisible} else {};
      }
      return;
    }
    var p := ps[0];
    var ok, child := p.Start(gl, stencils[0], queries[0], cfg, samples[0], outer);
    if ok {
      assert p !in ps[1..] by {
        forall j | 0 <= j < |ps[1..]| ensures ps[1..][j] != p {
          assert ps[1..][j] == ps[j + 1];
        }
      }
      RenderThrough(p, child, ps[1..], gl, st, stencils[0], stencils[1..], queries[1..], cfg, samples[1..],
                    contentInvisible);
    }
  }

  /** Inside portal `p`, which Start has just opened with the child context
      `child`: the rest of the nest, then End, which lowers the counter by
      the level Start raised and gives the camera its saved bit back. */
  method RenderThrough(p: Portal, child: DrawInfo, rest: seq<Portal>, gl: Device, st: SceneState,
                       usestencil: bool, stencils: seq<bool>, queries: seq<bool>, cfg: Config,
                       samples: seq<nat>, contentInvisible: bool)
    requires |stencils| == |rest| && |queries| == |rest| && |samples| == |rest|
    requires p.Valid() && p.state == st && p !in rest
    requires forall i :: 0 <= i < |rest| ==> rest[i].Valid() && rest[i].state == st
    requires forall i, j :: 0 <= i < j < |rest| ==> rest[i] != rest[j]
    requires child.parent != null && child.camera == child.parent.camera
    requires p.savedVisibility == if child.camera == null then {} else SaveVisibility(child.camera.renderFlags)
    requires gl.rs.stencilRef == st.recursion && gl.rs.stencilOp == Keep
    modifies rest, p, gl, st, child.camera
    ensures p.Valid() && forall i :: 0 <= i < |rest| ==> rest[i].Valid()
    ensures st.recursion == old(st.recursion) - (if usestencil then 1 else 0)
    ensures gl.rs.stencilRef == st.recursion && gl.rs.stencilOp == Keep
    ensures child.camera != null ==> child.camera.renderFlags == old(child.camera.renderFlags)
    decreases |rest|, 1
  {
    ghost var before := if child.camera != null then child.camera.renderFlags else {};
    RenderNested(rest, gl, st, child, stencils, queries, cfg, samples, contentInvisible);
    ghost var during := if child.camera != null then child.camera.renderFlags else {};
    p.End(gl, child, usestencil);
    if child.camera != null {
      VisibilityRoundTrip(before, during);
    }
  }
}
