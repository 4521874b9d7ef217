/** The graphics device as the portal code sees it: a record of the render
    settings it toggles (stencil, depth, colour mask, texturing, shader effect,
    blending) and an append-only log of what it asked the device to do.
    Every draw in the log carries the settings that were in force when it was
    issued, so the order of toggles and draws can be stated exactly. */
module RenderDevice {

  /** Stencil operation applied where both the stencil and the depth test
      pass. The stencil-fail and depth-fail operations are always KEEP in the
      portal code, so only this one is recorded. */
  datatype StencilOp = Keep | Incr | Decr

  datatype DepthFunc = Less | LEqual | Always

  /** The two depth ranges the portal code uses: glDepthRange(0, 1) and
      glDepthRange(1, 1), the latter pinning every fragment to the far plane. */
  datatype DepthRange = FullRange | FarPlane

  datatype ColorMask = ColorMask(red: bool, green: bool, blue: bool, alpha: bool)

  const AllChannels := ColorMask(true, true, true, true)
  const NoChannels := ColorMask(false, false, false, false)
  const AlphaOnly := ColorMask(false, false, false, true)

  /** The shader effect of the render-state facade: none, or the flat stencil
      shader used to paint portal footprints. */
  datatype Effect = NoEffect | StencilEffect

  /** The blend factors and equation the portal code sets: GL_ONE, GL_ZERO
      and GL_FUNC_ADD. */
  datatype BlendFactor = One | Zero
  datatype BlendEquation = FuncAdd

  /** The stencil function is always GL_EQUAL with mask ~0 in the portal code;
      stencilRef is its reference value. */
  datatype RenderState = RenderState(
    stencilRef: int,
    stencilOp: StencilOp,
    colorMask: ColorMask,
    depthTest: bool,
    depthMask: bool,
    depthFunc: DepthFunc,
    depthRange: DepthRange,
    texture: bool,
    effect: Effect,
    blendSrc: BlendFactor,
    blendDst: BlendFactor,
    blendEquation: BlendEquation)

  datatype Primitive = TriangleFan | TriangleStrip

  /** A vertex-buffer position: a computed index, or one of the reserved
      ranges the flat vertex buffer keeps at fixed places (a full-screen quad
      and the top and bottom stencil caps). */
  datatype VertexIndex = At(index: nat) | FullscreenIndex | StencilTopIndex | StencilBottomIndex

  datatype Event =
    | Draw(prim: Primitive, first: VertexIndex, count: nat, state: RenderState)
    | ClearDepth
    | BeginQuery
    | EndQuery
    | SkyContents

  class Device {
    var rs: RenderState
    var log: seq<Event>

    constructor (initial: RenderState)
      ensures rs == initial && log == []
    {
      rs := initial;
      log := [];
    }

    /** glStencilFunc(GL_EQUAL, ref, ~0) */
    method StencilFunc(ref: int)
      modifies this
      ensures rs == old(rs).(stencilRef := ref) && log == old(log)
    {
      rs := rs.(stencilRef := ref);
    }

    /** glStencilOp(GL_KEEP, GL_KEEP, op) */
    method SetStencilOp(op: StencilOp)
      modifies this
      ensures rs == old(rs).(stencilOp := op) && log == old(log)
    {
      rs := rs.(stencilOp := op);
    }

    method SetColorMask(m: ColorMask)
      modifies this
      ensures rs == old(rs).(colorMask := m) && log == old(log)
    {
      rs := rs.(colorMask := m);
    }

    /** glEnable / glDisable(GL_DEPTH_TEST) */
    method SetDepthTest(on: bool)
      modifies this
      ensures rs == old(rs).(depthTest := on) && log == old(log)
    {
      rs := rs.(depthTest := on);
    }

    method DepthMask(on: bool)
      modifies this
      ensures rs == old(rs).(depthMask := on) && log == old(log)
    {
      rs := rs.(depthMask := on);
    }

    method SetDepthFunc(f: DepthFunc)
      modifies this
      ensures rs == old(rs).(depthFunc := f) && log == old(log)
    {
      rs := rs.(depthFunc := f);
    }

    method SetDepthRange(r: DepthRange)
      modifies this
      ensures rs == old(rs).(depthRange := r) && log == old(log)
    {
      rs := rs.(depthRange := r);
    }

    method EnableTexture(on: bool)
      modifies this
      ensures rs == old(rs).(texture := on) && log == old(log)
    {
      rs := rs.(texture := on);
    }

    method SetEffect(e: Effect)
      modifies this
      ensures rs == old(rs).(effect := e) && log == old(log)
    {
      rs := rs.(effect := e);
    }

    method BlendFunc(src: BlendFactor, dst: BlendFactor)
      modifies this
      ensures rs == old(rs).(blendSrc := src, blendDst := dst) && log == old(log)
    {
      rs := rs.(blendSrc := src, blendDst := dst);
    }

    method SetBlendEquation(eq: BlendEquation)
      modifies this
      ensures rs == old(rs).(blendEquation := eq) && log == old(log)
    {
      rs := rs.(blendEquation := eq);
    }

    /** One draw of `count` vertices starting at `first`, under the current settings. */
    method RenderArray(prim: Primitive, first: VertexIndex, count: nat)
      modifies this
      ensures rs == old(rs) && log == old(log) + [Draw(prim, first, count, rs)]
    {
      log := log + [Draw(prim, first, count, rs)];
    }

    /** glClear(GL_DEPTH_BUFFER_BIT) */
    method ClearDepthBuffer()
      modifies this
      ensures rs == old(rs) && log == old(log) + [ClearDepth]
    {
      log := log + [ClearDepth];
    }

    /** glBeginQuery(GL_SAMPLES_PASSED, ...) */
    method BeginSamplesQuery()
      modifies this
      ensures rs == old(rs) && log == old(log) + [BeginQuery]
    {
      log := log + [BeginQuery];
    }

    /** glEndQuery(GL_SAMPLES_PASSED) */
    method EndSamplesQuery()
      modifies this
      ensures rs == old(rs) && log == old(log) + [EndQuery]
    {
      log := log + [EndQuery];
    }

    /** The contents of a sky portal, drawn as one opaque step. */
    method DrawSky()
      modifies this
      ensures rs == old(rs) && log == old(log) + [SkyContents]
    {
      log := log + [SkyContents];
    }
  }
}
