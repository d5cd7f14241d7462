/** The configuration state of the forward-rendering layer (`RenderLayer`): its
    constructor defaults, the clear colour / render flags / blit flag accessors,
    and the window-resize handler that resizes the primary framebuffer and tells
    the main camera about the new window size. */
module RenderLayer {

  /** A `glm::vec4` of single-precision floats, modelled with reals. */
  datatype Vec4 = Vec4(x: real, y: real, z: real, w: real)

  /** The named post-processing toggles of the `RenderFlags` bitmask. Only the
      colour-correction toggle appears in the layer; a bitmask is the set of
      toggles that are on. */
  datatype RenderFlag = EnableColorCorrection
  type RenderFlags = set<RenderFlag>

  /** The application-layer hooks a layer declares that it overrides. */
  datatype LayerFunction = AppLoad | Render | WindowResize

  /** What the layer itself stores between frames (the GPU objects it owns are
      created on application load and are not part of this state). */
  datatype LayerState = LayerState(
    name: string,
    overrides: set<LayerFunction>,
    blitFbo: bool,
    renderFlags: RenderFlags,
    clearColor: Vec4)

  const DefaultClearColor: Vec4 := Vec4(0.1, 0.1, 0.1, 1.0)

  /** The constructor: the layer is called "Rendering", hooks load, render and
      resize, blits its output, enables colour correction and clears to dark grey. */
  function Create(): (l: LayerState)
    ensures l.blitFbo
    ensures l.renderFlags == {EnableColorCorrection}
    ensures l.clearColor == Vec4(0.1, 0.1, 0.1, 1.0)
    ensures l.name == "Rendering"
    ensures l.overrides == {AppLoad, Render, WindowResize}
  {
    LayerState("Rendering", {AppLoad, Render, WindowResize}, true, {EnableColorCorrection}, DefaultClearColor)
  }

  /** Each getter reads back the field its setter stores: setting a field to
      what its getter returns leaves the layer as it was, and after a setter the
      getter returns the value set (see the setters' contracts). */
  function IsBlitEnabled(l: LayerState): (b: bool)
    ensures SetBlitEnabled(l, b) == l
  {
    l.blitFbo
  }

  function GetClearColor(l: LayerState): (c: Vec4)
    ensures SetClearColor(l, c) == l
  {
    l.clearColor
  }

  function GetRenderFlags(l: LayerState): (f: RenderFlags)
    ensures SetRenderFlags(l, f) == l
  {
    l.renderFlags
  }

  function SetBlitEnabled(l: LayerState, value: bool): (r: LayerState)
    ensures r.blitFbo == value
    ensures r.clearColor == l.clearColor && r.renderFlags == l.renderFlags
    ensures r.name == l.name && r.overrides == l.overrides
  {
    l.(blitFbo := value)
  }

  function SetClearColor(l: LayerState, value: Vec4): (r: LayerState)
    ensures r.clearColor == value
    ensures r.blitFbo == l.blitFbo && r.renderFlags == l.renderFlags
    ensures r.name == l.name && r.overrides == l.overrides
  {
    l.(clearColor := value)
  }

  function SetRenderFlags(l: LayerState, value: RenderFlags): (r: LayerState)
    ensures r.renderFlags == value
    ensures r.blitFbo == l.blitFbo && r.clearColor == l.clearColor
    ensures r.name == l.name && r.overrides == l.overrides
  {
    l.(renderFlags := value)
  }

  /** A getter returns what its setter stored last, a later call to a setter
      overrides an earlier one completely, and the three setters touch disjoint
      parts of the state, so they commute. */
  lemma SettersOverwriteAndCommute(l: LayerState, b1: bool, b2: bool, c1: Vec4, c2: Vec4, f1: RenderFlags, f2: RenderFlags)
    ensures IsBlitEnabled(SetBlitEnabled(l, b1)) == b1
    ensures GetClearColor(SetClearColor(l, c1)) == c1
    ensures GetRenderFlags(SetRenderFlags(l, f1)) == f1
    ensures SetBlitEnabled(SetBlitEnabled(l, b1), b2) == SetBlitEnabled(l, b2)
    ensures SetClearColor(SetClearColor(l, c1), c2) == SetClearColor(l, c2)
    ensures SetRenderFlags(SetRenderFlags(l, f1), f2) == SetRenderFlags(l, f2)
    ensures SetBlitEnabled(SetClearColor(l, c1), b1) == SetClearColor(SetBlitEnabled(l, b1), c1)
    ensures SetBlitEnabled(SetRenderFlags(l, f1), b1) == SetRenderFlags(SetBlitEnabled(l, b1), f1)
    ensures SetClearColor(SetRenderFlags(l, f1), c1) == SetRenderFlags(SetClearColor(l, c1), f1)
  {
  }

  // ---------------------------------------------------------------------------
  // Window resize
  // ---------------------------------------------------------------------------

  /** The components of a `glm::ivec2` are 32-bit signed integers. */
  type Int32 = x: int | -0x8000_0000 <= x < 0x8000_0000

  datatype IVec2 = IVec2(x: Int32, y: Int32)

  /** The sizes the resize handler can change: the primary framebuffer's and the
      window size last passed to the main camera. */
  datatype Targets = Targets(framebuffer: IVec2, cameraWindow: IVec2)

  /** A 32-bit signed product, wrapping around on two's-complement hardware. */
  function Wrap32(v: int): (r: Int32)
    ensures -0x8000_0000 <= v < 0x8000_0000 ==> r == v
  {
    (v + 0x8000_0000) % 0x1_0000_0000 - 0x8000_0000
  }

  /** The guard as the handler writes it: the 32-bit product of the new width
      and height is zero. */
  predicate ResizeIgnoredAsWritten(newSize: IVec2)
  {
    Wrap32(newSize.x * newSize.y) == 0
  }

  /** The guard as intended: a zero width or a zero height (a minimised window). */
  predicate ResizeIgnored(newSize: IVec2)
  {
    newSize.x == 0 || newSize.y == 0
  }

  /** The resize handler as written, with the wrapping product in its guard. */
  function OnWindowResizeAsWritten(t: Targets, newSize: IVec2): (r: Targets)
    ensures ResizeIgnoredAsWritten(newSize) ==> r == t
    ensures !ResizeIgnoredAsWritten(newSize) ==> r.framebuffer == newSize && r.cameraWindow == newSize
  {
    if ResizeIgnoredAsWritten(newSize) then t else Targets(newSize, newSize)
  }

  /** The resize handler with the intended guard: a zero width or height leaves
      both targets as they were; any other size is given to the framebuffer and,
      with the same width and height, to the camera. */
  function OnWindowResize(t: Targets, newSize: IVec2): (r: Targets)
    ensures !ResizeIgnored(newSize) ==> r.framebuffer == newSize && r.cameraWindow == newSize
    ensures ResizeIgnored(newSize) ==> r == t
  {
    if ResizeIgnored(newSize) then t else Targets(newSize, newSize)
  }

  /** Resizing twice to the same size is the same as resizing once, and after any
      resize the framebuffer and the camera agree unless the event was ignored. */
  lemma ResizeIdempotent(t: Targets, newSize: IVec2)
    ensures OnWindowResize(OnWindowResize(t, newSize), newSize) == OnWindowResize(t, newSize)
    ensures var r := OnWindowResize(t, newSize);
      r.framebuffer == r.cameraWindow || r == t
  {
  }

  /** Where the 32-bit product does not overflow, the guard as written and the
      intended guard decide alike, so the two handlers agree. */
  lemma GuardsAgreeWithoutOverflow(t: Targets, newSize: IVec2)
    requires -0x8000_0000 <= newSize.x * newSize.y < 0x8000_0000
    ensures ResizeIgnoredAsWritten(newSize) <==> ResizeIgnored(newSize)
    ensures OnWindowResizeAsWritten(t, newSize) == OnWindowResize(t, newSize)
  {
  }

  /** A 65536 x 65536 window is a real, non-empty size, but its 32-bit product
      wraps to zero, so the handler as written ignores it. */
  lemma AsWrittenIgnoresLargeWindow(t: Targets)
    requires t.framebuffer != IVec2(65536, 65536)
    ensures ResizeIgnoredAsWritten(IVec2(65536, 65536))
    ensures !ResizeIgnored(IVec2(65536, 65536))
    ensures OnWindowResizeAsWritten(t, IVec2(65536, 65536)).framebuffer != IVec2(65536, 65536)
    ensures OnWindowResize(t, IVec2(65536, 65536)).framebuffer == IVec2(65536, 65536)
  {
  }
}
