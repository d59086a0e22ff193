/** The render bridge (CEFCryRenderHandler): accumulates the browser's dirty
    rectangles into one bounding box, and once per presented frame creates
    the GPU texture, uploads the dirty box from the last painted buffer and
    draws the surface. The Direct3D calls are recorded as GpuAction values. */
module RenderBridge {
  import opened Engine

  /** resetdirty's start value for the left and top bounds (not infinity). */
  const DIRTY_SENTINEL: int := 10000

  datatype Rect = Rect(x: int, y: int, width: int, height: int)

  /** The dirty bounds _dx, _dy, _dx2, _dy2. */
  datatype Bounds = Bounds(dx: int, dy: int, dx2: int, dy2: int)

  /** The bounds resetdirty leaves behind. */
  const EMPTY_BOUNDS: Bounds := Bounds(DIRTY_SENTINEL, DIRTY_SENTINEL, 0, 0)

  /** The update gate's test on the bounds: _dx2 > 0 && _dy2 > 0. */
  predicate HasPending(b: Bounds) {
    b.dx2 > 0 && b.dy2 > 0
  }

  predicate Covers(b: Bounds, r: Rect) {
    b.dx <= r.x && b.dy <= r.y && r.x + r.width <= b.dx2 && r.y + r.height <= b.dy2
  }

  predicate Encloses(outer: Bounds, inner: Bounds) {
    outer.dx <= inner.dx && outer.dy <= inner.dy && inner.dx2 <= outer.dx2 && inner.dy2 <= outer.dy2
  }

  /** dirtyarea(x, y, w, h): the bounds grown to take in one rectangle. */
  function AddDirty(b: Bounds, r: Rect): (c: Bounds)
    ensures Covers(c, r) && Encloses(c, b)
    ensures Covers(b, r) ==> c == b
  {
    Bounds(Min(b.dx, r.x), Min(b.dy, r.y), Max(b.dx2, r.x + r.width), Max(b.dy2, r.y + r.height))
  }

  /** The bounds after dirtyarea has been applied to every rectangle in order. */
  function Accumulate(b: Bounds, rs: seq<Rect>): (c: Bounds)
    ensures Encloses(c, b)
    ensures forall r :: r in rs ==> Covers(c, r)
    decreases |rs|
  {
    if rs == [] then b
    else
      var prefix := rs[..|rs| - 1];
      assert rs == prefix + [rs[|rs| - 1]];
      AddDirty(Accumulate(b, prefix), rs[|rs| - 1])
  }

  /** Each bound of the accumulated box is the start bound or the matching
      edge of some added rectangle: the box is the smallest one containing
      the start bounds and every rectangle. */
  lemma {:induction false} AccumulateAttained(b: Bounds, rs: seq<Rect>)
    ensures var c := Accumulate(b, rs);
      && (c.dx == b.dx || exists r :: r in rs && c.dx == r.x)
      && (c.dy == b.dy || exists r :: r in rs && c.dy == r.y)
      && (c.dx2 == b.dx2 || exists r :: r in rs && c.dx2 == r.x + r.width)
      && (c.dy2 == b.dy2 || exists r :: r in rs && c.dy2 == r.y + r.height)
    decreases |rs|
  {
    if rs != [] {
      var prefix := rs[..|rs| - 1];
      var last := rs[|rs| - 1];
      assert rs == prefix + [last];
      AccumulateAttained(b, prefix);
      assert forall r :: r in prefix ==> r in rs;
    }
  }

  /** The accumulated bounds do not depend on the order of the rectangles. */
  lemma {:induction false} AccumulateOrderIndependent(b: Bounds, rs: seq<Rect>, ts: seq<Rect>)
    requires multiset(rs) == multiset(ts)
    ensures Accumulate(b, rs) == Accumulate(b, ts)
  {
    var c, d := Accumulate(b, rs), Accumulate(b, ts);
    AccumulateAttained(b, rs);
    AccumulateAttained(b, ts);
    assert forall r :: r in rs <==> r in ts by {
      forall r ensures r in rs <==> r in ts {
        assert r in rs <==> r in multiset(rs);
        assert r in ts <==> r in multiset(ts);
      }
    }
    assert c.dx == d.dx;
    assert c.dy == d.dy;
    assert c.dx2 == d.dx2;
    assert c.dy2 == d.dy2;
  }

  /** Two adds in either order give the same bounds. */
  lemma AddDirtyCommutes(b: Bounds, r1: Rect, r2: Rect)
    ensures AddDirty(AddDirty(b, r1), r2) == AddDirty(AddDirty(b, r2), r1)
  {
  }

  /** After a reset nothing is pending until the next add. */
  lemma ResetHasNothingPending()
    ensures !HasPending(EMPTY_BOUNDS)
    ensures EMPTY_BOUNDS == Bounds(10000, 10000, 0, 0)
  {
  }

  /** add(10,10,5,5), add(100,100,5,5) after a reset gives (10,10)-(105,105). */
  lemma TwoRectExample()
    ensures Accumulate(EMPTY_BOUNDS, [Rect(10, 10, 5, 5), Rect(100, 100, 5, 5)]) == Bounds(10, 10, 105, 105)
  {
    var rs := [Rect(10, 10, 5, 5), Rect(100, 100, 5, 5)];
    assert rs[..1] == [Rect(10, 10, 5, 5)];
    assert rs[..1][..0] == [];
  }

  // ---------------------------------------------------------------- coordinates

  function Clamp01(r: real): (c: real)
    ensures 0.0 <= c <= 1.0
    ensures 0.0 <= r <= 1.0 ==> c == r
    ensures r < 0.0 ==> c == 0.0
    ensures r > 1.0 ==> c == 1.0
  {
    if r < 0.0 then 0.0 else if r > 1.0 then 1.0 else r
  }

  lemma ScaleUnit(c: real, size: int)
    ensures 0.0 <= c <= 1.0 && size >= 0 ==> 0.0 <= c * size as real <= size as real
  {
    if 0.0 <= c <= 1.0 && size >= 0 {
      assert c * size as real <= 1.0 * size as real;
    }
  }

  lemma DivideByView(f: real, v: real)
    requires v > 0.0
    ensures v * (f / v) == f
    ensures f <= 0.0 ==> f / v <= 0.0
    ensures f >= v ==> f / v >= 1.0
    ensures 0.0 <= f <= v ==> 0.0 <= f / v <= 1.0
  {
  }

  /** The viewport-relative axis: n is f / v, clamped when bLimit. */
  lemma ViewportAxis(f: real, v: real, s: real, bLimit: bool, n: real)
    requires v > 0.0 && n == (if bLimit then Clamp01(f / v) else f / v)
    ensures (!bLimit || 0.0 <= f <= v) ==> v * (n * s) == f * s
    ensures bLimit && f <= 0.0 ==> n * s == 0.0
    ensures bLimit && f >= v ==> n * s == s
  {
    DivideByView(f, v);
    if !bLimit || 0.0 <= f <= v {
      assert n == f / v;
      assert v * (n * s) == (v * n) * s;
    }
  }

  /** ScaleAxis with bCERenderer set: the host coordinate is first made
      relative to the viewport size. */
  function ViewportScale(f: real, view: int, size: int, bLimit: bool): (o: real)
    requires view > 0
    ensures (!bLimit || 0.0 <= f <= view as real) ==> view as real * o == f * size as real
    ensures bLimit && size >= 0 ==> 0.0 <= o <= size as real
    ensures bLimit && f <= 0.0 ==> o == 0.0
    ensures bLimit && f >= view as real ==> o == size as real
  {
    var n := if bLimit then Clamp01(f / view as real) else f / view as real;
    ViewportAxis(f, view as real, size as real, bLimit, n);
    ScaleUnit(n, size);
    n * size as real
  }

  /** Inside the view, the scaled coordinate is f * size / view. */
  lemma ViewportScaleValue(f: real, view: int, size: int, bLimit: bool)
    requires view > 0
    ensures (!bLimit || 0.0 <= f <= view as real) ==> ViewportScale(f, view, size, bLimit) == f * size as real / view as real
  {
    var o := ViewportScale(f, view, size, bLimit);
    if !bLimit || 0.0 <= f <= view as real {
      assert view as real * o == f * size as real;
    }
  }

  /** ScaleAxis without bCERenderer: the coordinate is already relative. */
  function RelativeScale(f: real, size: int, bLimit: bool): (o: real)
    ensures !bLimit ==> o == f * size as real
    ensures bLimit ==> o == Clamp01(f) * size as real
    ensures bLimit && size >= 0 ==> 0.0 <= o <= size as real
  {
    if bLimit then
      var n := Clamp01(f);
      ScaleUnit(n, size);
      n * size as real
    else f * size as real
  }

  /** One axis of ScaleCoordinates. */
  function ScaleAxis(f: real, view: int, size: int, bLimit: bool, bCERenderer: bool): (o: real)
    requires bCERenderer ==> view > 0
    ensures bLimit && size >= 0 ==> 0.0 <= o <= size as real
    ensures !bLimit && !bCERenderer ==> o == f * size as real
    ensures bLimit && !bCERenderer ==> o == Clamp01(f) * size as real
    ensures bCERenderer && (!bLimit || 0.0 <= f <= view as real) ==> view as real * o == f * size as real
    ensures bLimit && bCERenderer && f <= 0.0 ==> o == 0.0
    ensures bLimit && bCERenderer && f >= view as real ==> o == size as real
  {
    if bCERenderer then ViewportScale(f, view, size, bLimit) else RelativeScale(f, size, bLimit)
  }

  /** ScaleCoordinates: divide by the viewport when bCERenderer, clamp to
      [0,1] when bLimit, then multiply by the surface size. */
  function ScaleCoordinates(width: int, height: int, viewport: Viewport,
                            fX: real, fY: real, bLimit: bool, bCERenderer: bool): (o: (real, real))
    requires bCERenderer ==> viewport.Usable()
    ensures bLimit && width >= 0 ==> 0.0 <= o.0 <= width as real
    ensures bLimit && height >= 0 ==> 0.0 <= o.1 <= height as real
    ensures !bLimit && !bCERenderer ==> o.0 == fX * width as real && o.1 == fY * height as real
    ensures bLimit && !bCERenderer ==> o.0 == Clamp01(fX) * width as real && o.1 == Clamp01(fY) * height as real
    ensures bCERenderer && (!bLimit || 0.0 <= fX <= viewport.width as real) ==>
      viewport.width as real * o.0 == fX * width as real
    ensures bCERenderer && (!bLimit || 0.0 <= fY <= viewport.height as real) ==>
      viewport.height as real * o.1 == fY * height as real
  {
    (ScaleAxis(fX, viewport.width, width, bLimit, bCERenderer),
     ScaleAxis(fY, viewport.height, height, bLimit, bCERenderer))
  }

  /** Host pixel (960,540) on a 1920x1080 viewport, limited, lands on the
      centre (512,512) of a 1024x1024 surface. */
  lemma ScaleCentreExample()
    ensures ScaleCoordinates(1024, 1024, Viewport(1920, 1080), 960.0, 540.0, true, true) == (512.0, 512.0)
  {
  }

  /** GetViewRect: the view always spans the whole surface. */
  function GetViewRect(width: int, height: int): (r: (bool, Rect))
    ensures r.0 && r.1.x == 0 && r.1.y == 0
    ensures r.1.width == width && r.1.height == height
  {
    (true, Rect(0, 0, width, height))
  }

  /** GetScreenPoint: view and screen coordinates coincide. */
  function GetScreenPoint(viewX: int, viewY: int): (r: (bool, int, int))
    ensures r.0 && r.1 == viewX && r.2 == viewY
  {
    (true, viewX, viewY)
  }

  // ---------------------------------------------------------------- pixels

  datatype Color = Color(r: Byte, g: Byte, b: Byte, a: Byte)

  predicate OnSurface(width: int, height: int, x: int, y: int) {
    0 <= x < width && 0 <= y < height
  }

  /** A painted buffer holds width x height pixels of 4 bytes. */
  predicate FitsSurface(width: int, height: int, buffer: seq<Byte>) {
    width >= 0 && height >= 0 && |buffer| == width * height * 4
  }

  lemma PixelIndexInBuffer(width: int, height: int, x: int, y: int)
    requires OnSurface(width, height, x, y)
    ensures 0 <= width * y + x && width * y + x + 3 < width * height * 4
  {
    assert width * y <= width * (height - 1);
    assert width * y + x + 3 <= width * height + 2;
    assert width * height >= 1;
  }

  /** GetPixel: transparent black off the surface; on it, the four bytes
      starting at index width*y + x of the last painted buffer. */
  function GetPixel(width: int, height: int, buffer: Option<seq<Byte>>, x: int, y: int): (c: Color)
    requires OnSurface(width, height, x, y) ==> buffer.Some? && FitsSurface(width, height, buffer.value)
    ensures !OnSurface(width, height, x, y) ==> c == Color(0, 0, 0, 0)
    ensures OnSurface(width, height, x, y) ==>
      var n := width * y + x;
      0 <= n && n + 3 < |buffer.value| &&
      c == Color(buffer.value[n], buffer.value[n + 1], buffer.value[n + 2], buffer.value[n + 3])
  {
    if x < 0 || y < 0 || x >= width || y >= height then Color(0, 0, 0, 0)
    else
      PixelIndexInBuffer(width, height, x, y);
      var p := buffer.value;
      var n := width * y + x;
      Color(p[n], p[n + 1], p[n + 2], p[n + 3])
  }

  /** The index is not scaled by the 4 bytes of a pixel, so horizontally
      adjacent reads overlap: the red byte at x+1 is the green byte at x. */
  lemma GetPixelOverlapsNeighbour(width: int, height: int, buffer: seq<Byte>, x: int, y: int)
    requires FitsSurface(width, height, buffer)
    requires OnSurface(width, height, x, y) && OnSurface(width, height, x + 1, y)
    ensures GetPixel(width, height, Some(buffer), x + 1, y).r == GetPixel(width, height, Some(buffer), x, y).g
    ensures OnSurface(width, height, x + 4, y) ==>
      GetPixel(width, height, Some(buffer), x + 1, y).a == GetPixel(width, height, Some(buffer), x + 4, y).r
  {
  }

  // ---------------------------------------------------------------- presenting

  /** What the device reports when CreateResources runs. */
  datatype CreateOutcome = TextureFailed | ViewFailed | Created

  /** D3D11_BOX. */
  datatype Box = Box(left: int, top: int, front: int, right: int, bottom: int, back: int)

  /** The graphics calls the bridge issues, in order. */
  datatype GpuAction =
    | CreateTexture(width: int, height: int)
    | CreateShaderResourceView
    | UpdateSubresource(box: Box, sourceOffset: int, rowPitch: int)
    | DrawFullscreen

  /** The render bridge's book-keeping: which of texture, view and buffer
      exist, and the dirty bounds. */
  datatype GpuState = GpuState(texture: bool, view: bool, buffer: bool, dirty: Bounds)

  datatype Presented = Presented(state: GpuState, actions: seq<GpuAction>)

  /** The upload box: exactly the dirty bounds, one slice deep. */
  function UploadBox(b: Bounds): (box: Box)
    ensures box.left == b.dx && box.top == b.dy && box.right == b.dx2 && box.bottom == b.dy2
    ensures box.front == 0 && box.back == 1
  {
    Box(b.dx, b.dy, 0, b.dx2, b.dy2, 1)
  }

  function RowPitch(width: int): int {
    width * 4
  }

  lemma RowBelowLast(width: int, height: int, y: int)
    ensures 0 <= y < height && width >= 0 ==> width * y <= width * (height - 1)
  {
    if 0 <= y < height && width >= 0 {
      assert width * (height - 1) == width * y + width * (height - 1 - y);
    }
  }

  /** The byte offset of the box's top-left pixel in a buffer of height
      rows of width*4 bytes. */
  function SourceOffset(width: int, height: int, box: Box): (n: int)
    ensures n == 4 * (width * box.top + box.left)
    ensures OnSurface(width, height, box.left, box.top) ==> 0 <= n && n + 4 <= width * height * 4
  {
    RowBelowLast(width, height, box.top);
    box.top * RowPitch(width) + box.left * 4
  }

  /** The upload step of OnPrePresent: taken when texture, buffer, view
      and pending bounds all exist; the bounds are reset by it. */
  function UploadStep(s: GpuState, width: int, height: int): (p: Presented)
    ensures p.state == if UploadGate(s) then s.(dirty := EMPTY_BOUNDS) else s
  {
    if UploadGate(s) then
      var box := UploadBox(s.dirty);
      Presented(s.(dirty := EMPTY_BOUNDS), [UpdateSubresource(box, SourceOffset(width, height, box), RowPitch(width))])
    else Presented(s, [])
  }

  predicate UploadGate(s: GpuState)
    ensures UploadGate(s) ==> s.dirty != EMPTY_BOUNDS && HasPending(s.dirty)
  {
    s.texture && s.buffer && s.view && HasPending(s.dirty)
  }

  /** CreateResources: ask for the texture; ask for a view only if the
      texture came back. */
  function CreateStep(s: GpuState, width: int, height: int, outcome: CreateOutcome): (p: Presented)
    ensures p.state.texture == (outcome != TextureFailed)
    ensures p.state.view == (outcome == Created)
    ensures p.state.buffer == s.buffer && p.state.dirty == s.dirty
  {
    if outcome == TextureFailed then
      Presented(s.(texture := false, view := false), [CreateTexture(width, height)])
    else
      Presented(s.(texture := true, view := outcome == Created), [CreateTexture(width, height), CreateShaderResourceView])
  }

  predicate IsUpload(a: GpuAction) {
    a.UpdateSubresource?
  }

  /** OnPrePresent: nothing while inactive; otherwise create resources when
      there is no texture, upload when the gate holds, draw when a view exists. */
  function Present(s: GpuState, active: real, width: int, height: int, outcome: CreateOutcome): (p: Presented)
    requires s.view ==> s.texture
    ensures p.state.view ==> p.state.texture
    ensures active == 0.0 ==> p == Presented(s, [])
    ensures p.state.buffer == s.buffer
    // creation is attempted exactly when the plugin is active and no texture exists
    ensures CreateTexture(width, height) in p.actions <==> active != 0.0 && !s.texture
    ensures s.texture ==> p.state.texture == s.texture && p.state.view == s.view
    // a draw is issued exactly when the plugin is active and a view exists afterwards
    ensures DrawFullscreen in p.actions <==> active != 0.0 && p.state.view
    // an upload is issued exactly when the gate holds after creation, it uploads the
    // old dirty bounds and it resets them
    ensures (exists a :: a in p.actions && IsUpload(a)) <==>
      active != 0.0 && p.state.view && s.buffer && HasPending(s.dirty)
    ensures active != 0.0 && p.state.view && s.buffer && HasPending(s.dirty) ==>
      var box := UploadBox(s.dirty);
      && UpdateSubresource(box, SourceOffset(width, height, box), width * 4) in p.actions
      && p.state.dirty == EMPTY_BOUNDS
    ensures !(active != 0.0 && p.state.view && s.buffer && HasPending(s.dirty)) ==> p.state.dirty == s.dirty
  {
    if active == 0.0 then Presented(s, [])
    else
      var c := if !s.texture then CreateStep(s, width, height, outcome) else Presented(s, []);
      var u := UploadStep(c.state, width, height);
      var d := if u.state.view then [DrawFullscreen] else [];
      var p := Presented(u.state, c.actions + u.actions + d);
      assert forall a :: a in p.actions && IsUpload(a) ==> a in u.actions;
      assert UploadGate(c.state) ==> u.actions[0] in p.actions && IsUpload(u.actions[0]);
      p
  }

  /** Presenting twice without a paint in between uploads at most once. */
  lemma PresentTwiceUploadsOnce(s: GpuState, active: real, width: int, height: int, o1: CreateOutcome, o2: CreateOutcome)
    requires s.view ==> s.texture
    ensures var p := Present(s, active, width, height, o1);
      var q := Present(p.state, active, width, height, o2);
      forall a :: a in q.actions ==> !IsUpload(a) || !(exists b :: b in p.actions && IsUpload(b))
  {
  }

  /** A view that failed once is never asked for again: with a texture and
      no view, nothing is drawn on any later frame. */
  lemma ViewFailureIsPermanent(s: GpuState, active: real, width: int, height: int, outcome: CreateOutcome)
    requires s.texture && !s.view
    ensures var p := Present(s, active, width, height, outcome);
      !p.state.view && DrawFullscreen !in p.actions && CreateTexture(width, height) !in p.actions
  {
  }

  /** CEF's paint element types: the view itself or a popup widget. */
  datatype PaintElement = PetView | PetPopup

  /** The render handler. The surface size is fixed at construction; the
      buffer is the content of the last paint (the engine's pointer into
      browser memory is modelled by the bytes it pointed at). */
  class RenderHandler {
    const width: int
    const height: int
    var buffer: Option<seq<Byte>>
    var texture: bool
    var view: bool
    var dirty: Bounds

    ghost predicate Valid()
      reads this
    {
      view ==> texture
    }

    function State(): (s: GpuState)
      reads this
      ensures s.texture == texture && s.view == view && s.buffer == buffer.Some? && s.dirty == dirty
    {
      GpuState(texture, view, buffer.Some?, dirty)
    }

    constructor (windowWidth: int, windowHeight: int)
      ensures width == windowWidth && height == windowHeight
      ensures dirty == EMPTY_BOUNDS && buffer == None && !texture && !view
      ensures Valid()
    {
      width, height := windowWidth, windowHeight;
      dirty := EMPTY_BOUNDS;
      buffer, texture, view := None, false, false;
    }

    method ResetDirty()
      modifies this`dirty
      ensures dirty == EMPTY_BOUNDS && !HasPending(dirty)
    {
      dirty := Bounds(DIRTY_SENTINEL, DIRTY_SENTINEL, 0, 0);
    }

    method DirtyArea(x: int, y: int, w: int, h: int)
      modifies this`dirty
      ensures dirty == AddDirty(old(dirty), Rect(x, y, w, h))
    {
      var x2 := x + w;
      var y2 := y + h;
      dirty := Bounds(Min(dirty.dx, x), Min(dirty.dy, y), Max(dirty.dx2, x2), Max(dirty.dy2, y2));
    }

    /** OnPaint: fold every dirty rectangle into the bounds, then keep the
        new buffer (the last paint wins). The element type and the size the
        browser reports are not looked at, so a popup's paint is taken too. */
    method OnPaint(paintType: PaintElement, dirtyRects: seq<Rect>, newBuffer: seq<Byte>, bufferWidth: int, bufferHeight: int)
      requires Valid()
      modifies this`dirty, this`buffer
      ensures Valid()
      ensures dirty == Accumulate(old(dirty), dirtyRects)
      ensures buffer == Some(newBuffer)
    {
      for i := 0 to |dirtyRects|
        invariant dirty == Accumulate(old(dirty), dirtyRects[..i])
      {
        var r := dirtyRects[i];
        assert dirtyRects[..i + 1][..i] == dirtyRects[..i];
        DirtyArea(r.x, r.y, r.width, r.height);
      }
      assert dirtyRects[..|dirtyRects|] == dirtyRects;
      buffer := Some(newBuffer);
    }

    method CreateResources(outcome: CreateOutcome) returns (actions: seq<GpuAction>)
      requires Valid() && !texture
      modifies this`texture, this`view
      ensures Valid()
      ensures Presented(State(), actions) == CreateStep(old(State()), width, height, outcome)
    {
      actions := [CreateTexture(width, height)];
      texture := outcome != TextureFailed;
      if texture {
        actions := actions + [CreateShaderResourceView];
        view := outcome == Created;
      } else {
        view := false;
      }
    }

    method UpdateResources() returns (action: GpuAction)
      requires UploadGate(State())
      modifies this`dirty
      ensures var box := UploadBox(old(dirty));
        action == UpdateSubresource(box, SourceOffset(width, height, box), width * 4)
      ensures dirty == EMPTY_BOUNDS
    {
      var bytesPerRow := width * 4;
      var box := Box(dirty.dx, dirty.dy, 0, dirty.dx2, dirty.dy2, 1);
      ResetDirty();
      var sourceOffset := box.top * bytesPerRow + box.left * 4;
      action := UpdateSubresource(box, sourceOffset, bytesPerRow);
    }

    /** OnPrePresent, one host frame. */
    method OnPrePresent(active: real, outcome: CreateOutcome) returns (actions: seq<GpuAction>)
      requires Valid()
      modifies this`texture, this`view, this`dirty
      ensures Valid()
      ensures Presented(State(), actions) == Present(old(State()), active, width, height, outcome)
    {
      actions := [];
      if active == 0.0 {
        return;
      }
      if !texture {
        actions := CreateResources(outcome);
      }
      if texture && buffer.Some? && view && dirty.dx2 > 0 && dirty.dy2 > 0 {
        var upload := UpdateResources();
        actions := actions + [upload];
      }
      if view {
        actions := actions + [DrawFullscreen];
      }
    }
  }
}
