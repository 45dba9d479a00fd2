/**
 * The point renderers. Two variants share one interface: the client-array
 * renderer hands the caller's arrays to GL at every draw, the buffer-object
 * renderer copies them into three GL buffers when points are added. Both draw
 * a range of points with one draw call, and the shared variable-thickness
 * draw splits a range into maximal runs of equal width. Create picks the
 * variant from the detected capability.
 */
module VertexBuffer {
  import opened Wrappers
  import opened Gl
  import opened PointRuns
  import opened VboSupport

  // ---------------------------------------------------------------------------
  // Saving and restoring the client-array enable flags around a draw

  /** The flags after the guard's release: an array stays enabled only if it
      was enabled when the guard was made and is enabled now. */
  function Restored(saved: ClientArrays, now: ClientArrays): (r: ClientArrays)
    ensures forall a :: Get(r, a) == (Get(saved, a) && Get(now, a))
  {
    ClientArrays(saved.vertex && now.vertex, saved.color && now.color, saved.normal && now.normal)
  }

  /** `now` has every array enabled that `saved` has. */
  predicate Extends(now: ClientArrays, saved: ClientArrays)
  {
    forall a :: Get(saved, a) ==> Get(now, a)
  }

  /** A draw that only enables arrays is undone exactly by the release. */
  lemma RestoreAfterEnabling(saved: ClientArrays, now: ClientArrays)
    requires Extends(now, saved)
    ensures Restored(saved, now) == saved
  {
    assert Get(saved, VertexArray) ==> Get(now, VertexArray);
    assert Get(saved, ColorArray) ==> Get(now, ColorArray);
    assert Get(saved, NormalArray) ==> Get(now, NormalArray);
  }

  /** The arrays enabled during a draw that starts from `e`: the vertex array
      always, the color and normal arrays when the draw switches them on. */
  function WhileDrawing(e: ClientArrays, color: bool, normal: bool): (r: ClientArrays)
    ensures Extends(r, e) && r.vertex
    ensures r.color == (e.color || color) && r.normal == (e.normal || normal)
  {
    ClientArrays(true, e.color || color, e.normal || normal)
  }

  /** GlAutoSaveClientState: records the three enable flags when made and,
      when released, disables each array that was disabled before. */
  class ClientStateGuard {
    var enableVertex: bool
    var enableColor: bool
    var enableNormal: bool

    function Saved(): (e: ClientArrays)
      reads this
    {
      ClientArrays(enableVertex, enableColor, enableNormal)
    }

    constructor (ctx: Context)
      ensures Saved() == ctx.enabled
    {
      enableVertex := ctx.IsEnabled(VertexArray);
      enableColor := ctx.IsEnabled(ColorArray);
      enableNormal := ctx.IsEnabled(NormalArray);
    }

    /** The destructor. */
    method Release(ctx: Context)
      modifies ctx`enabled
      ensures ctx.enabled == Restored(Saved(), old(ctx.enabled))
    {
      if !enableNormal {
        ctx.DisableClientState(NormalArray);
      }
      if !enableColor {
        ctx.DisableClientState(ColorArray);
      }
      if !enableVertex {
        ctx.DisableClientState(VertexArray);
      }
    }
  }

  // ---------------------------------------------------------------------------
  // Client-array renderer

  /** VertexBufferRender: keeps the caller's arrays and points GL at them on
      every draw. */
  class ClientArrayRenderer {
    var widths: Option<seq<Float>>
    var pointCount: int
    var initialized: bool
    var points: Option<seq<Float>>
    var colors: Option<seq<byte>>
    var normals: Option<seq<Float>>

    /** Runs Init, then starts with no points and every array null. */
    constructor (caps: Capability, d: Driver)
      modifies caps
      ensures caps.State() == Detect(old(caps.State()), d)
      ensures GetPointCount() == 0 && !initialized
      ensures widths == None && points == None && colors == None && normals == None
    {
      widths := None;
      pointCount := 0;
      initialized := false;
      points, colors, normals := None, None, None;
      new;
      caps.Init(d);
    }

    /** The stored point count. */
    function GetPointCount(): (n: int)
      reads this
      ensures n == pointCount
    {
      pointCount
    }

    /** The range guard of the basic draw. */
    predicate InRange(start: int, npt: int)
      reads this
    {
      npt > 0 && start + npt <= pointCount
    }

    /** What a basic draw from enable state `e` depends on. */
    function Setup(e: ClientArrays, variableColor: bool): (d: DrawSetup)
      reads this
    {
      DrawSetup(pointCount, WhileDrawing(e, colors.Some? && variableColor, normals.Some?))
    }

    /** Replaces the point count and all four arrays, and marks the renderer
        initialized. */
    method AddPoints(npt: int, pointWidth: Option<seq<Float>>, rgbaColor: Option<seq<byte>>,
                     pts: Option<seq<Float>>, nrm: Option<seq<Float>>)
      modifies this
      ensures initialized && GetPointCount() == npt
      ensures widths == pointWidth && colors == rgbaColor && points == pts && normals == nrm
    {
      initialized := true;
      pointCount := npt;
      widths := pointWidth;
      points := pts;
      colors := rgbaColor;
      normals := nrm;
    }

    /** The double-precision AddPoints is the base class's empty body. */
    method AddDoublePoints(npt: int, pointWidth: Option<seq<Float>>, rgbaColor: Option<seq<byte>>,
                           pts: Option<seq<Double>>, nrm: Option<seq<Float>>)
      ensures unchanged(this)
    {
    }

    /** Draws [start, start + npt) with one draw call when the range is
        non-empty and within the stored points; otherwise does nothing. The
        enable flags are what they were before. */
    method DrawPoints(ctx: Context, start: int, npt: int, variableColor: bool := true)
      modifies ctx`enabled, ctx`trace, ctx`vertexPointer, ctx`colorPointer, ctx`normalPointer
      ensures ctx.trace == old(ctx.trace) + BasicEvents(Setup(old(ctx.enabled), variableColor), start, npt)
      ensures ctx.enabled == old(ctx.enabled)
      ensures ctx.vertexPointer ==
        if InRange(start, npt) then Pointer(GlFloat, ctx.arrayBuffer, Floats(points)) else old(ctx.vertexPointer)
      ensures ctx.colorPointer ==
        if InRange(start, npt) && colors.Some? && variableColor then Pointer(GlUnsignedByte, ctx.arrayBuffer, Bytes(colors))
        else old(ctx.colorPointer)
      ensures ctx.normalPointer ==
        if InRange(start, npt) && normals.Some? then Pointer(GlFloat, ctx.arrayBuffer, Floats(normals)) else old(ctx.normalPointer)
    {
      if npt > 0 && start + npt <= pointCount {
        var guard := new ClientStateGuard(ctx);
        PointArrays(ctx, variableColor);
        ctx.DrawArrays(start, npt);
        RestoreAfterEnabling(guard.Saved(), ctx.enabled);
        guard.Release(ctx);
      }
    }

    /** The set-up part of DrawPoints: enables the arrays the draw uses and
        points each at the caller's data. */
    method PointArrays(ctx: Context, variableColor: bool)
      modifies ctx`enabled, ctx`vertexPointer, ctx`colorPointer, ctx`normalPointer
      ensures ctx.enabled == WhileDrawing(old(ctx.enabled), colors.Some? && variableColor, normals.Some?)
      ensures ctx.vertexPointer == Pointer(GlFloat, ctx.arrayBuffer, Floats(points))
      ensures ctx.colorPointer ==
        if colors.Some? && variableColor then Pointer(GlUnsignedByte, ctx.arrayBuffer, Bytes(colors)) else old(ctx.colorPointer)
      ensures ctx.normalPointer == if normals.Some? then Pointer(GlFloat, ctx.arrayBuffer, Floats(normals)) else old(ctx.normalPointer)
    {
      ctx.EnableClientState(VertexArray);
      ctx.VertexPointer(GlFloat, Floats(points));
      if colors.Some? && variableColor {
        ctx.EnableClientState(ColorArray);
        ctx.ColorPointer(GlUnsignedByte, Bytes(colors));
      }
      if normals.Some? {
        ctx.EnableClientState(NormalArray);
        ctx.NormalPointer(GlFloat, Floats(normals));
      }
    }
  }

  // ---------------------------------------------------------------------------
  // Buffer-object renderer

  /** How many elements of an optional array are uploaded. */
  function Prefix<T>(a: Option<seq<T>>, n: nat): (r: Option<seq<T>>)
    requires a.Some? ==> n <= |a.value|
    ensures r.Some? == a.Some?
    ensures r.Some? ==> r.value == a.value[..n]
  {
    if a.Some? then Some(a.value[..n]) else None
  }

  function Floats(a: Option<seq<Float>>): (r: Option<Payload>)
    ensures r.Some? == a.Some? && (r.Some? ==> r.value == FloatData(a.value))
  {
    if a.Some? then Some(FloatData(a.value)) else None
  }

  function Doubles(a: Option<seq<Double>>): (r: Option<Payload>)
    ensures r.Some? == a.Some? && (r.Some? ==> r.value == DoubleData(a.value))
  {
    if a.Some? then Some(DoubleData(a.value)) else None
  }

  function Bytes(a: Option<seq<byte>>): (r: Option<Payload>)
    ensures r.Some? == a.Some? && (r.Some? ==> r.value == ByteData(a.value))
  {
    if a.Some? then Some(ByteData(a.value)) else None
  }

  /** The buffers after an upload of `p` into buffer h, if there is one. */
  function Store(m: map<Handle, Payload>, h: Handle, p: Option<Payload>): (r: map<Handle, Payload>)
    ensures p.Some? ==> h in r && r[h] == p.value
    ensures forall g :: g != h || p.None? ==> (g in r <==> g in m) && (g in m ==> r[g] == m[g])
  {
    if p.Some? then m[h := p.value] else m
  }

  /** Binds buffer h and uploads `p` into it, if there is a `p`. */
  method UploadInto(ctx: Context, h: Handle, p: Option<Payload>)
    requires h != 0
    modifies ctx`arrayBuffer, ctx`buffers, ctx`trace
    ensures ctx.buffers == Store(old(ctx.buffers), h, p)
    ensures ctx.trace == old(ctx.trace) + Upload(h, p)
    ensures ctx.arrayBuffer == if p.Some? then h else old(ctx.arrayBuffer)
  {
    if p.Some? {
      ctx.BindBuffer(h);
      ctx.BufferData(p.value);
    }
  }

  /** The trace entry of an upload of `p` into buffer h, if there is one. */
  function Upload(h: Handle, p: Option<Payload>): (ev: seq<Event>)
  {
    if p.Some? then [BufferData(h, p.value)] else []
  }

  /** VertexBufferVboRender: copies the points into three buffer objects
      (0 position, 1 color, 2 normal) and draws from them. */
  class VboRenderer {
    var widths: Option<seq<Float>>
    var pointCount: int
    var initialized: bool
    const vboId: array<Handle>
    var hasColor: bool
    var hasNormal: bool
    var isDouble: bool

    /** Three distinct, non-zero buffer names. */
    ghost predicate Valid()
      reads this, vboId
    {
      vboId.Length == 3 && 0 < vboId[0] && 0 < vboId[1] && 0 < vboId[2] &&
      vboId[0] != vboId[1] && vboId[1] != vboId[2] && vboId[0] != vboId[2]
    }

    /** Runs Init, then generates the three buffer names. It calls into the
        extension, so the extension must be available once Init has run. */
    constructor (caps: Capability, d: Driver, ctx: Context)
      requires Detect(caps.State(), d).available
      modifies caps, ctx`lastName
      ensures caps.State() == Detect(old(caps.State()), d)
      ensures Valid() && fresh(vboId)
      ensures GetPointCount() == 0 && !initialized && widths == None
      ensures !isDouble && !hasColor && !hasNormal
      ensures vboId[..] == [old(ctx.lastName) + 1, old(ctx.lastName) + 2, old(ctx.lastName) + 3]
      ensures ctx.lastName == old(ctx.lastName) + 3
    {
      widths := None;
      pointCount := 0;
      initialized := false;
      isDouble, hasColor, hasNormal := false, false, false;
      vboId := new Handle[3];
      new;
      caps.Init(d);
      var names := ctx.GenBuffers(3);
      vboId[0], vboId[1], vboId[2] := names[0], names[1], names[2];
    }

    /** The destructor: unbinds, then deletes the three buffers. */
    method Dispose(ctx: Context)
      requires Valid()
      modifies ctx`arrayBuffer, ctx`buffers
      ensures ctx.arrayBuffer == 0
      ensures ctx.buffers == old(ctx.buffers) - {vboId[0], vboId[1], vboId[2]}
    {
      ctx.BindBuffer(0);
      ctx.DeleteBuffers(vboId[..]);
      assert (set h | h in vboId[..]) == {vboId[0], vboId[1], vboId[2]};
    }

    /** The stored point count. */
    function GetPointCount(): (n: int)
      reads this
      ensures n == pointCount
    {
      pointCount
    }

    /** A count of -1 asks for all stored points. */
    function Count(npt: int): (n: int)
      reads this
    {
      if npt == -1 then pointCount else npt
    }

    predicate InRange(start: int, npt: int)
      reads this
    {
      Count(npt) > 0 && start + Count(npt) <= pointCount
    }

    function Setup(e: ClientArrays, variableColor: bool): (d: DrawSetup)
      reads this
    {
      DrawSetup(pointCount, WhileDrawing(e, hasColor && variableColor, hasNormal))
    }

    /** Draws from the buffers with one draw call when the range is non-empty
        and within the stored points, leaving no buffer bound; otherwise does
        nothing. The enable flags are what they were before. */
    method DrawPoints(ctx: Context, start: int, npt: int, variableColor: bool := true)
      requires Valid()
      modifies ctx`enabled, ctx`arrayBuffer, ctx`trace, ctx`vertexPointer, ctx`colorPointer, ctx`normalPointer
      ensures ctx.trace == old(ctx.trace) + BasicEvents(Setup(old(ctx.enabled), variableColor), start, Count(npt))
      ensures ctx.enabled == old(ctx.enabled)
      ensures ctx.arrayBuffer == if InRange(start, npt) then 0 else old(ctx.arrayBuffer)
      ensures ctx.vertexPointer ==
        if InRange(start, npt) then Pointer(if isDouble then GlDouble else GlFloat, vboId[0], None) else old(ctx.vertexPointer)
      ensures ctx.colorPointer ==
        if InRange(start, npt) && hasColor && variableColor then Pointer(GlUnsignedByte, vboId[1], None) else old(ctx.colorPointer)
      ensures ctx.normalPointer ==
        if InRange(start, npt) && hasNormal then Pointer(GlFloat, vboId[2], None) else old(ctx.normalPointer)
    {
      var n := npt;
      if n == -1 {
        n := pointCount;
      }
      if n > 0 && start + n <= pointCount {
        var guard := new ClientStateGuard(ctx);
        BindArrays(ctx, variableColor);
        ctx.DrawArrays(start, n);
        ctx.BindBuffer(0);
        RestoreAfterEnabling(guard.Saved(), ctx.enabled);
        guard.Release(ctx);
      }
    }

    /** The set-up part of DrawPoints: enables the arrays the draw uses and
        points each at its buffer. */
    method BindArrays(ctx: Context, variableColor: bool)
      requires Valid()
      modifies ctx`enabled, ctx`arrayBuffer, ctx`vertexPointer, ctx`colorPointer, ctx`normalPointer
      ensures ctx.enabled == WhileDrawing(old(ctx.enabled), hasColor && variableColor, hasNormal)
      ensures ctx.arrayBuffer == if hasNormal then vboId[2] else if hasColor && variableColor then vboId[1] else vboId[0]
      ensures ctx.vertexPointer == Pointer(if isDouble then GlDouble else GlFloat, vboId[0], None)
      ensures ctx.colorPointer == if hasColor && variableColor then Pointer(GlUnsignedByte, vboId[1], None) else old(ctx.colorPointer)
      ensures ctx.normalPointer == if hasNormal then Pointer(GlFloat, vboId[2], None) else old(ctx.normalPointer)
    {
      ctx.EnableClientState(VertexArray);
      ctx.BindBuffer(vboId[0]);
      if isDouble {
        ctx.VertexPointer(GlDouble, None);
      } else {
        ctx.VertexPointer(GlFloat, None);
      }
      if variableColor && hasColor {
        ctx.EnableClientState(ColorArray);
        ctx.BindBuffer(vboId[1]);
        ctx.ColorPointer(GlUnsignedByte, None);
      }
      if hasNormal {
        ctx.EnableClientState(NormalArray);
        ctx.BindBuffer(vboId[2]);
        ctx.NormalPointer(GlFloat, None);
      }
    }

    /** The part both AddPoints overloads share: records the count, the
        widths and the precision, and uploads each array that is given into
        its own buffer, replacing that buffer's contents. */
    method Replace(ctx: Context, npt: int, pointWidth: Option<seq<Float>>, position: Option<Payload>,
                   rgbaColor: Option<seq<byte>>, nrm: Option<seq<Float>>, doublePrecision: bool)
      requires Valid()
      modifies this, ctx`arrayBuffer, ctx`buffers, ctx`trace
      ensures Valid()
      ensures initialized && isDouble == doublePrecision && GetPointCount() == npt && widths == pointWidth
      ensures hasColor == rgbaColor.Some? && hasNormal == nrm.Some?
      ensures ctx.trace == old(ctx.trace) + Upload(vboId[0], position) + Upload(vboId[1], Bytes(rgbaColor)) + Upload(vboId[2], Floats(nrm))
      ensures ctx.buffers == Store(Store(Store(old(ctx.buffers), vboId[0], position), vboId[1], Bytes(rgbaColor)), vboId[2], Floats(nrm))
      ensures ctx.arrayBuffer ==
        if nrm.Some? then vboId[2] else if rgbaColor.Some? then vboId[1] else if position.Some? then vboId[0] else old(ctx.arrayBuffer)
    {
      initialized := true;
      isDouble := doublePrecision;
      pointCount := npt;
      widths := pointWidth;
      hasColor := rgbaColor.Some?;
      hasNormal := nrm.Some?;
      UploadAll(ctx, position, Bytes(rgbaColor), Floats(nrm));
    }

    /** Uploads into the position, color and normal buffers in that order,
        each only when its data is given. */
    method UploadAll(ctx: Context, position: Option<Payload>, color: Option<Payload>, normal: Option<Payload>)
      requires Valid()
      modifies ctx`arrayBuffer, ctx`buffers, ctx`trace
      ensures ctx.trace == old(ctx.trace) + Upload(vboId[0], position) + Upload(vboId[1], color) + Upload(vboId[2], normal)
      ensures ctx.buffers == Store(Store(Store(old(ctx.buffers), vboId[0], position), vboId[1], color), vboId[2], normal)
      ensures ctx.arrayBuffer ==
        if normal.Some? then vboId[2] else if color.Some? then vboId[1] else if position.Some? then vboId[0] else old(ctx.arrayBuffer)
    {
      UploadInto(ctx, vboId[0], position);
      UploadInto(ctx, vboId[1], color);
      UploadInto(ctx, vboId[2], normal);
    }

    /** AddPoints with single-precision positions: uploads 3 * npt position
        floats, 4 * npt color bytes and 3 * npt normal floats, each only when
        its array is given. A buffer whose array is not given keeps its contents. */
    method AddPoints(ctx: Context, npt: int, pointWidth: Option<seq<Float>>, rgbaColor: Option<seq<byte>>,
                     pts: Option<seq<Float>>, nrm: Option<seq<Float>>)
      requires Valid() && 0 <= npt
      requires pts.Some? ==> 3 * npt <= |pts.value|
      requires rgbaColor.Some? ==> 4 * npt <= |rgbaColor.value|
      requires nrm.Some? ==> 3 * npt <= |nrm.value|
      modifies this, ctx`arrayBuffer, ctx`buffers, ctx`trace
      ensures Valid()
      ensures initialized && !isDouble && GetPointCount() == npt && widths == pointWidth
      ensures hasColor == rgbaColor.Some? && hasNormal == nrm.Some?
      ensures ctx.trace == old(ctx.trace) + Upload(vboId[0], Floats(Prefix(pts, 3 * npt)))
        + Upload(vboId[1], Bytes(Prefix(rgbaColor, 4 * npt))) + Upload(vboId[2], Floats(Prefix(nrm, 3 * npt)))
      ensures pts.Some? ==> vboId[0] in ctx.buffers && ctx.buffers[vboId[0]] == FloatData(pts.value[..3 * npt])
      ensures rgbaColor.Some? ==> vboId[1] in ctx.buffers && ctx.buffers[vboId[1]] == ByteData(rgbaColor.value[..4 * npt])
      ensures nrm.Some? ==> vboId[2] in ctx.buffers && ctx.buffers[vboId[2]] == FloatData(nrm.value[..3 * npt])
      ensures forall h ::
        (h in old(ctx.buffers) ==> h in ctx.buffers) &&
        (h in ctx.buffers ==> h in old(ctx.buffers) || h in Uploaded(pts.Some?, rgbaColor.Some?, nrm.Some?))
      ensures forall h :: h in old(ctx.buffers) && h !in Uploaded(pts.Some?, rgbaColor.Some?, nrm.Some?) ==>
        ctx.buffers[h] == old(ctx.buffers)[h]
      ensures ctx.arrayBuffer ==
        if nrm.Some? then vboId[2] else if rgbaColor.Some? then vboId[1] else if pts.Some? then vboId[0] else old(ctx.arrayBuffer)
    {
      Replace(ctx, npt, pointWidth, Floats(Prefix(pts, 3 * npt)), Prefix(rgbaColor, 4 * npt), Prefix(nrm, 3 * npt), false);
    }

    /** AddPoints with double-precision positions: as the single-precision
        overload, but the positions are doubles and the precision flag is set. */
    method AddDoublePoints(ctx: Context, npt: int, pointWidth: Option<seq<Float>>, rgbaColor: Option<seq<byte>>,
                           pts: Option<seq<Double>>, nrm: Option<seq<Float>>)
      requires Valid() && 0 <= npt
      requires pts.Some? ==> 3 * npt <= |pts.value|
      requires rgbaColor.Some? ==> 4 * npt <= |rgbaColor.value|
      requires nrm.Some? ==> 3 * npt <= |nrm.value|
      modifies this, ctx`arrayBuffer, ctx`buffers, ctx`trace
      ensures Valid()
      ensures initialized && isDouble && GetPointCount() == npt && widths == pointWidth
      ensures hasColor == rgbaColor.Some? && hasNormal == nrm.Some?
      ensures ctx.trace == old(ctx.trace) + Upload(vboId[0], Doubles(Prefix(pts, 3 * npt)))
        + Upload(vboId[1], Bytes(Prefix(rgbaColor, 4 * npt))) + Upload(vboId[2], Floats(Prefix(nrm, 3 * npt)))
      ensures pts.Some? ==> vboId[0] in ctx.buffers && ctx.buffers[vboId[0]] == DoubleData(pts.value[..3 * npt])
      ensures rgbaColor.Some? ==> vboId[1] in ctx.buffers && ctx.buffers[vboId[1]] == ByteData(rgbaColor.value[..4 * npt])
      ensures nrm.Some? ==> vboId[2] in ctx.buffers && ctx.buffers[vboId[2]] == FloatData(nrm.value[..3 * npt])
      ensures forall h ::
        (h in old(ctx.buffers) ==> h in ctx.buffers) &&
        (h in ctx.buffers ==> h in old(ctx.buffers) || h in Uploaded(pts.Some?, rgbaColor.Some?, nrm.Some?))
      ensures forall h :: h in old(ctx.buffers) && h !in Uploaded(pts.Some?, rgbaColor.Some?, nrm.Some?) ==>
        ctx.buffers[h] == old(ctx.buffers)[h]
      ensures ctx.arrayBuffer ==
        if nrm.Some? then vboId[2] else if rgbaColor.Some? then vboId[1] else if pts.Some? then vboId[0] else old(ctx.arrayBuffer)
    {
      Replace(ctx, npt, pointWidth, Doubles(Prefix(pts, 3 * npt)), Prefix(rgbaColor, 4 * npt), Prefix(nrm, 3 * npt), true);
    }

    /** The buffers an AddPoints call writes, given which arrays are present. */
    function Uploaded(position: bool, color: bool, normal: bool): (hs: set<Handle>)
      reads this, vboId
      requires vboId.Length == 3
    {
      (if position then {vboId[0]} else {}) + (if color then {vboId[1]} else {}) + (if normal then {vboId[2]} else {})
    }

    /** AddRgbPoints: expands 3-byte colors to 4 bytes with alpha 0, widens
        the positions to double precision and adds them through the
        double-precision AddPoints. Both vectors are local and start empty,
        so the data pointer of one that stays empty is null. */
    method AddRgbPoints(ctx: Context, npt: nat, pointWidth: Option<seq<Float>>, rgbColor: Option<seq<byte>>,
                        pts: seq<Float>, nrm: Option<seq<Float>>)
      requires Valid()
      requires 3 * npt <= |pts|
      requires rgbColor.Some? ==> 3 * npt <= |rgbColor.value|
      requires nrm.Some? ==> 3 * npt <= |nrm.value|
      modifies this, ctx`arrayBuffer, ctx`buffers, ctx`trace
      ensures Valid()
      ensures initialized && isDouble && GetPointCount() == npt && widths == pointWidth
      ensures hasColor == (rgbColor.Some? && npt > 0) && hasNormal == nrm.Some?
      ensures ctx.trace == old(ctx.trace) + Upload(vboId[0], Doubles(VectorData(pts[..3 * npt])))
        + Upload(vboId[1], Bytes(if rgbColor.Some? then VectorData(Rgba(rgbColor.value, npt)) else None))
        + Upload(vboId[2], Floats(Prefix(nrm, 3 * npt)))
      ensures npt > 0 ==> vboId[0] in ctx.buffers && ctx.buffers[vboId[0]] == DoubleData(pts[..3 * npt])
      ensures rgbColor.Some? && npt > 0 ==> vboId[1] in ctx.buffers && ctx.buffers[vboId[1]] == ByteData(Rgba(rgbColor.value, npt))
      ensures nrm.Some? ==> vboId[2] in ctx.buffers && ctx.buffers[vboId[2]] == FloatData(nrm.value[..3 * npt])
      ensures forall h :: h in old(ctx.buffers) && h !in Uploaded(npt > 0, rgbColor.Some? && npt > 0, nrm.Some?) ==>
        h in ctx.buffers && ctx.buffers[h] == old(ctx.buffers)[h]
      ensures forall h ::
        (h in old(ctx.buffers) ==> h in ctx.buffers) &&
        (h in ctx.buffers ==> h in old(ctx.buffers) || h in Uploaded(npt > 0, rgbColor.Some? && npt > 0, nrm.Some?))
      ensures ctx.arrayBuffer ==
        if nrm.Some? then vboId[2] else if rgbColor.Some? && npt > 0 then vboId[1] else if npt > 0 then vboId[0] else old(ctx.arrayBuffer)
    {
      var colors: seq<byte> := [];
      if rgbColor.Some? {
        colors := ExpandRgb(rgbColor.value, npt);
      }
      var points := WidenPositions(pts, npt);
      assert points[..3 * npt] == points;
      assert |colors| > 0 ==> colors[..4 * npt] == colors;
      AddDoublePoints(ctx, npt, pointWidth, VectorData(colors), VectorData(points), nrm);
    }
  }

  /** std::vector::data() of a vector that never allocated: null when empty. */
  function VectorData<T>(v: seq<T>): (r: Option<seq<T>>)
    ensures r.None? <==> |v| == 0
    ensures r.Some? ==> r.value == v
  {
    if |v| == 0 then None else Some(v)
  }

  /** The first n RGB triples of `rgb`, each followed by an alpha byte 0. */
  function Rgba(rgb: seq<byte>, n: nat): (rgba: seq<byte>)
    requires 3 * n <= |rgb|
  {
    if n == 0 then [] else Rgba(rgb, n - 1) + [rgb[3 * (n - 1)], rgb[3 * (n - 1) + 1], rgb[3 * (n - 1) + 2], 0]
  }

  /** Color i of a 4-byte-per-color buffer. */
  function Quad(s: seq<byte>, i: nat): (q: seq<byte>)
    requires 4 * i + 4 <= |s|
  {
    s[4 * i..4 * i + 4]
  }

  /** Color i of a 3-byte-per-color buffer. */
  function Triple(s: seq<byte>, i: nat): (t: seq<byte>)
    requires 3 * i + 3 <= |s|
  {
    s[3 * i..3 * i + 3]
  }

  /** Color i of the expansion is input color i followed by alpha 0. */
  lemma {:induction false} RgbaLayout(rgb: seq<byte>, n: nat)
    requires 3 * n <= |rgb|
    ensures |Rgba(rgb, n)| == 4 * n
    ensures forall i :: 0 <= i < n ==> Quad(Rgba(rgb, n), i) == Triple(rgb, i) + [0]
  {
    if n > 0 {
      RgbaLayout(rgb, n - 1);
      var prev := Rgba(rgb, n - 1);
      var r := Rgba(rgb, n);
      assert r == prev + [rgb[3 * (n - 1)], rgb[3 * (n - 1) + 1], rgb[3 * (n - 1) + 2], 0];
      forall i | 0 <= i < n
        ensures Quad(r, i) == Triple(rgb, i) + [0]
      {
        if i < n - 1 {
          assert Quad(r, i) == Quad(prev, i);
        } else {
          assert Quad(r, i) == r[4 * (n - 1)..];
        }
      }
    }
  }

  /** Writing the colour of point i into a buffer whose first i quads are
      expanded and whose quad i ends in 0 expands the first i + 1 quads and
      leaves the rest alone. */
  lemma ExpandStep(rgb: seq<byte>, i: nat, a: seq<byte>, b: seq<byte>)
    requires 3 * (i + 1) <= |rgb| && 4 * (i + 1) <= |a|
    requires a[..4 * i] == Rgba(rgb, i) && a[i * 4 + 3] == 0
    requires b == a[i * 4 := rgb[i * 3]][i * 4 + 1 := rgb[i * 3 + 1]][i * 4 + 2 := rgb[i * 3 + 2]]
    ensures |b| == |a| && b[..4 * (i + 1)] == Rgba(rgb, i + 1)
    ensures forall j :: 4 * i + 3 <= j < |a| ==> b[j] == a[j]
  {
    assert b[..4 * (i + 1)] == a[..4 * i] + [rgb[3 * i], rgb[3 * i + 1], rgb[3 * i + 2], 0];
  }

  /** The color loop of AddRgbPoints: a zero-filled vector of 4 * npt bytes
      into which each RGB triple is copied. */
  method ExpandRgb(rgb: seq<byte>, npt: nat) returns (rgba: seq<byte>)
    requires 3 * npt <= |rgb|
    ensures rgba == Rgba(rgb, npt)
    ensures |rgba| == 4 * npt
    ensures forall i :: 0 <= i < npt ==> Quad(rgba, i) == Triple(rgb, i) + [0]
  {
    rgba := seq(4 * npt, _ => 0);
    var i := 0;
    while i < npt
      invariant 0 <= i <= npt && |rgba| == 4 * npt
      invariant rgba[..4 * i] == Rgba(rgb, i)
      invariant forall j :: 4 * i <= j < 4 * npt ==> rgba[j] == 0
    {
      ghost var before := rgba;
      rgba := rgba[i * 4 := rgb[i * 3]][i * 4 + 1 := rgb[i * 3 + 1]][i * 4 + 2 := rgb[i * 3 + 2]];
      ExpandStep(rgb, i, before, rgba);
      i := i + 1;
    }
    assert rgba == rgba[..4 * npt];
    RgbaLayout(rgb, npt);
  }

  /** The position loop of AddRgbPoints: 3 * npt components copied one by one
      into a double-precision buffer. */
  method WidenPositions(pts: seq<Float>, npt: nat) returns (wide: seq<Double>)
    requires 3 * npt <= |pts|
    ensures wide == pts[..3 * npt]
  {
    var points := new Double[3 * npt];
    var i := 0;
    while i < npt
      invariant 0 <= i <= npt
      invariant points[..3 * i] == pts[..3 * i]
    {
      points[i * 3] := pts[i * 3];
      points[i * 3 + 1] := pts[i * 3 + 1];
      points[i * 3 + 2] := pts[i * 3 + 2];
      assert points[..3 * (i + 1)] == points[..3 * i] + [pts[3 * i], pts[3 * i + 1], pts[3 * i + 2]];
      assert pts[..3 * (i + 1)] == pts[..3 * i] + [pts[3 * i], pts[3 * i + 1], pts[3 * i + 2]];
      i := i + 1;
    }
    wide := points[..];
    assert wide == points[..3 * npt];
  }

  // ---------------------------------------------------------------------------
  // The renderer interface

  /** The two variants behind the common interface. */
  datatype Renderer = ClientVariant(client: ClientArrayRenderer) | VboVariant(vbo: VboRenderer)
  {
    function Objects(): (os: set<object>)
    {
      match this
      case ClientVariant(c) => {c}
      case VboVariant(v) => {v, v.vboId}
    }

    ghost predicate Valid()
      reads Objects()
    {
      VboVariant? ==> vbo.Valid()
    }

    /** The stored point count of the variant behind the interface. */
    function GetPointCount(): (n: int)
      reads Objects()
      ensures ClientVariant? ==> n == client.pointCount
      ensures VboVariant? ==> n == vbo.pointCount
    {
      match this
      case ClientVariant(c) => c.pointCount
      case VboVariant(v) => v.pointCount
    }

    function Initialized(): (b: bool)
      reads Objects()
    {
      match this
      case ClientVariant(c) => c.initialized
      case VboVariant(v) => v.initialized
    }

    function Widths(): (w: Option<seq<Float>>)
      reads Objects()
    {
      match this
      case ClientVariant(c) => c.widths
      case VboVariant(v) => v.widths
    }

    /** The count a basic draw works with (-1 means all points for the
        buffer-object variant). */
    function Count(npt: int): (n: int)
      reads Objects()
    {
      match this
      case ClientVariant(c) => npt
      case VboVariant(v) => v.Count(npt)
    }

    function Setup(e: ClientArrays, variableColor: bool): (d: DrawSetup)
      reads Objects()
    {
      match this
      case ClientVariant(c) => c.Setup(e, variableColor)
      case VboVariant(v) => v.Setup(e, variableColor)
    }

    /** The count the variable-thickness draw works with: 0 means all points. */
    function Effective(npt: int): (n: int)
      reads Objects()
    {
      if npt == 0 then GetPointCount() else npt
    }

    /** The basic draw of either variant, with that variant's effect on the
        bound buffer and the attribute pointers. */
    method DrawPoints(ctx: Context, start: int, npt: int, variableColor: bool := true)
      requires Valid()
      modifies ctx`enabled, ctx`arrayBuffer, ctx`trace, ctx`vertexPointer, ctx`colorPointer, ctx`normalPointer
      ensures ctx.trace == old(ctx.trace) + BasicEvents(Setup(old(ctx.enabled), variableColor), start, Count(npt))
      ensures ctx.enabled == old(ctx.enabled)
      ensures ctx.arrayBuffer == if VboVariant? && vbo.InRange(start, npt) then 0 else old(ctx.arrayBuffer)
      ensures ClientVariant? ==>
        ctx.vertexPointer == if client.InRange(start, npt) then Pointer(GlFloat, ctx.arrayBuffer, Floats(client.points))
                             else old(ctx.vertexPointer)
      ensures ClientVariant? ==>
        ctx.colorPointer ==
          if client.InRange(start, npt) && client.colors.Some? && variableColor
          then Pointer(GlUnsignedByte, ctx.arrayBuffer, Bytes(client.colors)) else old(ctx.colorPointer)
      ensures ClientVariant? ==>
        ctx.normalPointer ==
          if client.InRange(start, npt) && client.normals.Some? then Pointer(GlFloat, ctx.arrayBuffer, Floats(client.normals))
          else old(ctx.normalPointer)
      ensures VboVariant? ==>
        ctx.vertexPointer ==
          if vbo.InRange(start, npt) then Pointer(if vbo.isDouble then GlDouble else GlFloat, vbo.vboId[0], None)
          else old(ctx.vertexPointer)
      ensures VboVariant? ==>
        ctx.colorPointer ==
          if vbo.InRange(start, npt) && vbo.hasColor && variableColor then Pointer(GlUnsignedByte, vbo.vboId[1], None)
          else old(ctx.colorPointer)
      ensures VboVariant? ==>
        ctx.normalPointer ==
          if vbo.InRange(start, npt) && vbo.hasNormal then Pointer(GlFloat, vbo.vboId[2], None) else old(ctx.normalPointer)
    {
      match this
      case ClientVariant(c) => c.DrawPoints(ctx, start, npt, variableColor);
      case VboVariant(v) => v.DrawPoints(ctx, start, npt, variableColor);
    }

    /** The base class's DrawPoints(start, npt, bVariableThickness,
        bVariableColor). With variable thickness it scans the widths once,
        setting the point size and issuing one basic draw per maximal run of
        equal width; without, it issues one basic draw for the whole range.
        A buffer-object draw that draws leaves no buffer bound. */
    method DrawPointsVarying(ctx: Context, start: int, npt: int, variableThickness: bool, variableColor: bool)
      requires Valid()
      requires variableThickness ==>
        Widths().Some? && 0 <= start < |Widths().value| && start + Effective(npt) <= |Widths().value|
      modifies ctx`enabled, ctx`arrayBuffer, ctx`trace, ctx`vertexPointer, ctx`colorPointer, ctx`normalPointer
      ensures variableThickness ==>
        ctx.trace == old(ctx.trace + ThicknessEvents(Widths().value, start, Effective(npt), Setup(ctx.enabled, variableColor)))
      ensures variableThickness ==>
        ctx.arrayBuffer ==
          old(if VboVariant? && HasDraw(ThicknessEvents(Widths().value, start, Effective(npt), Setup(ctx.enabled, variableColor)))
              then 0 else ctx.arrayBuffer)
      ensures !variableThickness ==>
        ctx.trace == old(ctx.trace + BasicEvents(Setup(ctx.enabled, variableColor), start, Count(Effective(npt))))
      ensures variableThickness ==>
        (ctx.vertexPointer, ctx.colorPointer, ctx.normalPointer) ==
          PointersAfter(old(ThicknessEvents(Widths().value, start, Effective(npt), Setup(ctx.enabled, variableColor))),
                        old(ctx.arrayBuffer), variableColor, old((ctx.vertexPointer, ctx.colorPointer, ctx.normalPointer)))
      ensures !variableThickness ==>
        ctx.arrayBuffer == old(if VboVariant? && vbo.InRange(start, Effective(npt)) then 0 else ctx.arrayBuffer)
      ensures !variableThickness ==>
        (ctx.vertexPointer, ctx.colorPointer, ctx.normalPointer) ==
          PointersAfter(old(BasicEvents(Setup(ctx.enabled, variableColor), start, Count(Effective(npt)))),
                        old(ctx.arrayBuffer), variableColor, old((ctx.vertexPointer, ctx.colorPointer, ctx.normalPointer)))
      ensures ctx.enabled == old(ctx.enabled)
    {
      ghost var d := Setup(ctx.enabled, variableColor);
      var n := npt;
      if n == 0 {
        n := GetPointCount();
      }
      if variableThickness {
        ScanWidths(ctx, Widths().value, start, n, variableColor, d);
      } else {
        DrawPoints(ctx, start, n, variableColor);
        BasicEventsDraw(d, start, Count(n));
      }
    }

    /** The bound buffer after the events `ev` of a draw that began with
        buffer b0 bound: 0 once a buffer-object draw has drawn, else b0. */
    ghost function BoundAfter(ev: seq<Event>, b0: Handle): (b: Handle)
      ensures b == 0 || b == b0
    {
      if VboVariant? && HasDraw(ev) then 0 else b0
    }

    /** The vertex, color and normal pointers after the events `ev` of a draw
        that began with buffer b0 bound and pointers p0. Every basic draw that
        draws sets the same pointers: the vertex pointer, and the color and
        normal pointers of the arrays it enables, address the variant's data;
        the others keep their pointers. */
    ghost function PointersAfter(ev: seq<Event>, b0: Handle, variableColor: bool, p0: Pointers): (p: Pointers)
      requires Valid()
      reads Objects()
    {
      if !HasDraw(ev) then p0
      else match this
        case ClientVariant(c) =>
          (Pointer(GlFloat, b0, Floats(c.points)),
           if c.colors.Some? && variableColor then Pointer(GlUnsignedByte, b0, Bytes(c.colors)) else p0.1,
           if c.normals.Some? then Pointer(GlFloat, b0, Floats(c.normals)) else p0.2)
        case VboVariant(v) =>
          (Pointer(if v.isDouble then GlDouble else GlFloat, v.vboId[0], None),
           if v.hasColor && variableColor then Pointer(GlUnsignedByte, v.vboId[1], None) else p0.1,
           if v.hasNormal then Pointer(GlFloat, v.vboId[2], None) else p0.2)
    }

    /** The variable-thickness scan over the widths `w` of [start, start + n):
        a point size for the first run, then for each later run the draw of
        the run before it and its own point size, then the draw of the last
        run. `d` is the draw set-up, which no step of the scan changes. */
    method ScanWidths(ctx: Context, w: seq<Float>, start: int, n: int, variableColor: bool, ghost d: DrawSetup)
      requires Valid() && d == Setup(ctx.enabled, variableColor)
      requires 0 <= start < |w| && start + n <= |w|
      modifies ctx`enabled, ctx`arrayBuffer, ctx`trace, ctx`vertexPointer, ctx`colorPointer, ctx`normalPointer
      ensures ctx.trace == old(ctx.trace) + ThicknessEvents(w, start, n, d)
      ensures ctx.arrayBuffer == BoundAfter(ThicknessEvents(w, start, n, d), old(ctx.arrayBuffer))
      ensures (ctx.vertexPointer, ctx.colorPointer, ctx.normalPointer) == PointersAfter(ThicknessEvents(w, start, n, d), old(ctx.arrayBuffer), variableColor, old((ctx.vertexPointer, ctx.colorPointer, ctx.normalPointer)))
      ensures ctx.enabled == old(ctx.enabled)
    {
      var lastIndex := start;
      var lastWidth := w[start];
      ctx.PointSize(lastWidth);
      ghost var ev := [PointSize(lastWidth)];
      assert !HasDraw(ev);
      if n <= 0 {
        // The scan loop and the final draw do nothing on an empty range.
        ScanEmpty(w, start, n, d);
        return;
      }
      ScanBegin(w, start, n, d);
      var i := start;
      ghost var done: seq<Run> := [];
      while i < start + n
        invariant Scanning(w, start, n, lastIndex, i, done) && Emitted(done, w[lastIndex], d, ev)
        invariant lastWidth == w[lastIndex]
        invariant ctx.trace == old(ctx.trace) + ev
        invariant ctx.arrayBuffer == BoundAfter(ev, old(ctx.arrayBuffer))
        invariant (ctx.vertexPointer, ctx.colorPointer, ctx.normalPointer) == PointersAfter(ev, old(ctx.arrayBuffer), variableColor, old((ctx.vertexPointer, ctx.colorPointer, ctx.normalPointer)))
        invariant ctx.enabled == old(ctx.enabled)
        invariant d == Setup(ctx.enabled, variableColor)
      {
        lastIndex, lastWidth, done, ev :=
          ScanPoint(ctx, w, start, n, i, lastIndex, lastWidth, variableColor, d, old(ctx.trace), old(ctx.arrayBuffer), old((ctx.vertexPointer, ctx.colorPointer, ctx.normalPointer)), done, ev);
        i := i + 1;
      }
      ScanFinish(w, start, n, lastIndex, done, d, ev);
      if i - lastIndex > 0 {
        DrawRun(ctx, lastIndex, i - lastIndex, variableColor, d, old(ctx.trace), old(ctx.arrayBuffer), old((ctx.vertexPointer, ctx.colorPointer, ctx.normalPointer)), ev);
      }
    }

    /** One step of the scan at point i: a point of the open run's width
        extends the open run; a point of another width completes the open
        run, draws it, sets the new width and opens a new run at i. */
    method ScanPoint(ctx: Context, w: seq<Float>, start: int, n: int, i: int, last: int, lastWidth: Float,
                     variableColor: bool, ghost d: DrawSetup, ghost t0: seq<Event>, ghost b0: Handle,
                     ghost p0: Pointers, ghost done: seq<Run>, ghost ev: seq<Event>)
      returns (last': int, lastWidth': Float, ghost done': seq<Run>, ghost ev': seq<Event>)
      requires Valid() && d == Setup(ctx.enabled, variableColor)
      requires Scanning(w, start, n, last, i, done) && Emitted(done, w[last], d, ev)
      requires i < start + n && lastWidth == w[last]
      requires ctx.trace == t0 + ev && ctx.arrayBuffer == BoundAfter(ev, b0)
      requires (ctx.vertexPointer, ctx.colorPointer, ctx.normalPointer) == PointersAfter(ev, b0, variableColor, p0)
      modifies ctx`enabled, ctx`arrayBuffer, ctx`trace, ctx`vertexPointer, ctx`colorPointer, ctx`normalPointer
      ensures Scanning(w, start, n, last', i + 1, done') && Emitted(done', w[last'], d, ev')
      ensures lastWidth' == w[last']
      ensures ctx.trace == t0 + ev' && ctx.arrayBuffer == BoundAfter(ev', b0)
      ensures (ctx.vertexPointer, ctx.colorPointer, ctx.normalPointer) == PointersAfter(ev', b0, variableColor, p0)
      ensures ctx.enabled == old(ctx.enabled)
      ensures d == Setup(ctx.enabled, variableColor)
    {
      if w[i] != lastWidth {
        ScanChange(w, start, n, last, i, done);
        EmitRun(done, Run(last, i - last, w[last]), w[i], d, ev);
        NextRun(ctx, last, i - last, w[i], variableColor, d, t0, b0, p0, ev);
        last', lastWidth' := i, w[i];
        done', ev' := done + [Run(last, i - last, w[last])], ev + BasicEvents(d, last, i - last) + [PointSize(w[i])];
      } else {
        ScanSame(w, start, n, last, i, done);
        last', lastWidth', done', ev' := last, lastWidth, done, ev;
      }
    }

    /** The basic draw of a completed run of len > 0 points, then the point
        size of the next run, appended to the events `ev` emitted since `t0`. */
    method NextRun(ctx: Context, first: int, len: int, nextWidth: Float, variableColor: bool, ghost d: DrawSetup,
                   ghost t0: seq<Event>, ghost b0: Handle, ghost p0: Pointers, ghost ev: seq<Event>)
      requires Valid() && len > 0 && d == Setup(ctx.enabled, variableColor)
      requires ctx.trace == t0 + ev && ctx.arrayBuffer == BoundAfter(ev, b0)
      requires (ctx.vertexPointer, ctx.colorPointer, ctx.normalPointer) == PointersAfter(ev, b0, variableColor, p0)
      modifies ctx`enabled, ctx`arrayBuffer, ctx`trace, ctx`vertexPointer, ctx`colorPointer, ctx`normalPointer
      ensures ctx.trace == t0 + (ev + BasicEvents(d, first, len) + [PointSize(nextWidth)])
      ensures ctx.arrayBuffer == BoundAfter(ev + BasicEvents(d, first, len) + [PointSize(nextWidth)], b0)
      ensures (ctx.vertexPointer, ctx.colorPointer, ctx.normalPointer) == PointersAfter(ev + BasicEvents(d, first, len) + [PointSize(nextWidth)], b0, variableColor, p0)
      ensures ctx.enabled == old(ctx.enabled)
      ensures d == Setup(ctx.enabled, variableColor)
    {
      DrawRun(ctx, first, len, variableColor, d, t0, b0, p0, ev);
      ctx.PointSize(nextWidth);
      HasDrawAppend(ev + BasicEvents(d, first, len), [PointSize(nextWidth)]);
      assert !HasDraw([PointSize(nextWidth)]);
    }

    /** The basic draw of one run of len > 0 points, appended to the events
        `ev` emitted since `t0`. */
    method DrawRun(ctx: Context, first: int, len: int, variableColor: bool, ghost d: DrawSetup,
                   ghost t0: seq<Event>, ghost b0: Handle, ghost p0: Pointers, ghost ev: seq<Event>)
      requires Valid() && len > 0 && d == Setup(ctx.enabled, variableColor)
      requires ctx.trace == t0 + ev && ctx.arrayBuffer == BoundAfter(ev, b0)
      requires (ctx.vertexPointer, ctx.colorPointer, ctx.normalPointer) == PointersAfter(ev, b0, variableColor, p0)
      modifies ctx`enabled, ctx`arrayBuffer, ctx`trace, ctx`vertexPointer, ctx`colorPointer, ctx`normalPointer
      ensures ctx.trace == t0 + (ev + BasicEvents(d, first, len))
      ensures ctx.arrayBuffer == BoundAfter(ev + BasicEvents(d, first, len), b0)
      ensures (ctx.vertexPointer, ctx.colorPointer, ctx.normalPointer) == PointersAfter(ev + BasicEvents(d, first, len), b0, variableColor, p0)
      ensures ctx.enabled == old(ctx.enabled)
      ensures d == Setup(ctx.enabled, variableColor)
    {
      DrawPoints(ctx, first, len, variableColor);
      HasDrawAppend(ev, BasicEvents(d, first, len));
      BasicEventsDraw(d, first, len);
    }
  }

  /** Create: runs Init, then makes the buffer-object variant when it is
      asked for and available, and the client-array variant otherwise. */
  method Create(caps: Capability, d: Driver, ctx: Context, useVbo: bool := true) returns (r: Renderer)
    modifies caps, ctx`lastName
    ensures caps.State() == Detect(old(caps.State()), d)
    ensures r.VboVariant? <==> useVbo && caps.IsVboAvailable()
    ensures r.Valid() && fresh(r.Objects())
    ensures r.GetPointCount() == 0 && !r.Initialized() && r.Widths() == None
    ensures ctx.lastName == old(ctx.lastName) + if r.VboVariant? then 3 else 0
  {
    caps.Init(d);
    DetectIdempotent(old(caps.State()), d);
    if useVbo && caps.IsVboAvailable() {
      var v := new VboRenderer(caps, d, ctx);
      r := VboVariant(v);
    } else {
      var c := new ClientArrayRenderer(caps, d);
      r := ClientVariant(c);
    }
  }
}
