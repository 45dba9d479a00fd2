/**
 * An abstract OpenGL context: the part of the fixed-function client state the
 * point renderers touch, and an append-only trace of the calls whose effect is
 * visible outside that state (point size, draw calls and buffer uploads).
 * Nothing here renders; the trace is what a renderer asked the driver to do.
 */
module Gl {
  import opened Wrappers

  /** An unsigned byte (GLubyte, unsigned char). */
  newtype byte = x: int | 0 <= x < 256

  /** A single-precision value. Widths are only ever compared for equality;
      NaN and signed zero are not modelled. */
  type Float = real

  /** A double-precision value; widening a Float to a Double is the identity. */
  type Double = real

  /** A buffer-object name (GLuint); 0 means "no buffer". */
  type Handle = nat

  /** The three client-side vertex arrays the renderers switch on and off. */
  datatype ClientArray = VertexArray | ColorArray | NormalArray

  /** Which of the three client arrays are enabled. */
  datatype ClientArrays = ClientArrays(vertex: bool, color: bool, normal: bool)

  /** `e` with array `a` set to `on`, the others as they were. */
  function Set(e: ClientArrays, a: ClientArray, on: bool): (r: ClientArrays)
    ensures Get(r, a) == on
    ensures forall b :: b != a ==> Get(r, b) == Get(e, b)
  {
    match a
    case VertexArray => e.(vertex := on)
    case ColorArray => e.(color := on)
    case NormalArray => e.(normal := on)
  }

  function Get(e: ClientArrays, a: ClientArray): (on: bool)
  {
    match a
    case VertexArray => e.vertex
    case ColorArray => e.color
    case NormalArray => e.normal
  }

  /** The component type named in a gl*Pointer call. */
  datatype ComponentType = GlFloat | GlDouble | GlUnsignedByte

  /** What a gl*Pointer call recorded: the component type, the array buffer
      bound at the time, and the pointer argument. With buffer 0 bound the
      pointer addresses client memory, here the data it points at (None: a
      null pointer); with a buffer bound it is an offset into that buffer,
      and the renderers always pass a null offset. */
  datatype AttribPointer = Unset | Pointer(kind: ComponentType, buffer: Handle, memory: Option<Payload>)

  /** The vertex, color and normal pointers, in that order. */
  type Pointers = (AttribPointer, AttribPointer, AttribPointer)

  /** The contents of a buffer object. */
  datatype Payload = FloatData(floats: seq<Float>) | DoubleData(doubles: seq<Double>) | ByteData(bytes: seq<byte>)

  /** The calls recorded in the trace. A draw records which client arrays
      were enabled when it was issued. */
  datatype Event =
    | PointSize(width: Float)
    | DrawArrays(first: int, count: int, arrays: ClientArrays)
    | BufferData(handle: Handle, data: Payload)

  class Context {
    var enabled: ClientArrays
    var arrayBuffer: Handle
    var buffers: map<Handle, Payload>
    var lastName: Handle
    var vertexPointer: AttribPointer
    var colorPointer: AttribPointer
    var normalPointer: AttribPointer
    var trace: seq<Event>

    /** A fresh context: every client array disabled, nothing bound, no buffers. */
    constructor ()
      ensures enabled == ClientArrays(false, false, false)
      ensures arrayBuffer == 0 && buffers == map[] && lastName == 0
      ensures vertexPointer == Unset && colorPointer == Unset && normalPointer == Unset
      ensures trace == []
    {
      enabled := ClientArrays(false, false, false);
      arrayBuffer := 0;
      buffers := map[];
      lastName := 0;
      vertexPointer, colorPointer, normalPointer := Unset, Unset, Unset;
      trace := [];
    }

    /** glIsEnabled */
    function IsEnabled(a: ClientArray): (on: bool)
      reads this
    {
      Get(enabled, a)
    }

    /** glEnableClientState */
    method EnableClientState(a: ClientArray)
      modifies this`enabled
      ensures enabled == Set(old(enabled), a, true)
    {
      enabled := Set(enabled, a, true);
    }

    /** glDisableClientState */
    method DisableClientState(a: ClientArray)
      modifies this`enabled
      ensures enabled == Set(old(enabled), a, false)
    {
      enabled := Set(enabled, a, false);
    }

    /** glBindBuffer(GL_ARRAY_BUFFER, h) */
    method BindBuffer(h: Handle)
      modifies this`arrayBuffer
      ensures arrayBuffer == h
    {
      arrayBuffer := h;
    }

    /** glBufferData(GL_ARRAY_BUFFER, ...): replaces the whole contents of the
        bound buffer; with no buffer bound GL reports an error and does nothing. */
    method BufferData(data: Payload)
      modifies this`buffers, this`trace
      ensures arrayBuffer != 0 ==> buffers == old(buffers)[arrayBuffer := data]
      ensures arrayBuffer != 0 ==> trace == old(trace) + [Event.BufferData(arrayBuffer, data)]
      ensures arrayBuffer == 0 ==> buffers == old(buffers) && trace == old(trace)
    {
      if arrayBuffer != 0 {
        buffers := buffers[arrayBuffer := data];
        trace := trace + [Event.BufferData(arrayBuffer, data)];
      }
    }

    /** glGenBuffers(n, ...): reserves n names never handed out before. */
    method GenBuffers(n: nat) returns (names: seq<Handle>)
      modifies this`lastName
      ensures |names| == n
      ensures forall k :: 0 <= k < n ==> names[k] == old(lastName) + 1 + k
      ensures lastName == old(lastName) + n
    {
      var first := lastName + 1;
      names := seq(n, k => first + k);
      lastName := lastName + n;
    }

    /** glDeleteBuffers: the named buffers cease to exist; deleting the bound
        buffer resets the binding to 0. */
    method DeleteBuffers(names: seq<Handle>)
      modifies this`buffers, this`arrayBuffer
      ensures buffers == old(buffers) - set h | h in names
      ensures arrayBuffer == if old(arrayBuffer) in names then 0 else old(arrayBuffer)
    {
      buffers := buffers - set h | h in names;
      if arrayBuffer in names {
        arrayBuffer := 0;
      }
    }

    /** glPointSize */
    method PointSize(width: Float)
      modifies this`trace
      ensures trace == old(trace) + [Event.PointSize(width)]
    {
      trace := trace + [Event.PointSize(width)];
    }

    /** glDrawArrays(GL_POINTS, first, count) */
    method DrawArrays(first: int, count: int)
      modifies this`trace
      ensures trace == old(trace) + [Event.DrawArrays(first, count, enabled)]
    {
      trace := trace + [Event.DrawArrays(first, count, enabled)];
    }

    /** glVertexPointer(3, kind, 0, memory) */
    method VertexPointer(kind: ComponentType, memory: Option<Payload>)
      modifies this`vertexPointer
      ensures vertexPointer == Pointer(kind, arrayBuffer, memory)
    {
      vertexPointer := Pointer(kind, arrayBuffer, memory);
    }

    /** glColorPointer(4, kind, 0, memory) */
    method ColorPointer(kind: ComponentType, memory: Option<Payload>)
      modifies this`colorPointer
      ensures colorPointer == Pointer(kind, arrayBuffer, memory)
    {
      colorPointer := Pointer(kind, arrayBuffer, memory);
    }

    /** glNormalPointer(kind, 0, memory) */
    method NormalPointer(kind: ComponentType, memory: Option<Payload>)
      modifies this`normalPointer
      ensures normalPointer == Pointer(kind, arrayBuffer, memory)
    {
      normalPointer := Pointer(kind, arrayBuffer, memory);
    }
  }
}
