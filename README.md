# Point-cloud vertex buffer renderers

This project models the point renderers of PointCloudRender
(`VertexBuffer.cpp`, `inc/VertexBuffer.hpp`). The models are written in Dafny,
and the project proves what those renderers ask the graphics driver to do.

The code has two renderer variants behind one interface:

- `VertexBufferRender` hands the caller's arrays to OpenGL at every draw.
- `VertexBufferVboRender` copies them into three buffer objects when points
  are added: 0 holds positions, 1 colors and 2 normals.

Both variants implement the basic `DrawPoints(start, npt, bVariableColor)`.
It makes one draw call when the range is non-empty and within the stored
points. Around that call it saves and restores the three client-array enable
flags with `GlAutoSaveClientState`.

The base class adds a variable-thickness `DrawPoints`. It scans the point
widths once, sets the point size once per maximal run of equal width, and
issues one basic draw per run.

`Init` detects the `GL_ARB_vertex_buffer_object` extension. It sets two
process-wide flags (initialized, available). `Create` picks the variant from
those flags.

Files:

- `Wrappers.dfy`: `Option`, which models a pointer that may be null.
- `Gl.dfy`: the OpenGL context as a class. It holds:
  - the three enable flags;
  - the bound array buffer;
  - the contents of each buffer object;
  - the buffer names handed out;
  - the three attribute pointers, each with the buffer bound when it was
    set and the client memory it addresses (none for a null pointer);
  - an append-only trace of `PointSize`, `DrawArrays` and `BufferData`
    events. A draw event records which arrays were enabled when it was issued.
- `VboSupport.dfy`: the two capability flags and `Init`. The driver is a
  value holding its extension string and the entry-point names it resolves.
- `PointRuns.dfy`: the maximal equal-width runs of a range of points. Also
  their uniqueness and count, and the event sequence of the
  variable-thickness draw.
- `VertexBuffer.dfy`:
  - the enable-flag guard;
  - the two renderer classes;
  - the `Renderer` interface type with the variable-thickness draw;
  - `Create`;
  - the colour and position expansion of `AddRgbPoints`.

In the source, a process-wide static holds the capability flags. Here they
are a `Capability` object that `Init`, `Create` and the constructors receive.
The GL context is passed explicitly to every operation that calls OpenGL.

Without variable thickness the four-argument `DrawPoints` sets no point
size; it delegates one basic draw (`VertexBuffer.cpp:106-109`).

## Model

| member | source | states |
|---|---|---|
| VboSupport.Capability.constructor | VertexBuffer.cpp:26-27 | at process start neither the initialized nor the available flag is set |
| VboSupport.Capability.IsVboAvailable | VertexBuffer.cpp:29-33 | the result is the cached available flag |
| VboSupport.Capability.Init | VertexBuffer.cpp:35-68 | the new flags are `Detect` of the old flags and the driver |
| VboSupport.Detect | VertexBuffer.cpp:38-66 | once initialized, nothing changes; otherwise initialized becomes true exactly when the extension name is a substring of the extension string; in that case available becomes true exactly when all eight entry points resolve; when the name is absent nothing changes |
| VboSupport.DetectIdempotent | VertexBuffer.cpp:38-43 | a second Init against the same driver changes nothing |
| VboSupport.DetectConsistent | VertexBuffer.cpp:41-58 | Init preserves "available implies initialized, the extension is advertised and every entry point resolved" |
| VboSupport.FindSubstring | VertexBuffer.cpp:41 | strstr: the first position where the needle occurs, none before it, and no result exactly when the needle is not a substring |
| VertexBuffer.ClientStateGuard.constructor | VertexBuffer.cpp:146-151 | the guard saves the three enable flags as they are |
| VertexBuffer.ClientStateGuard.Release | VertexBuffer.cpp:152-160 | after release an array is enabled only if it was enabled when saved and is enabled now |
| VertexBuffer.Restored | VertexBuffer.cpp:152-160 | release keeps each flag exactly when it was both saved and currently set |
| VertexBuffer.RestoreAfterEnabling | VertexBuffer.cpp:140-161 | if the draw only enabled arrays, release gives back exactly the saved flags |
| VertexBuffer.WhileDrawing | VertexBuffer.cpp:171-183 | during a draw the vertex array is on, color and normal are on when they were already on or the draw switched them on, and nothing saved is switched off |
| VertexBuffer.ClientArrayRenderer.constructor | VertexBuffer.cpp:70-76 | runs Init; the point count is 0, the renderer is not initialized, and the width, position, color and normal arrays are null |
| VertexBuffer.ClientArrayRenderer.AddPoints | VertexBuffer.cpp:127-138 | marks initialized, sets the count to npt, and replaces all four arrays with the given ones |
| VertexBuffer.ClientArrayRenderer.AddDoublePoints | inc/VertexBuffer.hpp:39-40 | the inherited double-precision AddPoints changes nothing |
| VertexBuffer.ClientArrayRenderer.GetPointCount | inc/VertexBuffer.hpp:31 | returns the stored point count |
| VertexBuffer.ClientArrayRenderer.DrawPoints | VertexBuffer.cpp:163-191 | appends one draw (start, npt) exactly when npt > 0 and start + npt is within the count; the draw was issued with the vertex array on, the color array on when colors are held and variable color is asked for, and the normal array on when normals are held; the enable flags end as they began; each attribute pointer is set exactly when its array was used, and addresses the held positions, colors or normals |
| VertexBuffer.VboRenderer.constructor | VertexBuffer.cpp:193-201 | runs Init and generates three fresh, distinct, non-zero buffer names; count 0, not initialized, no color, no normal, single precision |
| VertexBuffer.VboRenderer.Dispose | VertexBuffer.cpp:203-207 | leaves no buffer bound and deletes exactly the three buffers |
| VertexBuffer.VboRenderer.GetPointCount | inc/VertexBuffer.hpp:31 | returns the stored point count |
| VertexBuffer.VboRenderer.DrawPoints | VertexBuffer.cpp:209-240 | npt = -1 means all points; appends one draw exactly when the range is non-empty and within the count; the arrays used are the same as for the client variant, with positions from buffer 0 (double or float), colors from buffer 1 and normals from buffer 2; afterwards the enable flags are restored and, after a draw, no buffer is bound |
| VertexBuffer.VboRenderer.AddPoints | VertexBuffer.cpp:242-275 | marks initialized and single precision; sets the count and widths; has-color and has-normal hold exactly when those arrays are given; uploads the first 3n positions, 4n color bytes and 3n normals in that order, each only when given; every other buffer, including a buffer whose array is not given, keeps its contents; the only buffers that can gain contents are those uploaded; the buffer left bound is the last one uploaded (normal, else color, else position), or the one bound before when nothing is uploaded; the three names stay valid |
| VertexBuffer.VboRenderer.AddDoublePoints | VertexBuffer.cpp:278-311 | as AddPoints, with double-precision positions and the double flag set, including the uploads in order, the untouched buffers, the buffers that can gain contents and the buffer left bound |
| VertexBuffer.VboRenderer.AddRgbPoints | VertexBuffer.cpp:313-336 | takes the double-precision path; the trace holds, in order, the upload of the first 3n position components, the RGBA expansion of the first n colors when colors are given, and the normals when given, where an empty vector uploads nothing; so for n > 0 the position buffer holds the copied positions and, with colors, the color buffer holds the expansion; untouched buffers keep their contents, only the uploaded buffers can gain contents, and the last uploaded buffer is left bound |
| VertexBuffer.ExpandRgb | VertexBuffer.cpp:316-326 | builds 4n bytes: color i is input color i followed by alpha 0 |
| VertexBuffer.RgbaLayout | VertexBuffer.cpp:319-325 | the RGBA expansion has length 4n, and quad i is triple i followed by 0 |
| VertexBuffer.WidenPositions | VertexBuffer.cpp:327-334 | the 3n positions are copied component by component, unchanged |
| VertexBuffer.VectorData | VertexBuffer.cpp:335 | the data pointer of a local vector is null exactly when the vector is empty, and otherwise holds its elements |
| VertexBuffer.Renderer.GetPointCount | inc/VertexBuffer.hpp:31 | returns the stored point count of the variant behind the interface |
| VertexBuffer.Renderer.DrawPoints | inc/VertexBuffer.hpp:38 | the basic draw of either variant, with its trace, restored enable flags and attribute pointers; after a buffer-object draw that draws no buffer is bound, and otherwise the binding is unchanged |
| VertexBuffer.Renderer.DrawPointsVarying | VertexBuffer.cpp:78-110 | npt = 0 means all points; with variable thickness the trace grows by the events of the maximal-run schedule of the widths; without it, by one basic draw and no point size; the enable flags are restored; the bound buffer is 0 when a buffer-object draw drew anything, and otherwise unchanged; once anything is drawn, the vertex pointer and the color and normal pointers of the arrays a draw enables address the variant's data (client memory, or buffers 0, 1 and 2), and the other pointers, and all of them when nothing is drawn, are unchanged |
| VertexBuffer.Renderer.ScanWidths | VertexBuffer.cpp:86-104 | the width scan appends exactly the maximal-run schedule: the width at start, then the draw of each run before the width of the next, then the draw of the last run; the bound buffer ends 0 when a buffer-object run was drawn, and otherwise unchanged; the attribute pointers end as every drawing run sets them, or unchanged when no run draws |
| VertexBuffer.Renderer.ScanPoint | VertexBuffer.cpp:91-100 | one scan step keeps the scan state: the runs found so far plus the runs from the open run's start are the runs of the whole range, and the trace holds their events |
| VertexBuffer.Create | VertexBuffer.cpp:112-124 | runs Init; returns the buffer-object variant exactly when it is asked for and available; the new renderer holds no points and no widths |
| PointRuns.RunLength | VertexBuffer.cpp:91-100 | the run at s has width w[s] throughout, is at least one point long, and ends at hi or at a change of width |
| PointRuns.RunsAreDecomposition | VertexBuffer.cpp:91-104 | the runs are non-empty, begin at start, each begins where the previous ends, the last ends at start + npt; every point of a run has the run's width, and neighbouring runs differ in width |
| PointRuns.RunsUnique | VertexBuffer.cpp:91-104 | any decomposition into maximal equal-width runs is the one the scan produces |
| PointRuns.RunsWithin | VertexBuffer.cpp:91-104 | every run is non-empty and lies inside the range |
| PointRuns.RunOf | VertexBuffer.cpp:91-104 | every point of the range lies in exactly one run |
| PointRuns.RunCount | VertexBuffer.cpp:91-100 | the run count is 1 plus the number of i in (start, start + npt) with w[i] != w[i - 1] |
| PointRuns.BasicEvents | VertexBuffer.cpp:168-185 | a basic draw adds one DrawArrays(start, npt) exactly when npt > 0 and start + npt is within the count, and nothing otherwise |
| PointRuns.HasDrawAppend | VertexBuffer.cpp:95-103 | a sequence of events contains a draw exactly when one of its parts does (this is how the bound buffer after the scan follows from the draws of the runs) |
| PointRuns.RunEventsAppend | VertexBuffer.cpp:95-98 | the events of one more run are its point size and then its draw |
| PointRuns.ThicknessTraceShape | VertexBuffer.cpp:89-104 | over stored points the trace alternates point size and draw; it has twice as many events as runs; event 2k sets run k's width and event 2k + 1 draws run k |
| PointRuns.ThicknessTraceEnds | VertexBuffer.cpp:89-104 | the trace begins with PointSize(w[start]) and ends with a draw |

## Left out

- Rendering itself is not modelled. OpenGL and WGL calls become state changes and trace events of the context class: `glGetString` and `wglGetProcAddress` become the driver value.
- The `std::cout` and `printf` diagnostics and the `try`/`catch(...)` around the client draw are I/O and exception plumbing, so they are not modelled.
- Widths are compared for equality only, so NaN and signed zero are not modelled, and widening a float to a double is the identity.
- Upload byte sizes (`sizeof(float) * 3 * n`) are modelled as element counts.
- Pointer aliasing is not modelled. Arrays are captured by value: the client variant holds the caller's contents as they were at AddPoints, so later writes by the caller through the same pointer are not seen.
- Out-of-bounds reads are excluded by preconditions, not modelled:
  - the width scan requires the widths to reach start + npt;
  - the AddPoints uploads require the given arrays to hold 3n, 4n and 3n elements;
  - AddRgbPoints requires 3n RGB bytes, 3n normals when given, and 3n positions, which may not be null since the source reads them unchecked (VertexBuffer.cpp:331-333).
- VertexBuffer.VboRenderer.AddPoints: requires npt >= 0. With a negative count the byte size wraps and GL rejects the upload, and that error path is not modelled. The same holds for AddDoublePoints.
- VertexBuffer.VboRenderer.AddRgbPoints: npt is a natural number. A negative count makes the vector resize throw, and that is not modelled.
- VertexBuffer.VectorData: the data pointer of an empty `std::vector` is implementation defined. The model takes it to be null. So with no colors, or with npt = 0, no color buffer is uploaded and has-color is false. With npt = 0 no position buffer is uploaded either, and the position buffer keeps its old contents.
- Integers are mathematical, not 32-bit. The source computes `start + npt` in the range guards (VertexBuffer.cpp:168, 214) and the scan bound (VertexBuffer.cpp:91), and `npt * 4` and `npt * 3` in AddRgbPoints (VertexBuffer.cpp:319, 328), all in signed 32-bit `int`, where overflow is undefined behaviour. The model treats these as unbounded integers, so inputs that overflow are not modelled.
- VertexBuffer.ExpandRgb: the colour vector is modelled as a `seq` rebuilt by element updates, not a mutable array.
- The entry-point pointers that Init resolves are not stored. Only whether all of them resolved is kept.
- VertexBuffer.VboRenderer.constructor: requires the extension to be available after Init, because it calls `glGenBuffersARB`. `Create` only constructs it in that case.
