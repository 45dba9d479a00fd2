/**
 * Detection of the buffer-object extension. The process keeps two flags,
 * "initialized" and "available"; Init queries the driver's extension string
 * and, when the extension is advertised, resolves its eight entry points.
 * The driver is modelled as a value: the extension string it reports and the
 * names its symbol lookup resolves.
 */
module VboSupport {
  import opened Wrappers

  const ExtensionName: string := "GL_ARB_vertex_buffer_object"

  /** The entry points Init resolves, all of which must be found. */
  const EntryPoints: seq<string> := [
    "glGenBuffersARB", "glBindBufferARB", "glBufferDataARB", "glBufferSubDataARB",
    "glDeleteBuffersARB", "glGetBufferParameterivARB", "glMapBufferARB", "glUnmapBufferARB"
  ]

  /** What the graphics driver answers: glGetString(GL_EXTENSIONS), and the set
      of names for which wglGetProcAddress returns a non-null pointer. */
  datatype Driver = Driver(extensions: string, resolvable: set<string>)

  predicate OccursAt(hay: string, needle: string, at: int)
  {
    0 <= at && at + |needle| <= |hay| && hay[at..at + |needle|] == needle
  }

  /** `needle` is a substring of `hay`. */
  predicate Contains(hay: string, needle: string)
  {
    exists at | 0 <= at <= |hay| :: OccursAt(hay, needle, at)
  }

  /** Every entry point resolved to a non-null pointer. */
  predicate AllResolved(d: Driver)
  {
    forall k :: 0 <= k < |EntryPoints| ==> EntryPoints[k] in d.resolvable
  }

  /** The two process-wide flags. */
  datatype Flags = Flags(initialized: bool, available: bool)

  /** The flags after one call to Init against driver `d`. */
  function Detect(f: Flags, d: Driver): (r: Flags)
    ensures f.initialized ==> r == f
    ensures !f.initialized ==> r.initialized == Contains(d.extensions, ExtensionName)
    ensures !f.initialized && r.initialized ==> r.available == AllResolved(d)
    ensures !r.initialized ==> r == f
  {
    if f.initialized then f
    else if Contains(d.extensions, ExtensionName) then Flags(true, AllResolved(d))
    else f
  }

  /** Calling Init a second time against the same driver changes nothing. */
  lemma DetectIdempotent(f: Flags, d: Driver)
    ensures Detect(Detect(f, d), d) == Detect(f, d)
  {
  }

  /** From the start state, "available" is reached only when the extension
      is advertised and every entry point resolved, and it implies "initialized". */
  predicate Consistent(f: Flags, d: Driver)
  {
    f.available ==> f.initialized && Contains(d.extensions, ExtensionName) && AllResolved(d)
  }

  lemma DetectConsistent(f: Flags, d: Driver)
    requires Consistent(f, d)
    ensures Consistent(Detect(f, d), d)
  {
  }

  /** strstr: the first position at which `needle` occurs in `hay`, if any. */
  method FindSubstring(hay: string, needle: string) returns (at: Option<nat>)
    ensures at.Some? ==> OccursAt(hay, needle, at.value)
    ensures at.Some? ==> forall j :: 0 <= j < at.value ==> !OccursAt(hay, needle, j)
    ensures at.None? <==> !Contains(hay, needle)
  {
    var i := 0;
    while i + |needle| <= |hay|
      invariant 0 <= i
      invariant forall j :: 0 <= j < i ==> !OccursAt(hay, needle, j)
    {
      if hay[i..i + |needle|] == needle {
        return Some(i);
      }
      i := i + 1;
    }
    assert forall j :: i <= j ==> !OccursAt(hay, needle, j);
    return None;
  }

  /** The static flags gglVBOInitialized and gglVBOAvailable. */
  class Capability {
    var initialized: bool
    var available: bool

    function State(): (f: Flags)
      reads this
    {
      Flags(initialized, available)
    }

    /** Process start: neither flag is set. */
    constructor ()
      ensures State() == Flags(false, false)
    {
      initialized, available := false, false;
    }

    /** IsVboAvailable: the cached availability flag. */
    function IsVboAvailable(): (b: bool)
      reads this
      ensures b == State().available
    {
      available
    }

    /** Init: does nothing once initialized; otherwise tests the extension
        string and, if the extension is there, records whether all entry
        points resolved. */
    method Init(d: Driver)
      modifies this
      ensures State() == Detect(old(State()), d)
    {
      if !initialized {
        var at := FindSubstring(d.extensions, ExtensionName);
        if at.Some? {
          initialized := true;
          available := AllResolved(d);
        }
      }
    }
  }
}
