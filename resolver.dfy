/**
 * The path-resolution and policy rules of the emulator as functions of a
 * snapshot of its state (the registry and the working directory):
 * fopen_flags, _cap_fsemu_dir_lookup_by_path and _cap_fsemu_path_lookup,
 * with _cap_die's abort() turned into an `Aborted` outcome that every
 * caller passes on.
 */
module Resolver {
  import opened Sys
  import opened LibGen
  import opened Registry

  /** What _cap_die prints to stderr before it aborts: the reason and the offending path. */
  datatype Report = Report(message: string, path: CStr)
  {
    /** The diagnostic line as _cap_die formats it. */
    function Text(): string
    {
      "*** Filesystem access violation *** " + path + ": " + message
    }
  }

  /**
   * How a call ends: it returns a value, or the process aborts. `report` is
   * what _cap_die printed, or None for a bare abort().
   */
  datatype Outcome<T> = Done(value: T) | Aborted(report: Option<Report>)

  /** _cap_die(message, path): a violation never returns; the process aborts after reporting. */
  function Violation<T>(message: string, path: CStr): (r: Outcome<T>)
    ensures r.Aborted? && r.report.Some?
  {
    Aborted(Some(Report(message, path)))
  }

  const BAD_FLAGS := "Bad flags argument"
  const DIRECTORY_NOT_FOUND := "directory not found"
  const ABSOLUTE_NOT_IMPLEMENTED := "Absolute paths not implemented yet"
  const ABOVE_CWD := "TODO; relative paths above CWD"

  /**
   * fopen_flags: the open(2) flags for an fopen(3) mode string. Only the
   * first character is looked at, so "r+" opens read-only; "w" neither
   * creates nor truncates; anything else is a violation, never a default.
   */
  function FopenFlags(mode: CStr): (r: Outcome<bv32>)
    ensures r.Aborted? <==> CharAt(mode, 0) !in "rwa"
    ensures r.Aborted? ==> r == Violation(BAD_FLAGS, mode)
    ensures r.Done? ==> ((r.value & O_ACCMODE) == O_RDONLY <==> CharAt(mode, 0) == 'r')
    ensures r.Done? ==> ((r.value & O_ACCMODE) == O_WRONLY <==> CharAt(mode, 0) != 'r')
    ensures r.Done? ==> ((r.value & O_APPEND) != 0 <==> CharAt(mode, 0) == 'a')
    ensures r.Done? ==> (r.value & (O_CREAT | O_TRUNC)) == 0
    ensures r.Done? ==> (r.value & !(O_ACCMODE | O_APPEND)) == 0
  {
    var c := CharAt(mode, 0);
    if c == 'r' then Done(O_RDONLY)
    else if c == 'w' then Done(O_WRONLY)
    else if c == 'a' then Done(O_WRONLY | O_APPEND)
    else Violation(BAD_FLAGS, mode)
  }

  /** Two mode strings with the same first character give the same flags. */
  lemma FopenFlagsReadsFirstCharOnly(m1: CStr, m2: CStr)
    requires CharAt(m1, 0) == CharAt(m2, 0)
    ensures FopenFlags(m1).Done? == FopenFlags(m2).Done?
    ensures FopenFlags(m1).Done? ==> FopenFlags(m1).value == FopenFlags(m2).value
  {
  }

  /** The logical directory whose mount governs `path`: its dirname, or the working directory for ".". */
  function Anchor(wd: CStr, path: CStr): CStr
  {
    var d := Dirname(path);
    if d == "." then wd else d
  }

  /**
   * _cap_fsemu_dir_lookup_by_path: the descriptor of the mount for the
   * directory that contains `path`. A miss is a violation, so a descriptor
   * that comes back is never negative.
   */
  function ResolveParent(entries: seq<Entry>, wd: CStr, path: CStr): (r: Outcome<int>)
    ensures r.Done? <==> Lookup(entries, Anchor(wd, path)) >= 0
    ensures r.Done? ==> r.value >= 0 && r.value == Lookup(entries, Anchor(wd, path))
    ensures r.Aborted? ==> r == Violation(DIRECTORY_NOT_FOUND, path)
  {
    var dirfd := Lookup(entries, Anchor(wd, path));
    if dirfd < 0 then Violation(DIRECTORY_NOT_FOUND, path) else Done(dirfd)
  }

  /** A bare file name (no slash) is resolved against the working directory's mount. */
  lemma ResolveParentOfLeaf(entries: seq<Entry>, wd: CStr, path: CStr)
    requires WellFormed(entries)
    requires '/' !in path
    ensures ResolveParent(entries, wd, path).Done? <==> Mounted(entries, wd)
    ensures ResolveParent(entries, wd, path).Done? ==> ResolveParent(entries, wd, path).value == Lookup(entries, wd)
  {
    DirnameOfLeaf(path);
    LookupHitIffMounted(entries, wd);
  }

  /** `parent/leaf` is resolved against the mount whose logical path is exactly `parent`. */
  lemma ResolveParentOfJoin(entries: seq<Entry>, wd: CStr, parent: CStr, leaf: CStr)
    requires WellFormed(entries)
    requires parent != "."
    requires parent == "/" || (parent != [] && parent[|parent| - 1] != '/')
    requires leaf != [] && '/' !in leaf
    ensures ResolveParent(entries, wd, parent + "/" + leaf).Done? <==> Mounted(entries, parent)
    ensures ResolveParent(entries, wd, parent + "/" + leaf).Done? ==>
              ResolveParent(entries, wd, parent + "/" + leaf).value == Lookup(entries, parent)
  {
    DirnameOfJoin(parent, leaf);
    LookupHitIffMounted(entries, parent);
  }

  /** The path starts with a slash. */
  predicate IsAbsolute(path: CStr)
  {
    CharAt(path, 0) == '/'
  }

  /** The path's first two characters are "..", the only escape upward that is checked. */
  predicate ClimbsAbove(path: CStr)
  {
    CharAt(path, 0) == '.' && CharAt(path, 1) == '.'
  }

  /** ClimbsAbove is exactly a ".." prefix, nothing more: "..foo" is refused, "./../x" is not. */
  lemma ClimbsAboveIsDotDotPrefix(path: CStr)
    ensures ClimbsAbove(path) <==> |path| >= 2 && path[..2] == ".."
  {
    if |path| >= 2 && path[..2] == ".." {
      assert path[0] == path[..2][0];
      assert path[1] == path[..2][1];
    }
  }

  /**
   * _cap_fsemu_path_lookup: absolute and ".."-prefixed paths are
   * violations; any other path is opened with openat relative to the mount
   * of the working directory, which must exist. The descriptor returned is
   * whatever openat gives, negative on failure.
   */
  function ResolveRelative(k: Kernel, entries: seq<Entry>, wd: CStr, path: CStr, flags: bv32): (r: Outcome<int>)
    ensures IsAbsolute(path) ==> r == Violation(ABSOLUTE_NOT_IMPLEMENTED, path)
    ensures !IsAbsolute(path) && ClimbsAbove(path) ==> r == Violation(ABOVE_CWD, path)
    ensures r.Done? <==> !IsAbsolute(path) && !ClimbsAbove(path) && Lookup(entries, wd) >= 0
    ensures r.Done? ==> r.value == k.openat(Lookup(entries, wd), path, flags)
    ensures r.Aborted? && !IsAbsolute(path) && !ClimbsAbove(path) ==> r == Violation(DIRECTORY_NOT_FOUND, path)
  {
    if IsAbsolute(path) then Violation(ABSOLUTE_NOT_IMPLEMENTED, path)
    else if ClimbsAbove(path) then Violation(ABOVE_CWD, path)
    else
      var dirfd := Lookup(entries, wd);
      if dirfd < 0 then Violation(DIRECTORY_NOT_FOUND, path)
      else Done(k.openat(dirfd, path, flags))
  }

  /**
   * A refused path never reaches the kernel: the outcome is the same
   * violation whatever the kernel would have answered.
   */
  lemma RefusedPathNeverOpened(k1: Kernel, k2: Kernel, entries: seq<Entry>, wd: CStr, path: CStr, flags: bv32)
    requires IsAbsolute(path) || ClimbsAbove(path) || Lookup(entries, wd) < 0
    ensures ResolveRelative(k1, entries, wd, path, flags).Aborted?
    ensures ResolveRelative(k1, entries, wd, path, flags) == ResolveRelative(k2, entries, wd, path, flags)
  {
  }

  /** A ".." that is not at the very front is not refused: the path reaches openat as written. */
  lemma InnerDotDotReachesOpenat(k: Kernel, entries: seq<Entry>, wd: CStr, flags: bv32)
    requires WellFormed(entries) && Mounted(entries, wd)
    ensures ResolveRelative(k, entries, wd, "./../x", flags) == Done(k.openat(Lookup(entries, wd), "./../x", flags))
    ensures ResolveRelative(k, entries, wd, "a/../../x", flags) == Done(k.openat(Lookup(entries, wd), "a/../../x", flags))
  {
    LookupHitIffMounted(entries, wd);
  }
}
