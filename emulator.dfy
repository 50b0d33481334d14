/**
 * The emulator's global state, `cfe_namespace` and `cfe_wd_path`, as one
 * object, with the operations of cap_stub.c that read or update it and the
 * chdir/stat/fopen interposers that user code calls.
 */
module Emulator {
  import opened Sys
  import opened Registry
  import opened Resolver

  class Namespace {
    /** cfe_namespace, head first: entries[0] is the most recent mount. */
    var entries: seq<Entry>
    /** cfe_wd_path, the logical working directory. */
    var wd: CStr

    /** Every entry came from a successful mount, and the working directory fits its buffer. */
    ghost predicate Valid()
      reads this
    {
      WellFormed(entries) && |wd| <= MAXPATHLEN
    }

    /** The zero-initialised globals before cap_fsemu_init runs: an empty list and an empty buffer. */
    constructor ()
      ensures Valid() && entries == [] && wd == ""
    {
      entries := [];
      wd := "";
    }

    /**
     * cap_fsemu_init: empty the registry and take the working directory
     * from getcwd. `cwd` is what getcwd would report (None when it fails);
     * a path longer than the buffer makes getcwd fail, and on failure the
     * cleared buffer stays empty.
     */
    method Init(cwd: Option<CStr>) returns (rc: int)
      modifies this
      ensures Valid()
      ensures rc == 0 && entries == []
      ensures wd == if cwd.Some? && |cwd.value| <= MAXPATHLEN then cwd.value else ""
    {
      entries := [];
      wd := "";
      if cwd.Some? && |cwd.value| <= MAXPATHLEN {
        wd := cwd.value;
      }
      rc := 0;
    }

    /**
     * cap_fsemu_mount: open `src` as a directory with `mode` and register
     * it at the head under the logical path `dst`. A mode other than
     * O_RDONLY or O_RDWR, or a failed open, returns -1 and changes nothing.
     * No overlap check is made.
     */
    method Mount(k: Kernel, src: CStr, dst: CStr, mode: bv32) returns (rc: int)
      requires Valid()
      modifies this
      ensures Valid() && wd == old(wd)
      ensures rc == 0 <==> IsMountMode(mode) && k.open(src, O_DIRECTORY | mode) >= 0
      ensures rc == 0 ==> entries == [Entry(dst, mode, k.open(src, O_DIRECTORY | mode))] + old(entries)
      ensures rc != 0 ==> rc == -1 && entries == old(entries)
    {
      if mode != O_RDONLY && mode != O_RDWR {
        return -1;
      }
      var fd := k.open(src, O_DIRECTORY | mode);
      if fd < 0 {
        return -1;
      }
      entries := [Entry(dst, mode, fd)] + entries;
      rc := 0;
    }

    /**
     * cap_fsemu_dir_lookup: scan from the head for an entry whose path is
     * exactly `path` and return its descriptor, or -1 when there is none.
     */
    method DirLookup(path: CStr) returns (fd: int)
      requires Valid()
      ensures fd == Lookup(entries, path)
      ensures fd >= 0 <==> Mounted(entries, path)
      ensures fd < 0 ==> fd == -1
      ensures fd >= 0 ==> exists i :: 0 <= i < |entries| && entries[i].path == path && entries[i].fd == fd &&
                                      forall j :: 0 <= j < i ==> entries[j].path != path
    {
      var i := 0;
      while i < |entries|
        invariant 0 <= i <= |entries|
        invariant forall j :: 0 <= j < i ==> entries[j].path != path
      {
        if entries[i].path == path {
          LookupFindsFirst(entries, path, i);
          return entries[i].fd;
        }
        i := i + 1;
      }
      return -1;
    }

    /**
     * cap_fsemu_chdir: copy `path` into the working-directory buffer
     * without consulting the registry. A path longer than MAXPATHLEN would
     * leave the buffer unterminated, so callers must not pass one.
     */
    method FsemuChdir(path: CStr) returns (rc: int)
      requires Valid() && |path| <= MAXPATHLEN
      modifies this
      ensures Valid()
      ensures rc == 0 && wd == path && entries == old(entries)
    {
      wd := path;
      rc := 0;
    }

    /**
     * The chdir interposer: abort (without a report) unless `path` is
     * mounted; otherwise the working directory becomes `path` verbatim.
     */
    method Chdir(path: CStr) returns (r: Outcome<int>)
      requires Valid()
      requires Mounted(entries, path) ==> |path| <= MAXPATHLEN
      modifies this
      ensures Valid() && entries == old(entries)
      ensures r.Done? <==> Mounted(entries, path)
      ensures r.Done? ==> r.value == 0 && wd == path
      ensures r.Aborted? ==> r == Aborted(None) && wd == old(wd)
    {
      var dirfd := DirLookup(path);
      if dirfd < 0 {
        return Aborted(None);
      }
      var rc := FsemuChdir(path);
      r := Done(rc);
    }

    /**
     * cap_fsemu_stat, and the stat interposer that forwards to it: find the
     * mount of the directory containing `path` (a miss is a violation) and
     * fstatat the whole of `path`, not just its last component, relative to it.
     */
    method Stat(k: Kernel, path: CStr) returns (r: Outcome<StatReply>)
      ensures r.Done? <==> Lookup(entries, Anchor(wd, path)) >= 0
      ensures r.Done? ==> r.value == k.fstatat(Lookup(entries, Anchor(wd, path)), path)
      ensures r.Aborted? ==> r == Violation(DIRECTORY_NOT_FOUND, path)
    {
      match ResolveParent(entries, wd, path)
      case Aborted(report) =>
        r := Aborted(report);
      case Done(dirfd) =>
        r := Done(k.fstatat(dirfd, path));
    }

    /**
     * cap_fsemu_fopen, and the fopen interposer that forwards to it: parse
     * the mode first (a bad mode is a violation whatever the path), then
     * resolve the path; a failed openat gives NULL (None), otherwise the
     * descriptor is wrapped by fdopen.
     */
    method Fopen(k: Kernel, path: CStr, mode: CStr) returns (r: Outcome<Option<Stream>>)
      ensures FopenFlags(mode).Aborted? ==> r == Violation(BAD_FLAGS, mode)
      ensures r.Done? ==> FopenFlags(mode).Done? && !IsAbsolute(path) && !ClimbsAbove(path)
                          && Lookup(entries, wd) >= 0
      ensures FopenFlags(mode).Done? ==>
                var resolved := ResolveRelative(k, entries, wd, path, FopenFlags(mode).value);
                (r.Aborted? <==> resolved.Aborted?) &&
                (r.Aborted? ==> r == Aborted(resolved.report)) &&
                (r.Done? ==> r.value == if resolved.value >= 0 && k.fdopen(resolved.value, mode)
                                        then Some(Stream(resolved.value, mode)) else None)
    {
      match FopenFlags(mode)
      case Aborted(report) =>
        r := Aborted(report);
      case Done(flags) =>
        match ResolveRelative(k, entries, wd, path, flags)
        case Aborted(report) =>
          r := Aborted(report);
        case Done(fd) =>
          if fd < 0 {
            r := Done(None);
          } else if k.fdopen(fd, mode) {
            r := Done(Some(Stream(fd, mode)));
          } else {
            r := Done(None);
          }
    }
  }
}
