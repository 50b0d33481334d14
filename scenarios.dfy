/**
 * Clients of the emulator that run end-to-end scenarios,
 * from the specifications of the operations alone. Each states, for every
 * kernel that answers as required, how the sequence of calls ends.
 */
module Scenarios {
  import opened Sys
  import opened Registry
  import opened Resolver
  import opened Emulator

  /** Mount /srv/data read-only at /data, chdir to /data, fopen("report.txt", "r"). */
  method ReadFromMountedDirectory(k: Kernel) returns (r: Outcome<Option<Stream>>)
    requires k.open("/srv/data", O_DIRECTORY | O_RDONLY) >= 0
    requires k.openat(k.open("/srv/data", O_DIRECTORY | O_RDONLY), "report.txt", O_RDONLY) >= 0
    requires k.fdopen(k.openat(k.open("/srv/data", O_DIRECTORY | O_RDONLY), "report.txt", O_RDONLY), "r")
    ensures r == Done(Some(Stream(k.openat(k.open("/srv/data", O_DIRECTORY | O_RDONLY), "report.txt", O_RDONLY), "r")))
  {
    var ns := new Namespace();
    var rc := ns.Init(Some("/"));
    rc := ns.Mount(k, "/srv/data", "/data", O_RDONLY);
    assert ns.entries[0].path == "/data";
    var c := ns.Chdir("/data");
    r := ns.Fopen(k, "report.txt", "r");
  }

  /** With nothing mounted, chdir("/data") aborts the process. */
  method ChdirWithoutMounts(cwd: Option<CStr>) returns (r: Outcome<int>)
    ensures r == Aborted(None)
  {
    var ns := new Namespace();
    var rc := ns.Init(cwd);
    r := ns.Chdir("/data");
  }

  /** With /x mounted and current, fopen("../etc/passwd", "r") is a violation before any open. */
  method ParentEscapeRefused(k: Kernel) returns (r: Outcome<Option<Stream>>)
    requires k.open("/tmp/x", O_DIRECTORY | O_RDONLY) >= 0
    ensures r == Violation(ABOVE_CWD, "../etc/passwd")
  {
    var ns := new Namespace();
    var rc := ns.Init(Some("/"));
    rc := ns.Mount(k, "/tmp/x", "/x", O_RDONLY);
    assert ns.entries[0].path == "/x";
    var c := ns.Chdir("/x");
    r := ns.Fopen(k, "../etc/passwd", "r");
  }

  /**
   * Mount /tmp/x at /x, chdir to /x, fopen("out.log", "a"): opened write-only,
   * appending. The mount is read-only (a directory cannot be opened for
   * writing), and the stored mode is never consulted when a file is opened.
   */
  method AppendInMountedDirectory(k: Kernel) returns (r: Outcome<Option<Stream>>)
    requires k.open("/tmp/x", O_DIRECTORY | O_RDONLY) >= 0
    requires k.openat(k.open("/tmp/x", O_DIRECTORY | O_RDONLY), "out.log", O_WRONLY | O_APPEND) >= 0
    requires k.fdopen(k.openat(k.open("/tmp/x", O_DIRECTORY | O_RDONLY), "out.log", O_WRONLY | O_APPEND), "a")
    ensures r == Done(Some(Stream(k.openat(k.open("/tmp/x", O_DIRECTORY | O_RDONLY), "out.log", O_WRONLY | O_APPEND), "a")))
  {
    var ns := new Namespace();
    var rc := ns.Init(Some("/"));
    rc := ns.Mount(k, "/tmp/x", "/x", O_RDONLY);
    assert ns.entries[0].path == "/x";
    var c := ns.Chdir("/x");
    r := ns.Fopen(k, "out.log", "a");
  }

  /**
   * On a kernel that refuses to open a directory for writing, as POSIX
   * open(2) does with EISDIR, a read-write mount always fails and adds nothing.
   */
  method ReadWriteMountFails(ns: Namespace, k: Kernel, src: CStr, dst: CStr) returns (rc: int)
    requires ns.Valid()
    requires k.open(src, O_DIRECTORY | O_RDWR) < 0
    modifies ns
    ensures rc == -1 && ns.entries == old(ns.entries) && ns.wd == old(ns.wd)
  {
    rc := ns.Mount(k, src, dst, O_RDWR);
  }

  /**
   * Two stat calls on the same path with nothing changed in between agree.
   * Holding the kernel `k` fixed across both calls stands for "no change in
   * between" on the kernel's side; Stat itself changes nothing.
   */
  method StatIsRepeatable(ns: Namespace, k: Kernel, path: CStr) returns (r1: Outcome<StatReply>, r2: Outcome<StatReply>)
    ensures r1 == r2
  {
    r1 := ns.Stat(k, path);
    r2 := ns.Stat(k, path);
  }

  /** After a successful chdir(d), a plain relative fopen opens relative to d's mount, not the old one. */
  method ChdirThenFopen(ns: Namespace, k: Kernel, d: CStr, path: CStr, mode: CStr)
    returns (c: Outcome<int>, r: Outcome<Option<Stream>>)
    requires ns.Valid()
    requires Mounted(ns.entries, d) ==> |d| <= MAXPATHLEN
    modifies ns
    ensures ns.entries == old(ns.entries)
    ensures c.Done? <==> Mounted(ns.entries, d)
    ensures c.Done? ==> ns.wd == d
    ensures c.Done? && FopenFlags(mode).Done? && !IsAbsolute(path) && !ClimbsAbove(path) ==>
              var fd := k.openat(Lookup(ns.entries, d), path, FopenFlags(mode).value);
              r == Done(if fd >= 0 && k.fdopen(fd, mode) then Some(Stream(fd, mode)) else None)
  {
    c := ns.Chdir(d);
    r := ns.Fopen(k, path, mode);
  }

  /** Mounting a second directory at the same logical path shadows the first. */
  method RemountShadows(ns: Namespace, k: Kernel, src1: CStr, src2: CStr, dst: CStr) returns (fd: int)
    requires ns.Valid()
    requires k.open(src1, O_DIRECTORY | O_RDONLY) >= 0 && k.open(src2, O_DIRECTORY | O_RDONLY) >= 0
    modifies ns
    ensures |ns.entries| == |old(ns.entries)| + 2
    ensures ns.entries[1] == Entry(dst, O_RDONLY, k.open(src1, O_DIRECTORY | O_RDONLY))
    ensures fd == k.open(src2, O_DIRECTORY | O_RDONLY)
  {
    var rc := ns.Mount(k, src1, dst, O_RDONLY);
    rc := ns.Mount(k, src2, dst, O_RDONLY);
    LookupAfterInsertHead(ns.entries[0], ns.entries[1..], dst);
    assert ns.entries == [ns.entries[0]] + ns.entries[1..];
    fd := ns.DirLookup(dst);
  }
}
