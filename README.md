# Capability filesystem emulator of mchttpd, in Dafny

This project models the filesystem emulator in `cap_stub.c` of mchttpd. A
confined process may no longer resolve paths from the real root, so the
emulator intercepts `chdir`, `stat` and `fopen`. It answers them from a
per-process namespace of directories opened in advance ("mounts"). The
emulator has two pieces of global state:

- `cfe_namespace` is a list of `(path, mode, fd)` entries. A mount inserts
  at the head; a lookup compares paths exactly, scanning from the head.
- `cfe_wd_path` is the logical working directory. It is a fixed buffer of
  `MAXPATHLEN + 1` characters.

Path resolution follows a few rules:

- For `fopen`, absolute paths and paths that begin with `..` are
  violations. Other relative paths are opened with `openat` against the
  mount of the working directory.
- `stat` looks up the mount of `dirname(path)`, or of the working directory
  when that is `"."`. It has no shape check, so it accepts absolute and
  `..` paths whenever their dirname is mounted: `stat("/etc/passwd")`
  succeeds when `/etc` is mounted.
- Every violation goes to `_cap_die`, which prints a report and calls
  `abort()`.

How the model is laid out:

- `sys.dfy` (module `Sys`) holds the C vocabulary:
  - `CStr`, a string without NUL whose every character is one byte
    (below 256), so that lengths count bytes as C does;
  - `CharAt`, which reads the terminator past the end as C does;
  - the FreeBSD `<fcntl.h>` flag bits as `bv32`, and `MAXPATHLEN = 1024`;
  - the `Kernel` oracle. Its function fields stand for `open`, `openat`,
    `fstatat` and `fdopen`, so every statement holds whatever the kernel
    answers. "No system call is attempted" becomes "the outcome is the same
    for every kernel".
- `libgen.dfy` (module `LibGen`) gives POSIX `dirname` as a pure function.
  For the implementation-defined `"//"` it returns `"/"`, as FreeBSD does.
- `registry.dfy` (module `Registry`) is the mount list as a value.
  `entries[0]` is the head, so it is the newest mount. `FirstMatch` and
  `Lookup` give the semantics of the scan.
- `resolver.dfy` (module `Resolver`) holds `fopen_flags`,
  `_cap_fsemu_dir_lookup_by_path` and `_cap_fsemu_path_lookup`. They are
  functions over a snapshot of the registry and working directory.
  `abort()` becomes the outcome `Aborted(report)`. For `_cap_die` the report
  is `Some(Report(message, path))`; for the bare `abort()` in the `chdir`
  interposer it is `None`. Every caller passes the outcome on.
- `emulator.dfy` (module `Emulator`) holds the class `Namespace`, with the
  two globals as fields. Its methods are `init`, `mount`, `dir_lookup` (a
  loop), `chdir`, and the `chdir`/`stat`/`fopen` interposers.
- `scenarios.dfy` (module `Scenarios`) holds clients that run end-to-end
  scenarios against the method contracts.

Behaviour that differs from a first reading:

- A later mount of the same logical path shadows the earlier one: it is
  inserted at the head and the scan starts there.
- `"w"` is plain `O_WRONLY`: no `O_CREAT`, no `O_TRUNC`. `"a"` does not
  create the file either.
- The interposed `chdir` calls `abort()` directly, without a report.
- The `..` check looks only at the first two characters. So `"..foo"` is
  refused, but `"./../x"` and `"a/../../x"` reach `openat`. No containment
  property stronger than this is stated.
- `stat` passes the whole path, not its last component, to `fstatat`.
- A read-write mount can never succeed on a POSIX kernel (observation from
  reading the source, not executed). `cap_fsemu_mount` opens the source with
  `O_DIRECTORY | O_RDWR` (cap_stub.c:122), and POSIX `open(2)` refuses a
  directory opened for writing with EISDIR. So only read-only mounts are
  ever added. The mode stored in an entry (cap_stub.c:129) is never read
  again, so a read-only mount does not stop `fopen(..., "w")` or `"a"` from
  passing write flags to `openat`. `Scenarios.ReadWriteMountFails` states
  the consequence for a kernel that refuses such opens.

## Model

| member | source | states |
|---|---|---|
| LibGen.Dirname | cap_stub.c:209 | dirname is never empty; it is `"."` or a prefix of the path; it ends in a slash only when it is `"/"` |
| LibGen.DirnameOfLeaf | cap_stub.c:209-212 | a path with no slash has dirname `"."`, so it resolves against the working directory |
| LibGen.DirnameIgnoresTrailingSlash | cap_stub.c:209 | a trailing slash does not change the dirname of a non-empty path |
| LibGen.TrimOthersOfAppend | cap_stub.c:209 | cutting `s + w` back to its last slash gives `s` when `s` ends in a slash and `w` has none |
| LibGen.DirnameOfJoin | cap_stub.c:200-209 | dirname undoes `parent + "/" + leaf` for any leaf name, including `parent = "/"` |
| Registry.FirstMatch | cap_stub.c:150-153 | the index found has exactly the path asked for, and no earlier entry (nearer the head) does; it is past the end only when no entry matches |
| Registry.LookupFindsFirst | cap_stub.c:150-152 | the first exact match from the head is the entry whose descriptor the lookup returns |
| Registry.LookupHitIffMounted | cap_stub.c:146-155 | in a registry built by mounts, lookup returns a descriptor >= 0 iff some entry has exactly that path, and -1 otherwise (no prefix match) |
| Registry.LookupAfterInsertHead | cap_stub.c:135-153 | after a head insertion, lookup of the new path gives the new descriptor even if an older entry has the same path; lookups of other paths are unchanged |
| Resolver.Violation | cap_stub.c:245-250 | a violation never returns a value: it always ends in an abort that carries a report |
| Resolver.FopenFlags | cap_stub.c:185-198 | only the first character counts. `r` gives read-only access; `w` and `a` give write-only; only `a` sets O_APPEND; no other bit is ever set, so O_CREAT and O_TRUNC never are, and `r` gives exactly O_RDONLY and `w` exactly O_WRONLY. Any other first character, the empty mode included, is the "Bad flags argument" violation |
| Resolver.FopenFlagsReadsFirstCharOnly | cap_stub.c:189-195 | two mode strings with the same first character (such as `"r"` and `"r+"`) give the same flags |
| Resolver.ResolveParent | cap_stub.c:203-219 | succeeds iff the dirname, or the working directory when the dirname is `"."`, is mounted; the descriptor returned is then >= 0; a miss is the "directory not found" violation |
| Resolver.ResolveParentOfLeaf | cap_stub.c:209-212 | a bare file name resolves exactly when the working directory is mounted, to the working directory's descriptor |
| Resolver.ResolveParentOfJoin | cap_stub.c:209-215 | `parent/leaf` resolves exactly when `parent` itself is mounted, to `parent`'s descriptor |
| Resolver.ClimbsAboveIsDotDotPrefix | cap_stub.c:231 | the upward-escape test holds exactly when the path starts with `".."` |
| Resolver.ResolveRelative | cap_stub.c:221-243 | a path starting with `/` or `..` is a violation; any other path is opened iff the working directory is mounted, with `openat` relative to its descriptor and the given flags; otherwise "directory not found" |
| Resolver.RefusedPathNeverOpened | cap_stub.c:228-237 | for every registry, an absolute path, a `..` path, or a working directory with no entry ends in a violation that is the same for every kernel, so no open is attempted |
| Resolver.InnerDotDotReachesOpenat | cap_stub.c:231-239 | `"./../x"` and `"a/../../x"` are not refused: they reach `openat` unchanged |
| Emulator.Namespace.constructor | cap_stub.c:98-99 | before init, the registry is empty and the working directory is empty |
| Emulator.Namespace.Init | cap_stub.c:101-107 | returns 0; empties the registry; the working directory is getcwd's answer if that fits the buffer, otherwise empty |
| Emulator.Namespace.Mount | cap_stub.c:113-144 | returns 0 iff the mode is O_RDONLY or O_RDWR and opening the source as a directory succeeds. Then `(dst, mode, fd)` is at the head with every older entry kept in order. Otherwise it returns -1 and the registry is unchanged. The working directory never changes |
| Emulator.Namespace.DirLookup | cap_stub.c:146-155 | the loop returns the descriptor of the first exact match from the head, which is >= 0 iff the path is mounted, and -1 otherwise; it changes nothing |
| Emulator.Namespace.FsemuChdir | cap_stub.c:157-162 | returns 0 and sets the working directory to the path verbatim, without consulting the registry |
| Emulator.Namespace.Chdir | cap_stub.c:53-59 | the interposed chdir succeeds (0) iff the path is mounted, and then the working directory is the path; otherwise it aborts with no report and nothing changes |
| Emulator.Namespace.Stat | cap_stub.c:164-172 | forwarded to by the stat interposer (cap_stub.c:61-65). It succeeds iff the anchor directory is mounted. It then returns `fstatat` of the whole path relative to that mount; otherwise "directory not found" |
| Emulator.Namespace.Fopen | cap_stub.c:174-182 | forwarded to by the fopen interposer (cap_stub.c:67-71). A bad mode is a violation whatever the path. A stream comes back only for a plain relative path under a mounted working directory. Its descriptor is the openat result; NULL when openat or fdopen fails |
| Scenarios.ReadFromMountedDirectory | cap_stub.c:174-243 | mount /srv/data read-only at /data, chdir, fopen("report.txt", "r") gives a stream on the read-only openat of report.txt in that mount |
| Scenarios.ChdirWithoutMounts | cap_stub.c:53-59 | with nothing mounted, chdir("/data") aborts |
| Scenarios.ParentEscapeRefused | cap_stub.c:228-232 | with a mount current, fopen("../etc/passwd", "r") is the ".." violation whatever the kernel would answer |
| Scenarios.AppendInMountedDirectory | cap_stub.c:185-198 | in a (read-only) mount, fopen("out.log", "a") opens with O_WRONLY \| O_APPEND and wraps the result |
| Scenarios.ReadWriteMountFails | cap_stub.c:118-124 | when the kernel refuses to open the source directory for writing, a read-write mount returns -1 and changes nothing |
| Scenarios.StatIsRepeatable | cap_stub.c:164-172 | two stats of the same path with nothing changed in between agree; the fixed kernel stands for no change on the kernel's side |
| Scenarios.ChdirThenFopen | cap_stub.c:53-59 | after a successful chdir(d), the working directory is d. A plain relative fopen with a good mode then never aborts: it returns the stream on `openat` relative to d's mount, or NULL when that open or fdopen fails |
| Scenarios.RemountShadows | cap_stub.c:134-135 | a second mount at the same logical path keeps the first entry but lookups now find the second |

## Left out

- System calls. `open`, `openat`, `fstatat`, `fdopen`, `close` and `getcwd` are not modelled. The first four are the `Kernel` oracle; getcwd's answer is a parameter of `Init`. Kernel-side path semantics are not modelled either: how `openat` treats `..` or an absolute path, and capability mode.
- Writing the report to stderr and calling `abort()`. Both become the `Aborted` outcome; `Report.Text` gives the line that would be printed.
- `errno`. The mount sets `errno = EINVAL` for a bad mode; this is not modelled.
- Allocation failure. If `malloc` or `strdup` fails, the mount closes the descriptor it opened and returns -1. The model assumes allocation succeeds. On the paths it models, no descriptor is ever held on failure, so `close` is never needed.
- The `free(dentry->path)` of an uninitialised pointer on the error path (cap_stub.c:140). This is a memory-safety defect; the model states only that no entry is added.
- Emulator.Namespace.Fopen: it does not model the descriptor leaked when `fdopen` fails, nor any other descriptor lifetime.
- Character encodings. A path is a sequence of bytes, one char each; multi-byte encodings of non-ASCII names are not modelled.
- Emulator.Namespace.Chdir: it requires a mounted path to fit in MAXPATHLEN bytes. A longer one would leave `cfe_wd_path` without its terminator (undefined behaviour), so this case is excluded rather than modelled.
- dirname's thread-unsafety and its writes into its argument. These vary by C library; dirname is modelled as a pure function.
- The second check in `cap_fsemu_stat` (cap_stub.c:167-168) is not a branch of the model. `ResolveParent` never returns a negative descriptor, so that check can never fire.
- The `scandir` interposer (cap_stub.c:73-80) is an unimplemented stub that returns 0.
- The `socket` and `bind` forwards (cap_stub.c:39-51) are compiled out.
- `cap_fsemu.h` declares prototypes only; `cap_fsemu_scandir` is declared there but not defined.
- Concurrency. The emulator is single-threaded, with unlocked globals.
