/**
 * The C-level vocabulary the emulator is written against: NUL-terminated
 * strings, the open(2) flag bits, MAXPATHLEN, and the handful of system
 * calls it makes. The system calls are not modelled; the model receives
 * them as a `Kernel` oracle, so every statement is about whatever the
 * kernel answers.
 */
module Sys {

  datatype Option<T> = None | Some(value: T)

  /**
   * A C string: its bytes up to, and not including, the terminating NUL.
   * Each char stands for one byte, so lengths count bytes as C does.
   */
  type CStr = s: string | '\0' !in s && forall i :: 0 <= i < |s| ==> s[i] as int < 256

  /** `s[i]` as C reads it: the terminator NUL at the end (and, for the model, past it). */
  function CharAt(s: CStr, i: nat): char
  {
    if i < |s| then s[i] else '\0'
  }

  // Values of <fcntl.h> on FreeBSD. Only the three access modes are the same
  // everywhere; the statements of the model hold for any disjoint choice of bits.
  const O_RDONLY: bv32 := 0x0000
  const O_WRONLY: bv32 := 0x0001
  const O_RDWR: bv32 := 0x0002
  const O_ACCMODE: bv32 := 0x0003
  const O_APPEND: bv32 := 0x0008
  const O_CREAT: bv32 := 0x0200
  const O_TRUNC: bv32 := 0x0400
  const O_DIRECTORY: bv32 := 0x0002_0000

  /** <sys/param.h> on FreeBSD: the longest path, NUL not counted. */
  const MAXPATHLEN: nat := 1024

  /** The part of `struct stat` the model carries around. */
  datatype StatBuf = StatBuf(dev: int, ino: int, mode: int, nlink: int, size: int)

  /** What fstatat(2) gives back: its return value and the buffer it filled in. */
  datatype StatReply = StatReply(retval: int, sb: StatBuf)

  /** The `FILE *` that fdopen(3) wraps around a descriptor. */
  datatype Stream = Stream(fd: int, mode: CStr)

  /**
   * The system calls the emulator makes, as functions of their arguments:
   * open(path, flags), openat(dirfd, path, flags), fstatat(dirfd, path, sb, 0),
   * and whether fdopen(fd, mode) succeeds. A negative descriptor is failure.
   */
  datatype Kernel = Kernel(
    open: (CStr, bv32) -> int,
    openat: (int, CStr, bv32) -> int,
    fstatat: (int, CStr) -> StatReply,
    fdopen: (int, CStr) -> bool)
}
