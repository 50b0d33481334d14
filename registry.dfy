/**
 * The mount registry `cfe_namespace` as a value: a sequence of entries,
 * head first, so that entries[0] is the most recently mounted directory
 * (mounts are inserted at the head of the list). Lookup is an exact string
 * comparison scanned from the head.
 */
module Registry {
  import opened Sys

  /** One `struct fsemu_dentry`: the logical path, the open(2) mode and the directory descriptor. */
  datatype Entry = Entry(path: CStr, mode: bv32, fd: int)

  /** The only modes a directory may be mounted with. */
  predicate IsMountMode(mode: bv32)
  {
    mode == O_RDONLY || mode == O_RDWR
  }

  /** What every entry put there by a successful mount satisfies. */
  predicate WellFormed(entries: seq<Entry>)
  {
    forall i :: 0 <= i < |entries| ==> entries[i].fd >= 0 && IsMountMode(entries[i].mode)
  }

  /** Some entry has exactly `path` as its logical path. */
  predicate Mounted(entries: seq<Entry>, path: CStr)
  {
    exists i :: 0 <= i < |entries| && entries[i].path == path
  }

  /** Index of the first entry, from the head, whose path is exactly `path`; |entries| if there is none. */
  function FirstMatch(entries: seq<Entry>, path: CStr): (i: nat)
    ensures i <= |entries|
    ensures i < |entries| ==> entries[i].path == path
    ensures forall j :: 0 <= j < i ==> entries[j].path != path
  {
    if entries == [] then 0
    else if entries[0].path == path then 0
    else 1 + FirstMatch(entries[1..], path)
  }

  /** What cap_fsemu_dir_lookup returns: the descriptor of the first exact match, or -1. */
  function Lookup(entries: seq<Entry>, path: CStr): int
  {
    var i := FirstMatch(entries, path);
    if i < |entries| then entries[i].fd else -1
  }

  /** The first match is the only index with the first-match property. */
  lemma LookupFindsFirst(entries: seq<Entry>, path: CStr, i: nat)
    requires i < |entries| && entries[i].path == path
    requires forall j :: 0 <= j < i ==> entries[j].path != path
    ensures FirstMatch(entries, path) == i
    ensures Lookup(entries, path) == entries[i].fd
  {
  }

  /**
   * In a well-formed registry, lookup succeeds exactly when some entry has
   * that very path (no prefixes, no normalisation), and fails with -1 otherwise.
   */
  lemma LookupHitIffMounted(entries: seq<Entry>, path: CStr)
    requires WellFormed(entries)
    ensures Lookup(entries, path) >= 0 <==> Mounted(entries, path)
    ensures Lookup(entries, path) < 0 ==> Lookup(entries, path) == -1
  {
    var m := FirstMatch(entries, path);
    if Mounted(entries, path) {
      var i :| 0 <= i < |entries| && entries[i].path == path;
      assert m <= i;
    }
  }

  /**
   * A mount at the head shadows every older entry with the same path and
   * leaves the lookup of every other path as it was.
   */
  lemma LookupAfterInsertHead(e: Entry, entries: seq<Entry>, path: CStr)
    ensures Lookup([e] + entries, path) == if path == e.path then e.fd else Lookup(entries, path)
  {
    var s := [e] + entries;
    if path == e.path {
      LookupFindsFirst(s, path, 0);
    } else {
      var m := FirstMatch(entries, path);
      if m < |entries| {
        LookupFindsFirst(s, path, m + 1);
      }
    }
  }
}
