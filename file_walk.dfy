/**
 * The directory walk of `getAllFiles`: every non-directory entry under a
 * root, depth first, in the order each directory listing returns its entries.
 */
module FileWalk {

  /** One entry of a directory listing: a plain file, or a directory with its own listing. */
  datatype FsEntry = File(name: string) | Dir(name: string, children: seq<FsEntry>)

  /** `path.join(dir, name)` for a listing entry name. */
  function Join(dir: string, name: string): (path: string) {
    dir + "/" + name
  }

  /** The paths of the files under `dir`, whose listing is `entries`, in walk order. */
  function FilesIn(dir: string, entries: seq<FsEntry>): (paths: seq<string>)
    decreases entries
  {
    if entries == [] then []
    else FilesIn(dir, entries[..|entries| - 1]) + FilesOfEntry(dir, entries[|entries| - 1])
  }

  function FilesOfEntry(dir: string, e: FsEntry): (paths: seq<string>)
    decreases e
  {
    match e
    case File(name) => [Join(dir, name)]
    case Dir(name, children) => FilesIn(Join(dir, name), children)
  }

  /** Reference definition: `p` is the path of a plain file somewhere under `dir`. */
  ghost predicate ReachesFile(dir: string, entries: seq<FsEntry>, p: string)
    decreases entries
  {
    exists i :: 0 <= i < |entries| && EntryReachesFile(dir, entries[i], p)
  }

  ghost predicate EntryReachesFile(dir: string, e: FsEntry, p: string)
    decreases e
  {
    match e
    case File(name) => p == Join(dir, name)
    case Dir(name, children) => ReachesFile(Join(dir, name), children, p)
  }

  /** The number of plain files in a listing; directories are not counted. */
  function FileCount(entries: seq<FsEntry>): (n: nat)
    decreases entries
  {
    if entries == [] then 0
    else FileCount(entries[..|entries| - 1]) + EntryFileCount(entries[|entries| - 1])
  }

  function EntryFileCount(e: FsEntry): (n: nat)
    decreases e
  {
    match e
    case File(_) => 1
    case Dir(_, children) => FileCount(children)
  }

  /**
   * The walk lists exactly the plain files reachable under the root: a
   * path is listed if and only if some file entry, at any depth, has it.
   */
  lemma {:induction false} FilesInExactlyReachable(dir: string, entries: seq<FsEntry>, p: string)
    ensures p in FilesIn(dir, entries) <==> ReachesFile(dir, entries, p)
    decreases entries
  {
    if entries != [] {
      var init, last := entries[..|entries| - 1], entries[|entries| - 1];
      FilesInExactlyReachable(dir, init, p);
      EntryFilesExactlyReachable(dir, last, p);
      if ReachesFile(dir, entries, p) {
        var i :| 0 <= i < |entries| && EntryReachesFile(dir, entries[i], p);
        if i < |init| {
          assert init[i] == entries[i];
        }
      }
      if ReachesFile(dir, init, p) {
        var i :| 0 <= i < |init| && EntryReachesFile(dir, init[i], p);
        assert entries[i] == init[i];
      }
      if EntryReachesFile(dir, last, p) {
        assert entries[|entries| - 1] == last;
      }
    }
  }

  lemma {:induction false} EntryFilesExactlyReachable(dir: string, e: FsEntry, p: string)
    ensures p in FilesOfEntry(dir, e) <==> EntryReachesFile(dir, e, p)
    decreases e
  {
    match e
    case File(_) =>
    case Dir(name, children) => FilesInExactlyReachable(Join(dir, name), children, p);
  }

  /** One path per plain file: the walk never lists a directory and never repeats an entry. */
  lemma {:induction false} FilesInCount(dir: string, entries: seq<FsEntry>)
    ensures |FilesIn(dir, entries)| == FileCount(entries)
    decreases entries
  {
    if entries != [] {
      FilesInCount(dir, entries[..|entries| - 1]);
      EntryFilesCount(dir, entries[|entries| - 1]);
    }
  }

  lemma {:induction false} EntryFilesCount(dir: string, e: FsEntry)
    ensures |FilesOfEntry(dir, e)| == EntryFileCount(e)
    decreases e
  {
    match e
    case File(_) =>
    case Dir(name, children) => FilesInCount(Join(dir, name), children);
  }

  /**
   * `getAllFiles(dirPath, arrayOfFiles)`: the paths already in the
   * accumulator stay in front, followed by the files under `dirPath`.
   */
  method GetAllFiles(dirPath: string, entries: seq<FsEntry>, arrayOfFiles: seq<string>)
    returns (files: seq<string>)
    ensures files == arrayOfFiles + FilesIn(dirPath, entries)
    decreases entries
  {
    files := arrayOfFiles;
    for i := 0 to |entries|
      invariant files == arrayOfFiles + FilesIn(dirPath, entries[..i])
    {
      var entry := entries[i];
      var fullPath := Join(dirPath, entry.name);
      assert entries[..i + 1][..i] == entries[..i];
      if entry.Dir? {
        files := GetAllFiles(fullPath, entry.children, files);
      } else {
        files := files + [fullPath];
      }
    }
    assert entries[..|entries|] == entries;
  }
}
