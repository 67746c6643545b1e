/** The server's disk, as far as its files are written, renamed and removed. */
module Disk {

  datatype Option<T> = None | Some(value: T)

  /** Files of the server: the patch of one chunk, the temporary file a patch is written to, and
      whatever lies in the directory of complete files. */
  datatype Path = Patch(fileId: string, index: nat) | Temporary(fileId: string, index: nat) | Stored(name: string)

  type Files = map<Path, seq<bv8>>

  const PART := ".part"

  /** The published file of a name. */
  function Final(name: string): Path { Stored(name) }

  /** The file a name is assembled in.  It lies beside the published files, so it is the published
      file of another name. */
  function Part(name: string): Path { Stored(name + PART) }

  predicate EndsInPart(name: string) {
    |name| >= |PART| && name[|name| - |PART|..] == PART
  }

  lemma PartsDiffer(m: string, n: string)
    ensures Part(m) == Part(n) <==> m == n
    ensures Part(m) != Final(m)
    ensures EndsInPart(m + PART)
  {
    assert m == (m + PART)[..|m|] && n == (n + PART)[..|n|];
  }

  // ----- Open files -----

  /** A file opened for writing: where it can be found, if it has not been removed or replaced since,
      and where the next byte goes. */
  datatype Handle = Handle(link: Option<Path>, offset: nat)

  /** Bytes put at an offset; a gap below it reads as zeros. */
  function Overwritten(content: seq<bv8>, offset: nat, bytes: seq<bv8>): seq<bv8> {
    (if offset <= |content| then content[..offset] else content + seq(offset - |content|, i => 0))
    + bytes
    + (if offset + |bytes| <= |content| then content[offset + |bytes|..] else [])
  }

  function WriteTo(files: Files, file: Handle, bytes: seq<bv8>): Files {
    if file.link.Some? && file.link.value in files
    then files[file.link.value := Overwritten(files[file.link.value], file.offset, bytes)]
    else files
  }

  lemma WriteAtTheEnd(content: seq<bv8>, bytes: seq<bv8>)
    ensures Overwritten(content, |content|, bytes) == content + bytes
  {}

  function Renamed(files: Files, from: Path, to: Path): Files
    requires from in files
  {
    (files - {from})[to := files[from]]
  }

  /** An open file follows its own renaming, and can no longer be found once another file has taken
      its place. */
  function AfterRenaming(file: Handle, from: Path, to: Path): Handle {
    if file.link == Some(from) then file.(link := Some(to))
    else if file.link == Some(to) then file.(link := None)
    else file
  }

  /** An open file goes on existing when it is removed, but cannot be found. */
  function AfterRemoval(file: Handle, files: Files): Handle {
    if file.link.Some? && file.link.value !in files then file.(link := None) else file
  }

  predicate InDirectory(path: Path, ids: set<string>) {
    (path.Patch? || path.Temporary?) && path.fileId in ids
  }

  /** Removal of patch directories; what could not be removed is `left`. */
  function RemoveDirectories(files: Files, ids: set<string>, left: set<Path>): Files {
    map p | p in files && (InDirectory(p, ids) ==> p in left) :: files[p]
  }

  class FileSystem {
    var files: Files

    constructor ()
      ensures files == map[]
    {
      files := map[];
    }
  }
}
