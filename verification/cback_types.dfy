/** The records of the cback backup catalogue. */
module CbackTypes {

  datatype Group = Group(id: int, name: string)

  /** A backup job: `source` is the backed-up directory. */
  datatype Backup = Backup(id: int, group: Group, repository: string, username: string, name: string, source: string)

  /** A snapshot of a backup; `time` in whole seconds since the Unix epoch. */
  datatype Snapshot = Snapshot(id: string, time: int, paths: seq<string>)

  /** A file or directory inside a snapshot. Times are whole seconds. */
  datatype Resource = Resource(name: string, kind: string, mode: nat, mtime: nat, atime: nat, ctime: nat, inode: nat, size: nat)
  {
    predicate IsDir() { kind == "dir" }
    predicate IsFile() { kind == "file" }
  }

  /** A resource is never both a directory and a file, and a kind other than
      "dir" or "file" makes it neither. */
  lemma DirFileExclusive(r: Resource)
    ensures !(r.IsDir() && r.IsFile())
    ensures r.kind != "dir" && r.kind != "file" ==> !r.IsDir() && !r.IsFile()
  {
  }
}
