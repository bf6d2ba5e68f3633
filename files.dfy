/**
 * The log files the reporter reads and clears, as a value: the contents of
 * every readable path, and the paths whose writes fail.
 */
module Files {
  import opened Wrappers

  datatype FileStore = FileStore(files: map<string, string>, unwritable: set<string>)

  /** Reading a whole file: its contents, or None when it cannot be read. */
  function ReadFile(fs: FileStore, path: string): (r: Option<string>)
    ensures r.Some? <==> path in fs.files
    ensures r.Some? ==> r.value == fs.files[path]
  {
    if path in fs.files then Some(fs.files[path]) else None
  }

  /**
   * Writing "0" over a file to mark it consumed: whether the write
   * succeeded, and the file store after it.
   */
  function ClearFile(fs: FileStore, path: string): (r: (bool, FileStore))
    ensures r.0 <==> path !in fs.unwritable
    ensures r.0 ==> ReadFile(r.1, path) == Some("0")
    ensures !r.0 ==> r.1 == fs
    ensures r.1.unwritable == fs.unwritable
    ensures forall p :: p != path ==> ReadFile(r.1, p) == ReadFile(fs, p)
  {
    if path in fs.unwritable then (false, fs)
    else (true, fs.(files := fs.files[path := "0"]))
  }
}
