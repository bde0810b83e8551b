/** The settings files the program edits, held as text by path. */
module Disk {
  import opened Results

  /** What opening an existing path gives: an error other than
      FileNotFoundError, or the text as Python reads it in text mode. */
  datatype Entry = Unopenable | Contents(text: string)

  /** A path that is not in the map does not exist. */
  type Files = map<string, Entry>

  /** The file system as one mutable store. */
  class FileSystem {
    var files: Files

    constructor (files: Files)
      ensures this.files == files
    {
      this.files := files;
    }
  }

  /** `open(path, ...)`: FileNotFoundError for a missing path. */
  function Open(files: Files, path: string): (r: Result<string>)
    ensures r.Ok? <==> path in files && files[path].Contents?
    ensures r.Ok? ==> r.value == files[path].text
    ensures r.Err? ==> r.error == (if path in files then OSError else FileNotFoundError)
  {
    if path !in files then Err(FileNotFoundError)
    else match files[path]
      case Unopenable => Err(OSError)
      case Contents(text) => Ok(text)
  }

  /** The probe that opens `path` for reading and falls back to
      `windowsPath` on FileNotFoundError only. Any other error of the probe
      is returned: the probe stands outside the adapters' `try`, so that
      error escapes them. */
  function ResolvePath(files: Files, path: string, windowsPath: string): (r: Result<string>)
    ensures r.Ok? <==> Open(files, path).Ok? || path !in files
    ensures r.Ok? ==> r.value == (if path in files then path else windowsPath)
    ensures r.Err? ==> r.error == OSError
  {
    match Open(files, path)
    case Ok(_) => Ok(path)
    case Err(FileNotFoundError) => Ok(windowsPath)
    case Err(e) => Err(e)
  }

  /** No path is unopenable, so no probe can fail. */
  ghost predicate AllOpenable(files: Files) {
    forall p :: p in files ==> files[p].Contents?
  }
}
