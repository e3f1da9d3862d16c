/**
 * The two file stores the generator touches: the local working directory the
 * document is saved into, and the OneDrive root folder it may be uploaded to.
 * A document's content is its blocks (see InvoiceContent), not its bytes.
 */
module Storage {
  import opened Wrappers
  import opened InvoiceContent

  /** `str(e)` of the FileNotFoundError raised by `open` and `os.remove`. */
  function NoSuchFile(path: string): string {
    "[Errno 2] No such file or directory: '" + path + "'"
  }

  /** The local file system, as the files it holds by path. */
  class Disk {
    var files: map<string, seq<Block>>

    constructor (initial: map<string, seq<Block>>)
      ensures files == initial
    {
      files := initial;
    }

    /** `doc.save(path)`: creates or overwrites exactly one file. */
    method Save(path: string, content: seq<Block>)
      modifies this
      ensures files == old(files)[path := content]
    {
      files := files[path := content];
    }

    /** `open(path, 'rb').read()`. */
    method Read(path: string) returns (r: Result<seq<Block>>)
      ensures path in files ==> r == Ok(files[path])
      ensures path !in files ==> r == Err(NoSuchFile(path))
    {
      if path in files {
        r := Ok(files[path]);
      } else {
        r := Err(NoSuchFile(path));
      }
    }

    /** `os.remove(path)`: deletes the file, or fails when there is none. */
    method Remove(path: string) returns (failure: Option<string>)
      modifies this
      ensures path in old(files) ==> failure == None && files == old(files) - {path}
      ensures path !in old(files) ==> failure == Some(NoSuchFile(path)) && files == old(files)
    {
      if path in files {
        files := files - {path};
        failure := None;
      } else {
        failure := Some(NoSuchFile(path));
      }
    }
  }

  /** The OneDrive root folder, as the files it holds by name. */
  class Drive {
    var files: map<string, seq<Block>>

    constructor (initial: map<string, seq<Block>>)
      ensures files == initial
    {
      files := initial;
    }

    /** A successful `PUT .../root:/<name>:/content`: creates or replaces the file. */
    method Put(name: string, content: seq<Block>)
      modifies this
      ensures files == old(files)[name := content]
    {
      files := files[name := content];
    }
  }
}
