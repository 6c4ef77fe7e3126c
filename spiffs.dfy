/**
 * The flash filesystem as the core uses it: a map from path to file contents
 * and the list of mutating calls made on it, in order. Mounting, free space and
 * file handles are not represented.
 */
module Spiffs {

  /** A mutating filesystem call, as issued (whether or not it took effect). */
  datatype FsOp = RenameOp(from: string, to: string) | OpenWriteOp(path: string) | RemoveOp(path: string)

  class FileSystem {
    var files: map<string, string>
    var ops: seq<FsOp>

    constructor (files: map<string, string>)
      ensures this.files == files && ops == []
    {
      this.files := files;
      ops := [];
    }

    predicate Exists(path: string)
      reads this
    {
      path in files
    }

    /** Renaming succeeds only when the source exists and the target does not. */
    method Rename(from: string, to: string) returns (ok: bool)
      modifies this
      ensures ok == (from in old(files) && to !in old(files))
      ensures files == if ok then (old(files) - {from})[to := old(files)[from]] else old(files)
      ensures ops == old(ops) + [RenameOp(from, to)]
    {
      ok := from in files && to !in files;
      if ok {
        files := (files - {from})[to := files[from]];
      }
      ops := ops + [RenameOp(from, to)];
    }

    /**
     * Opening `path` for writing, printing `content` into it and closing it.
     * When the open fails (`openOk` is false) no file is created or changed.
     */
    method Write(path: string, content: string, openOk: bool)
      modifies this
      ensures files == if openOk then old(files)[path := content] else old(files)
      ensures ops == old(ops) + [OpenWriteOp(path)]
    {
      if openOk {
        files := files[path := content];
      }
      ops := ops + [OpenWriteOp(path)];
    }

    method Remove(path: string) returns (ok: bool)
      modifies this
      ensures ok == (path in old(files))
      ensures files == old(files) - {path}
      ensures ops == old(ops) + [RemoveOp(path)]
    {
      ok := path in files;
      files := files - {path};
      ops := ops + [RemoveOp(path)];
    }
  }
}
