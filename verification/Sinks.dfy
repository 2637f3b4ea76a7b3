/** The dead-letter log, the object store and the tmp directory. */
module Sinks {
  import opened Domain
  import opened Pipeline

  class DeadLetter {
    var entries: seq<Entry>

    constructor ()
      ensures entries == []
    {
      entries := [];
    }

    method Save(fileId: Id, userId: Id, reason: Reason, retryCount: nat)
      modifies this
      ensures entries == old(entries) + [Entry(fileId, userId, retryCount, reason)]
    {
      entries := entries + [Entry(fileId, userId, retryCount, reason)];
    }
  }

  class ObjectStore {
    var objects: set<Key>

    constructor ()
      ensures objects == {}
    {
      objects := {};
    }

    method PutFile(key: Key, readable: bool, ok: bool) returns (stored: bool)
      modifies this
      ensures stored <==> readable && ok
      ensures objects == if stored then old(objects) + {key} else old(objects)
    {
      stored := readable && ok;
      if stored {
        objects := objects + {key};
      }
    }
  }

  class TmpDir {
    var files: set<Path>

    constructor ()
      ensures files == {}
    {
      files := {};
    }

    method Write(path: Path)
      modifies this
      ensures files == old(files) + {path}
    {
      files := files + {path};
    }

    method Remove(path: Path, ok: bool)
      modifies this
      ensures files == if ok then old(files) - {path} else old(files)
    {
      if ok {
        files := files - {path};
      }
    }
  }
}
