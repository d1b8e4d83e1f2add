/**
 * The server's working directory, where a run writes its temporary files.
 * Which paths exist is the state; which writes fail part-way and which
 * removals raise `OSError` are fixed properties of the directory.
 */
module LocalFiles {

  class LocalFs {
    /** The paths `os.path.exists` reports. */
    var files: set<string>
    /** Paths whose `open(path, "wb")` write raises after creating the file. */
    const unwritable: set<string>
    /** Paths whose `os.remove` raises. */
    const stuck: set<string>

    constructor (files0: set<string>, unwritable0: set<string>, stuck0: set<string>)
      ensures files == files0 && unwritable == unwritable0 && stuck == stuck0
    {
      files := files0;
      unwritable := unwritable0;
      stuck := stuck0;
    }

    /**
     * `with open(path, "wb") as f: f.write(data)`. The file exists afterwards
     * either way; `ok` is false when the write raised.
     */
    method Write(path: string) returns (ok: bool)
      modifies this
      ensures files == old(files) + {path}
      ensures ok <==> path !in unwritable
    {
      files := files + {path};
      ok := path !in unwritable;
    }

    /** A file another component writes into the directory (the PDF builder). */
    method Create(path: string)
      modifies this
      ensures files == old(files) + {path}
    {
      files := files + {path};
    }

    /**
     * `if os.path.exists(path): try: os.remove(path) except OSError: pass`.
     * Never raises; `removed` says whether the file went away.
     */
    method RemoveIfExists(path: string) returns (removed: bool)
      modifies this
      ensures removed <==> path in old(files) && path !in stuck
      ensures files == if removed then old(files) - {path} else old(files)
    {
      removed := path in files && path !in stuck;
      if removed {
        files := files - {path};
      }
    }

    /**
     * The `finally` block of a run: every tracked path that is non-empty and
     * exists is removed, a failing removal is logged and skipped, and the
     * number of files removed is reported.
     */
    method CleanUp(temps: seq<string>) returns (cleaned: nat)
      modifies this
      ensures files == old(files) - Removable(old(files), temps)
      ensures cleaned == |Removable(old(files), temps)|
      ensures forall p :: p in temps && p != [] && p !in stuck ==> p !in files
    {
      ghost var before := files;
      cleaned := 0;
      var i := 0;
      while i < |temps|
        invariant 0 <= i <= |temps|
        invariant files == before - Removable(before, temps[..i])
        invariant cleaned == |Removable(before, temps[..i])|
      {
        var p := temps[i];
        assert temps[..i + 1] == temps[..i] + [p];
        if p != [] && p in files && p !in stuck {
          assert p !in Removable(before, temps[..i]);
          assert Removable(before, temps[..i + 1]) == Removable(before, temps[..i]) + {p};
          files := files - {p};
          cleaned := cleaned + 1;
        } else {
          assert Removable(before, temps[..i + 1]) == Removable(before, temps[..i]);
        }
        i := i + 1;
      }
      assert temps[..i] == temps;
    }

    /** The tracked paths the cleanup loop removes: present, non-empty and removable. */
    ghost function Removable(present: set<string>, temps: seq<string>): set<string>
      reads this
    {
      set p | p in temps && p in present && p != [] && p !in stuck
    }
  }
}
