/**
 * The GenAI file API as the generation step uses it: a PDF is uploaded for
 * the model to read and deleted again when the step ends. `live` is the set
 * of uploaded files the engine still holds; `deleted` records every delete
 * request in order.
 */
module GenAiFiles {
  import opened Wrappers

  /** What `genai.upload_file` does: raise, or return a file handle with a name. */
  datatype UploadOutcome = UploadRaises | Uploaded(name: string)

  class FileApi {
    var live: set<string>
    var deleted: seq<string>
    /** Whether `genai.delete_file` raises. */
    const deleteFails: bool

    constructor (live0: set<string>, deleteFails0: bool)
      ensures live == live0 && deleted == [] && deleteFails == deleteFails0
    {
      live := live0;
      deleted := [];
      deleteFails := deleteFails0;
    }

    /** `genai.upload_file`: the handle of the new file, or None when the upload raises. */
    method UploadFile(outcome: UploadOutcome) returns (handle: Option<string>)
      modifies this
      ensures handle.Some? <==> outcome.Uploaded?
      ensures handle.Some? ==> handle.value == outcome.name
      ensures live == (if outcome.Uploaded? then old(live) + {outcome.name} else old(live))
      ensures deleted == old(deleted)
    {
      if outcome.Uploaded? {
        live := live + {outcome.name};
        handle := Some(outcome.name);
      } else {
        handle := None;
      }
    }

    /** `genai.delete_file`: the request is made; the file is gone unless the call raises. */
    method DeleteFile(name: string) returns (failed: bool)
      modifies this
      ensures failed == deleteFails
      ensures deleted == old(deleted) + [name]
      ensures live == (if deleteFails then old(live) else old(live) - {name})
    {
      failed := deleteFails;
      deleted := deleted + [name];
      if !failed {
        live := live - {name};
      }
    }

    /**
     * The `finally` block of both generation steps: the upload is deleted
     * exactly when one was made, and a failing delete is only logged.
     */
    method Release(handle: Option<string>)
      modifies this
      ensures deleted == old(deleted) + (if handle.Some? then [handle.value] else [])
      ensures handle.None? ==> live == old(live)
      ensures handle.Some? ==> live == (if deleteFails then old(live) else old(live) - {handle.value})
    {
      if handle.Some? {
        var failed := DeleteFile(handle.value);
      }
    }
  }
}
