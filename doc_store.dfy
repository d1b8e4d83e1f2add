/**
 * The `generated_docs` table as the run sees it: rows keyed by their `id`
 * column, each a map from column name to value. `down` stands for a store
 * that rejects every request; a store that is up answers every request.
 * `writes` records, in order, every status value a request put into the
 * table.
 */
module DocStatus {
  import opened Json

  type Row = map<string, Json>

  class DocStore {
    var rows: map<string, Row>
    var writes: seq<(string, string)>
    const down: bool

    constructor (rows0: map<string, Row>, down0: bool)
      ensures rows == rows0 && writes == [] && down == down0
    {
      rows := rows0;
      writes := [];
      down := down0;
    }

    /**
     * `update_document_status`: set the `status` column of the row whose id is
     * `job`. A missing row is only logged; a failing store is reported to the
     * caller as `ValueError` (`raised`).
     */
    method UpdateDocumentStatus(job: string, status: string) returns (raised: bool)
      modifies this
      ensures raised <==> down
      ensures raised ==> rows == old(rows) && writes == old(writes)
      ensures !raised ==> writes == old(writes) + [(job, status)]
      ensures !raised && job in old(rows) ==> rows == old(rows)[job := old(rows)[job][StatusColumn := Str(status)]]
      ensures !raised && job !in old(rows) ==> rows == old(rows)
    {
      raised := down;
      if !raised {
        if job in rows {
          rows := rows[job := rows[job][StatusColumn := Str(status)]];
        }
        writes := writes + [(job, status)];
      }
    }

    /**
     * `upsert(columns, on_conflict="id")`: the given columns are written into the
     * row whose id is `job`, which is created when absent; columns not given keep
     * their values. A status among the columns is recorded in `writes`.
     */
    method Upsert(job: string, columns: Row) returns (raised: bool)
      modifies this
      ensures raised <==> down
      ensures raised ==> rows == old(rows) && writes == old(writes)
      ensures !raised ==> rows == old(rows)[job := Merged(old(rows), job, columns)]
      ensures !raised && StatusColumn in columns && columns[StatusColumn].Str? ==>
        writes == old(writes) + [(job, columns[StatusColumn].s)]
      ensures !raised && !(StatusColumn in columns && columns[StatusColumn].Str?) ==> writes == old(writes)
    {
      raised := down;
      if !raised {
        rows := rows[job := Merged(rows, job, columns)];
        if StatusColumn in columns && columns[StatusColumn].Str? {
          writes := writes + [(job, columns[StatusColumn].s)];
        }
      }
    }

    /**
     * `insert(columns)`: a new row under `job`. The `id` column is the table's
     * key, so an id already present is refused like a failing store.
     */
    method Insert(job: string, columns: Row) returns (raised: bool)
      modifies this
      ensures raised <==> down || job in old(rows)
      ensures raised ==> rows == old(rows) && writes == old(writes)
      ensures !raised ==> rows == old(rows)[job := columns]
      ensures !raised && StatusColumn in columns && columns[StatusColumn].Str? ==>
        writes == old(writes) + [(job, columns[StatusColumn].s)]
      ensures !raised && !(StatusColumn in columns && columns[StatusColumn].Str?) ==> writes == old(writes)
    {
      raised := down || job in rows;
      if !raised {
        rows := rows[job := columns];
        if StatusColumn in columns && columns[StatusColumn].Str? {
          writes := writes + [(job, columns[StatusColumn].s)];
        }
      }
    }

    /**
     * A status left in the row by a collaborator outside the model (the
     * generation step inside the workflow); not recorded in `writes`.
     */
    method Overwrite(job: string, status: Json)
      requires !down
      modifies this`rows
      ensures job in old(rows) ==> rows == old(rows)[job := old(rows)[job][StatusColumn := status]]
      ensures job !in old(rows) ==> rows == old(rows)
    {
      if job in rows {
        rows := rows[job := rows[job][StatusColumn := status]];
      }
    }
  }

  const StatusColumn := "status"

  /** The row `job` after an upsert of `columns`: old columns overridden by the new ones. */
  function Merged(rows: map<string, Row>, job: string, columns: Row): (r: Row)
    ensures forall c :: c in columns ==> c in r && r[c] == columns[c]
    ensures job in rows ==> forall c :: c in rows[job] && c !in columns ==> c in r && r[c] == rows[job][c]
    ensures forall c :: c in r ==> c in columns || (job in rows && c in rows[job])
  {
    (if job in rows then rows[job] else map[]) + columns
  }
}
