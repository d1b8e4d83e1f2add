/**
 * Finding the component schema a run generates against: the user's private
 * `templates` row first, the `publictemplates` row second.
 */
module TemplateLookup {
  import opened Wrappers
  import opened Json

  /** The selected columns of the row a query returns (`response.data`). */
  type Record = seq<(string, Json)>

  /**
   * The two template tables: private rows keyed by (template id, user id),
   * public rows keyed by template id, whether each query raises, and whether
   * each `maybe_single().execute()` returns no response object at all (None)
   * instead of a response.
   */
  datatype Tables = Tables(
    privateRows: map<(string, string), Record>,
    publicRows: map<string, Record>,
    privateRaises: bool,
    publicRaises: bool,
    privateMissing: bool,
    publicMissing: bool)

  /** The outcome of the lookup: a schema and category, no usable row (404), or an error (500). */
  datatype Lookup = Found(components: Json, category: Json) | NotFound | LookupRaised

  /** `response.data and 'components' in response.data`. */
  predicate Usable(answer: Option<Record>) {
    answer.Some? && HasKey(answer.value, "components")
  }

  function PrivateAnswer(t: Tables, id: string, user: string): Option<Record> {
    if (id, user) in t.privateRows then Some(t.privateRows[(id, user)]) else None
  }

  function PublicAnswer(t: Tables, id: string): Option<Record> {
    if id in t.publicRows then Some(t.publicRows[id]) else None
  }

  /** `data.get('name', 'SOP')`. */
  function Category(rec: Record): Json {
    var name := Get(rec, "name");
    if name.Some? then name.value else Str("SOP")
  }

  /** The schema and category a usable row supplies. */
  function FromRecord(rec: Record): (r: Lookup)
    requires HasKey(rec, "components")
    ensures r.Found?
  {
    GetSpec(rec, "components");
    Found(Get(rec, "components").value, Category(rec))
  }

  /**
   * The two-table lookup. With `guarded`, a query is read through
   * `response and hasattr(response, 'data') and ...`, so a missing response
   * counts as no row; without it, `response.data` of a missing response
   * raises `AttributeError`, which the lookup's handler turns into 500.
   */
  function FindTemplateAs(t: Tables, id: string, user: string, guarded: bool): Lookup {
    if t.privateRaises || (t.privateMissing && !guarded) then LookupRaised
    else if !t.privateMissing && Usable(PrivateAnswer(t, id, user)) then FromRecord(PrivateAnswer(t, id, user).value)
    else if t.publicRaises || (t.publicMissing && !guarded) then LookupRaised
    else if !t.publicMissing && Usable(PublicAnswer(t, id)) then FromRecord(PublicAnswer(t, id).value)
    else NotFound
  }

  /** The lookup of the current `generate_sop_api`, which guards every response. */
  function FindTemplate(t: Tables, id: string, user: string): Lookup {
    FindTemplateAs(t, id, user, true)
  }

  /** The lookup of the earlier `generate_sop_api`, which reads `response.data` unguarded. */
  function FindLegacyTemplate(t: Tables, id: string, user: string): Lookup {
    FindTemplateAs(t, id, user, false)
  }

  /** A usable private row decides either lookup: the public table is never consulted. */
  lemma PrivateWins(t: Tables, id: string, user: string, guarded: bool,
                    publicRows: map<string, Record>, publicRaises: bool, publicMissing: bool)
    requires !t.privateRaises && !t.privateMissing && Usable(PrivateAnswer(t, id, user))
    ensures FindTemplateAs(t, id, user, guarded) ==
      FindTemplateAs(t.(publicRows := publicRows, publicRaises := publicRaises, publicMissing := publicMissing), id, user, guarded)
    ensures FindTemplateAs(t, id, user, guarded) == FromRecord(t.privateRows[(id, user)])
  {
  }

  /** A found schema comes from the public table only when the private query gave no usable row. */
  lemma PublicIsFallback(t: Tables, id: string, user: string, guarded: bool)
    requires FindTemplateAs(t, id, user, guarded).Found?
    ensures (!t.privateMissing && Usable(PrivateAnswer(t, id, user))) ||
      (!t.publicMissing && Usable(PublicAnswer(t, id)) && FindTemplateAs(t, id, user, guarded) == FromRecord(t.publicRows[id]))
    ensures !t.privateRaises
  {
  }

  /**
   * The current lookup finds nothing exactly when neither query raises and
   * neither gives a usable row (a missing response gives none); it answers 500
   * exactly when the private query raises, or the public one does after the
   * private one gave no usable row.
   */
  lemma NotFoundExactly(t: Tables, id: string, user: string)
    ensures FindTemplate(t, id, user) == NotFound <==>
      !t.privateRaises && !t.publicRaises &&
      (t.privateMissing || !Usable(PrivateAnswer(t, id, user))) && (t.publicMissing || !Usable(PublicAnswer(t, id)))
    ensures FindTemplate(t, id, user) == LookupRaised <==>
      t.privateRaises || ((t.privateMissing || !Usable(PrivateAnswer(t, id, user))) && t.publicRaises)
  {
  }

  /**
   * The earlier lookup answers 500 whenever a query it reaches raises or
   * returns no response; it finds nothing only when both queries answer
   * without a usable row.
   */
  lemma LegacyLookupOutcomes(t: Tables, id: string, user: string)
    ensures FindLegacyTemplate(t, id, user) == NotFound <==>
      !t.privateRaises && !t.privateMissing && !t.publicRaises && !t.publicMissing &&
      !Usable(PrivateAnswer(t, id, user)) && !Usable(PublicAnswer(t, id))
    ensures FindLegacyTemplate(t, id, user) == LookupRaised <==>
      t.privateRaises || t.privateMissing ||
      (!Usable(PrivateAnswer(t, id, user)) && (t.publicRaises || t.publicMissing))
  {
  }

  /**
   * The two lookups differ only on a missing response: with both responses
   * present they agree, and a missing private response is 500 for the
   * earlier lookup but sends the current one on to the public table.
   */
  lemma GuardMatters(t: Tables, id: string, user: string)
    ensures !t.privateMissing && !t.publicMissing ==> FindTemplate(t, id, user) == FindLegacyTemplate(t, id, user)
    ensures t.privateMissing ==> FindLegacyTemplate(t, id, user) == LookupRaised
    ensures t.privateMissing && !t.privateRaises ==>
      FindTemplate(t, id, user) == FindTemplate(t.(privateMissing := false, privateRows := t.privateRows - {(id, user)}), id, user)
  {
  }

  /** The schema is the row's `components` value; the category is its `name`, or "SOP" when the row has none. */
  lemma {:induction false} FoundFields(rec: Record)
    requires HasKey(rec, "components")
    ensures exists k :: 0 <= k < |rec| && rec[k] == ("components", FromRecord(rec).components)
    ensures !HasKey(rec, "name") ==> FromRecord(rec).category == Str("SOP")
    ensures HasKey(rec, "name") ==> exists k :: 0 <= k < |rec| && rec[k] == ("name", FromRecord(rec).category)
  {
    GetSpec(rec, "components");
    GetSpec(rec, "name");
  }
}
