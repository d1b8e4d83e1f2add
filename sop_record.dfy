/**
 * The row both generation steps store for a finished document: its title
 * rule and its columns.
 */
module SopRecord {
  import opened Json
  import opened DocStatus

  /** The title used when the model's `docTitle` is falsy. */
  function GeneratedTitle(job: string, timestamp: string): string {
    "Generated SOP for Job " + job + " - " + timestamp
  }

  /** `article_dict.get('docTitle', "SOP")`, replaced by the generated title when falsy. */
  function Title(article: seq<(string, Json)>, job: string, timestamp: string): Json {
    var t := match Get(article, "docTitle") case Some(v) => v case None => Str("SOP");
    if Truthy(t) then t else Str(GeneratedTitle(job, timestamp))
  }

  /**
   * The three-way title rule: the model's `docTitle` when present and
   * truthy, "SOP" when absent, the generated title when present but falsy.
   * Whichever applies, the stored title is truthy.
   */
  lemma TitleRule(article: seq<(string, Json)>, job: string, timestamp: string)
    ensures !HasKey(article, "docTitle") ==> Title(article, job, timestamp) == Str("SOP")
    ensures HasKey(article, "docTitle") ==>
      Get(article, "docTitle").Some? &&
      Title(article, job, timestamp) ==
        (if Truthy(Get(article, "docTitle").value) then Get(article, "docTitle").value
         else Str(GeneratedTitle(job, timestamp)))
    ensures Truthy(Title(article, job, timestamp))
  {
    GetSpec(article, "docTitle");
  }

  /** `article_dict.get('shortDescription', '')`. */
  function Description(article: seq<(string, Json)>): Json {
    match Get(article, "shortDescription") case Some(v) => v case None => Str("")
  }

  /** The columns of the older step's insert: no status, no timestamp. */
  function LegacyRecord(job: string, category: Json, user: string, article: seq<(string, Json)>,
                        markdown: string, timestamp: string): Row {
    map["id" := Str(job), "category" := category, "user_id" := Str(user),
        "title" := Title(article, job, timestamp), "content" := Str(markdown),
        "desc" := Description(article)]
  }

  /** The columns of the newer step's upsert: the older ones, `status` 'success' and `created_at`. */
  function AppRecord(job: string, category: Json, user: string, article: seq<(string, Json)>,
                     markdown: string, timestamp: string, createdAt: string): Row {
    LegacyRecord(job, category, user, article, markdown, timestamp)[StatusColumn := Str("success")]["created_at" := Str(createdAt)]
  }

  /**
   * A row written with the newer record reads back as a finished document:
   * its id is the job, its content the rendered Markdown, its status
   * 'success', whatever columns the row held before.
   */
  lemma AppRecordReadsBack(rows: map<string, Row>, job: string, category: Json, user: string,
                           article: seq<(string, Json)>, markdown: string, timestamp: string, createdAt: string)
    ensures var row := Merged(rows, job, AppRecord(job, category, user, article, markdown, timestamp, createdAt));
      "id" in row && row["id"] == Str(job) &&
      "content" in row && row["content"] == Str(markdown) &&
      StatusColumn in row && row[StatusColumn] == Str("success") &&
      "title" in row && Truthy(row["title"])
  {
    TitleRule(article, job, timestamp);
  }

  /** The older record has no status column, so inserting it records no status. */
  lemma LegacyRecordHasNoStatus(job: string, category: Json, user: string, article: seq<(string, Json)>,
                                markdown: string, timestamp: string)
    ensures StatusColumn !in LegacyRecord(job, category, user, article, markdown, timestamp)
    ensures LegacyRecord(job, category, user, article, markdown, timestamp).Keys ==
      {"id", "category", "user_id", "title", "content", "desc"}
  {
  }
}
