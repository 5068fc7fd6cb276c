/**
 * The backend's post records (backend/writeflow-sam-app/src/types/post.ts) and
 * the storage the handlers work on: the DynamoDB table as a map from slug to
 * record and the S3 bucket as a map from key to HTML content.
 */
module Posts {
  import opened Wrappers
  import opened Json

  /** Statuses are kept as the strings the request carried. */
  datatype Post = Post(
    slug: string,
    title: string,
    authorId: string,
    status: string,
    createdAt: string,
    updatedAt: string,
    publishedAt: Option<string>,
    contentKey: string)

  type Table = map<string, Post>
  type Bucket = map<string, string>

  /** Every record is stored under its own slug. */
  predicate Keyed(table: Table) {
    forall s :: s in table ==> table[s].slug == s
  }

  /** `JSON.parse` of a request body: a syntax error, the literal `null`, or a value. */
  datatype ParseResult<T> = SyntaxError | NullInput | Parsed(value: T)

  /** An optional member: absent from the JSON when undefined. */
  function OptionalMember(key: string, v: Option<string>): map<string, Json> {
    if v.Some? then map[key := JStr(v.value)] else map[]
  }

  /** The members every serialised record has; `publishedAt` joins them when set. */
  const RecordKeys: set<string> := {"slug", "title", "authorId", "status", "createdAt", "updatedAt", "contentKey"}

  /**
   * A record as the handlers serialise it: one string member per field, and
   * `publishedAt` only when the record has one.
   */
  function PostJson(p: Post): (j: Json)
    ensures j.JObj?
    ensures Field(j, "slug") == Some(JStr(p.slug)) && Field(j, "title") == Some(JStr(p.title))
    ensures Field(j, "authorId") == Some(JStr(p.authorId)) && Field(j, "status") == Some(JStr(p.status))
    ensures Field(j, "createdAt") == Some(JStr(p.createdAt)) && Field(j, "updatedAt") == Some(JStr(p.updatedAt))
    ensures Field(j, "contentKey") == Some(JStr(p.contentKey))
    ensures p.publishedAt.Some? ==> Field(j, "publishedAt") == Some(JStr(p.publishedAt.value))
  {
    JObj(map[
      "slug" := JStr(p.slug), "title" := JStr(p.title), "authorId" := JStr(p.authorId),
      "status" := JStr(p.status), "createdAt" := JStr(p.createdAt), "updatedAt" := JStr(p.updatedAt),
      "contentKey" := JStr(p.contentKey)] + OptionalMember("publishedAt", p.publishedAt))
  }

  /** The serialised record has exactly the record members, plus `publishedAt` when it is set. */
  lemma PostJsonKeys(p: Post)
    ensures PostJson(p).fields.Keys == RecordKeys + (if p.publishedAt.Some? then {"publishedAt"} else {})
  {
  }

  /** Serialising loses nothing: distinct records give distinct JSON. */
  lemma PostJsonInjective(p: Post, q: Post)
    requires PostJson(p) == PostJson(q)
    ensures p == q
  {
    var j := PostJson(p);
    assert p.publishedAt.Some? <==> "publishedAt" in j.fields;
    assert q.publishedAt.Some? <==> "publishedAt" in j.fields;
  }

  const InternalError: string := "Internal server error"
}
