/**
 * The create handler (backend/writeflow-sam-app/src/handlers/createPost.ts):
 * a guard chain, then a new record under the first free slug for the title.
 * `now` is the ISO time stamp; `parse` is `JSON.parse` of the body, read as
 * the handler's input shape.
 */
module CreatePost {
  import opened Wrappers
  import JsString
  import Envelope
  import Posts
  import BackendSlug
  import ContentKey

  datatype CreateInput = CreateInput(title: Option<string>, contentKey: Option<string>, status: Option<string>)

  /**
   * `!x || x.trim().length === 0`. A trimmed string has UTF-16 length 0
   * exactly when it is empty, so the length test is an emptiness test.
   */
  predicate Blank(x: Option<string>) {
    !JsString.Truthy(x) || JsString.Trim(x.value) == []
  }

  /** The failed check of a request, in the handler's order, or None when every check passes. */
  function Rejection(authorId: Option<string>, body: Option<string>, parse: string -> Posts.ParseResult<CreateInput>): (r: Option<Envelope.LambdaResult>)
    ensures !JsString.Truthy(authorId) ==> r == Some(Envelope.ErrorResponse("Unauthorized", 401))
    ensures JsString.Truthy(authorId) && !JsString.Truthy(body) ==> r == Some(Envelope.ErrorResponse("Request body is required", 400))
    ensures JsString.Truthy(authorId) && JsString.Truthy(body) ==>
      match parse(body.value)
      case SyntaxError => r == Some(Envelope.ErrorResponse("Invalid JSON in request body", 400))
      case NullInput => r == Some(Envelope.ErrorResponse(Posts.InternalError, 500))
      case Parsed(input) =>
        && (Blank(input.title) ==> r == Some(Envelope.ErrorResponse("Title is required", 400)))
        && (!Blank(input.title) && Blank(input.contentKey) ==> r == Some(Envelope.ErrorResponse("Content key is required", 400)))
        && (!Blank(input.title) && !Blank(input.contentKey) ==>
              (r.None? <==> ContentKey.OwnedBy(input.contentKey.value, authorId.value)))
        && (r.Some? && !Blank(input.title) && !Blank(input.contentKey) ==> r == Some(Envelope.ErrorResponse("Invalid content key", 403)))
  {
    if !JsString.Truthy(authorId) then Some(Envelope.ErrorResponse("Unauthorized", 401))
    else if !JsString.Truthy(body) then Some(Envelope.ErrorResponse("Request body is required", 400))
    else match parse(body.value)
      case SyntaxError => Some(Envelope.ErrorResponse("Invalid JSON in request body", 400))
      // reading `input.title` of `null` throws a TypeError
      case NullInput => Some(Envelope.ErrorResponse(Posts.InternalError, 500))
      case Parsed(input) =>
        if Blank(input.title) then Some(Envelope.ErrorResponse("Title is required", 400))
        else if Blank(input.contentKey) then Some(Envelope.ErrorResponse("Content key is required", 400))
        else if !ContentKey.OwnedBy(input.contentKey.value, authorId.value) then Some(Envelope.ErrorResponse("Invalid content key", 403))
        else None
  }

  /** The record the handler stores for an accepted input. */
  function NewPost(authorId: string, input: CreateInput, slug: string, now: string): (p: Posts.Post)
    requires !Blank(input.title) && !Blank(input.contentKey)
    ensures p.slug == slug && p.authorId == authorId && p.contentKey == input.contentKey.value
    ensures p.title == JsString.Trim(input.title.value) && p.title != []
    ensures p.createdAt == now && p.updatedAt == now
    ensures p.status == (if JsString.Truthy(input.status) then input.status.value else "draft")
    ensures p.publishedAt.Some? <==> p.status == "published"
    ensures p.publishedAt.Some? ==> p.publishedAt.value == now
  {
    var status := if JsString.Truthy(input.status) then input.status.value else "draft";
    Posts.Post(slug, JsString.Trim(input.title.value), authorId, status, now, now,
               if status == "published" then Some(now) else None, input.contentKey.value)
  }

  /** A request without a status creates a draft that has never been published. */
  lemma DefaultIsDraft(authorId: string, input: CreateInput, slug: string, now: string)
    requires !Blank(input.title) && !Blank(input.contentKey) && input.status.None?
    ensures NewPost(authorId, input, slug, now).status == "draft" && NewPost(authorId, input, slug, now).publishedAt.None?
  {
  }

  /**
   * The handler. A title with no slug character gives the empty base slug;
   * DynamoDB refuses an empty string as a key value, so the first `slugExists`
   * read throws and the handler answers 500 with the table untouched. Otherwise
   * the table write is conditional on the slug being absent; the slug search
   * has just found it free, so the write succeeds and no stored record is
   * overwritten.
   */
  method Handle(table: Posts.Table, authorId: Option<string>, body: Option<string>,
                parse: string -> Posts.ParseResult<CreateInput>, now: string)
    returns (result: Envelope.LambdaResult, table': Posts.Table)
    ensures Rejection(authorId, body, parse).Some? ==> result == Rejection(authorId, body, parse).value && table' == table
    ensures Rejection(authorId, body, parse).None? ==>
      var input := parse(body.value).value;
      var base := BackendSlug.GenerateSlug(input.title.value);
      && (base == [] ==> result == Envelope.ErrorResponse(Posts.InternalError, 500) && table' == table)
      && (base != [] ==>
            exists slug :: BackendSlug.FirstFree(table.Keys, base, slug)
              && Stored(table, table', result, NewPost(authorId.value, input, slug, now)))
    ensures forall s :: s in table ==> s in table' && table'[s] == table[s]
    ensures forall s :: s in table' && s !in table ==> s != []
    ensures Posts.Keyed(table) ==> Posts.Keyed(table')
  {
    var rejection := Rejection(authorId, body, parse);
    if rejection.Some? {
      return rejection.value, table;
    }
    var input := parse(body.value).value;
    var baseSlug := BackendSlug.GenerateSlug(input.title.value);
    if baseSlug == [] {
      return Envelope.ErrorResponse(Posts.InternalError, 500), table;
    }
    var slug := BackendSlug.EnsureUniqueSlug(table.Keys, baseSlug);
    AttemptNonEmpty(table.Keys, baseSlug, slug);
    var post := NewPost(authorId.value, input, slug, now);
    table' := table[slug := post];
    result := Envelope.SuccessResponse(Posts.PostJson(post), 201);
    InsertFresh(table, post);
    assert Stored(table, table', result, NewPost(authorId.value, input, slug, now));
  }

  /** The outcome of an accepted create: `post` stored under its slug and answered with 201. */
  predicate Stored(table: Posts.Table, table': Posts.Table, result: Envelope.LambdaResult, post: Posts.Post) {
    table' == table[post.slug := post] && result == Envelope.SuccessResponse(Posts.PostJson(post), 201)
  }

  /** Every candidate built from a non-empty base is non-empty. */
  lemma AttemptNonEmpty(taken: set<string>, base: string, slug: string)
    requires base != [] && BackendSlug.FirstFree(taken, base, slug)
    ensures slug != []
  {
    var k: nat :| slug == BackendSlug.Attempt(base, k) && forall j: nat :: j < k ==> BackendSlug.Attempt(base, j) in taken;
  }

  /** Storing a record under a free slug keeps every other record. */
  lemma InsertFresh(table: Posts.Table, post: Posts.Post)
    requires post.slug !in table
    ensures var t := table[post.slug := post];
      (forall s :: s in table ==> s in t && t[s] == table[s]) && (Posts.Keyed(table) ==> Posts.Keyed(t))
  {
  }

  /** A key made by `generateContentKey` for the caller passes every key check of the handler. */
  lemma GeneratedKeyAccepted(authorId: string, body: string, parse: string -> Posts.ParseResult<CreateInput>, slug: string)
    requires authorId != [] && body != []
    requires parse(body).Parsed? && !Blank(parse(body).value.title)
    requires parse(body).value.contentKey == Some(ContentKey.GenerateContentKey(authorId, slug))
    ensures Rejection(Some(authorId), Some(body), parse).None?
  {
    var k := ContentKey.GenerateContentKey(authorId, slug);
    assert k[0] == 'p' && k[|k| - 1] == 'l';
    assert JsString.TrimStart(k) == k;
    assert JsString.TrimEnd(k) == k;
  }
}
