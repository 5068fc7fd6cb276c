/**
 * The update handler (backend/writeflow-sam-app/src/handlers/updatePost.ts):
 * a guard chain, then the stored record rebuilt field by field from the
 * fields the input carries. The record DynamoDB returns (`ALL_NEW`) is the
 * rebuilt one.
 */
module UpdatePost {
  import opened Wrappers
  import JsString
  import Envelope
  import Posts
  import ContentKey

  /** The optional fields of an update; an absent field is `undefined`. */
  datatype UpdateInput = UpdateInput(title: Option<string>, contentKey: Option<string>, status: Option<string>)

  /** A given content key must belong to the caller. */
  predicate KeyAllowed(input: UpdateInput, authorId: string) {
    input.contentKey.None? || ContentKey.OwnedBy(input.contentKey.value, authorId)
  }

  /** The failed check of a request, in the handler's order, or None when the update goes ahead. */
  function Rejection(table: Posts.Table, authorId: Option<string>, slug: Option<string>, body: Option<string>,
                     parse: string -> Posts.ParseResult<UpdateInput>): (r: Option<Envelope.LambdaResult>)
    ensures !JsString.Truthy(authorId) ==> r == Some(Envelope.ErrorResponse("Unauthorized", 401))
    ensures JsString.Truthy(authorId) && !JsString.Truthy(slug) ==> r == Some(Envelope.ErrorResponse("Slug is required", 400))
    ensures JsString.Truthy(authorId) && JsString.Truthy(slug) && !JsString.Truthy(body) ==>
      r == Some(Envelope.ErrorResponse("Request body is required", 400))
    ensures JsString.Truthy(authorId) && JsString.Truthy(slug) && JsString.Truthy(body) ==>
      && (parse(body.value).SyntaxError? ==> r == Some(Envelope.ErrorResponse("Invalid JSON in request body", 400)))
      && (!parse(body.value).SyntaxError? && slug.value !in table ==> r == Some(Envelope.ErrorResponse("Post not found", 404)))
      && (!parse(body.value).SyntaxError? && slug.value in table && table[slug.value].authorId != authorId.value ==>
            r == Some(Envelope.ErrorResponse("You do not have permission to update this post", 403)))
      && (!parse(body.value).SyntaxError? && slug.value in table && table[slug.value].authorId == authorId.value ==>
            && (parse(body.value).NullInput? ==> r == Some(Envelope.ErrorResponse(Posts.InternalError, 500)))
            && (parse(body.value).Parsed? ==>
                  (r.None? <==> KeyAllowed(parse(body.value).value, authorId.value))
                  && (r.Some? ==> r == Some(Envelope.ErrorResponse("Invalid content key", 403)))))
  {
    if !JsString.Truthy(authorId) then Some(Envelope.ErrorResponse("Unauthorized", 401))
    else if !JsString.Truthy(slug) then Some(Envelope.ErrorResponse("Slug is required", 400))
    else if !JsString.Truthy(body) then Some(Envelope.ErrorResponse("Request body is required", 400))
    else if parse(body.value).SyntaxError? then Some(Envelope.ErrorResponse("Invalid JSON in request body", 400))
    else if slug.value !in table then Some(Envelope.ErrorResponse("Post not found", 404))
    else if table[slug.value].authorId != authorId.value then
      Some(Envelope.ErrorResponse("You do not have permission to update this post", 403))
    // reading `input.title` of `null` throws a TypeError
    else if parse(body.value).NullInput? then Some(Envelope.ErrorResponse(Posts.InternalError, 500))
    else if !KeyAllowed(parse(body.value).value, authorId.value) then Some(Envelope.ErrorResponse("Invalid content key", 403))
    else None
  }

  /** The record after an accepted update: given fields replace stored ones, `publishedAt` is set on first publication only. */
  function Updated(existing: Posts.Post, input: UpdateInput, now: string): (p: Posts.Post)
    ensures p.slug == existing.slug && p.authorId == existing.authorId && p.createdAt == existing.createdAt
    ensures p.updatedAt == now
    ensures p.title == (if input.title.Some? then JsString.Trim(input.title.value) else existing.title)
    ensures p.contentKey == input.contentKey.GetOr(existing.contentKey)
    ensures p.status == input.status.GetOr(existing.status)
    ensures input.status == Some("published") && !JsString.Truthy(existing.publishedAt) ==> p.publishedAt == Some(now)
    ensures !(input.status == Some("published") && !JsString.Truthy(existing.publishedAt)) ==> p.publishedAt == existing.publishedAt
  {
    existing.(
      updatedAt := now,
      title := if input.title.Some? then JsString.Trim(input.title.value) else existing.title,
      contentKey := input.contentKey.GetOr(existing.contentKey),
      status := input.status.GetOr(existing.status),
      publishedAt := if input.status == Some("published") && !JsString.Truthy(existing.publishedAt) then Some(now)
                     else existing.publishedAt)
  }

  /** The handler: the record is rebuilt one given field at a time, as the update expression is. */
  method Handle(table: Posts.Table, authorId: Option<string>, slug: Option<string>, body: Option<string>,
                parse: string -> Posts.ParseResult<UpdateInput>, now: string)
    returns (result: Envelope.LambdaResult, table': Posts.Table)
    ensures Rejection(table, authorId, slug, body, parse).Some? ==>
      result == Rejection(table, authorId, slug, body, parse).value && table' == table
    ensures Rejection(table, authorId, slug, body, parse).None? ==>
      var p := Updated(table[slug.value], parse(body.value).value, now);
      table' == table[slug.value := p] && result == Envelope.SuccessResponse(Posts.PostJson(p))
  {
    var rejection := Rejection(table, authorId, slug, body, parse);
    if rejection.Some? {
      return rejection.value, table;
    }
    assert slug.Some? && body.Some? && slug.value in table && parse(body.value).Parsed?;
    var input := parse(body.value).value;
    var existing := table[slug.value];
    var updated := existing.(updatedAt := now);
    if input.title.Some? {
      updated := updated.(title := JsString.Trim(input.title.value));
    }
    if input.contentKey.Some? {
      updated := updated.(contentKey := input.contentKey.value);
    }
    if input.status.Some? {
      updated := updated.(status := input.status.value);
      if input.status.value == "published" && !JsString.Truthy(existing.publishedAt) {
        updated := updated.(publishedAt := Some(now));
      }
    }
    assert updated == Updated(existing, input, now);
    table' := table[slug.value := updated];
    result := Envelope.SuccessResponse(Posts.PostJson(updated));
  }

  /** An update carrying no field only moves `updatedAt`. */
  lemma EmptyUpdateTouchesOnlyTime(existing: Posts.Post, now: string)
    ensures Updated(existing, UpdateInput(None, None, None), now) == existing.(updatedAt := now)
  {
  }

  /** An accepted update keeps the table keyed by slug. */
  lemma UpdateKeepsKeys(table: Posts.Table, slug: string, input: UpdateInput, now: string)
    requires Posts.Keyed(table) && slug in table
    ensures Posts.Keyed(table[slug := Updated(table[slug], input, now)])
  {
  }

  /** A sequence of accepted updates with their time stamps. */
  function ApplyAll(p: Posts.Post, updates: seq<(UpdateInput, string)>): (r: Posts.Post)
    ensures r.slug == p.slug && r.authorId == p.authorId && r.createdAt == p.createdAt
    decreases |updates|
  {
    if updates == [] then p else ApplyAll(Updated(p, updates[0].0, updates[0].1), updates[1..])
  }

  /**
   * Once a post has a publication time, no sequence of updates (publishing
   * again, unpublishing, editing) changes it.
   */
  lemma {:induction false} PublishedAtIsPermanent(p: Posts.Post, updates: seq<(UpdateInput, string)>)
    requires JsString.Truthy(p.publishedAt)
    ensures ApplyAll(p, updates).publishedAt == p.publishedAt
    decreases |updates|
  {
    if updates != [] {
      PublishedAtIsPermanent(Updated(p, updates[0].0, updates[0].1), updates[1..]);
    }
  }

  /** The first publication stamps the time of that update, and later ones keep it. */
  lemma {:induction false} FirstPublicationStamps(p: Posts.Post, now: string, later: seq<(UpdateInput, string)>)
    requires p.publishedAt.None? && now != []
    ensures ApplyAll(p, [(UpdateInput(None, None, Some("published")), now)] + later).publishedAt == Some(now)
  {
    var first := Updated(p, UpdateInput(None, None, Some("published")), now);
    assert ([(UpdateInput(None, None, Some("published")), now)] + later)[1..] == later;
    PublishedAtIsPermanent(first, later);
  }
}
