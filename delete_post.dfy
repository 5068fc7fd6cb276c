/**
 * The delete handler (backend/writeflow-sam-app/src/handlers/deletePost.ts):
 * a guard chain, then two ordered writes, the content object first and the
 * record second. Either write may fail (`s3Fails`, `dbFails`); a failure
 * ends the handler with a 500 and leaves the later write undone.
 */
module DeletePost {
  import opened Wrappers
  import JsString
  import opened Json
  import Envelope
  import Posts

  /** The failed check of a request, in the handler's order, or None when the delete goes ahead. */
  function Rejection(table: Posts.Table, authorId: Option<string>, slug: Option<string>): (r: Option<Envelope.LambdaResult>)
    ensures !JsString.Truthy(authorId) ==> r == Some(Envelope.ErrorResponse("Unauthorized", 401))
    ensures JsString.Truthy(authorId) && !JsString.Truthy(slug) ==> r == Some(Envelope.ErrorResponse("Slug is required", 400))
    ensures JsString.Truthy(authorId) && JsString.Truthy(slug) ==>
      && (slug.value !in table ==> r == Some(Envelope.ErrorResponse("Post not found", 404)))
      && (slug.value in table && table[slug.value].authorId != authorId.value ==>
            r == Some(Envelope.ErrorResponse("You do not have permission to delete this post", 403)))
      && (slug.value in table && table[slug.value].authorId == authorId.value ==> r.None?)
  {
    if !JsString.Truthy(authorId) then Some(Envelope.ErrorResponse("Unauthorized", 401))
    else if !JsString.Truthy(slug) then Some(Envelope.ErrorResponse("Slug is required", 400))
    else if slug.value !in table then Some(Envelope.ErrorResponse("Post not found", 404))
    else if table[slug.value].authorId != authorId.value then
      Some(Envelope.ErrorResponse("You do not have permission to delete this post", 403))
    else None
  }

  const Deleted: Envelope.LambdaResult := Envelope.SuccessResponse(JObj(map["message" := JStr("Post deleted successfully")]))

  method Handle(table: Posts.Table, bucket: Posts.Bucket, authorId: Option<string>, slug: Option<string>, s3Fails: bool, dbFails: bool)
    returns (result: Envelope.LambdaResult, table': Posts.Table, bucket': Posts.Bucket)
    ensures Rejection(table, authorId, slug).Some? ==>
      result == Rejection(table, authorId, slug).value && table' == table && bucket' == bucket
    ensures Rejection(table, authorId, slug).None? ==>
      var key := table[slug.value].contentKey;
      && (s3Fails ==> result == Envelope.ErrorResponse(Posts.InternalError, 500) && table' == table && bucket' == bucket)
      && (!s3Fails && dbFails ==> result == Envelope.ErrorResponse(Posts.InternalError, 500) && table' == table && bucket' == bucket - {key})
      && (!s3Fails && !dbFails ==> result == Deleted && table' == table - {slug.value} && bucket' == bucket - {key})
  {
    var rejection := Rejection(table, authorId, slug);
    if rejection.Some? {
      return rejection.value, table, bucket;
    }
    var existing := table[slug.value];
    table', bucket' := table, bucket;

    if s3Fails {
      return Envelope.ErrorResponse(Posts.InternalError, 500), table', bucket';
    }
    bucket' := bucket' - {existing.contentKey};

    if dbFails {
      return Envelope.ErrorResponse(Posts.InternalError, 500), table', bucket';
    }
    table' := table' - {slug.value};
    result := Deleted;
  }

  /** The record is never gone while its content remains: a partial failure can only leave a record without content. */
  method OrderOfWrites(table: Posts.Table, bucket: Posts.Bucket, authorId: Option<string>, slug: Option<string>, s3Fails: bool, dbFails: bool)
    returns (recordGone: bool, contentGone: bool)
    requires JsString.Truthy(slug) && slug.value in table && table[slug.value].contentKey in bucket
    ensures recordGone ==> contentGone
  {
    var _, t', b' := Handle(table, bucket, authorId, slug, s3Fails, dbFails);
    recordGone := slug.value !in t';
    contentGone := table[slug.value].contentKey !in b';
  }
}
