/**
 * The read handler (backend/writeflow-sam-app/src/handlers/getPost.ts): on
 * the owner path `/my/posts/{slug}` a post is visible to its author only, on
 * the public path only when published; a hidden post is reported exactly as a
 * missing one. The content comes from the bucket; a missing object makes the
 * read throw.
 */
module GetPost {
  import opened Wrappers
  import JsString
  import opened Json
  import Envelope
  import Posts

  predicate OwnerPath(path: string) {
    JsString.Contains(path, "/my/posts/")
  }

  /** Who may see a stored post on a path. */
  predicate Visible(post: Posts.Post, path: string, userId: Option<string>) {
    if OwnerPath(path) then userId == Some(post.authorId) else post.status == "published"
  }

  /** `{...post, content}`. */
  function WithContent(post: Posts.Post, content: string): (j: Json)
    ensures j.JObj? && Field(j, "content") == Some(JStr(content))
    ensures forall k :: k in Posts.PostJson(post).fields && k != "content" ==> k in j.fields && j.fields[k] == Posts.PostJson(post).fields[k]
  {
    JObj(Posts.PostJson(post).fields["content" := JStr(content)])
  }

  const NotFound: Envelope.LambdaResult := Envelope.ErrorResponse("Post not found", 404)

  function Handle(table: Posts.Table, bucket: Posts.Bucket, path: string, slug: Option<string>, userId: Option<string>): (r: Envelope.LambdaResult)
    ensures !JsString.Truthy(slug) ==> r == Envelope.ErrorResponse("Slug is required", 400)
    ensures JsString.Truthy(slug) && slug.value !in table ==> r == NotFound
    ensures JsString.Truthy(slug) && slug.value in table ==>
      var post := table[slug.value];
      && (!Visible(post, path, userId) ==> r == NotFound)
      && (Visible(post, path, userId) && post.contentKey !in bucket ==> r == Envelope.ErrorResponse(Posts.InternalError, 500))
      && (Visible(post, path, userId) && post.contentKey in bucket ==>
            r == Envelope.SuccessResponse(WithContent(post, bucket[post.contentKey])))
  {
    if !JsString.Truthy(slug) then Envelope.ErrorResponse("Slug is required", 400)
    else if slug.value !in table then NotFound
    else
      var post := table[slug.value];
      if !Visible(post, path, userId) then NotFound
      else if post.contentKey !in bucket then Envelope.ErrorResponse(Posts.InternalError, 500)
      else Envelope.SuccessResponse(WithContent(post, bucket[post.contentKey]))
  }

  /** A hidden post cannot be told apart from a missing one. */
  lemma HiddenLooksMissing(table: Posts.Table, bucket: Posts.Bucket, path: string, slug: string, userId: Option<string>)
    requires slug in table && !Visible(table[slug], path, userId)
    ensures Handle(table, bucket, path, Some(slug), userId) == Handle(table - {slug}, bucket, path, Some(slug), userId)
  {
  }

  /** On the owner path a stored post with content is returned exactly to its author. */
  lemma OwnerSeesOwnPosts(table: Posts.Table, bucket: Posts.Bucket, path: string, slug: string, userId: Option<string>)
    requires slug != "" && OwnerPath(path) && slug in table && table[slug].contentKey in bucket
    ensures Handle(table, bucket, path, Some(slug), userId).statusCode == 200 <==> userId == Some(table[slug].authorId)
  {
  }

  /** On the public path a stored post with content is returned exactly when it is published, to anyone. */
  lemma PublicSeesPublished(table: Posts.Table, bucket: Posts.Bucket, path: string, slug: string, userId: Option<string>)
    requires slug != "" && !OwnerPath(path) && slug in table && table[slug].contentKey in bucket
    ensures Handle(table, bucket, path, Some(slug), userId).statusCode == 200 <==> table[slug].status == "published"
    ensures Handle(table, bucket, path, Some(slug), userId) == Handle(table, bucket, path, Some(slug), None)
  {
  }
}
