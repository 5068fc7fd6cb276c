/**
 * The posts store's reads of its service replies, as app/src/store/posts.ts
 * and app/src/services/upload.ts write them. The request pipeline
 * (app/src/services/api.ts:189-195) already hands each service call the
 * `data` of the backend's `{success, data}` envelope, and these callers read
 * `.data` of that payload a second time (`response.data.posts`,
 * `response.data`, `const { data } = ...`). The payloads the backend sends
 * have no `data` member. `PostsStore` and `PostCache` model the evidently
 * intended reads, of the payload itself; this module models the code as
 * written and shows what it makes of each reply.
 */
module StoreAsWritten {
  import opened Wrappers
  import opened Json
  import Api
  import Envelope
  import RoundTrip
  import Posts
  import ListPosts
  import GetPost
  import opened PostCache
  import opened PostsStore
  import UsePosts
  import ClientSlug

  /** What the pipeline hands the caller for a success envelope the backend sends with status 200. */
  function Delivered(data: Json): Api.RequestResult {
    Api.Finish(RoundTrip.Received(Envelope.SuccessResponse(data)))
  }

  /** Reading a property of `response.data` throws a TypeError when that member is undefined or `null`. */
  predicate Unreadable(d: Option<Json>) {
    d.None? || d == Some(JNull)
  }

  /**
   * `fetchMyPosts` / `fetchPublicPosts` as written (store/posts.ts:82-96 and
   * 103-117): the TypeError raised by `response.data.posts` inside `set`
   * reaches the catch block as an error that is not an ApiError, and is
   * rethrown. `page` reads a list page from a readable `data` member.
   */
  function FetchListAsWritten(s: PostsState, nextTokenParam: Option<string>, reply: Api.RequestResult, page: Json -> ListPage): PostsState {
    match reply
    case Rejected(e) => AfterFetchList(s, nextTokenParam, Api.Threw(Api.Classify(e)))
    case Resolved(payload) =>
      var d := Field(payload, "data");
      if Unreadable(d) then AfterFetchList(s, nextTokenParam, Api.Threw(Api.OtherFailure))
      else AfterFetchList(s, nextTokenParam, Api.Done(page(d.value)))
  }

  /** The list handler's page bodies have no `data` member. */
  lemma ListBodyHasNoData(items: seq<Posts.Post>, lastKey: Option<Json>, encode: Json -> string)
    ensures "data" !in ListPosts.ListBody(items, lastKey, encode).fields
  {
    var j := ListPosts.ListBody(items, lastKey, encode);
    assert j.fields.Keys <= {"posts", "nextToken"};
  }

  /**
   * Every page the list handler answers with (status 200) leaves the store as
   * written with its list and token unchanged and the fallback error "Failed
   * to fetch posts": no page is ever listed.
   */
  lemma ListReplyFails(s: PostsState, nextTokenParam: Option<string>, page: Json -> ListPage,
                       path: string, limit: Option<string>, nextToken: Option<string>, statusFilter: Option<string>,
                       authorId: Option<string>, decode: string -> Option<Json>, encode: Json -> string, db: ListPosts.Database)
    requires ListPosts.Handle(path, limit, nextToken, statusFilter, authorId, decode, encode, db).statusCode == 200
    ensures var reply := Api.Finish(RoundTrip.Received(ListPosts.Handle(path, limit, nextToken, statusFilter, authorId, decode, encode, db)));
      var r := FetchListAsWritten(s, nextTokenParam, reply, page);
      && r.posts == s.posts && r.nextToken == s.nextToken && !r.isLoading
      && r.error == Some("Failed to fetch posts")
  {
    var start := ListPosts.StartKey(nextToken, decode);
    var q := ListPosts.IssuedQuery(path, limit, if start.After? then Some(start.key) else None, statusFilter, authorId.GetOr(""));
    var body := ListPosts.ListBody(db(q).items, db(q).lastKey, encode);
    assert ListPosts.Handle(path, limit, nextToken, statusFilter, authorId, decode, encode, db) == Envelope.SuccessResponse(body);
    RoundTrip.SuccessUnwrapsToData(body, 200);
    ListBodyHasNoData(db(q).items, db(q).lastKey, encode);
  }

  /** A JSON object as a client record; anything else stands for no post. */
  function AsRecord(j: Json): Option<Record> {
    if j.JObj? then Some(j.fields) else None
  }

  /**
   * `fetchPost` as written (store/posts.ts:133-135): `currentPost` is set to
   * `response.data`, which is undefined (no post to its readers) when the
   * payload has no `data` member; no error is raised.
   */
  function FetchPostAsWritten(s: PostsState, reply: Api.RequestResult): PostsState {
    match reply
    case Rejected(e) => AfterFetchPost(s, Api.Threw(Api.Classify(e)))
    case Resolved(payload) =>
      var d := Field(payload, "data");
      s.(currentPost := if d.Some? then AsRecord(d.value) else None, isLoadingPost := false, postError := None)
  }

  /** A serialised record carries no `data` member, with or without its content. */
  lemma PostBodyHasNoData(post: Posts.Post, content: string)
    ensures "data" !in Posts.PostJson(post).fields
    ensures "data" !in GetPost.WithContent(post, content).fields
  {
    var keys := Posts.PostJson(post).fields.Keys;
    Posts.PostJsonKeys(post);
    assert "data" !in Posts.RecordKeys;
    assert "data" != "publishedAt";
    assert "data" !in keys;
    assert "data" != "content";
    assert GetPost.WithContent(post, content).fields == Posts.PostJson(post).fields["content" := JStr(content)];
  }

  /**
   * For every post the get handler sends, the store as written ends with no
   * loaded post and no error: the post is never shown, and nothing says why.
   */
  lemma PostReplyLoadsNothing(s: PostsState, post: Posts.Post, content: string)
    ensures var r := FetchPostAsWritten(s, Delivered(GetPost.WithContent(post, content)));
      && r.currentPost.None? && r.postError.None? && !r.isLoadingPost
      && SameList(r, s)
  {
    RoundTrip.SuccessUnwrapsToData(GetPost.WithContent(post, content), 200);
    PostBodyHasNoData(post, content);
  }

  /** `{...response.data}`: the members of an object, and none for undefined or `null`. */
  function SpreadData(payload: Json): Record {
    match Field(payload, "data")
    case Some(JObj(m)) => m
    case _ => map[]
  }

  /**
   * `publishPost` / `unpublishPost` as written (store/posts.ts:251-260 and
   * 275-284): `{ ...p, ...response.data }` spreads the payload's `data`.
   */
  function StatusChangeAsWritten(s: PostsState, slug: string, reply: Api.RequestResult, fallback: string): PostsState {
    match reply
    case Rejected(e) => AfterStatusChange(s, slug, Api.Threw(Api.Classify(e)), fallback)
    case Resolved(payload) => AfterStatusChange(s, slug, Api.Done(SpreadData(payload)), fallback)
  }

  /**
   * `updatePost` without new content as written (store/posts.ts:200-216):
   * the same spread into the list and into the loaded post.
   */
  function UpdateAsWritten(s: PostsState, slug: string, reply: Api.RequestResult): PostsState {
    match reply
    case Rejected(e) => AfterUpdate(s, slug, None, Api.Threw(Api.Classify(e)))
    case Resolved(payload) => AfterUpdate(s, slug, None, Api.Done(SpreadData(payload)))
  }

  /** Spreading no members changes no post. */
  lemma MergeNothing(posts: seq<Record>, slug: string, current: Option<Record>)
    ensures MergeBySlug(posts, slug, map[]) == posts
    ensures current.Some? ==> Merge(current.value, map[]) == current.value
  {
    var out := MergeBySlug(posts, slug, map[]);
    forall i | 0 <= i < |posts|
      ensures out[i] == posts[i]
    {
      assert Merge(posts[i], map[]) == posts[i];
    }
  }

  /**
   * For every record the update handler sends, publishing, unpublishing and
   * updating without content as written merge nothing: the list and the
   * loaded post stay as they were, and the action reports success.
   */
  lemma StatusReplyMergesNothing(s: PostsState, slug: string, post: Posts.Post, fallback: string)
    ensures var r := StatusChangeAsWritten(s, slug, Delivered(Posts.PostJson(post)), fallback);
      r.posts == s.posts && r.currentPost == s.currentPost && r.postError.None? && !r.isSaving
    ensures var u := UpdateAsWritten(s, slug, Delivered(Posts.PostJson(post)));
      u.posts == s.posts && u.currentPost == s.currentPost && u.postError.None? && !u.isSaving
  {
    RoundTrip.SuccessUnwrapsToData(Posts.PostJson(post), 200);
    PostBodyHasNoData(post, "");
    MergeNothing(s.posts, slug, s.currentPost);
  }

  /** The upload-URL handler's payload: the presigned URL, the content key and the URL's lifetime in seconds. */
  function UploadUrlBody(uploadUrl: string, contentKey: string): Json {
    JObj(map["uploadUrl" := JStr(uploadUrl), "contentKey" := JStr(contentKey), "expiresIn" := JNum(300)])
  }

  /**
   * `uploadPostContent` as written (services/upload.ts:42-60): `data` is
   * destructured from the upload-URL payload, and `data.uploadUrl` throws a
   * TypeError before anything is uploaded when it is undefined or `null`.
   * `rest` is the upload and the key read from a readable `data`.
   */
  function UploadAsWritten(reply: Api.RequestResult, rest: Json -> Api.Outcome<string>): Api.Outcome<string> {
    match reply
    case Rejected(e) => Api.Threw(Api.Classify(e))
    case Resolved(payload) =>
      var d := Field(payload, "data");
      if Unreadable(d) then Api.Threw(Api.OtherFailure) else rest(d.value)
  }

  /** The upload service fed by the upload-URL handler, as written. */
  function UploadService(urls: string -> (string, string), rest: Json -> Api.Outcome<string>): Upload {
    (slug: string, content: string) => UploadAsWritten(Delivered(UploadUrlBody(urls(slug).0, urls(slug).1)), rest)
  }

  /**
   * Whatever URL and key the upload-URL handler issues for a slug, the upload
   * as written fails with an error that is not an ApiError.
   */
  lemma UploadServiceFails(urls: string -> (string, string), rest: Json -> Api.Outcome<string>, slug: string, content: string)
    ensures UploadService(urls, rest)(slug, content) == Api.Threw(Api.OtherFailure)
  {
    var body := UploadUrlBody(urls(slug).0, urls(slug).1);
    RoundTrip.SuccessUnwrapsToData(body, 200);
    assert body.fields.Keys == {"uploadUrl", "contentKey", "expiresIn"};
    assert "data" !in body.fields;
  }

  /** Every create fails at its upload, before the post is created. */
  lemma CreateFlowFails(urls: string -> (string, string), rest: Json -> Api.Outcome<string>,
                        title: string, content: string, status: Option<string>, create: PostRequest -> Api.Outcome<Record>)
    ensures CreateFlow(title, content, status, UploadService(urls, rest), create) == Api.Threw(Api.OtherFailure)
  {
    UploadServiceFails(urls, rest, ClientSlug.GenerateSlug(title), content);
  }

  /** Every update with content fails at its upload, before the post is updated. */
  lemma UpdateFlowFails(urls: string -> (string, string), rest: Json -> Api.Outcome<string>,
                        slug: string, content: string, status: Option<string>, update: (string, PostRequest) -> Api.Outcome<Record>)
    requires content != ""
    ensures UpdateFlow(slug, None, Some(content), status, UploadService(urls, rest), update) == Api.Threw(Api.OtherFailure)
  {
    UploadServiceFails(urls, rest, slug, content);
  }

  /** So every create in the store ends in "Failed to create post", with the list untouched and nothing created. */
  lemma StoreCreateFails(urls: string -> (string, string), rest: Json -> Api.Outcome<string>,
                         s: PostsState, title: string, content: string, status: Option<string>,
                         create: PostRequest -> Api.Outcome<Record>)
    ensures AfterCreate(s, content, CreateFlow(title, content, status, UploadService(urls, rest), create))
      == Failed(s, Api.OtherFailure, "Failed to create post", true)
  {
    CreateFlowFails(urls, rest, title, content, status, create);
  }

  /** The editor hook uses the same upload service, so every create there fails the same way. */
  lemma HookCreateFails(urls: string -> (string, string), rest: Json -> Api.Outcome<string>,
                        h: UsePosts.PostState, title: string, content: string, status: Option<string>,
                        create: PostRequest -> Api.Outcome<Record>)
    ensures UsePosts.AfterCreate(h, content, CreateFlow(title, content, status, UploadService(urls, rest), create))
      == UsePosts.Failed(h, Api.OtherFailure, "Failed to create post", true)
  {
    CreateFlowFails(urls, rest, title, content, status, create);
  }

  /** Every update with content in the store ends in "Failed to update post", with the list untouched. */
  lemma StoreUpdateWithContentFails(urls: string -> (string, string), rest: Json -> Api.Outcome<string>,
                                    s: PostsState, status: Option<string>,
                                    slug: string, content: string, update: (string, PostRequest) -> Api.Outcome<Record>)
    requires content != ""
    ensures AfterUpdate(s, slug, Some(content), UpdateFlow(slug, None, Some(content), status, UploadService(urls, rest), update))
      == Failed(s, Api.OtherFailure, "Failed to update post", true)
  {
    UpdateFlowFails(urls, rest, slug, content, status, update);
  }
}
