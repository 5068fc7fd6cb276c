/**
 * The posts store (app/src/store/posts.ts): the post list and the loaded
 * post, changed by each action once its service call settles. A service call
 * is a parameter: its outcome, or a function from the request to the outcome
 * where the request matters. Each action that throws in the source returns
 * `threw`.
 */
module PostsStore {
  import opened Wrappers
  import JsString
  import opened Json
  import Api
  import opened PostCache

  datatype PostsState = PostsState(
    posts: seq<Record>,
    isLoading: bool,
    error: Option<string>,
    nextToken: Option<string>,
    currentPost: Option<Record>,
    isLoadingPost: bool,
    isSaving: bool,
    isUploading: bool,
    postError: Option<string>)

  const Initial: PostsState := PostsState([], false, None, None, None, false, false, false, None)

  /** The list fields: posts, their loading flag, their error and the continuation token. */
  predicate SameList(a: PostsState, b: PostsState) {
    a.posts == b.posts && a.isLoading == b.isLoading && a.error == b.error && a.nextToken == b.nextToken
  }

  /** The fields of the loaded post: the post, its loading and saving flags and its error. */
  predicate SamePost(a: PostsState, b: PostsState) {
    && a.currentPost == b.currentPost && a.isLoadingPost == b.isLoadingPost && a.isSaving == b.isSaving
    && a.isUploading == b.isUploading && a.postError == b.postError
  }

  /** `fetchMyPosts` / `fetchPublicPosts`: the page is appended or replaces the list; a failure keeps the list. */
  function AfterFetchList(s: PostsState, nextTokenParam: Option<string>, reply: Api.Outcome<ListPage>): (r: PostsState)
    ensures !r.isLoading && SamePost(r, s)
    ensures reply.Done? ==>
      r.posts == Paged(s.posts, nextTokenParam, reply.value.posts) && r.nextToken == reply.value.nextToken && r.error.None?
    ensures reply.Threw? ==>
      r.posts == s.posts && r.nextToken == s.nextToken && r.error == Some(Api.ErrorText(reply.error, "Failed to fetch posts"))
  {
    match reply
    case Done(page) => s.(posts := Paged(s.posts, nextTokenParam, page.posts), nextToken := page.nextToken,
                          isLoading := false, error := None)
    case Threw(e) => s.(error := Some(Api.ErrorText(e, "Failed to fetch posts")), isLoading := false)
  }

  /** `fetchPost`. */
  function AfterFetchPost(s: PostsState, reply: Api.Outcome<Record>): (r: PostsState)
    ensures !r.isLoadingPost && SameList(r, s)
    ensures r.isSaving == s.isSaving && r.isUploading == s.isUploading
    ensures reply.Done? ==> r.currentPost == Some(reply.value) && r.postError.None?
    ensures reply.Threw? ==> r.currentPost == s.currentPost && r.postError == Some(Api.ErrorText(reply.error, "Failed to fetch post"))
  {
    match reply
    case Done(post) => s.(currentPost := Some(post), isLoadingPost := false, postError := None)
    case Threw(e) => s.(postError := Some(Api.ErrorText(e, "Failed to fetch post")), isLoadingPost := false)
  }

  /** The catch block shared by the saving actions: the error, no saving, and the list untouched. */
  function Failed(s: PostsState, e: Api.ServiceError, fallback: string, resetUpload: bool): (r: PostsState)
    ensures SameList(r, s) && r.currentPost == s.currentPost && r.isLoadingPost == s.isLoadingPost
    ensures !r.isSaving && r.postError == Some(Api.ErrorText(e, fallback))
    ensures r.isUploading == (if resetUpload then false else s.isUploading)
  {
    s.(postError := Some(Api.ErrorText(e, fallback)), isSaving := false, isUploading := if resetUpload then false else s.isUploading)
  }

  /** `createPost`: the created post goes first in the list and becomes the loaded post with its content. */
  function AfterCreate(s: PostsState, content: string, outcome: Api.Outcome<Record>): (r: PostsState)
    ensures !r.isSaving && !r.isUploading && r.isLoadingPost == s.isLoadingPost
    ensures r.isLoading == s.isLoading && r.error == s.error && r.nextToken == s.nextToken
    ensures outcome.Done? ==>
      r.posts == [outcome.value] + s.posts && r.currentPost == Some(WithContent(outcome.value, content)) && r.postError.None?
    ensures outcome.Threw? ==> r == Failed(s, outcome.error, "Failed to create post", true)
  {
    match outcome
    case Done(post) => s.(currentPost := Some(WithContent(post, content)), posts := [post] + s.posts,
                          isSaving := false, isUploading := false, postError := None)
    case Threw(e) => Failed(s, e, "Failed to create post", true)
  }

  /**
   * `updatePost`: the response is merged into the list by slug and into the
   * loaded post. `isUploading` is reset only when it was set, that is when
   * there was content to upload, and on failure.
   */
  function AfterUpdate(s: PostsState, slug: string, content: Option<string>, outcome: Api.Outcome<Record>): (r: PostsState)
    ensures !r.isSaving && r.isLoadingPost == s.isLoadingPost
    ensures r.isLoading == s.isLoading && r.error == s.error && r.nextToken == s.nextToken
    ensures outcome.Done? ==>
      && r.posts == MergeBySlug(s.posts, slug, outcome.value)
      && r.currentPost == CurrentAfterUpdate(s.currentPost, outcome.value, content)
      && r.postError.None?
      && r.isUploading == (if JsString.Truthy(content) then false else s.isUploading)
    ensures outcome.Threw? ==> r == Failed(s, outcome.error, "Failed to update post", true)
  {
    match outcome
    case Done(post) =>
      s.(currentPost := CurrentAfterUpdate(s.currentPost, post, content), posts := MergeBySlug(s.posts, slug, post),
         isSaving := false, isUploading := if JsString.Truthy(content) then false else s.isUploading, postError := None)
    case Threw(e) => Failed(s, e, "Failed to update post", true)
  }

  /** `deletePost`: the posts with that slug leave the list; the loaded post goes only if it is that one. */
  function AfterDelete(s: PostsState, slug: string, failure: Option<Api.ServiceError>): (r: PostsState)
    ensures !r.isSaving && r.isUploading == s.isUploading && r.isLoadingPost == s.isLoadingPost
    ensures r.isLoading == s.isLoading && r.error == s.error && r.nextToken == s.nextToken
    ensures failure.None? ==>
      && r.posts == RemoveSlug(s.posts, slug)
      && (s.currentPost.Some? && HasSlug(s.currentPost.value, slug) ==> r.currentPost.None?)
      && (s.currentPost.None? || !HasSlug(s.currentPost.value, slug) ==> r.currentPost == s.currentPost)
      && r.postError.None?
    ensures failure.Some? ==> r == Failed(s, failure.value, "Failed to delete post", false)
  {
    if failure.Some? then Failed(s, failure.value, "Failed to delete post", false)
    else
      var loaded := if s.currentPost.Some? && HasSlug(s.currentPost.value, slug) then None else s.currentPost;
      s.(currentPost := loaded, posts := RemoveSlug(s.posts, slug), isSaving := false, postError := None)
  }

  /** `publishPost` / `unpublishPost`: the response is merged into the list by slug and into a loaded post. */
  function AfterStatusChange(s: PostsState, slug: string, outcome: Api.Outcome<Record>, fallback: string): (r: PostsState)
    ensures !r.isSaving && r.isUploading == s.isUploading && r.isLoadingPost == s.isLoadingPost
    ensures r.isLoading == s.isLoading && r.error == s.error && r.nextToken == s.nextToken
    ensures outcome.Done? ==>
      && r.posts == MergeBySlug(s.posts, slug, outcome.value)
      && (r.currentPost.Some? <==> s.currentPost.Some?)
      && (s.currentPost.Some? ==> r.currentPost.value == Merge(s.currentPost.value, outcome.value))
      && r.postError.None?
    ensures outcome.Threw? ==> r == Failed(s, outcome.error, fallback, false)
  {
    match outcome
    case Done(post) =>
      var loaded := if s.currentPost.Some? then Some(Merge(s.currentPost.value, post)) else None;
      s.(currentPost := loaded, posts := MergeBySlug(s.posts, slug, post), isSaving := false, postError := None)
    case Threw(e) => Failed(s, e, fallback, false)
  }

  /** Whatever a saving action's failure, the list is untouched and the store is no longer saving. */
  lemma FailureKeepsList(s: PostsState, created: string, slug: string, content: Option<string>, e: Api.ServiceError)
    ensures var c := AfterCreate(s, created, Api.Threw(e)); SameList(c, s) && !c.isSaving && !c.isUploading
    ensures var u := AfterUpdate(s, slug, content, Api.Threw(e)); SameList(u, s) && !u.isSaving && !u.isUploading
    ensures var d := AfterDelete(s, slug, Some(e)); SameList(d, s) && !d.isSaving
    ensures var p := AfterStatusChange(s, slug, Api.Threw(e), "Failed to publish post"); SameList(p, s) && !p.isSaving
  {
  }

  /** After a delete no listed post has that slug, and deleting again changes no post. */
  lemma DeleteRemovesSlug(s: PostsState, slug: string)
    ensures var r := AfterDelete(s, slug, None);
      && (forall i :: 0 <= i < |r.posts| ==> !HasSlug(r.posts[i], slug))
      && AfterDelete(r, slug, None).posts == r.posts
      && AfterDelete(r, slug, None).currentPost == r.currentPost
  {
    var r := AfterDelete(s, slug, None);
    assert forall i :: 0 <= i < |r.posts| ==> r.posts[i] in r.posts;
    RemoveSlugIdempotent(s.posts, slug);
  }

  /** Deleting a post just created, whose slug was not listed before, gives back the list as it was. */
  lemma CreateThenDelete(s: PostsState, content: string, post: Record, slug: string)
    requires HasSlug(post, slug) && forall i :: 0 <= i < |s.posts| ==> !HasSlug(s.posts[i], slug)
    ensures AfterDelete(AfterCreate(s, content, Api.Done(post)), slug, None).posts == s.posts
    ensures AfterDelete(AfterCreate(s, content, Api.Done(post)), slug, None).currentPost.None?
  {
    RemoveSlugAppend([post], s.posts, slug);
    RemoveAbsentSlug(s.posts, slug);
  }

  class PostsStore {
    var posts: seq<Record>
    var isLoading: bool
    var error: Option<string>
    var nextToken: Option<string>
    var currentPost: Option<Record>
    var isLoadingPost: bool
    var isSaving: bool
    var isUploading: bool
    var postError: Option<string>

    function State(): PostsState
      reads this
    {
      PostsState(posts, isLoading, error, nextToken, currentPost, isLoadingPost, isSaving, isUploading, postError)
    }

    constructor ()
      ensures State() == Initial
    {
      posts, isLoading, error, nextToken := [], false, None, None;
      currentPost, isLoadingPost, isSaving, isUploading, postError := None, false, false, false, None;
    }

    method Assign(s: PostsState)
      modifies this
      ensures State() == s
    {
      posts, isLoading, error, nextToken := s.posts, s.isLoading, s.error, s.nextToken;
      currentPost, isLoadingPost, isSaving, isUploading, postError := s.currentPost, s.isLoadingPost, s.isSaving, s.isUploading, s.postError;
    }

    /** `fetchMyPosts` and `fetchPublicPosts`, which differ only in the service called. */
    method FetchList(nextTokenParam: Option<string>, reply: Api.Outcome<ListPage>) returns (threw: bool)
      modifies this
      ensures State() == AfterFetchList(old(State()), nextTokenParam, reply)
      ensures threw <==> reply.Threw?
    {
      isLoading, error := true, None;
      Assign(AfterFetchList(State(), nextTokenParam, reply));
      threw := reply.Threw?;
    }

    /** `loadMore`: the next page of the caller's posts, or nothing without a token. */
    method LoadMore(listMy: string -> Api.Outcome<ListPage>) returns (threw: bool)
      modifies this
      ensures !JsString.Truthy(old(nextToken)) ==> State() == old(State()) && !threw
      ensures JsString.Truthy(old(nextToken)) ==>
        && State() == AfterFetchList(old(State()), old(nextToken), listMy(old(nextToken).value))
        && (threw <==> listMy(old(nextToken).value).Threw?)
    {
      threw := false;
      if JsString.Truthy(nextToken) {
        threw := FetchList(nextToken, listMy(nextToken.value));
      }
    }

    method FetchPost(reply: Api.Outcome<Record>) returns (threw: bool)
      modifies this
      ensures State() == AfterFetchPost(old(State()), reply)
      ensures threw <==> reply.Threw?
    {
      isLoadingPost, postError := true, None;
      Assign(AfterFetchPost(State(), reply));
      threw := reply.Threw?;
    }

    method CreatePost(title: string, content: string, status: Option<string>, upload: Upload,
                      create: PostRequest -> Api.Outcome<Record>) returns (threw: bool)
      modifies this
      ensures State() == AfterCreate(old(State()), content, CreateFlow(title, content, status, upload, create))
      ensures threw <==> CreateFlow(title, content, status, upload, create).Threw?
    {
      isSaving, isUploading, postError := true, true, None;
      var outcome := CreateFlow(title, content, status, upload, create);
      if outcome.Done? {
        isUploading := false;
      }
      Assign(AfterCreate(State(), content, outcome));
      threw := outcome.Threw?;
    }

    method UpdatePost(slug: string, title: Option<string>, content: Option<string>, status: Option<string>, upload: Upload,
                      update: (string, PostRequest) -> Api.Outcome<Record>) returns (threw: bool)
      modifies this
      ensures State() == AfterUpdate(old(State()), slug, content, UpdateFlow(slug, title, content, status, upload, update))
      ensures threw <==> UpdateFlow(slug, title, content, status, upload, update).Threw?
    {
      isSaving, postError := true, None;
      var outcome := UpdateFlow(slug, title, content, status, upload, update);
      if JsString.Truthy(content) && outcome.Done? {
        isUploading := false;
      }
      Assign(AfterUpdate(State(), slug, content, outcome));
      threw := outcome.Threw?;
    }

    method DeletePost(slug: string, failure: Option<Api.ServiceError>) returns (threw: bool)
      modifies this
      ensures State() == AfterDelete(old(State()), slug, failure)
      ensures threw <==> failure.Some?
    {
      isSaving, postError := true, None;
      Assign(AfterDelete(State(), slug, failure));
      threw := failure.Some?;
    }

    /** `publishPost`: an update that sends status `published`. */
    method PublishPost(slug: string, update: (string, PostRequest) -> Api.Outcome<Record>) returns (threw: bool)
      modifies this
      ensures State() == AfterStatusChange(old(State()), slug, update(slug, PostRequest(None, None, Some("published"))), "Failed to publish post")
      ensures threw <==> update(slug, PostRequest(None, None, Some("published"))).Threw?
    {
      isSaving, postError := true, None;
      var outcome := update(slug, PostRequest(None, None, Some("published")));
      Assign(AfterStatusChange(State(), slug, outcome, "Failed to publish post"));
      threw := outcome.Threw?;
    }

    /** `unpublishPost`: an update that sends status `draft`. */
    method UnpublishPost(slug: string, update: (string, PostRequest) -> Api.Outcome<Record>) returns (threw: bool)
      modifies this
      ensures State() == AfterStatusChange(old(State()), slug, update(slug, PostRequest(None, None, Some("draft"))), "Failed to unpublish post")
      ensures threw <==> update(slug, PostRequest(None, None, Some("draft"))).Threw?
    {
      isSaving, postError := true, None;
      var outcome := update(slug, PostRequest(None, None, Some("draft")));
      Assign(AfterStatusChange(State(), slug, outcome, "Failed to unpublish post"));
      threw := outcome.Threw?;
    }

    method ClearCurrentPost()
      modifies this
      ensures State() == old(State()).(currentPost := None, postError := None)
    {
      currentPost, postError := None, None;
    }

    method ClearError()
      modifies this
      ensures State() == old(State()).(error := None, postError := None)
    {
      error, postError := None, None;
    }
  }
}
