/**
 * The post hooks (app/src/hooks/use-posts.ts): `usePosts` keeps one list
 * with its continuation token, `usePost` one loaded post. Their state is
 * React state updated through `setState(prev => ...)`, modelled as the fields
 * of an object per hook.
 */
module UsePosts {
  import opened Wrappers
  import JsString
  import opened Json
  import Api
  import opened PostCache

  datatype ListState = ListState(posts: seq<Record>, isLoading: bool, error: Option<string>, nextToken: Option<string>)

  /** A list fetch of either service: the page is appended or replaces the list, and its token is kept. */
  function AfterFetch(s: ListState, nextTokenParam: Option<string>, reply: Api.Outcome<ListPage>): (r: ListState)
    ensures !r.isLoading
    ensures reply.Done? ==>
      r.posts == Paged(s.posts, nextTokenParam, reply.value.posts) && r.nextToken == reply.value.nextToken && r.error.None?
    ensures reply.Threw? ==>
      r.posts == s.posts && r.nextToken == s.nextToken && r.error == Some(Api.ErrorText(reply.error, "Failed to fetch posts"))
  {
    match reply
    case Done(page) => s.(posts := Paged(s.posts, nextTokenParam, page.posts), nextToken := page.nextToken, isLoading := false, error := None)
    case Threw(e) => s.(error := Some(Api.ErrorText(e, "Failed to fetch posts")), isLoading := false)
  }

  /** `hasMore: !!nextToken`. */
  predicate HasMore(s: ListState) {
    JsString.Truthy(s.nextToken)
  }

  /** After a successful fetch there is more exactly when the page came with a non-empty token. */
  lemma HasMoreAfterFetch(s: ListState, nextTokenParam: Option<string>, page: ListPage)
    ensures HasMore(AfterFetch(s, nextTokenParam, Api.Done(page))) <==> JsString.Truthy(page.nextToken)
  {
  }

  class PostList {
    var posts: seq<Record>
    var isLoading: bool
    var error: Option<string>
    var nextToken: Option<string>

    function State(): ListState
      reads this
    {
      ListState(posts, isLoading, error, nextToken)
    }

    constructor ()
      ensures State() == ListState([], false, None, None)
    {
      posts, isLoading, error, nextToken := [], false, None, None;
    }

    /** `fetchMyPosts` and `fetchPublicPosts`, which differ only in the service called. */
    method Fetch(nextTokenParam: Option<string>, reply: Api.Outcome<ListPage>) returns (threw: bool)
      modifies this
      ensures State() == AfterFetch(old(State()), nextTokenParam, reply)
      ensures threw <==> reply.Threw?
    {
      isLoading, error := true, None;
      var r := AfterFetch(State(), nextTokenParam, reply);
      posts, isLoading, error, nextToken := r.posts, r.isLoading, r.error, r.nextToken;
      threw := reply.Threw?;
    }

    /** `loadMore(status)`: the caller's posts after the stored token, with the given status filter. */
    method LoadMore(status: Option<string>, listMy: (string, Option<string>) -> Api.Outcome<ListPage>) returns (threw: bool)
      modifies this
      ensures !HasMore(old(State())) ==> State() == old(State()) && !threw
      ensures HasMore(old(State())) ==>
        && State() == AfterFetch(old(State()), old(nextToken), listMy(old(nextToken).value, status))
        && (threw <==> listMy(old(nextToken).value, status).Threw?)
    {
      threw := false;
      if JsString.Truthy(nextToken) {
        threw := Fetch(nextToken, listMy(nextToken.value, status));
      }
    }
  }

  datatype PostState = PostState(post: Option<Record>, isLoading: bool, isSaving: bool, isUploading: bool, error: Option<string>)

  /** The catch block of the saving actions. */
  function Failed(s: PostState, e: Api.ServiceError, fallback: string, resetUpload: bool): (r: PostState)
    ensures r.post == s.post && r.isLoading == s.isLoading && !r.isSaving
    ensures r.error == Some(Api.ErrorText(e, fallback))
    ensures r.isUploading == (if resetUpload then false else s.isUploading)
  {
    s.(error := Some(Api.ErrorText(e, fallback)), isSaving := false, isUploading := if resetUpload then false else s.isUploading)
  }

  /** `fetchPost` (public) and `fetchMyPost` (owner), which differ only in the service called. */
  function AfterFetchPost(s: PostState, reply: Api.Outcome<Record>): (r: PostState)
    ensures !r.isLoading && r.isSaving == s.isSaving && r.isUploading == s.isUploading
    ensures reply.Done? ==> r.post == Some(reply.value) && r.error.None?
    ensures reply.Threw? ==> r.post == s.post && r.error == Some(Api.ErrorText(reply.error, "Failed to fetch post"))
  {
    match reply
    case Done(p) => s.(post := Some(p), isLoading := false, error := None)
    case Threw(e) => s.(error := Some(Api.ErrorText(e, "Failed to fetch post")), isLoading := false)
  }

  function AfterCreate(s: PostState, content: string, outcome: Api.Outcome<Record>): (r: PostState)
    ensures !r.isSaving && !r.isUploading && r.isLoading == s.isLoading
    ensures outcome.Done? ==> r.post == Some(WithContent(outcome.value, content)) && r.error.None?
    ensures outcome.Threw? ==> r == Failed(s, outcome.error, "Failed to create post", true)
  {
    match outcome
    case Done(p) => s.(post := Some(WithContent(p, content)), isSaving := false, isUploading := false, error := None)
    case Threw(e) => Failed(s, e, "Failed to create post", true)
  }

  function AfterUpdate(s: PostState, content: Option<string>, outcome: Api.Outcome<Record>): (r: PostState)
    ensures !r.isSaving && r.isLoading == s.isLoading
    ensures outcome.Done? ==>
      && r.post == CurrentAfterUpdate(s.post, outcome.value, content) && r.error.None?
      && r.isUploading == (if JsString.Truthy(content) then false else s.isUploading)
    ensures outcome.Threw? ==> r == Failed(s, outcome.error, "Failed to update post", true)
  {
    match outcome
    case Done(p) =>
      s.(post := CurrentAfterUpdate(s.post, p, content), isSaving := false,
         isUploading := if JsString.Truthy(content) then false else s.isUploading, error := None)
    case Threw(e) => Failed(s, e, "Failed to update post", true)
  }

  /** `deletePost`: the loaded post is cleared, whichever slug was deleted. */
  function AfterDelete(s: PostState, failure: Option<Api.ServiceError>): (r: PostState)
    ensures !r.isSaving && r.isUploading == s.isUploading && r.isLoading == s.isLoading
    ensures failure.None? ==> r.post.None? && r.error.None?
    ensures failure.Some? ==> r == Failed(s, failure.value, "Failed to delete post", false)
  {
    if failure.Some? then Failed(s, failure.value, "Failed to delete post", false)
    else s.(post := None, isSaving := false, error := None)
  }

  /** `publishPost` / `unpublishPost`: merged into the loaded post only when one is loaded. */
  function AfterStatusChange(s: PostState, outcome: Api.Outcome<Record>, fallback: string): (r: PostState)
    ensures !r.isSaving && r.isUploading == s.isUploading && r.isLoading == s.isLoading
    ensures outcome.Done? ==> (r.post.Some? <==> s.post.Some?) && r.error.None?
    ensures outcome.Done? && s.post.Some? ==> r.post.value == Merge(s.post.value, outcome.value)
    ensures outcome.Threw? ==> r == Failed(s, outcome.error, fallback, false)
  {
    match outcome
    case Done(p) => s.(post := if s.post.Some? then Some(Merge(s.post.value, p)) else None, isSaving := false, error := None)
    case Threw(e) => Failed(s, e, fallback, false)
  }

  /** Publishing keeps the loaded content: the response, a stored record, carries none. */
  lemma PublishKeepsContent(s: PostState, r: Record)
    requires s.post.Some? && "content" in s.post.value && "content" !in r
    ensures var t := AfterStatusChange(s, Api.Done(r), "Failed to publish post");
      t.post.Some? && t.post.value["content"] == s.post.value["content"]
  {
  }

  class PostEditor {
    var post: Option<Record>
    var isLoading: bool
    var isSaving: bool
    var isUploading: bool
    var error: Option<string>

    function State(): PostState
      reads this
    {
      PostState(post, isLoading, isSaving, isUploading, error)
    }

    constructor ()
      ensures State() == PostState(None, false, false, false, None)
    {
      post, isLoading, isSaving, isUploading, error := None, false, false, false, None;
    }

    method Assign(s: PostState)
      modifies this
      ensures State() == s
    {
      post, isLoading, isSaving, isUploading, error := s.post, s.isLoading, s.isSaving, s.isUploading, s.error;
    }

    method FetchPost(reply: Api.Outcome<Record>) returns (threw: bool)
      modifies this
      ensures State() == AfterFetchPost(old(State()), reply)
      ensures threw <==> reply.Threw?
    {
      isLoading, error := true, None;
      Assign(AfterFetchPost(State(), reply));
      threw := reply.Threw?;
    }

    method CreatePost(title: string, content: string, status: Option<string>, upload: Upload,
                      create: PostRequest -> Api.Outcome<Record>) returns (threw: bool)
      modifies this
      ensures State() == AfterCreate(old(State()), content, CreateFlow(title, content, status, upload, create))
      ensures threw <==> CreateFlow(title, content, status, upload, create).Threw?
    {
      isSaving, isUploading, error := true, true, None;
      var outcome := CreateFlow(title, content, status, upload, create);
      if outcome.Done? {
        isUploading := false;
      }
      Assign(AfterCreate(State(), content, outcome));
      threw := outcome.Threw?;
    }

    method UpdatePost(slug: string, title: Option<string>, content: Option<string>, status: Option<string>, upload: Upload,
                      update: (string, PostRequest) -> Api.Outcome<Record>) returns (threw: bool)
      modifies this
      ensures State() == AfterUpdate(old(State()), content, UpdateFlow(slug, title, content, status, upload, update))
      ensures threw <==> UpdateFlow(slug, title, content, status, upload, update).Threw?
    {
      isSaving, error := true, None;
      var outcome := UpdateFlow(slug, title, content, status, upload, update);
      if JsString.Truthy(content) && outcome.Done? {
        isUploading := false;
      }
      Assign(AfterUpdate(State(), content, outcome));
      threw := outcome.Threw?;
    }

    method DeletePost(failure: Option<Api.ServiceError>) returns (threw: bool)
      modifies this
      ensures State() == AfterDelete(old(State()), failure)
      ensures threw <==> failure.Some?
    {
      isSaving, error := true, None;
      Assign(AfterDelete(State(), failure));
      threw := failure.Some?;
    }

    method PublishPost(slug: string, update: (string, PostRequest) -> Api.Outcome<Record>) returns (threw: bool)
      modifies this
      ensures State() == AfterStatusChange(old(State()), update(slug, PostRequest(None, None, Some("published"))), "Failed to publish post")
      ensures threw <==> update(slug, PostRequest(None, None, Some("published"))).Threw?
    {
      isSaving, error := true, None;
      var outcome := update(slug, PostRequest(None, None, Some("published")));
      Assign(AfterStatusChange(State(), outcome, "Failed to publish post"));
      threw := outcome.Threw?;
    }

    method UnpublishPost(slug: string, update: (string, PostRequest) -> Api.Outcome<Record>) returns (threw: bool)
      modifies this
      ensures State() == AfterStatusChange(old(State()), update(slug, PostRequest(None, None, Some("draft"))), "Failed to unpublish post")
      ensures threw <==> update(slug, PostRequest(None, None, Some("draft"))).Threw?
    {
      isSaving, error := true, None;
      var outcome := update(slug, PostRequest(None, None, Some("draft")));
      Assign(AfterStatusChange(State(), outcome, "Failed to unpublish post"));
      threw := outcome.Threw?;
    }
  }
}
