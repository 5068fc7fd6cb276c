/**
 * The client-side post values and the list transforms shared by the posts
 * store (app/src/store/posts.ts) and the post hooks (app/src/hooks/use-posts.ts).
 * A post as the client holds it is the parsed JSON object, so that object
 * spread `{...p, ...r}` is exactly the right-biased map union `p + r`; a post
 * with content is the same object with a `content` member.
 */
module PostCache {
  import opened Wrappers
  import JsString
  import opened Json
  import Api
  import ClientSlug

  type Record = map<string, Json>

  /** `p.slug === slug`. */
  predicate HasSlug(p: Record, slug: string) {
    "slug" in p && p["slug"] == JStr(slug)
  }

  /** A page of a list response as the services deliver it. */
  datatype ListPage = ListPage(posts: seq<Record>, nextToken: Option<string>)

  /** The body of a create or update request; absent members are left out of the JSON. */
  datatype PostRequest = PostRequest(title: Option<string>, contentKey: Option<string>, status: Option<string>)

  /** `uploadService.uploadPostContent(slug, content)`: the content key, or a failure. */
  type Upload = (string, string) -> Api.Outcome<string>

  /** `params?.nextToken ? [...posts, ...page] : page`: a continuation appends, a first page replaces. */
  function Paged(current: seq<Record>, nextTokenParam: Option<string>, page: seq<Record>): (r: seq<Record>)
    ensures JsString.Truthy(nextTokenParam) ==> |r| == |current| + |page| && r[..|current|] == current && r[|current|..] == page
    ensures !JsString.Truthy(nextTokenParam) ==> r == page
  {
    if JsString.Truthy(nextTokenParam) then current + page else page
  }

  /** Loading a first page and then its continuation lists both pages in order, whatever was listed before. */
  lemma PagesAccumulate(before: seq<Record>, first: seq<Record>, token: string, second: seq<Record>)
    requires token != ""
    ensures Paged(Paged(before, None, first), Some(token), second) == first + second
  {
  }

  /** `{...r, content}`. */
  function WithContent(r: Record, content: string): (m: Record)
    ensures m.Keys == r.Keys + {"content"} && m["content"] == JStr(content)
    ensures forall k :: k in r && k != "content" ==> m[k] == r[k]
  {
    r["content" := JStr(content)]
  }

  /** `{...p, ...r}`: every member of `r`, and the members of `p` that `r` does not have. */
  function Merge(p: Record, r: Record): (m: Record)
    ensures m.Keys == p.Keys + r.Keys
    ensures forall k :: k in r ==> m[k] == r[k]
    ensures forall k :: k in p && k !in r ==> m[k] == p[k]
  {
    p + r
  }

  /** Merging the same response twice is merging it once. */
  lemma MergeIdempotent(p: Record, r: Record)
    ensures Merge(Merge(p, r), r) == Merge(p, r)
  {
  }

  /** `posts.map(p => p.slug === slug ? {...p, ...r} : p)`. */
  function MergeBySlug(posts: seq<Record>, slug: string, r: Record): (out: seq<Record>)
    ensures |out| == |posts|
    ensures forall i :: 0 <= i < |posts| && !HasSlug(posts[i], slug) ==> out[i] == posts[i]
    ensures forall i :: 0 <= i < |posts| && HasSlug(posts[i], slug) ==> out[i] == Merge(posts[i], r)
  {
    seq(|posts|, i requires 0 <= i < |posts| => if HasSlug(posts[i], slug) then Merge(posts[i], r) else posts[i])
  }

  /** A response for the same slug keeps every post's slug where it was. */
  lemma MergeKeepsSlugs(posts: seq<Record>, slug: string, r: Record, other: string)
    requires HasSlug(r, slug)
    ensures forall i :: 0 <= i < |posts| ==> (HasSlug(MergeBySlug(posts, slug, r)[i], other) <==> HasSlug(posts[i], other))
  {
  }

  /** A list without that slug is left as it is, and merging twice is merging once. */
  lemma MergeBySlugStable(posts: seq<Record>, slug: string, r: Record)
    ensures (forall i :: 0 <= i < |posts| ==> !HasSlug(posts[i], slug)) ==> MergeBySlug(posts, slug, r) == posts
    ensures HasSlug(r, slug) ==> MergeBySlug(MergeBySlug(posts, slug, r), slug, r) == MergeBySlug(posts, slug, r)
  {
    if HasSlug(r, slug) {
      var once := MergeBySlug(posts, slug, r);
      forall i | 0 <= i < |posts|
        ensures MergeBySlug(once, slug, r)[i] == once[i]
      {
        if HasSlug(posts[i], slug) {
          MergeIdempotent(posts[i], r);
        }
      }
    }
  }

  /** `posts.filter(p => p.slug !== slug)`. */
  function RemoveSlug(posts: seq<Record>, slug: string): (out: seq<Record>)
    ensures |out| <= |posts|
    ensures forall p :: p in out <==> p in posts && !HasSlug(p, slug)
  {
    if posts == [] then []
    else (if HasSlug(posts[0], slug) then [] else [posts[0]]) + RemoveSlug(posts[1..], slug)
  }

  /** Filtering distributes over concatenation, so the posts that remain keep their order. */
  lemma {:induction false} RemoveSlugAppend(a: seq<Record>, b: seq<Record>, slug: string)
    ensures RemoveSlug(a + b, slug) == RemoveSlug(a, slug) + RemoveSlug(b, slug)
  {
    if a == [] {
      assert a + b == b;
    } else {
      assert (a + b)[0] == a[0];
      assert (a + b)[1..] == a[1..] + b;
      RemoveSlugAppend(a[1..], b, slug);
    }
  }

  /** A list without that slug is left exactly as it is. */
  lemma {:induction false} RemoveAbsentSlug(posts: seq<Record>, slug: string)
    requires forall i :: 0 <= i < |posts| ==> !HasSlug(posts[i], slug)
    ensures RemoveSlug(posts, slug) == posts
  {
    if posts != [] {
      RemoveAbsentSlug(posts[1..], slug);
    }
  }

  /** Removing twice is removing once. */
  lemma RemoveSlugIdempotent(posts: seq<Record>, slug: string)
    ensures RemoveSlug(RemoveSlug(posts, slug), slug) == RemoveSlug(posts, slug)
  {
    var once := RemoveSlug(posts, slug);
    assert forall i :: 0 <= i < |once| ==> once[i] in once;
    RemoveAbsentSlug(once, slug);
  }

  /** The loaded post after an update: response plus the new content, the response merged in, or nothing. */
  function CurrentAfterUpdate(current: Option<Record>, r: Record, content: Option<string>): (c: Option<Record>)
    ensures JsString.Truthy(content) ==> c == Some(WithContent(r, content.value))
    ensures !JsString.Truthy(content) ==> (c.Some? <==> current.Some?)
    ensures !JsString.Truthy(content) && current.Some? ==> c.value == Merge(current.value, r)
  {
    if JsString.Truthy(content) then Some(WithContent(r, content.value))
    else if current.Some? then Some(Merge(current.value, r))
    else None
  }

  /** An update without new content keeps the loaded content. */
  lemma UpdateKeepsLoadedContent(current: Record, r: Record, content: Option<string>)
    requires !JsString.Truthy(content) && "content" in current && "content" !in r
    ensures var c := CurrentAfterUpdate(Some(current), r, content);
      c.Some? && "content" in c.value && c.value["content"] == current["content"]
  {
  }

  /** The create flow: upload under the title's slug, then create with the returned key. */
  function CreateFlow(title: string, content: string, status: Option<string>, upload: Upload,
                      create: PostRequest -> Api.Outcome<Record>): (r: Api.Outcome<Record>)
    ensures upload(ClientSlug.GenerateSlug(title), content).Threw? ==> r == Api.Threw(upload(ClientSlug.GenerateSlug(title), content).error)
    ensures upload(ClientSlug.GenerateSlug(title), content).Done? ==>
      r == create(PostRequest(Some(title), Some(upload(ClientSlug.GenerateSlug(title), content).value), status))
  {
    match upload(ClientSlug.GenerateSlug(title), content)
    case Threw(e) => Api.Threw(e)
    case Done(key) => create(PostRequest(Some(title), Some(key), status))
  }

  /** The update flow: upload first only when there is content, then update with the key (if any). */
  function UpdateFlow(slug: string, title: Option<string>, content: Option<string>, status: Option<string>, upload: Upload,
                      update: (string, PostRequest) -> Api.Outcome<Record>): (r: Api.Outcome<Record>)
    ensures !JsString.Truthy(content) ==> r == update(slug, PostRequest(title, None, status))
    ensures JsString.Truthy(content) && upload(slug, content.value).Threw? ==> r == Api.Threw(upload(slug, content.value).error)
    ensures JsString.Truthy(content) && upload(slug, content.value).Done? ==>
      r == update(slug, PostRequest(title, Some(upload(slug, content.value).value), status))
  {
    if !JsString.Truthy(content) then update(slug, PostRequest(title, None, status))
    else match upload(slug, content.value)
      case Threw(e) => Api.Threw(e)
      case Done(key) => update(slug, PostRequest(title, Some(key), status))
  }

  /** Without content the upload service is not consulted: any two upload services give the same outcome. */
  lemma NoContentNoUpload(slug: string, title: Option<string>, content: Option<string>, status: Option<string>,
                          upload1: Upload, upload2: Upload, update: (string, PostRequest) -> Api.Outcome<Record>)
    requires !JsString.Truthy(content)
    ensures UpdateFlow(slug, title, content, status, upload1, update) == UpdateFlow(slug, title, content, status, upload2, update)
  {
  }
}
