/**
 * The list handler (backend/writeflow-sam-app/src/handlers/listPosts.ts).
 * The query parameters are parsed, a pagination token is decoded, and one
 * query is issued: the caller's own posts on `/my/posts` (optionally
 * filtered by status), the published posts elsewhere. DynamoDB is the
 * parameter `db`, answering a query with a page or a failure; base64 and
 * JSON text are the parameters `decode` (None when the token does not
 * decode or parse) and `encode`.
 */
module ListPosts {
  import opened Wrappers
  import JsString
  import opened Json
  import Envelope
  import Posts

  /** The longest prefix of decimal digits. */
  function DigitPrefix(s: string): (r: string)
    ensures |r| <= |s| && r == s[..|r|]
    ensures forall i :: 0 <= i < |r| ==> JsString.IsDigit(r[i])
    ensures |r| < |s| ==> !JsString.IsDigit(s[|r|])
  {
    if s != [] && JsString.IsDigit(s[0]) then [s[0]] + DigitPrefix(s[1..]) else []
  }

  /** The value of a string of decimal digits, most significant first. */
  function DigitsValue(ds: string): nat
    requires forall i :: 0 <= i < |ds| ==> JsString.IsDigit(ds[i])
  {
    if ds == [] then 0
    else
      assert JsString.IsDigit(ds[|ds| - 1]);
      DigitsValue(ds[..|ds| - 1]) * 10 + (ds[|ds| - 1] as int - '0' as int)
  }

  /**
   * `parseInt(s, 10)`: leading white space and one sign are skipped, then as
   * many digits as follow are read; None is NaN, when no digit follows.
   */
  function ParseInt(s: string): Option<int> {
    var t := JsString.TrimStart(s);
    var negative := t != [] && t[0] == '-';
    var u := if t != [] && (t[0] == '-' || t[0] == '+') then t[1..] else t;
    var ds := DigitPrefix(u);
    if ds == [] then None
    else
      var magnitude: int := DigitsValue(ds);
      Some(if negative then -magnitude else magnitude)
  }

  lemma {:induction false} DigitsValueOfRendering(n: nat)
    ensures DigitsValue(JsString.NatToString(n)) == n
  {
    var r := JsString.NatToString(n);
    if n >= 10 {
      assert r[..|r| - 1] == JsString.NatToString(n / 10);
      DigitsValueOfRendering(n / 10);
    }
  }

  lemma {:induction false} DigitPrefixOfDigits(s: string)
    requires forall i :: 0 <= i < |s| ==> JsString.IsDigit(s[i])
    ensures DigitPrefix(s) == s
  {
    if s != [] {
      DigitPrefixOfDigits(s[1..]);
    }
  }

  lemma TrimStartKeeps(s: string)
    requires s != [] && !JsString.IsSpace(s[0])
    ensures JsString.TrimStart(s) == s
  {
  }

  /** A string without digits is NaN. */
  lemma NoDigitsIsNaN(s: string)
    requires forall i :: 0 <= i < |s| ==> !JsString.IsDigit(s[i])
    ensures ParseInt(s).None?
  {
    var t := JsString.TrimStart(s);
    var u := if t != [] && (t[0] == '-' || t[0] == '+') then t[1..] else t;
    if u != [] {
      var k := |s| - |u|;
      assert u[0] == t[|t| - |u|] == s[k];
      assert !JsString.IsDigit(u[0]);
    }
    assert DigitPrefix(u) == [];
  }

  /** `parseInt` reads back the decimal rendering of every integer. */
  lemma ParseIntRendering(i: int)
    ensures ParseInt(JsString.IntToString(i)) == Some(i)
  {
    var n: nat := if i < 0 then -i else i;
    var digits := JsString.NatToString(n);
    DigitPrefixOfDigits(digits);
    DigitsValueOfRendering(n);
    if i < 0 {
      assert JsString.IntToString(i) == "-" + digits;
      TrimStartKeeps("-" + digits);
      assert ("-" + digits)[1..] == digits;
    } else {
      assert JsString.IsDigit(digits[0]);
      TrimStartKeeps(digits);
    }
  }

  /** `Math.min(parseInt(limit || '20', 10), 100)`; None is NaN. */
  function PageLimit(param: Option<string>): (r: Option<int>)
    ensures !JsString.Truthy(param) ==> r == Some(20)
    ensures r.Some? ==> r.value <= 100
    ensures JsString.Truthy(param) ==> (r.None? <==> ParseInt(param.value).None?)
  {
    ParseIntRendering(20);
    assert JsString.IntToString(20) == "20";
    var parsed := ParseInt(if JsString.Truthy(param) then param.value else "20");
    if parsed.None? then None else Some(if parsed.value < 100 then parsed.value else 100)
  }

  /** A numeric limit is honoured up to 100. */
  lemma LimitCapped(n: int)
    ensures PageLimit(Some(JsString.IntToString(n))) == Some(if n < 100 then n else 100)
  {
    ParseIntRendering(n);
  }

  /** Where the page starts: at the beginning, after a decoded key, or nowhere for a bad token. */
  datatype Start = FromBeginning | After(key: Json) | BadToken

  function StartKey(nextToken: Option<string>, decode: string -> Option<Json>): (r: Start)
    ensures !JsString.Truthy(nextToken) ==> r == FromBeginning
    ensures JsString.Truthy(nextToken) ==> (r == BadToken <==> decode(nextToken.value).None?)
    ensures r.After? ==> decode(nextToken.value) == Some(r.key)
  {
    if !JsString.Truthy(nextToken) then FromBeginning
    else match decode(nextToken.value)
      case None => BadToken
      case Some(k) => After(k)
  }

  /** The two queries the handler issues: the author index, or the status index for `published`. */
  datatype Query =
    | AuthorQuery(authorId: string, status: Option<string>, limit: Option<int>, start: Option<Json>)
    | PublishedQuery(limit: Option<int>, start: Option<Json>)

  /** What DynamoDB answers: a page of records and the key to continue after, or a failure. */
  datatype QueryAnswer = QueryFailed | Page(items: seq<Posts.Post>, lastKey: Option<Json>)

  type Database = Query -> QueryAnswer

  predicate Matches(q: Query, p: Posts.Post) {
    match q
    case AuthorQuery(authorId, status, _, _) => p.authorId == authorId && (status.Some? ==> p.status == status.value)
    case PublishedQuery(_, _) => p.status == "published"
  }

  /** A page answers a query over a table when it holds only stored records the query selects, and no more than the limit. */
  predicate Answers(table: Posts.Table, q: Query, a: QueryAnswer) {
    a.Page? ==>
      && (forall i :: 0 <= i < |a.items| ==> a.items[i] in table.Values && Matches(q, a.items[i]))
      && (q.limit.Some? && q.limit.value >= 0 ==> |a.items| <= q.limit.value)
  }

  /** `mapToPostListItem`: the author and the content key are not listed. */
  function ListItem(p: Posts.Post): (j: Json)
    ensures j.JObj? && "authorId" !in j.fields && "contentKey" !in j.fields
    ensures Field(j, "slug") == Some(JStr(p.slug)) && Field(j, "status") == Some(JStr(p.status))
    ensures Field(j, "title") == Some(JStr(p.title))
    ensures ("publishedAt" in j.fields) <==> p.publishedAt.Some?
  {
    JObj(map[
      "slug" := JStr(p.slug), "title" := JStr(p.title), "status" := JStr(p.status),
      "createdAt" := JStr(p.createdAt), "updatedAt" := JStr(p.updatedAt)] + Posts.OptionalMember("publishedAt", p.publishedAt))
  }

  /** `{ posts, nextToken }`: the token is present exactly when the page has a key to continue after. */
  function ListBody(items: seq<Posts.Post>, lastKey: Option<Json>, encode: Json -> string): (j: Json)
    ensures j.JObj? && "posts" in j.fields && j.fields["posts"].JArr?
    ensures |j.fields["posts"].items| == |items|
    ensures forall i :: 0 <= i < |items| ==> j.fields["posts"].items[i] == ListItem(items[i])
    ensures ("nextToken" in j.fields) <==> lastKey.Some?
    ensures lastKey.Some? ==> j.fields["nextToken"] == JStr(encode(lastKey.value))
  {
    var posts := JArr(seq(|items|, i requires 0 <= i < |items| => ListItem(items[i])));
    JObj(map["posts" := posts] + (if lastKey.Some? then map["nextToken" := JStr(encode(lastKey.value))] else map[]))
  }

  predicate MyPostsPath(path: string) {
    JsString.Contains(path, "/my/posts")
  }

  /** The query issued for a request whose token decoded. */
  function IssuedQuery(path: string, limit: Option<string>, start: Option<Json>, statusFilter: Option<string>, authorId: string): (q: Query)
    ensures MyPostsPath(path) ==> q == AuthorQuery(authorId, if JsString.Truthy(statusFilter) then statusFilter else None, PageLimit(limit), start)
    ensures !MyPostsPath(path) ==> q == PublishedQuery(PageLimit(limit), start)
  {
    if MyPostsPath(path) then AuthorQuery(authorId, if JsString.Truthy(statusFilter) then statusFilter else None, PageLimit(limit), start)
    else PublishedQuery(PageLimit(limit), start)
  }

  function Handle(path: string, limit: Option<string>, nextToken: Option<string>, statusFilter: Option<string>,
                  authorId: Option<string>, decode: string -> Option<Json>, encode: Json -> string, db: Database): (r: Envelope.LambdaResult)
    ensures StartKey(nextToken, decode) == BadToken ==> r == Envelope.ErrorResponse("Invalid pagination token", 400)
    ensures StartKey(nextToken, decode) != BadToken && MyPostsPath(path) && !JsString.Truthy(authorId) ==>
      r == Envelope.ErrorResponse("Unauthorized", 401)
    ensures StartKey(nextToken, decode) != BadToken && (!MyPostsPath(path) || JsString.Truthy(authorId)) ==>
      var start := StartKey(nextToken, decode);
      var q := IssuedQuery(path, limit, if start.After? then Some(start.key) else None, statusFilter, authorId.GetOr(""));
      && (db(q).QueryFailed? ==> r == Envelope.ErrorResponse(Posts.InternalError, 500))
      && (db(q).Page? ==> r == Envelope.SuccessResponse(ListBody(db(q).items, db(q).lastKey, encode)))
  {
    var start := StartKey(nextToken, decode);
    if start == BadToken then Envelope.ErrorResponse("Invalid pagination token", 400)
    else if MyPostsPath(path) && !JsString.Truthy(authorId) then Envelope.ErrorResponse("Unauthorized", 401)
    else
      var q := IssuedQuery(path, limit, if start.After? then Some(start.key) else None, statusFilter, authorId.GetOr(""));
      match db(q)
      case QueryFailed => Envelope.ErrorResponse(Posts.InternalError, 500)
      case Page(items, lastKey) => Envelope.SuccessResponse(ListBody(items, lastKey, encode))
  }

  /**
   * What a listed page may hold, for a database that answers honestly: on
   * `/my/posts` only the caller's posts (with the requested status, if any),
   * elsewhere only published posts.
   */
  lemma ListedPostsMatch(table: Posts.Table, path: string, start: Option<Json>, limit: Option<string>, statusFilter: Option<string>,
                         authorId: string, db: Database)
    requires Answers(table, IssuedQuery(path, limit, start, statusFilter, authorId), db(IssuedQuery(path, limit, start, statusFilter, authorId)))
    ensures var a := db(IssuedQuery(path, limit, start, statusFilter, authorId));
      a.Page? ==> forall i :: 0 <= i < |a.items| ==>
        && a.items[i] in table.Values
        && (MyPostsPath(path) ==> a.items[i].authorId == authorId && (JsString.Truthy(statusFilter) ==> a.items[i].status == statusFilter.value))
        && (!MyPostsPath(path) ==> a.items[i].status == "published")
    ensures var a := db(IssuedQuery(path, limit, start, statusFilter, authorId));
      a.Page? && PageLimit(limit).Some? && PageLimit(limit).value >= 0 ==> |a.items| <= PageLimit(limit).value <= 100
  {
  }

  /**
   * The token a page returns (`ListBody`'s `nextToken`), sent back with the
   * same path, limit and filter, makes the handler issue the same query
   * starting after that page's last key, and answer with that query's page.
   */
  lemma NextTokenContinues(path: string, limit: Option<string>, statusFilter: Option<string>, authorId: Option<string>,
                           decode: string -> Option<Json>, encode: Json -> string, db: Database,
                           items: seq<Posts.Post>, lastKey: Json)
    requires encode(lastKey) != "" && decode(encode(lastKey)) == Some(lastKey)
    requires !MyPostsPath(path) || JsString.Truthy(authorId)
    ensures ListBody(items, Some(lastKey), encode).fields["nextToken"] == JStr(encode(lastKey))
    ensures var q := IssuedQuery(path, limit, Some(lastKey), statusFilter, authorId.GetOr(""));
      var r := Handle(path, limit, Some(encode(lastKey)), statusFilter, authorId, decode, encode, db);
      && q.start == Some(lastKey)
      && (db(q).Page? ==> r == Envelope.SuccessResponse(ListBody(db(q).items, db(q).lastKey, encode)))
      && (db(q).QueryFailed? ==> r == Envelope.ErrorResponse(Posts.InternalError, 500))
  {
    assert StartKey(Some(encode(lastKey)), decode) == After(lastKey);
  }
}
