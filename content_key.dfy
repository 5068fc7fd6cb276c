/**
 * Content keys (backend/writeflow-sam-app/src/utils/s3.ts, `generateContentKey`)
 * and the ownership check the create and update handlers apply to them.
 */
module ContentKey {
  import JsString

  /** `posts/<authorId>/`: the prefix every key of that author must carry. */
  function OwnerPrefix(authorId: string): string {
    "posts/" + authorId + "/"
  }

  /** `contentKey.startsWith(`posts/${authorId}/`)`. */
  predicate OwnedBy(key: string, authorId: string) {
    JsString.StartsWith(key, OwnerPrefix(authorId))
  }

  /** `generateContentKey(authorId, slug)`. */
  function GenerateContentKey(authorId: string, slug: string): (k: string)
    ensures OwnedBy(k, authorId)
    ensures k[|OwnerPrefix(authorId)|..] == slug + ".html"
  {
    OwnerPrefix(authorId) + slug + ".html"
  }

  /** For one author, distinct slugs give distinct keys. */
  lemma KeyInjective(authorId: string, s1: string, s2: string)
    requires GenerateContentKey(authorId, s1) == GenerateContentKey(authorId, s2)
    ensures s1 == s2
  {
    assert (s1 + ".html")[..|s1|] == s1;
    assert (s2 + ".html")[..|s2|] == s2;
  }

  /** For author ids without `/`, a key made for one author fails every other author's check. */
  lemma KeyNotOwnedByOther(a: string, b: string, slug: string)
    requires a != b && '/' !in a && '/' !in b
    ensures !OwnedBy(GenerateContentKey(a, slug), b)
  {
    var k := GenerateContentKey(a, slug);
    var p := OwnerPrefix(b);
    assert forall i :: 0 <= i < |a| ==> k[6 + i] == a[i];
    assert forall i :: 0 <= i < |b| ==> p[6 + i] == b[i];
    assert k[6 + |a|] == '/' && p[6 + |b|] == '/';
    // a position inside the prefix where the key and the prefix differ
    var d: nat;
    if |a| < |b| {
      assert b[|a|] in b;
      d := 6 + |a|;
    } else if |b| < |a| {
      assert a[|b|] in a;
      d := 6 + |b|;
    } else {
      var i :| 0 <= i < |a| && a[i] != b[i];
      d := 6 + i;
    }
    assert d < |p| && d < |k| && k[d] != p[d];
    if |p| <= |k| {
      assert k[..|p|][d] != p[d];
    }
  }
}
