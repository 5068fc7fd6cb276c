/**
 * The client's `generateSlug` (app/src/lib/posts.ts), of which
 * app/src/store/posts.ts and app/src/hooks/use-posts.ts hold identical
 * copies: lower-case, trim, drop everything but word characters, white space
 * and `-`, turn every run of white space, `_` and `-` into one `-`, and strip
 * `-` from both ends. `\w` and `\s` are the regular expressions' classes
 * without the Unicode flag: `\w` is `[A-Za-z0-9_]`.
 */
module ClientSlug {
  import JsString
  import Runs
  import BackendSlug

  predicate IsWord(c: char) {
    JsString.IsLower(c) || JsString.IsUpper(c) || JsString.IsDigit(c) || c == '_'
  }

  predicate IsSep(c: char) {
    JsString.IsSpace(c) || c == '_' || c == '-'
  }

  predicate Kept(c: char) {
    IsWord(c) || JsString.IsSpace(c) || c == '-'
  }

  /**
   * `.replace(/[^\w\s-]/g, "")`: a filter. `KeepAllowedOne` says that one
   * character is kept exactly when it is a word character, white space or `-`,
   * and `KeepAllowedAppend` that a string is filtered piecewise, so the kept
   * characters stay in order.
   */
  function KeepAllowed(s: string): (r: string)
    ensures forall c :: c in r ==> c in s && Kept(c)
    ensures (forall i :: 0 <= i < |s| ==> Kept(s[i])) ==> r == s
  {
    if s == [] then []
    else (if Kept(s[0]) then [s[0]] else []) + KeepAllowed(s[1..])
  }

  lemma KeepAllowedOne(c: char)
    ensures KeepAllowed([c]) == if Kept(c) then [c] else []
  {
    assert [c][1..] == [];
  }

  lemma {:induction false} KeepAllowedAppend(a: string, b: string)
    ensures KeepAllowed(a + b) == KeepAllowed(a) + KeepAllowed(b)
  {
    if a == [] {
      assert a + b == b;
    } else {
      assert (a + b)[0] == a[0];
      assert (a + b)[1..] == a[1..] + b;
      KeepAllowedAppend(a[1..], b);
    }
  }

  /**
   * `.replace(/[\s_-]+/g, "-")`: each maximal run of white space, `_` and `-`
   * becomes one `-` (`Runs.Collapse`; `Runs.CollapsePlain`,
   * `Runs.CollapseOfRun` and `Runs.CollapseAppend` fix the result).
   */
  function DashSeps(s: string): (r: string)
    ensures forall c :: c in r && c != '-' ==> c in s && !IsSep(c)
    ensures Runs.NoDoubleDash(r)
    ensures s == [] <==> r == []
    ensures s != [] ==> (r[0] == '-' <==> IsSep(s[0]))
  {
    Runs.CollapseShape(s, IsSep);
    Runs.Collapse(s, IsSep)
  }

  /** The index of the first character at or after `from` that is not a dash. */
  function LeadingDashEnd(s: string, from: nat): (n: nat)
    requires from <= |s|
    ensures from <= n <= |s|
    ensures forall k :: from <= k < n ==> s[k] == '-'
    ensures n == |s| || s[n] != '-'
    decreases |s| - from
  {
    if from < |s| && s[from] == '-' then LeadingDashEnd(s, from + 1) else from
  }

  /** The index where the run of dashes that ends `s[..hi]` starts, looking no lower than `lo`. */
  function TrailingDashStart(s: string, lo: nat, hi: nat): (n: nat)
    requires lo <= hi <= |s|
    ensures lo <= n <= hi
    ensures forall k :: n <= k < hi ==> s[k] == '-'
    ensures n == lo || s[n - 1] != '-'
    decreases hi
  {
    if lo < hi && s[hi - 1] == '-' then TrailingDashStart(s, lo, hi - 1) else hi
  }

  /** `r` is `s[i..j]`, and only dashes lie outside it. */
  predicate MiddleOf(s: string, r: string, i: int, j: int) {
    && 0 <= i <= j <= |s| && r == s[i..j]
    && (forall k :: 0 <= k < i ==> s[k] == '-')
    && (forall k :: j <= k < |s| ==> s[k] == '-')
  }

  /**
   * `.replace(/^-+|-+$/g, "")`: the result is the middle of `s` left once
   * every leading and every trailing `-` is cut away.
   */
  function TrimDashes(s: string): (r: string)
    ensures r == [] || (r[0] != '-' && r[|r| - 1] != '-')
    ensures forall c :: c in r ==> c in s
    ensures Runs.NoDoubleDash(s) ==> Runs.NoDoubleDash(r)
    ensures (s == [] || (s[0] != '-' && s[|s| - 1] != '-')) ==> r == s
  {
    var i := LeadingDashEnd(s, 0);
    var j := TrailingDashStart(s, i, |s|);
    assert forall k :: 0 <= k < j - i ==> s[i..j][k] == s[i + k];
    s[i..j]
  }

  /**
   * What `TrimDashes` leaves is a slice of `s` with only dashes outside it;
   * with the contract's "no dash at either end" this fixes the slice.
   */
  lemma TrimDashesIsMiddle(s: string)
    ensures exists i, j :: MiddleOf(s, TrimDashes(s), i, j)
  {
    var i := LeadingDashEnd(s, 0);
    var j := TrailingDashStart(s, i, |s|);
    assert MiddleOf(s, TrimDashes(s), i, j);
  }

  /** A slug as the client shapes one. */
  predicate WellFormed(s: string) {
    && BackendSlug.SlugAlphabet(s)
    && Runs.NoDoubleDash(s)
    && (s == [] || (s[0] != '-' && s[|s| - 1] != '-'))
  }

  function GenerateSlug(title: string): (r: string)
    ensures WellFormed(r)
    ensures forall i :: 0 <= i < |r| ==> !JsString.IsUpper(r[i])
  {
    var lowered := JsString.ToLower(title);
    var kept := KeepAllowed(JsString.Trim(lowered));
    var r := TrimDashes(DashSeps(kept));
    SlugChars(lowered, r);
    r
  }

  lemma PlainChar(c: char)
    requires Kept(c) && !IsSep(c) && !JsString.IsUpper(c)
    ensures BackendSlug.IsSlugChar(c)
  {
  }

  /** What survives of a lower-cased title is `a-z`, `0-9` or `-`. */
  lemma SlugChars(lowered: string, r: string)
    requires forall i :: 0 <= i < |lowered| ==> !JsString.IsUpper(lowered[i])
    requires r == TrimDashes(DashSeps(KeepAllowed(JsString.Trim(lowered))))
    ensures BackendSlug.SlugAlphabet(r)
    ensures forall i :: 0 <= i < |r| ==> !JsString.IsUpper(r[i])
  {
    forall i | 0 <= i < |r|
      ensures (BackendSlug.IsSlugChar(r[i]) || r[i] == '-') && !JsString.IsUpper(r[i])
    {
      assert r[i] in r;
      SlugChar(lowered, r[i]);
    }
  }

  lemma SlugChar(lowered: string, c: char)
    requires forall i :: 0 <= i < |lowered| ==> !JsString.IsUpper(lowered[i])
    requires c in TrimDashes(DashSeps(KeepAllowed(JsString.Trim(lowered))))
    ensures (BackendSlug.IsSlugChar(c) || c == '-') && !JsString.IsUpper(c)
  {
    if c != '-' {
      var kept := KeepAllowed(JsString.Trim(lowered));
      assert c in DashSeps(kept);
      assert c in kept && !IsSep(c);
      TrimInside(lowered);
      assert c in lowered;
      var j :| 0 <= j < |lowered| && lowered[j] == c;
      PlainChar(c);
    }
  }

  /** `trim` keeps only characters of its input. */
  lemma TrimInside(s: string)
    ensures forall c :: c in JsString.Trim(s) ==> c in s
  {
    var t := JsString.TrimStart(s);
    var r := JsString.TrimEnd(t);
    forall c | c in r ensures c in s {
      var m :| 0 <= m < |r| && r[m] == c;
      assert r[m] == t[..|r|][m] == t[m];
      assert t[m] == s[|s| - |t|..][m] == s[|s| - |t| + m];
    }
  }


  /** A slug character is kept and is no separator. */
  lemma SlugCharIsPlain(c: char)
    requires BackendSlug.IsSlugChar(c)
    ensures Kept(c) && !IsSep(c) && !JsString.IsUpper(c) && !JsString.IsSpace(c)
  {
  }

  /** The dash rule keeps a string of slug characters whose dashes stand alone. */
  lemma DashSepsKeepsSlug(s: string)
    requires BackendSlug.SlugAlphabet(s) && Runs.NoDoubleDash(s)
    ensures DashSeps(s) == s
  {
    forall i | 0 <= i < |s| && IsSep(s[i]) ensures s[i] == '-' {
      if s[i] != '-' {
        SlugCharIsPlain(s[i]);
      }
    }
    Runs.CollapseKeepsSingles(s, IsSep);
  }

  /** Slugging a slug changes nothing. */
  lemma GenerateSlugIdempotent(title: string)
    ensures GenerateSlug(GenerateSlug(title)) == GenerateSlug(title)
  {
    SlugOfSlug(GenerateSlug(title));
  }

  /** A well-formed lower-case slug is its own slug. */
  lemma SlugOfSlug(g: string)
    requires WellFormed(g)
    ensures GenerateSlug(g) == g
  {
    forall i | 0 <= i < |g| ensures Kept(g[i]) && !JsString.IsUpper(g[i]) {
      if g[i] != '-' {
        SlugCharIsPlain(g[i]);
      }
    }
    LowerKeepsSlug(g);
    TrimKeepsSlug(g);
    assert KeepAllowed(g) == g;
    DashSepsKeepsSlug(g);
    assert TrimDashes(g) == g;
  }

  lemma LowerKeepsSlug(g: string)
    requires forall i :: 0 <= i < |g| ==> !JsString.IsUpper(g[i])
    ensures JsString.ToLower(g) == g
  {
  }

  /** A well-formed slug has no white space at either end. */
  lemma TrimKeepsSlug(g: string)
    requires WellFormed(g)
    ensures JsString.Trim(g) == g
  {
    if g != [] {
      SlugCharIsPlain(g[0]);
      SlugCharIsPlain(g[|g| - 1]);
    }
  }

  /**
   * A client slug of at most 100 characters is left as it is by the backend's
   * `generateSlug`: re-slugging it on the backend changes nothing.
   */
  lemma ClientSlugIsBackendSlug(title: string)
    requires |GenerateSlug(title)| <= 100
    ensures BackendSlug.GenerateSlug(GenerateSlug(title)) == GenerateSlug(title)
  {
    BackendSlug.SlugOfSlug(GenerateSlug(title));
  }
}
