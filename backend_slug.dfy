/**
 * The backend's slugs (backend/writeflow-sam-app/src/utils/slug.ts):
 * `generateSlug` and the search for a free slug. The table lookup
 * `slugExists` is membership in the finite set of taken slugs.
 */
module BackendSlug {
  import JsString
  import Runs

  predicate IsSlugChar(c: char) {
    JsString.IsLower(c) || JsString.IsDigit(c)
  }

  /** Every character is `a-z`, `0-9` or `-`. */
  predicate SlugAlphabet(s: string) {
    forall i :: 0 <= i < |s| ==> IsSlugChar(s[i]) || s[i] == '-'
  }

  /** A combining diacritical mark, U+0300 to U+036F. */
  predicate IsMark(c: char) {
    '\U{0300}' <= c <= '\U{036F}'
  }

  /**
   * `.replace(/[\u0300-\u036f]/g, '')`: combining diacritical marks are
   * removed. With `StripMarksAppend` the contract fixes the result: a single
   * mark goes, a single other character stays, and concatenations are
   * handled piecewise.
   */
  function StripMarks(s: string): (r: string)
    ensures |r| <= |s|
    ensures forall i :: 0 <= i < |r| ==> !IsMark(r[i])
    ensures (forall i :: 0 <= i < |s| ==> !IsMark(s[i])) ==> r == s
    ensures |s| == 1 && IsMark(s[0]) ==> r == []
  {
    if s == [] then []
    else (if IsMark(s[0]) then [] else [s[0]]) + StripMarks(s[1..])
  }

  lemma {:induction false} StripMarksAppend(a: string, b: string)
    ensures StripMarks(a + b) == StripMarks(a) + StripMarks(b)
  {
    if a == [] {
      assert a + b == b;
    } else {
      assert (a + b)[0] == a[0];
      assert (a + b)[1..] == a[1..] + b;
      StripMarksAppend(a[1..], b);
    }
  }

  /** A character outside `[a-z0-9]`: the class whose runs become `-`. */
  predicate OutsideSlug(c: char) {
    !IsSlugChar(c)
  }

  /**
   * `.replace(/[^a-z0-9]+/g, '-')`: each maximal run outside `[a-z0-9]`
   * becomes one `-` (`Runs.Collapse`; `Runs.CollapsePlain`,
   * `Runs.CollapseOfRun` and `Runs.CollapseAppend` fix the result).
   */
  function DashRuns(s: string): (r: string)
    ensures SlugAlphabet(r) && Runs.NoDoubleDash(r)
    ensures s == [] <==> r == []
    ensures s != [] ==> (r[0] == '-' <==> !IsSlugChar(s[0]))
  {
    var r := Runs.Collapse(s, OutsideSlug);
    Runs.CollapseShape(s, OutsideSlug);
    assert forall i :: 0 <= i < |r| ==> r[i] in r;
    r
  }

  /** `.replace(/^-|-$/g, '')`: one leading and one trailing `-` are removed. */
  function TrimDash(s: string): (r: string)
    ensures var k := if s != [] && s[0] == '-' then 1 else 0;
      k + |r| <= |s| && r == s[k..k + |r|]
    ensures var k := if s != [] && s[0] == '-' then 1 else 0;
      var t := s[k..];
      |r| == |t| - (if t != [] && t[|t| - 1] == '-' then 1 else 0)
    ensures s != [] && s[0] != '-' ==> r != [] && r[0] == s[0]
    ensures SlugAlphabet(s) ==> SlugAlphabet(r)
    ensures Runs.NoDoubleDash(s) ==> Runs.NoDoubleDash(r) && (r == [] || (r[0] != '-' && r[|r| - 1] != '-'))
    ensures (s == [] || (s[0] != '-' && s[|s| - 1] != '-')) ==> r == s
  {
    var t := if s != [] && s[0] == '-' then s[1..] else s;
    if t != [] && t[|t| - 1] == '-' then t[..|t| - 1] else t
  }

  /** The collapsed, trimmed slug before the cut. */
  function Normalized(title: string): string {
    TrimDash(DashRuns(StripMarks(JsString.ToLower(title))))
  }

  /**
   * `generateSlug(title)`: lower-case, diacritical marks removed, every run
   * outside `[a-z0-9]` a single `-`, one `-` trimmed at each end, and at most
   * 100 characters (the cut counts UTF-16 units, which are characters here).
   */
  function GenerateSlug(title: string): (r: string)
    ensures SlugAlphabet(r) && Runs.NoDoubleDash(r)
    ensures |r| <= 100
    ensures r == [] || r[0] != '-'
    ensures r != [] && r[|r| - 1] == '-' ==> |Normalized(title)| > 100 && |r| == 100
  {
    var n := Normalized(title);
    NormalizedShape(title);
    if |n| <= 100 then n else n[..100]
  }

  /** The trimmed form: the alphabet, no double dash, and no `-` at either end. */
  lemma NormalizedShape(title: string)
    ensures var n := Normalized(title);
      SlugAlphabet(n) && Runs.NoDoubleDash(n) && (n == [] || (n[0] != '-' && n[|n| - 1] != '-'))
  {
  }

  /** A slug as `generateSlug` can return one before the cut: no `-` at either end. */
  predicate Trimmed(s: string) {
    SlugAlphabet(s) && Runs.NoDoubleDash(s) && (s == [] || (s[0] != '-' && s[|s| - 1] != '-'))
  }

  /** The dash rule keeps a string of slug characters whose dashes stand alone. */
  lemma DashRunsKeepsSlug(s: string)
    requires SlugAlphabet(s) && Runs.NoDoubleDash(s)
    ensures DashRuns(s) == s
  {
    Runs.CollapseKeepsSingles(s, OutsideSlug);
  }

  /** A trimmed slug of at most 100 characters is its own slug. */
  lemma SlugOfSlug(g: string)
    requires Trimmed(g) && |g| <= 100
    ensures GenerateSlug(g) == g
  {
    assert JsString.ToLower(g) == g;
    assert StripMarks(g) == g;
    DashRunsKeepsSlug(g);
  }

  /** Slugging a slug changes nothing unless the 100-character cut left a trailing `-`. */
  lemma GenerateSlugIdempotent(title: string)
    requires var r := GenerateSlug(title); r == [] || r[|r| - 1] != '-'
    ensures GenerateSlug(GenerateSlug(title)) == GenerateSlug(title)
  {
    SlugOfSlug(GenerateSlug(title));
  }

  /** The slug for the `k`-th attempt: the base itself, then `base-1`, `base-2`, ... */
  function Attempt(base: string, k: nat): string {
    if k == 0 then base else base + "-" + JsString.NatToString(k)
  }

  /** Distinct attempts give distinct slugs. */
  lemma AttemptInjective(base: string, j: nat, k: nat)
    requires Attempt(base, j) == Attempt(base, k)
    ensures j == k
  {
    if j != 0 && k != 0 {
      var sj, sk := JsString.NatToString(j), JsString.NatToString(k);
      assert |sj| == |sk|;
      assert Attempt(base, j)[|base| + 1..] == sj;
      assert Attempt(base, k)[|base| + 1..] == sk;
      JsString.NatToStringInjective(j, k);
    } else if j != 0 || k != 0 {
      // only the base itself has no suffix: the other is longer
    }
  }

  ghost function Tried(base: string, n: nat): set<string> {
    set j | 0 <= j < n :: Attempt(base, j)
  }

  lemma NextAttemptIsNew(base: string, n: nat)
    ensures Attempt(base, n) !in Tried(base, n)
  {
    if Attempt(base, n) in Tried(base, n) {
      var j :| 0 <= j < n && Attempt(base, j) == Attempt(base, n);
      AttemptInjective(base, j, n);
    }
  }

  /** `slug` is the first attempt from `base` that is not taken. */
  ghost predicate FirstFree(taken: set<string>, base: string, slug: string) {
    slug !in taken && exists k: nat :: (slug == Attempt(base, k) && forall j: nat :: j < k ==> Attempt(base, j) in taken)
  }

  /** The first free attempt is unique. */
  lemma FirstFreeUnique(taken: set<string>, base: string, s1: string, s2: string)
    requires FirstFree(taken, base, s1) && FirstFree(taken, base, s2)
    ensures s1 == s2
  {
    var k1: nat :| s1 == Attempt(base, k1) && forall j: nat :: j < k1 ==> Attempt(base, j) in taken;
    var k2: nat :| s2 == Attempt(base, k2) && forall j: nat :: j < k2 ==> Attempt(base, j) in taken;
    // a smaller index would be a taken attempt, so k1 == k2
  }

  /**
   * `ensureUniqueSlug`: the base slug when it is free, otherwise `base-k` for
   * the smallest `k >= 1` that is free. The loop ends because every attempt it
   * rejects is a different member of the finite set of taken slugs.
   */
  method EnsureUniqueSlug(taken: set<string>, baseSlug: string) returns (slug: string)
    ensures FirstFree(taken, baseSlug, slug)
    ensures baseSlug !in taken ==> slug == baseSlug
  {
    slug := baseSlug;
    var counter := 1;
    ghost var tried: set<string> := {};
    while slug in taken
      invariant counter >= 1
      invariant slug == Attempt(baseSlug, counter - 1)
      invariant tried == Tried(baseSlug, counter - 1)
      invariant tried <= taken
      invariant forall j: nat :: j < counter - 1 ==> Attempt(baseSlug, j) in taken
      decreases |taken - tried|
    {
      NextAttemptIsNew(baseSlug, counter - 1);
      assert taken - (tried + {slug}) == (taken - tried) - {slug};
      tried := tried + {slug};
      assert tried == Tried(baseSlug, counter);
      slug := baseSlug + "-" + JsString.NatToString(counter);
      counter := counter + 1;
    }
  }
}
