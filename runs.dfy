/**
 * The rewrite both slug rules share: every maximal run of characters of one
 * class becomes a single `-` (`.replace(/[^a-z0-9]+/g, '-')` on the backend,
 * `.replace(/[\s_-]+/g, "-")` on the client). The class is a parameter, so
 * the facts about runs are proved once.
 */
module Runs {
  import JsString

  /** No `-` is directly followed by another. */
  predicate NoDoubleDash(s: string) {
    forall i :: 0 <= i < |s| - 1 ==> !(s[i] == '-' && s[i + 1] == '-')
  }

  /** Drops the leading run of characters of the class; `SkipShape` says what is left. */
  function Skip(s: string, inRun: char -> bool): (r: string)
    ensures |r| <= |s|
  {
    if s != [] && inRun(s[0]) then Skip(s[1..], inRun) else s
  }

  /** What `Skip` leaves is the suffix of `s` after a run of the class, and it does not start inside the class. */
  lemma {:induction false} SkipShape(s: string, inRun: char -> bool)
    ensures var r := Skip(s, inRun);
      && (forall i :: 0 <= i < |r| ==> r[i] == s[|s| - |r| + i])
      && (forall i :: 0 <= i < |s| - |r| ==> inRun(s[i]))
      && (r == [] || !inRun(r[0]))
  {
    if s != [] && inRun(s[0]) {
      SkipShape(s[1..], inRun);
      assert forall i :: 1 <= i < |s| ==> s[i] == s[1..][i - 1];
    }
  }

  /** One step of `Skip`, at the first character. */
  lemma SkipHead(c: char, s: string, inRun: char -> bool)
    ensures Skip([c] + s, inRun) == if inRun(c) then Skip(s, inRun) else [c] + s
  {
    assert ([c] + s)[0] == c;
    assert ([c] + s)[1..] == s;
  }

  lemma {:induction false} SkipAppend(a: string, b: string, inRun: char -> bool)
    ensures Skip(a, inRun) != [] ==> Skip(a + b, inRun) == Skip(a, inRun) + b
    ensures Skip(a, inRun) == [] ==> Skip(a + b, inRun) == Skip(b, inRun)
  {
    if a == [] {
      assert a + b == b;
    } else {
      var c, tail := a[0], a[1..];
      assert a == [c] + tail;
      assert a + b == [c] + (tail + b);
      SkipHead(c, tail + b, inRun);
      SkipHead(c, tail, inRun);
      if inRun(c) {
        SkipAppend(tail, b, inRun);
      } else {
        JsString.ConcatAssoc([c], tail, b);
      }
    }
  }

  /**
   * Each maximal run of the class becomes one `-`; every other character is
   * kept. `CollapseShape` gives its general shape, and `CollapsePlain`,
   * `CollapseOfRun` and `CollapseAppend` together fix the result on every
   * input.
   */
  function Collapse(s: string, inRun: char -> bool): (r: string)
    ensures s == [] <==> r == []
    decreases |s|
  {
    if s == [] then []
    else if inRun(s[0]) then "-" + Collapse(Skip(s[1..], inRun), inRun)
    else [s[0]] + Collapse(s[1..], inRun)
  }

  /**
   * Only characters outside the class survive, besides `-`; a class that holds
   * `-` leaves no two dashes in a row; and the first character is `-` for a
   * run or the input's own first character otherwise.
   */
  lemma {:induction false} CollapseShape(s: string, inRun: char -> bool)
    ensures var r := Collapse(s, inRun);
      && (forall c :: c in r && c != '-' ==> c in s && !inRun(c))
      && (inRun('-') ==> NoDoubleDash(r))
      && (s != [] && inRun(s[0]) ==> r[0] == '-')
      && (s != [] && !inRun(s[0]) ==> r[0] == s[0])
    decreases |s|
  {
    if s != [] {
      var r := Collapse(s, inRun);
      if inRun(s[0]) {
        var rest := Skip(s[1..], inRun);
        SkipShape(s[1..], inRun);
        CollapseShape(rest, inRun);
        var t := Collapse(rest, inRun);
        assert r == "-" + t;
        forall c | c in r && c != '-' ensures c in s && !inRun(c) {
          assert c in t;
          var m :| 0 <= m < |rest| && rest[m] == c;
          assert s[1..][|s[1..]| - |rest| + m] == c;
          assert s[|s| - |rest| + m] == c;
        }
        if inRun('-') && t != [] {
          assert rest != [] && !inRun(rest[0]);
          assert t[0] == rest[0];
          assert forall i :: 0 < i < |r| ==> r[i] == t[i - 1];
        }
      } else {
        CollapseShape(s[1..], inRun);
        var t := Collapse(s[1..], inRun);
        assert r == [s[0]] + t;
        forall c | c in r && c != '-' ensures c in s && !inRun(c) {
          if c != s[0] {
            assert c in t;
          }
        }
        if inRun('-') {
          assert forall i :: 0 < i < |r| ==> r[i] == t[i - 1];
        }
      }
    }
  }

  /** One step of the rewrite, at the first character. */
  lemma CollapseHead(c: char, s: string, inRun: char -> bool)
    ensures Collapse([c] + s, inRun) ==
      if inRun(c) then "-" + Collapse(Skip(s, inRun), inRun) else [c] + Collapse(s, inRun)
  {
    assert ([c] + s)[0] == c;
    assert ([c] + s)[1..] == s;
  }

  /** A string with no character of the class is kept as it is. */
  lemma {:induction false} CollapsePlain(s: string, inRun: char -> bool)
    requires forall i :: 0 <= i < |s| ==> !inRun(s[i])
    ensures Collapse(s, inRun) == s
  {
    if s != [] {
      assert s == [s[0]] + s[1..];
      CollapseHead(s[0], s[1..], inRun);
      assert forall i :: 0 <= i < |s[1..]| ==> !inRun(s[1..][i]);
      CollapsePlain(s[1..], inRun);
    }
  }

  /** A non-empty run of the class becomes exactly one `-`. */
  lemma CollapseOfRun(a: string, inRun: char -> bool)
    requires a != [] && forall i :: 0 <= i < |a| ==> inRun(a[i])
    ensures Collapse(a, inRun) == "-"
  {
    assert a == [a[0]] + a[1..];
    CollapseHead(a[0], a[1..], inRun);
    assert forall i :: 0 <= i < |a[1..]| ==> inRun(a[1..][i]);
  }

  /** Where `a` and `b` do not meet inside one run, they are rewritten independently. */
  lemma {:induction false} CollapseAppend(a: string, b: string, inRun: char -> bool)
    requires a == [] || b == [] || !inRun(a[|a| - 1]) || !inRun(b[0])
    ensures Collapse(a + b, inRun) == Collapse(a, inRun) + Collapse(b, inRun)
    decreases |a|, 1
  {
    if a == [] {
      assert a + b == b;
    } else if !inRun(a[0]) {
      AppendAfterPlain(a, b, inRun);
    } else {
      AppendAfterRun(a, b, inRun);
    }
  }

  lemma {:induction false} AppendAfterPlain(a: string, b: string, inRun: char -> bool)
    requires a != [] && !inRun(a[0])
    requires b == [] || !inRun(a[|a| - 1]) || !inRun(b[0])
    ensures Collapse(a + b, inRun) == Collapse(a, inRun) + Collapse(b, inRun)
    decreases |a|, 0
  {
    var c, tail := a[0], a[1..];
    assert a == [c] + tail;
    assert a + b == [c] + (tail + b);
    CollapseHead(c, tail + b, inRun);
    CollapseHead(c, tail, inRun);
    assert tail == [] || tail[|tail| - 1] == a[|a| - 1];
    CollapseAppend(tail, b, inRun);
    JsString.ConcatAssoc([c], Collapse(tail, inRun), Collapse(b, inRun));
  }

  lemma {:induction false} AppendAfterRun(a: string, b: string, inRun: char -> bool)
    requires a != [] && inRun(a[0])
    requires b == [] || !inRun(a[|a| - 1]) || !inRun(b[0])
    ensures Collapse(a + b, inRun) == Collapse(a, inRun) + Collapse(b, inRun)
    decreases |a|, 0
  {
    var c, tail := a[0], a[1..];
    assert a == [c] + tail;
    assert a + b == [c] + (tail + b);
    CollapseHead(c, tail + b, inRun);
    CollapseHead(c, tail, inRun);
    SkipAppend(tail, b, inRun);
    var rest := Skip(tail, inRun);
    SkipShape(tail, inRun);
    if rest != [] {
      assert rest[|rest| - 1] == a[|a| - 1];
      CollapseAppend(rest, b, inRun);
      calc {
        Collapse(a + b, inRun);
        "-" + Collapse(rest + b, inRun);
        "-" + (Collapse(rest, inRun) + Collapse(b, inRun));
        { JsString.ConcatAssoc("-", Collapse(rest, inRun), Collapse(b, inRun)); }
        ("-" + Collapse(rest, inRun)) + Collapse(b, inRun);
      }
    } else {
      LastInRun(c, tail, inRun);
      assert Skip(b, inRun) == b;
      calc {
        Collapse(a + b, inRun);
        "-" + Collapse(b, inRun);
        { assert Collapse(rest, inRun) == []; }
        ("-" + Collapse(rest, inRun)) + Collapse(b, inRun);
      }
    }
  }

  /** When a run swallows all of `tail`, the string ends inside the run. */
  lemma LastInRun(c: char, tail: string, inRun: char -> bool)
    requires inRun(c) && Skip(tail, inRun) == []
    ensures inRun(([c] + tail)[|tail|])
  {
    SkipShape(tail, inRun);
    if tail != [] {
      assert ([c] + tail)[|tail|] == tail[|tail| - 1];
    }
  }

  /**
   * A string whose only class members are lone dashes is kept as it is: each
   * such run is one `-` already.
   */
  lemma {:induction false} CollapseKeepsSingles(s: string, inRun: char -> bool)
    requires inRun('-')
    requires forall i :: 0 <= i < |s| ==> inRun(s[i]) ==> s[i] == '-'
    requires NoDoubleDash(s)
    ensures Collapse(s, inRun) == s
    decreases |s|
  {
    if s != [] {
      var rest := s[1..];
      assert s == [s[0]] + rest;
      CollapseHead(s[0], rest, inRun);
      assert forall i :: 0 <= i < |rest| ==> rest[i] == s[i + 1];
      CollapseKeepsSingles(rest, inRun);
      if inRun(s[0]) {
        assert rest == [] || !inRun(rest[0]);
        assert Skip(rest, inRun) == rest;
      }
    }
  }
}
