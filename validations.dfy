/**
 * The form rules (app/src/lib/validations.ts). A zod string schema checks
 * every rule and reports the message of each one that fails, in order; a
 * value is accepted when no message is reported. Lengths are JavaScript
 * lengths, in UTF-16 code units.
 */
module Validations {
  import JsString

  /** The messages of the post form's title rules. */
  function TitleIssues(title: string): (r: seq<string>)
    ensures r == [] <==> 1 <= JsString.Utf16Length(title) <= 200
    ensures "Title is required" in r <==> title == []
  {
    (if JsString.Utf16Length(title) < 1 then ["Title is required"] else [])
    + (if JsString.Utf16Length(title) > 200 then ["Title cannot exceed 200 characters"] else [])
  }

  /** The post form is accepted on its title alone: any content string passes. */
  predicate PostFormAccepted(title: string, content: string) {
    TitleIssues(title) == []
  }

  lemma ContentIsFree(title: string, content1: string, content2: string)
    ensures PostFormAccepted(title, content1) <==> PostFormAccepted(title, content2)
  {
  }

  predicate HasLower(p: string) { exists i :: 0 <= i < |p| && JsString.IsLower(p[i]) }
  predicate HasUpper(p: string) { exists i :: 0 <= i < |p| && JsString.IsUpper(p[i]) }
  predicate HasDigit(p: string) { exists i :: 0 <= i < |p| && JsString.IsDigit(p[i]) }

  /** `[^a-zA-Z0-9]`: a character that is neither an ASCII letter nor a digit. */
  predicate IsSpecial(c: char) { !JsString.IsLower(c) && !JsString.IsUpper(c) && !JsString.IsDigit(c) }
  predicate HasSpecial(p: string) { exists i :: 0 <= i < |p| && IsSpecial(p[i]) }

  const TooShort := "Password must be at least 8 characters"
  const NoLower := "Password must contain at least one lowercase letter"
  const NoUpper := "Password must contain at least one uppercase letter"
  const NoDigit := "Password must contain at least one number"
  const NoSpecial := "Password must contain at least one special character"

  /** The messages of the failing password rules, in the schema's order. */
  function PasswordIssues(p: string): (r: seq<string>)
    ensures TooShort in r <==> JsString.Utf16Length(p) < 8
    ensures NoLower in r <==> !HasLower(p)
    ensures NoUpper in r <==> !HasUpper(p)
    ensures NoDigit in r <==> !HasDigit(p)
    ensures NoSpecial in r <==> !HasSpecial(p)
    ensures |r| <= 5
  {
    (if JsString.Utf16Length(p) < 8 then [TooShort] else [])
    + (if !HasLower(p) then [NoLower] else [])
    + (if !HasUpper(p) then [NoUpper] else [])
    + (if !HasDigit(p) then [NoDigit] else [])
    + (if !HasSpecial(p) then [NoSpecial] else [])
  }

  predicate PasswordAccepted(p: string) {
    PasswordIssues(p) == []
  }

  /** Accepted exactly when every rule holds: failing any single one rejects. */
  lemma PasswordRules(p: string)
    ensures PasswordAccepted(p) <==>
      JsString.Utf16Length(p) >= 8 && HasLower(p) && HasUpper(p) && HasDigit(p) && HasSpecial(p)
  {
    if !PasswordAccepted(p) {
      var r := PasswordIssues(p);
      assert r[0] in r;
    }
  }

  /** Appending characters to an accepted password keeps it accepted. */
  lemma AppendKeepsAccepted(p: string, q: string)
    requires PasswordAccepted(p)
    ensures PasswordAccepted(p + q)
  {
    PasswordRules(p);
    JsString.Utf16LengthAppend(p, q);
    var i :| 0 <= i < |p| && JsString.IsLower(p[i]);
    assert (p + q)[i] == p[i];
    var j :| 0 <= j < |p| && JsString.IsUpper(p[j]);
    assert (p + q)[j] == p[j];
    var k :| 0 <= k < |p| && JsString.IsDigit(p[k]);
    assert (p + q)[k] == p[k];
    var m :| 0 <= m < |p| && IsSpecial(p[m]);
    assert (p + q)[m] == p[m];
    PasswordRules(p + q);
  }
}
