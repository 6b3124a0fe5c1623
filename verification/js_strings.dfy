/** The two string replacements the gateway relies on, as JavaScript
    defines them: `String.prototype.replace` with a string pattern, which
    replaces the first occurrence only, and `replace` with a global
    regular expression that is a plain literal and an empty replacement,
    which removes every occurrence met scanning left to right. */
module JsStrings {
  import opened Common

  predicate StartsWith(s: string, prefix: string) {
    |prefix| <= |s| && s[..|prefix|] == prefix
  }

  /** `pat` occurs in `s` starting at index `i`. */
  predicate OccursAt(s: string, pat: string, i: int) {
    0 <= i && i + |pat| <= |s| && s[i..i + |pat|] == pat
  }

  ghost predicate Contains(s: string, pat: string) {
    exists i :: OccursAt(s, pat, i)
  }

  /** The first character of `pat` appears nowhere else in it, so no two
      occurrences of `pat` can overlap. */
  predicate BeginsOnlyAtStart(pat: string) {
    pat != "" && pat[0] !in pat[1..]
  }

  lemma OccursAtShift(s: string, pat: string, i: int)
    requires s != "" && 0 <= i
    ensures OccursAt(s[1..], pat, i) <==> OccursAt(s, pat, i + 1)
  {
  }

  /** Index of the first occurrence of `pat` in `s`, if any. */
  function IndexOf(s: string, pat: string): (r: Option<nat>)
    ensures r.Some? ==> OccursAt(s, pat, r.value)
    ensures r.Some? ==> forall j :: 0 <= j < r.value ==> !OccursAt(s, pat, j)
    ensures r.None? <==> !Contains(s, pat)
    decreases |s|
  {
    if |s| < |pat| then None
    else if s[..|pat|] == pat then
      assert OccursAt(s, pat, 0);
      Some(0)
    else
      var rest := IndexOf(s[1..], pat);
      assert forall j :: 0 <= j ==> (OccursAt(s[1..], pat, j) <==> OccursAt(s, pat, j + 1)) by {
        forall j | 0 <= j ensures OccursAt(s[1..], pat, j) <==> OccursAt(s, pat, j + 1) {
          OccursAtShift(s, pat, j);
        }
      }
      assert !OccursAt(s, pat, 0);
      if rest.None? then
        assert forall j :: !OccursAt(s, pat, j) by {
          forall j ensures !OccursAt(s, pat, j) {
            if j > 0 { assert !OccursAt(s[1..], pat, j - 1); }
          }
        }
        None
      else
        assert forall j :: 0 < j <= rest.value ==> !OccursAt(s, pat, j) by {
          forall j | 0 < j <= rest.value ensures !OccursAt(s, pat, j) {
            assert !OccursAt(s[1..], pat, j - 1);
          }
        }
        Some(rest.value + 1)
  }

  /** `s.replace(pat, rep)` with a string pattern: the first occurrence
      only. (The `$` patterns of a replacement string are not modelled.) */
  function ReplaceFirst(s: string, pat: string, rep: string): (r: string)
    ensures !Contains(s, pat) ==> r == s
    ensures Contains(s, pat) ==> |r| == |s| - |pat| + |rep|
  {
    match IndexOf(s, pat)
    case None => s
    case Some(i) => s[..i] + rep + s[i + |pat|..]
  }

  lemma ReplaceFirstAbsent(s: string, pat: string, rep: string)
    requires !Contains(s, pat)
    ensures ReplaceFirst(s, pat, rep) == s
  {
  }

  /** In `x + pat + y`, no occurrence of `pat` begins inside `x`. */
  predicate NoOccurrenceBefore(x: string, pat: string, y: string) {
    forall j :: 0 <= j < |x| ==> !OccursAt(x + pat + y, pat, j)
  }

  /** When no occurrence of `pat` begins inside `x`, `replace` puts `rep`
      exactly where the `pat` after `x` stood and leaves all else alone. */
  lemma ReplaceFirstSplice(x: string, pat: string, y: string, rep: string)
    requires NoOccurrenceBefore(x, pat, y)
    ensures ReplaceFirst(x + pat + y, pat, rep) == x + rep + y
  {
    var s := x + pat + y;
    assert OccursAt(s, pat, |x|) by { assert s[|x|..|x| + |pat|] == pat; }
    var i := IndexOf(s, pat).value;
    assert i == |x|;
    assert s[..i] == x;
    assert s[i + |pat|..] == y;
  }

  /** `s.replace(/pat/g, "")`: every occurrence met scanning left to right
      is removed; the scan resumes after each removed occurrence. */
  function RemoveAll(s: string, pat: string): (r: string)
    requires pat != ""
    ensures |r| <= |s|
    decreases |s|
  {
    if |s| < |pat| then s
    else if s[..|pat|] == pat then RemoveAll(s[|pat|..], pat)
    else [s[0]] + RemoveAll(s[1..], pat)
  }

  /** Removing a pattern that occurs strictly shortens the text. */
  lemma {:induction false} RemoveAllShrinks(s: string, pat: string)
    requires pat != "" && Contains(s, pat)
    ensures |RemoveAll(s, pat)| < |s|
    decreases |s|
  {
    var i :| OccursAt(s, pat, i);
    if s[..|pat|] != pat {
      assert i > 0;
      OccursAtShift(s, pat, i - 1);
      RemoveAllShrinks(s[1..], pat);
    }
  }

  /** Removal changes the text exactly when the pattern occurs in it. */
  lemma {:induction false} RemoveAllUnchangedIff(s: string, pat: string)
    requires pat != ""
    ensures RemoveAll(s, pat) == s <==> !Contains(s, pat)
    decreases |s|
  {
    if Contains(s, pat) {
      RemoveAllShrinks(s, pat);
    } else if |s| >= |pat| {
      assert !OccursAt(s, pat, 0);
      NotContainedInTail(s, pat);
      RemoveAllUnchangedIff(s[1..], pat);
      assert s == [s[0]] + s[1..];
    }
  }

  /** No occurrence of `pat` begins at an index where `pat` itself could
      only begin at its start. */
  lemma NotAtStartBeforePattern(x: string, pat: string, y: string)
    requires BeginsOnlyAtStart(pat) && !Contains(x, pat) && x != ""
    ensures !OccursAt(x + pat + y, pat, 0)
  {
    var s := x + pat + y;
    if |x| >= |pat| {
      assert s[..|pat|] == x[..|pat|];
      assert !OccursAt(x, pat, 0);
    } else {
      assert s[|x|] == pat[0];
      assert pat[|x|] == pat[1..][|x| - 1];
      assert pat[|x|] != pat[0];
      assert s[..|pat|][|x|] != pat[|x|];
    }
  }

  lemma NotContainedInTail(x: string, pat: string)
    requires x != "" && !Contains(x, pat)
    ensures !Contains(x[1..], pat)
  {
    forall j ensures !OccursAt(x[1..], pat, j) {
      if 0 <= j { OccursAtShift(x, pat, j); }
    }
  }

  /** One step of the scan where no occurrence starts: the first character
      is kept. */
  lemma RemoveAllKeepsFirst(s: string, pat: string)
    requires pat != "" && s != "" && !OccursAt(s, pat, 0)
    ensures RemoveAll(s, pat) == [s[0]] + RemoveAll(s[1..], pat)
  {
  }

  /** One step of the scan at an occurrence: it is dropped. */
  lemma RemoveAllDropsMatch(pat: string, y: string)
    requires pat != ""
    ensures RemoveAll(pat + y, pat) == RemoveAll(y, pat)
  {
    var s := pat + y;
    assert s[..|pat|] == pat;
    assert s[|pat|..] == y;
  }

  /** When `x` holds no occurrence and `pat` cannot overlap itself, the
      scan passes over `x` untouched and then removes the `pat` after it. */
  lemma {:induction false} RemoveAllSplice(x: string, pat: string, y: string)
    requires BeginsOnlyAtStart(pat) && !Contains(x, pat)
    ensures RemoveAll(x + pat + y, pat) == x + RemoveAll(y, pat)
    decreases |x|
  {
    if x == [] {
      assert x + pat + y == pat + y;
      RemoveAllDropsMatch(pat, y);
    } else {
      var s := x + pat + y;
      NotAtStartBeforePattern(x, pat, y);
      RemoveAllKeepsFirst(s, pat);
      NotContainedInTail(x, pat);
      assert s[1..] == x[1..] + pat + y;
      RemoveAllSplice(x[1..], pat, y);
      assert [s[0]] + (x[1..] + RemoveAll(y, pat)) == x + RemoveAll(y, pat);
    }
  }
}
