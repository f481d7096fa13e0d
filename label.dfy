/** The instance-type label sanitiser: `ReplaceAllString(name, "")` with the
    pattern `([^A-Za-z0-9][^-A-Za-z0-9_.]*)?[^A-Za-z0-9]` under Go's
    leftmost-first (backtracking-preference) matching, and the proof that it
    deletes exactly the characters outside ASCII `[A-Za-z0-9]`. */
module Label {
  import opened Wrappers

  /** The class `[A-Za-z0-9]`. */
  predicate IsAlnum(c: char) {
    'A' <= c <= 'Z' || 'a' <= c <= 'z' || '0' <= c <= '9'
  }

  /** The class `[^-A-Za-z0-9_.]` repeated by the star inside the group. */
  predicate InRunClass(c: char) {
    !IsAlnum(c) && c != '-' && c != '_' && c != '.'
  }

  /** Where the greedy star `[^-A-Za-z0-9_.]*` stops when started at `j`. */
  function RunEnd(s: string, j: nat): (k: nat)
    requires j <= |s|
    ensures j <= k <= |s|
    ensures forall m :: j <= m < k ==> InRunClass(s[m])
    ensures k == |s| || !InRunClass(s[k])
    decreases |s| - j
  {
    if j < |s| && InRunClass(s[j]) then RunEnd(s, j + 1) else j
  }

  /** The group `[^A-Za-z0-9][^-A-Za-z0-9_.]*` matched `s[i..e]`; the final
      `[^A-Za-z0-9]` is tried at `e`, and on failure the star gives back one
      character at a time, down to an empty star. Returns the end of the match. */
  function GroupThenFinal(s: string, i: nat, e: nat): (r: Option<nat>)
    requires i < e <= |s|
    requires forall m :: i < m < e ==> InRunClass(s[m])
    ensures r.Some? ==> i + 1 < r.value <= |s| && r.value <= e + 1
    ensures r.Some? ==> forall m :: i < m < r.value ==> !IsAlnum(s[m])
    ensures r.None? ==> e == i + 1
    decreases e
  {
    assert forall m :: i < m < e ==> !IsAlnum(s[m]) by {
      forall m | i < m < e ensures !IsAlnum(s[m]) { assert InRunClass(s[m]); }
    }
    if e < |s| && !IsAlnum(s[e]) then Some(e + 1)
    else if e == i + 1 then None
    else GroupThenFinal(s, i, e - 1)
  }

  /** The leftmost-first match of the pattern that starts exactly at `i`, as
      its end position: the optional group is tried first, and when it cannot
      be completed the final class alone is tried on `s[i]`. */
  function MatchAt(s: string, i: nat): (r: Option<nat>)
    requires i < |s|
    ensures r.Some? <==> !IsAlnum(s[i])
    ensures r.Some? ==> i < r.value <= |s|
    ensures r.Some? ==> forall m :: i <= m < r.value ==> !IsAlnum(s[m])
  {
    if IsAlnum(s[i]) then None
    else
      match GroupThenFinal(s, i, RunEnd(s, i + 1))
      case Some(e) => Some(e)
      case None => Some(i + 1)
  }

  /** `ReplaceAllString(s[i..], "")`: text outside matches is copied, every
      match is replaced by the empty string, and the scan resumes after it. */
  function ReplaceAllFrom(s: string, i: nat): (r: string)
    requires i <= |s|
    ensures |r| <= |s| - i
    ensures forall k :: 0 <= k < |r| ==> IsAlnum(r[k])
    decreases |s| - i
  {
    if i == |s| then []
    else
      match MatchAt(s, i)
      case Some(e) => ReplaceAllFrom(s, e)
      case None => [s[i]] + ReplaceAllFrom(s, i + 1)
  }

  /** Reference definition: the ASCII letters and digits of `s`, in order. */
  function KeepAlnum(s: string): string {
    if s == [] then []
    else (if IsAlnum(s[0]) then [s[0]] else []) + KeepAlnum(s[1..])
  }

  /** `labelInvalidCharsRegex.ReplaceAllString(s, "")`. */
  function Sanitize(s: string): (r: string)
    ensures r == KeepAlnum(s)
  {
    ReplaceAllIsKeepAlnum(s, 0);
    ReplaceAllFrom(s, 0)
  }

  /** Skipping a stretch of non-alphanumerics does not change the filter. */
  lemma {:induction false} KeepAlnumSkips(s: string, i: nat, e: nat)
    requires i <= e <= |s|
    requires forall m :: i <= m < e ==> !IsAlnum(s[m])
    ensures KeepAlnum(s[i..]) == KeepAlnum(s[e..])
    decreases e - i
  {
    if i < e {
      assert s[i..][1..] == s[i + 1..];
      KeepAlnumSkips(s, i + 1, e);
    }
  }

  /** The scan deletes exactly the characters outside `[A-Za-z0-9]`. */
  lemma {:induction false} ReplaceAllIsKeepAlnum(s: string, i: nat)
    requires i <= |s|
    ensures ReplaceAllFrom(s, i) == KeepAlnum(s[i..])
    decreases |s| - i
  {
    if i < |s| {
      assert s[i..][1..] == s[i + 1..];
      match MatchAt(s, i)
      case Some(e) =>
        ReplaceAllIsKeepAlnum(s, e);
        KeepAlnumSkips(s, i, e);
      case None =>
        ReplaceAllIsKeepAlnum(s, i + 1);
    }
  }

  /** The sanitised label holds only ASCII letters and digits. */
  lemma {:induction false} KeepAlnumOnlyAlnum(s: string)
    ensures forall k :: 0 <= k < |KeepAlnum(s)| ==> IsAlnum(KeepAlnum(s)[k])
  {
    if s != [] {
      KeepAlnumOnlyAlnum(s[1..]);
    }
  }

  /** A string of letters and digits is left as it is. */
  lemma {:induction false} KeepAlnumFixesAlnum(s: string)
    requires forall k :: 0 <= k < |s| ==> IsAlnum(s[k])
    ensures KeepAlnum(s) == s
  {
    if s != [] {
      KeepAlnumFixesAlnum(s[1..]);
      assert [s[0]] + s[1..] == s;
    }
  }

  /** The sanitised label is never longer than the offering name, and is as
      long only when nothing was deleted. */
  lemma {:induction false} KeepAlnumShorter(s: string)
    ensures |KeepAlnum(s)| <= |s|
    ensures |KeepAlnum(s)| == |s| <==> forall k :: 0 <= k < |s| ==> IsAlnum(s[k])
  {
    if s != [] {
      KeepAlnumShorter(s[1..]);
      if !IsAlnum(s[0]) {
        assert !(forall k :: 0 <= k < |s| ==> IsAlnum(s[k]));
      } else if |KeepAlnum(s)| != |s| {
        assert exists k :: 0 <= k < |s[1..]| && !IsAlnum(s[1..][k]);
        var k :| 0 <= k < |s[1..]| && !IsAlnum(s[1..][k]);
        assert !IsAlnum(s[k + 1]);
      }
    }
  }

  /** The filter distributes over concatenation. */
  lemma {:induction false} KeepAlnumAppend(a: string, b: string)
    ensures KeepAlnum(a + b) == KeepAlnum(a) + KeepAlnum(b)
  {
    if a != [] {
      assert (a + b)[1..] == a[1..] + b;
      KeepAlnumAppend(a[1..], b);
    } else {
      assert a + b == b;
    }
  }

  /** The sanitised label contains only letters and digits, is not longer than
      the input, and sanitising it again changes nothing. */
  lemma SanitizeProperties(s: string)
    ensures forall k :: 0 <= k < |Sanitize(s)| ==> IsAlnum(Sanitize(s)[k])
    ensures |Sanitize(s)| <= |s|
    ensures Sanitize(Sanitize(s)) == Sanitize(s)
  {
    KeepAlnumOnlyAlnum(s);
    KeepAlnumShorter(s);
    KeepAlnumFixesAlnum(KeepAlnum(s));
  }


  /** "m1.small" filters to "m1small". */
  lemma KeepAlnumDot(name: string)
    requires name == "m1.small"
    ensures KeepAlnum(name) == "m1small"
  {
    var a, b := "m1", "small";
    KeepAlnumFixesAlnum(a);
    KeepAlnumFixesAlnum(b);
    assert KeepAlnum(".") == [];
    KeepAlnumAppend(a, ".");
    KeepAlnumAppend(a + ".", b);
    assert name == a + "." + b;
  }

  /** "##gpu-large" filters to "gpularge". */
  lemma KeepAlnumDash(name: string)
    requires name == "##gpu-large"
    ensures KeepAlnum(name) == "gpularge"
  {
    var a, b := "gpu", "large";
    KeepAlnumFixesAlnum(a);
    KeepAlnumFixesAlnum(b);
    assert KeepAlnum("##") == [] && KeepAlnum("-") == [];
    KeepAlnumAppend("##", a);
    KeepAlnumAppend("##" + a, "-");
    KeepAlnumAppend("##" + a + "-", b);
    assert name == "##" + a + "-" + b;
  }

  /** The pattern consumes dots, dashes and underscores as well as other
      punctuation: "m1.small" and "m1.small!!" both become "m1small", and
      "##gpu-large" becomes "gpularge". */
  lemma SanitizeExamples(dotted: string, trailing: string, dashed: string)
    requires dotted == "m1.small" && trailing == "m1.small!!" && dashed == "##gpu-large"
    ensures Sanitize(dotted) == "m1small"
    ensures Sanitize(trailing) == "m1small"
    ensures Sanitize(dashed) == "gpularge"
  {
    KeepAlnumDot(dotted);
    assert KeepAlnum("!!") == [];
    KeepAlnumAppend(dotted, "!!");
    assert trailing == dotted + "!!";
    KeepAlnumDash(dashed);
  }
}
