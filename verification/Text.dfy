/** Plain text: whitespace and search. */
module Text {
  import opened Wrappers

  /** Unicode White_Space, as Rust's `trim` reads it. */
  predicate IsSpace(c: char) {
    || '\t' <= c <= '\r' || c == ' ' || c == '\U{85}' || c == '\U{A0}' || c == '\U{1680}'
    || '\U{2000}' <= c <= '\U{200A}' || c == '\U{2028}' || c == '\U{2029}' || c == '\U{202F}'
    || c == '\U{205F}' || c == '\U{3000}'
  }

  /** The code points of Unicode's White_Space. */
  lemma SpacesByNumber(c: char)
    ensures IsSpace(c) <==> var n := c as int;
              || 9 <= n <= 13 || n == 32 || n == 133 || n == 160 || n == 5760 || 8192 <= n <= 8202 || n == 8232 || n == 8233
              || n == 8239 || n == 8287 || n == 12288
  {}

  function TrimStart(s: string): string {
    if s != "" && IsSpace(s[0]) then TrimStart(s[1..]) else s
  }

  function TrimEnd(s: string): (r: string)
    ensures r <= s && (r != "" ==> !IsSpace(r[|r| - 1]))
  {
    if s != "" && IsSpace(s[|s| - 1]) then TrimEnd(s[..|s| - 1]) else s
  }

  function Trim(s: string): string { TrimEnd(TrimStart(s)) }

  predicate Opens(s: string, pat: string)
    decreases |pat|
  {
    pat == "" || (s != "" && s[0] == pat[0] && Opens(s[1..], pat[1..]))
  }

  predicate At(s: string, pat: string, k: nat) { k <= |s| && Opens(s[k..], pat) }

  lemma {:induction false} OpensMeans(s: string, pat: string)
    ensures Opens(s, pat) <==> |pat| <= |s| && s[..|pat|] == pat
    decreases |pat|
  {
    if pat != "" && s != "" {
      OpensMeans(s[1..], pat[1..]);
      if |pat| <= |s| {
        assert s[..|pat|] == [s[0]] + s[1..][..|pat| - 1] && pat == [pat[0]] + pat[1..];
      }
    }
  }

  lemma AtMeans(s: string, pat: string, k: nat)
    ensures At(s, pat, k) <==> k + |pat| <= |s| && s[k..k + |pat|] == pat
  {
    if k <= |s| {
      OpensMeans(s[k..], pat);
      if k + |pat| <= |s| { assert s[k..][..|pat|] == s[k..k + |pat|]; }
    }
  }

  /** Where `pat` stands in both or neither, for texts that agree there. */
  lemma SameThere(s: string, t: string, pat: string, k: nat, j: nat)
    requires k + |pat| <= |s| && j + |pat| <= |t| && s[k..k + |pat|] == t[j..j + |pat|]
    ensures At(s, pat, k) == At(t, pat, j)
  {
    AtMeans(s, pat, k);
    AtMeans(t, pat, j);
  }

  /** The first place where `pat` stands. */
  function Find(s: string, pat: string): (r: Option<nat>)
    ensures r.Some? ==> r.value + |pat| <= |s|
    decreases |s|
  {
    if Opens(s, pat) then OpensMeans(s, pat); Some(0)
    else if s == "" then None
    else
      match Find(s[1..], pat)
      case None => None
      case Some(k) => Some(k + 1)
  }

  lemma {:induction false} FindMeans(s: string, pat: string)
    ensures forall k: nat :: At(s, pat, k) ==> Find(s, pat).Some? && Find(s, pat).value <= k
    ensures Find(s, pat).Some? ==> At(s, pat, Find(s, pat).value)
    decreases |s|
  {
    assert s[0..] == s;
    if !Opens(s, pat) && s != "" {
      FindMeans(s[1..], pat);
      forall k: nat | k > 0 ensures At(s, pat, k) == At(s[1..], pat, k - 1) {
        Shifted(s, pat, k);
      }
    }
  }

  lemma Shifted(s: string, pat: string, k: nat)
    requires s != "" && k > 0
    ensures At(s, pat, k) == At(s[1..], pat, k - 1)
  {
    if k <= |s| {
      assert s[1..][k - 1..] == s[k..];
    }
  }

  lemma FindsFirst(s: string, pat: string, k: nat)
    requires At(s, pat, k) && forall j: nat | j < k :: !At(s, pat, j)
    ensures Find(s, pat) == Some(k)
  {
    FindMeans(s, pat);
  }

  lemma FindsNothing(s: string, pat: string)
    requires forall j: nat :: !At(s, pat, j)
    ensures Find(s, pat).None?
  {
    FindMeans(s, pat);
  }

  /** A pattern without a newline stands on no place that has one. */
  lemma NotOverNewline(s: string, pat: string, k: nat, n: nat)
    requires '\n' !in pat && k <= n < k + |pat| && n < |s| && s[n] == '\n'
    ensures !At(s, pat, k)
  {
    AtMeans(s, pat, k);
    assert pat[n - k] in pat;
    assert k + |pat| <= |s| ==> s[k..k + |pat|][n - k] == s[n];
  }

  /** So it does not straddle the place where a newline begins the second part. */
  lemma NoStraddle(a: string, b: string, pat: string, k: nat)
    requires '\n' !in pat && pat != "" && b != "" && b[0] == '\n'
    ensures At(a + b, pat, k) <==> At(a, pat, k) || (k > |a| && At(b, pat, k - |a|))
  {
    AtMeans(a, pat, k);
    AtMeans(a + b, pat, k);
    if k + |pat| <= |a| {
      assert (a + b)[k..k + |pat|] == a[k..k + |pat|];
    } else if k > |a| {
      AtMeans(b, pat, k - |a|);
      if k + |pat| <= |a + b| {
        assert (a + b)[k..k + |pat|] == b[k - |a|..k - |a| + |pat|];
      }
    } else {
      NotOverNewline(a + b, pat, k, |a|);
    }
  }

  /** Nor the place where a newline ends the first part. */
  lemma ClosedLine(a: string, b: string, pat: string, k: nat)
    requires '\n' !in pat && pat != "" && k < |a| && a[|a| - 1] == '\n'
    ensures At(a + b, pat, k) == At(a, pat, k)
  {
    AtMeans(a, pat, k);
    if k + |pat| <= |a| {
      SameThere(a + b, a, pat, k, k);
    } else {
      NotOverNewline(a + b, pat, k, |a| - 1);
    }
  }

  lemma {:induction false} FindInFirst(a: string, b: string, pat: string)
    requires '\n' !in pat && pat != "" && b != "" && b[0] == '\n' && Find(a, pat).Some?
    ensures Find(a + b, pat) == Find(a, pat)
    decreases |a|
  {
    OpensTogether(a, b, pat);
    if !Opens(a, pat) {
      assert (a + b)[1..] == a[1..] + b;
      FindInFirst(a[1..], b, pat);
    }
  }

  lemma {:induction false} FindInSecond(a: string, b: string, pat: string)
    requires '\n' !in pat && pat != "" && b != "" && b[0] == '\n' && Find(a, pat).None? && Find(b, pat).Some?
    ensures Find(a + b, pat) == Some(|a| + Find(b, pat).value)
    decreases |a|
  {
    if a == "" {
      assert a + b == b;
    } else {
      OpensTogether(a, b, pat);
      assert (a + b)[1..] == a[1..] + b;
      FindInSecond(a[1..], b, pat);
    }
  }

  lemma OpensTogether(a: string, b: string, pat: string)
    requires '\n' !in pat && pat != "" && b != "" && b[0] == '\n'
    ensures Opens(a + b, pat) == Opens(a, pat)
  {
    NoStraddle(a, b, pat, 0);
    assert (a + b)[0..] == a + b && a[0..] == a;
  }
}
