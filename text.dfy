/** The string operations the adapter uses: `startsWith`, `includes` and its three regex replaces. */
module Text {

  /** `s.startsWith(p)`: s is p followed by the rest of s. */
  predicate StartsWith(s: string, p: string) {
    |p| <= |s| && s[..|p|] == p
  }

  /** `s.startsWith(p)` holds exactly when s is p followed by the rest of s. */
  lemma StartsWithSplit(s: string, p: string)
    ensures StartsWith(s, p) <==> |p| <= |s| && s == p + s[|p|..]
  {
    if |p| <= |s| && s == p + s[|p|..] {
      assert s[..|p|] == (p + s[|p|..])[..|p|];
    }
  }

  predicate EndsWith(s: string, q: string) {
    |q| <= |s| && s[|s| - |q|..] == q
  }

  /** `s.includes(sub)`: sub occurs somewhere in s (the empty string occurs everywhere). */
  predicate Contains(s: string, sub: string)
    decreases |s|
  {
    StartsWith(s, sub) || (s != [] && Contains(s[1..], sub))
  }

  /** An occurrence at offset i is an occurrence. */
  lemma {:induction false} ContainsAt(s: string, sub: string, i: nat)
    requires i <= |s| && StartsWith(s[i..], sub)
    ensures Contains(s, sub)
    decreases i
  {
    if i > 0 {
      assert s[1..][i - 1..] == s[i..];
      ContainsAt(s[1..], sub, i - 1);
    }
  }

  /** Every occurrence has an offset. */
  lemma {:induction false} ContainsOffset(s: string, sub: string) returns (i: nat)
    requires Contains(s, sub)
    ensures i <= |s| && StartsWith(s[i..], sub)
    decreases |s|
  {
    if StartsWith(s, sub) {
      i := 0;
    } else {
      var j := ContainsOffset(s[1..], sub);
      assert s[1..][j..] == s[j + 1..];
      i := j + 1;
    }
  }

  /** A string made of n slashes. */
  function Slashes(n: nat): (r: string)
    ensures |r| == n && forall i :: 0 <= i < n ==> r[i] == '/'
  {
    if n == 0 then "" else Slashes(n - 1) + "/"
  }

  /** `s.replace(/\/+$/, '')`: the longest prefix of s after which only slashes follow,
      and which does not itself end with a slash. */
  function StripTrailingSlashes(s: string): (r: string)
    ensures |r| <= |s| && s[..|r|] == r
    ensures r == "" || r[|r| - 1] != '/'
    ensures forall i :: |r| <= i < |s| ==> s[i] == '/'
    decreases |s|
  {
    if s != "" && s[|s| - 1] == '/' then StripTrailingSlashes(s[..|s| - 1]) else s
  }

  /** Slashes appended to a string make no difference to what the strip leaves. */
  lemma {:induction false} StripIgnoresAddedSlashes(s: string, n: nat)
    ensures StripTrailingSlashes(s + Slashes(n)) == StripTrailingSlashes(s)
    decreases n
  {
    if n > 0 {
      var t := s + Slashes(n);
      assert t[..|t| - 1] == s + Slashes(n - 1);
      StripIgnoresAddedSlashes(s, n - 1);
    } else {
      assert s + Slashes(0) == s;
    }
  }

  /** Stripping twice equals stripping once. */
  lemma StripIdempotent(s: string)
    ensures StripTrailingSlashes(StripTrailingSlashes(s)) == StripTrailingSlashes(s)
  {
  }

  /** A string is always its stripped form followed by slashes only. */
  lemma StripLeavesSlashes(s: string)
    ensures s == StripTrailingSlashes(s) + Slashes(|s| - |StripTrailingSlashes(s)|)
  {
    var r := StripTrailingSlashes(s);
    var t := r + Slashes(|s| - |r|);
    assert |t| == |s|;
    forall i | 0 <= i < |s| ensures t[i] == s[i] {
      if i < |r| {
        assert s[..|r|][i] == s[i];
      }
    }
  }

  /** `s.replace(/\/$/, "")`: at most one trailing slash removed. */
  function DropTrailingSlash(s: string): (r: string)
    ensures EndsWith(s, "/") ==> s == r + "/"
    ensures !EndsWith(s, "/") ==> r == s
  {
    if EndsWith(s, "/") then s[..|s| - 1] else s
  }

  /** `s.replace(/^https?:\/\//, "")`: a leading "http://" or "https://" removed, case-sensitively. */
  function StripHttpScheme(s: string): (r: string)
    ensures StartsWith(s, "https://") ==> s == "https://" + r
    ensures StartsWith(s, "http://") ==> s == "http://" + r
    ensures !StartsWith(s, "https://") && !StartsWith(s, "http://") ==> r == s
  {
    if StartsWith(s, "https://") then
      assert s[..8][4] == 's';  // so s does not also start with "http://"
      s[8..]
    else if StartsWith(s, "http://") then s[7..]
    else s
  }

  /** The strip removes the scheme whichever of the two it is, and nothing after it. */
  lemma StripHttpSchemeOf(h: string)
    ensures StripHttpScheme("https://" + h) == h
    ensures StripHttpScheme("http://" + h) == h
  {
    assert ("https://" + h)[..8] == "https://";
    var t := "http://" + h;
    assert t[..7] == "http://";
    assert t[4] == ':';
  }
}
