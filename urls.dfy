/** A deliberately small stand-in for the WHATWG `new URL(s)` parser: just the three parts the
    endpoint normaliser reads (protocol, host, pathname), and failure as None. */
module Urls {
  import opened Outcomes
  import opened Text

  datatype Url = Url(protocol: string, host: string, pathname: string)

  /** Characters that end a scheme, a host and a path. */
  const SchemeStops: set<char> := {':', '/', '?', '#'}
  const HostStops: set<char> := {'/', '?', '#'}
  const PathStops: set<char> := {'?', '#'}

  predicate Free(s: string, stops: set<char>) {
    forall i :: 0 <= i < |s| ==> s[i] !in stops
  }

  /** The index of the first character of s in stops, or |s| when there is none. */
  function FirstIndex(s: string, stops: set<char>): (n: nat)
    ensures n <= |s| && Free(s[..n], stops)
    ensures n < |s| ==> s[n] in stops
    decreases |s|
  {
    if s == "" || s[0] in stops then 0 else 1 + FirstIndex(s[1..], stops)
  }

  /** The first stop is wherever the contract above says it is. */
  lemma FirstIndexIs(s: string, stops: set<char>, n: nat)
    requires n <= |s| && Free(s[..n], stops)
    requires n < |s| ==> s[n] in stops
    ensures FirstIndex(s, stops) == n
  {
  }

  /** `new URL(s)` reduced to: a non-empty scheme and ':', then "//", then a non-empty host
      ending at '/', '?', '#' or the end; the pathname runs to '?', '#' or the end and is "/"
      when empty. Anything else fails to parse. */
  function ParseUrl(s: string): (r: Option<Url>)
    ensures r.Some? ==> WellFormed(r.value) && Contains(s, r.value.host)
  {
    var i := FirstIndex(s, SchemeStops);
    if i == 0 || i == |s| || s[i] != ':' then None
    else
      var rest := s[i + 1..];
      if !StartsWith(rest, "//") then None
      else
        var authority := rest[2..];
        var h := FirstIndex(authority, HostStops);
        if h == 0 then None
        else
          var tail := authority[h..];
          var path := tail[..FirstIndex(tail, PathStops)];
          var u := Url(s[..i + 1], authority[..h], if path == "" then "/" else path);
          assert s[i + 3..] == authority;
          ContainsAt(s, u.host, i + 3);
          assert u.protocol[..|u.protocol| - 1] == s[..i];
          Some(u)
  }

  /** What ParseUrl can return: a protocol "scheme:", a host free of '/', '?', '#', and a
      pathname that starts with '/' and stops before '?' or '#'. */
  predicate WellFormed(u: Url) {
    && |u.protocol| >= 2 && u.protocol[|u.protocol| - 1] == ':'
    && Free(u.protocol[..|u.protocol| - 1], SchemeStops)
    && u.host != "" && Free(u.host, HostStops)
    && u.pathname != "" && u.pathname[0] == '/' && Free(u.pathname, PathStops)
  }

  /** The URL serialised from its parts, as the normaliser's template writes it. */
  function Format(u: Url): string {
    u.protocol + "//" + u.host + u.pathname
  }

  /** Parsing a serialised well-formed URL gives back exactly its parts. */
  lemma ParseFormat(u: Url)
    requires WellFormed(u)
    ensures ParseUrl(Format(u)) == Some(u)
  {
    var s := Format(u);
    var k := |u.protocol| - 1;
    assert s[..k] == u.protocol[..k];
    assert s[k] == ':';
    FirstIndexIs(s, SchemeStops, k);
    assert s[..k + 1] == u.protocol;
    var rest := s[k + 1..];
    assert rest == "//" + u.host + u.pathname;
    var authority := rest[2..];
    assert authority == u.host + u.pathname;
    assert authority[..|u.host|] == u.host;
    FirstIndexIs(authority, HostStops, |u.host|);
    var tail := authority[|u.host|..];
    assert tail == u.pathname;
    FirstIndexIs(tail, PathStops, |tail|);
    assert tail[..|tail|] == u.pathname;
  }

  /** The same URL with `prefix` put in front of its host. */
  function WithHostPrefix(u: Url, prefix: string): Url {
    u.(host := prefix + u.host)
  }

  /** Prefixing the host with delimiter-free text keeps the URL well formed. */
  lemma WithHostPrefixWellFormed(u: Url, prefix: string)
    requires WellFormed(u) && Free(prefix, HostStops)
    ensures WellFormed(WithHostPrefix(u, prefix))
  {
  }

  /** A URL written without a path parses with the pathname "/". */
  lemma ParseWithoutPath(scheme: string, host: string)
    requires scheme != "" && Free(scheme, SchemeStops) && host != "" && Free(host, HostStops)
    ensures ParseUrl(scheme + "://" + host) == Some(Url(scheme + ":", host, "/"))
  {
    var s := scheme + "://" + host;
    assert s[..|scheme|] == scheme;
    assert s[|scheme|] == ':';
    FirstIndexIs(s, SchemeStops, |scheme|);
    var rest := s[|scheme| + 1..];
    assert rest == "//" + host;
    assert StartsWith(rest, "//");
    var authority := rest[2..];
    assert authority == host;
    FirstIndexIs(authority, HostStops, |host|);
    assert authority[..|host|] == host;
    var tail := authority[|host|..];
    assert tail == "";
    assert FirstIndex(tail, PathStops) == 0;
    assert s[..|scheme| + 1] == scheme + ":";
  }
}
