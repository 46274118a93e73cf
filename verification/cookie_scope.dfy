/** Domain and path matching, after sections 5.1.3 and 5.1.4 of RFC 6265. */
module CookieScope {

  predicate HasSuffix(s: string, suffix: string) { |suffix| <= |s| && s[|s| - |suffix|..] == suffix }

  predicate EndsWith(s: string, c: char) { s != "" && s[|s| - 1] == c }

  predicate StartsWith(s: string, c: char) { s != "" && s[0] == c }

  predicate DomainMatches(host: string, domain: string)
  {
    host == domain || (HasSuffix(host, domain) && EndsWith(host[..|host| - |domain|], '.'))
  }

  predicate PathMatches(request: string, cookie: string)
  {
    request == cookie || (cookie <= request && (EndsWith(cookie, '/') || StartsWith(request[|cookie|..], '/')))
  }

  /** The host is the domain itself or, label by label, a name below it. */
  ghost predicate Under(host: string, domain: string)
  {
    host == domain || exists labels: string :: host == labels + "." + domain
  }

  /** The path continues the cookie's path, and does so at a slash. */
  ghost predicate Below(request: string, cookie: string)
  {
    exists rest: string ::
      request == cookie + rest && (rest == "" || rest[0] == '/' || (cookie != "" && cookie[|cookie| - 1] == '/'))
  }

  lemma DomainMatchesExactly(host: string, domain: string)
    ensures DomainMatches(host, domain) <==> Under(host, domain)
  {
    if DomainMatches(host, domain) && host != domain {
      var front := host[..|host| - |domain|];
      assert front == front[..|front| - 1] + ".";
      assert host == front[..|front| - 1] + "." + domain;
    }
    if labels: string :| host == labels + "." + domain {
      assert host[..|host| - |domain|] == labels + ".";
    }
  }

  lemma PathMatchesExactly(request: string, cookie: string)
    ensures PathMatches(request, cookie) <==> Below(request, cookie)
  {
    if PathMatches(request, cookie) {
      assert request == cookie + request[|cookie|..];
    }
    if rest: string :| request == cookie + rest
                       && (rest == "" || rest[0] == '/' || (cookie != "" && cookie[|cookie| - 1] == '/')) {
      assert request[|cookie|..] == rest;
    }
  }

  lemma DomainTransitive(a: string, b: string, c: string)
    requires DomainMatches(a, b) && DomainMatches(b, c)
    ensures DomainMatches(a, c)
  {
    if a != b && b != c {
      assert a == a[..|a| - |b|] + b;
      assert a[..|a| - |c|] == a[..|a| - |b|] + b[..|b| - |c|];
    }
  }

  /** Two domains that a host matches are comparable: the longer one matches the shorter. */
  lemma DomainsComparable(host: string, d: string, e: string)
    requires DomainMatches(host, d) && DomainMatches(host, e) && |e| <= |d|
    ensures DomainMatches(d, e)
  {
    assert host == host[..|host| - |d|] + d;
    assert d[|d| - |e|..] == host[|host| - |e|..];
    if |e| < |d| {
      assert d[|d| - |e| - 1] == host[|host| - |e| - 1];
    }
  }

  lemma PathTransitive(a: string, b: string, c: string)
    requires PathMatches(a, b) && PathMatches(b, c)
    ensures PathMatches(a, c)
  {
    if a != b && b != c {
      assert a == b + a[|b|..];
      if |c| < |b| { assert b[|c|] == a[|c|]; }
    }
  }

  /** Two cookie paths that match one request path are comparable. */
  lemma PathsComparable(request: string, p: string, q: string)
    requires PathMatches(request, p) && PathMatches(request, q) && |p| <= |q|
    ensures PathMatches(q, p)
  {
    assert p <= request && q <= request;
    assert q[..|p|] == request[..|p|];
    if |p| < |q| { assert q[|p|] == request[|p|]; }
  }
}
