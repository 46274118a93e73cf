/** The generated `Cookie` header: which cookies, in which order, and how it reads back. */
module CookieHeader {
  import opened Base
  import opened CookieScope
  import opened Cookies
  import opened CookieLaws

  // ------------------------------------------------------------------ selection

  /** `site` is the initiating site; native callers leave it out. */
  datatype Context = Context(site: Option<Url>, topLevel: bool)

  datatype Request = Request(url: Url, safeMethod: bool, context: Context)

  datatype Relation = SameSite_ | CrossSite | UnknownSite

  function SchemefulSite(lib: Library, url: Url): (r: Option<(Scheme, string)>)
  {
    if !HttpUrl(url) then None
    else match lib.siteOf(url.host.value)
      case None => None
      case Some(domain) => Some((url.scheme, domain))
  }

  function SiteRelation(lib: Library, req: Request): (r: Relation)
  {
    if req.context.site.None? then SameSite_
    else match (SchemefulSite(lib, req.context.site.value), SchemefulSite(lib, req.url))
      case (Some(left), Some(right)) => if left == right then SameSite_ else CrossSite
      case _ => UnknownSite
  }

  predicate SameSiteAllowed(c: Cookie, relation: Relation, req: Request)
  {
    match c.sameSite
    case Some(Strict) => relation.SameSite_?
    case Some(Lax) => relation.SameSite_? || (relation.CrossSite? && req.context.topLevel && req.safeMethod)
    case Some(Unrestricted) => c.secure
    case None => true
  }

  predicate Matches(c: Cookie, url: Url)
  {
    && url.host.Some?
    && (c.domain == url.host.value || (!c.hostOnly && DomainMatches(url.host.value, c.domain)))
    && PathMatches(url.path, c.path)
    && (!c.secure || url.scheme.Https?)
  }

  predicate Eligible(lib: Library, req: Request, c: Cookie)
  {
    Matches(c, req.url) && SameSiteAllowed(c, SiteRelation(lib, req), req)
  }

  /** The request comes from the site it goes to. */
  ghost predicate FromSameSite(lib: Library, req: Request)
  {
    req.context.site.None? || (SiteKnown(lib, req.context.site.value) && SiteKnown(lib, req.url)
                               && SiteOf(lib, req.context.site.value) == SiteOf(lib, req.url))
  }

  ghost predicate FromOtherSite(lib: Library, req: Request)
  {
    && req.context.site.Some? && SiteKnown(lib, req.context.site.value) && SiteKnown(lib, req.url)
    && SiteOf(lib, req.context.site.value) != SiteOf(lib, req.url)
  }

  predicate SiteKnown(lib: Library, url: Url)
  {
    (url.scheme == Http || url.scheme == Https) && url.host.Some? && lib.siteOf(url.host.value).Some?
  }

  function SiteOf(lib: Library, url: Url): (r: (Scheme, string))
    requires SiteKnown(lib, url)
  {
    (url.scheme, lib.siteOf(url.host.value).value)
  }

  /** Who is sent what: the host, path and scheme a cookie is for, and the sites its `SameSite` admits. */
  ghost predicate SentTo(lib: Library, req: Request, c: Cookie)
  {
    && req.url.host.Some?
    && (if c.hostOnly then req.url.host.value == c.domain else Under(req.url.host.value, c.domain))
    && Below(req.url.path, c.path)
    && (c.secure ==> req.url.scheme == Https)
    && (c.sameSite == Some(Strict) ==> FromSameSite(lib, req))
    && (c.sameSite == Some(Lax) ==>
          FromSameSite(lib, req) || (FromOtherSite(lib, req) && req.context.topLevel && req.safeMethod))
    && (c.sameSite == Some(Unrestricted) ==> c.secure)
  }

  lemma EligibleExactly(lib: Library, req: Request, c: Cookie)
    ensures Eligible(lib, req, c) <==> SentTo(lib, req, c)
  {
    if req.url.host.Some? { DomainMatchesExactly(req.url.host.value, c.domain); }
    PathMatchesExactly(req.url.path, c.path);
    assert SiteRelation(lib, req).SameSite_? <==> FromSameSite(lib, req);
    assert SiteRelation(lib, req).CrossSite? <==> FromOtherSite(lib, req);
  }

  function Selected(lib: Library, req: Request, es: seq<Cookie>): (r: seq<Cookie>)
    ensures forall c :: c in r <==> c in es && Eligible(lib, req, c)
  {
    if es == [] then []
    else
      var rest := Selected(lib, req, es[1..]);
      assert es == [es[0]] + es[1..];
      if Eligible(lib, req, es[0]) then [es[0]] + rest else rest
  }

  // ---------------------------------------------------------------------- order

  function Insert(c: Cookie, s: seq<Cookie>): (r: seq<Cookie>)
  {
    if s == [] || |c.path| >= |s[0].path| then [c] + s else [s[0]] + Insert(c, s[1..])
  }

  /** Stable sort by descending path length. */
  function SortByPath(s: seq<Cookie>): (r: seq<Cookie>)
  {
    if s == [] then [] else Insert(s[0], SortByPath(s[1..]))
  }

  ghost predicate Descending(s: seq<Cookie>) { forall i, j :: 0 <= i < j < |s| ==> |s[i].path| >= |s[j].path| }

  /** The cookies of one path length, in their order. */
  function OfLength(s: seq<Cookie>, n: nat): (r: seq<Cookie>)
  {
    if s == [] then [] else (if |s[0].path| == n then [s[0]] else []) + OfLength(s[1..], n)
  }

  lemma OfLengthFirst(c: Cookie, s: seq<Cookie>, n: nat)
    ensures OfLength([c] + s, n) == (if |c.path| == n then [c] else []) + OfLength(s, n)
  {
    assert ([c] + s)[1..] == s;
  }

  lemma {:induction false} InsertTies(c: Cookie, s: seq<Cookie>, n: nat)
    ensures OfLength(Insert(c, s), n) == OfLength([c] + s, n)
  {
    if s != [] && |c.path| < |s[0].path| {
      var rest := s[1..];
      InsertTies(c, rest, n);
      assert s == [s[0]] + rest;
      OfLengthFirst(s[0], Insert(c, rest), n);
      OfLengthFirst(s[0], rest, n);
      OfLengthFirst(c, rest, n);
      OfLengthFirst(c, s, n);
    }
  }

  lemma {:induction false} InsertOk(c: Cookie, s: seq<Cookie>)
    requires Descending(s)
    ensures Descending(Insert(c, s))
    ensures forall d :: d in Insert(c, s) <==> d == c || d in s
  {
    if s != [] && |c.path| < |s[0].path| {
      var rest := s[1..];
      InsertOk(c, rest);
      assert s == [s[0]] + rest;
      forall j | 0 < j < |Insert(c, s)| ensures |s[0].path| >= |Insert(c, s)[j].path| {
        assert Insert(c, s)[j] in Insert(c, rest);
      }
    }
  }

  /** The sort orders by descending path length, keeps creation order on ties, and keeps exactly the given cookies. */
  lemma {:induction false} SortOk(s: seq<Cookie>, n: nat)
    ensures Descending(SortByPath(s)) && OfLength(SortByPath(s), n) == OfLength(s, n)
    ensures forall c :: c in SortByPath(s) <==> c in s
  {
    if s != [] {
      SortOk(s[1..], n);
      InsertOk(s[0], SortByPath(s[1..]));
      InsertTies(s[0], SortByPath(s[1..]), n);
      OfLengthFirst(s[0], SortByPath(s[1..]), n);
      OfLengthFirst(s[0], s[1..], n);
      assert s == [s[0]] + s[1..];
    }
  }

  lemma {:induction false} OfLengthLonger(s: seq<Cookie>, n: nat)
    requires forall i :: 0 <= i < |s| ==> |s[i].path| < n
    ensures OfLength(s, n) == []
  {
    if s != [] { OfLengthLonger(s[1..], n); }
  }

  lemma OfLengthTail(t: seq<Cookie>, u: seq<Cookie>, k: nat)
    requires t != [] && u != [] && t[0] == u[0] && OfLength(t, k) == OfLength(u, k)
    ensures OfLength(t[1..], k) == OfLength(u[1..], k)
  {
    var head := if |t[0].path| == k then [t[0]] else [];
    assert OfLength(t[1..], k) == OfLength(t, k)[|head|..];
    assert OfLength(u[1..], k) == OfLength(u, k)[|head|..];
  }

  lemma HeadOf(s: seq<Cookie>)
    requires s != []
    ensures OfLength(s, |s[0].path|) != [] && OfLength(s, |s[0].path|)[0] == s[0]
  {
  }

  /** Any two sequences in descending order with the same ties are the same sequence. */
  lemma {:induction false} DescendingUnique(t: seq<Cookie>, u: seq<Cookie>)
    requires Descending(t) && Descending(u)
    requires forall n: nat :: OfLength(t, n) == OfLength(u, n)
    ensures t == u
  {
    if t != [] { HeadOf(t); }
    if u != [] { HeadOf(u); }
    if t != [] && u != [] {
      var n, m := |t[0].path|, |u[0].path|;
      if n < m { OfLengthLonger(t, m); }
      if m < n { OfLengthLonger(u, n); }
      forall k: nat ensures OfLength(t[1..], k) == OfLength(u[1..], k) { OfLengthTail(t, u, k); }
      DescendingUnique(t[1..], u[1..]);
    }
  }

  // ------------------------------------------------------------------ rendering

  function Pair(c: Cookie): (r: string) { c.name + "=" + c.value }

  function Render(s: seq<Cookie>): (r: string)
  {
    if s == [] then ""
    else if |s| == 1 then Pair(s[0])
    else Render(s[..|s| - 1]) + "; " + Pair(s[|s| - 1])
  }

  lemma {:induction false} RenderGrows(s: seq<Cookie>, i: nat)
    requires i <= |s|
    ensures |Render(s[..i])| <= |Render(s)|
    ensures s != [] ==> Render(s) != ""
    decreases |s| - i
  {
    if i < |s| {
      RenderGrows(s, i + 1);
      assert s[..i + 1][..i] == s[..i];
    } else {
      assert s[..i] == s;
    }
  }

  /** How one more cookie extends the header text. */
  lemma RenderNext(s: seq<Cookie>, i: nat)
    requires i < |s|
    ensures Render(s[..i + 1]) == (if Render(s[..i]) == "" then Render(s[..i]) else Render(s[..i]) + "; ") + Pair(s[i])
  {
    assert s[..i + 1][..i] == s[..i];
    RenderGrows(s[..i], i);
    if i == 0 { assert Render(s[..i]) == ""; }
  }

  lemma Rejoin(a: string, b: string, c: string)
    ensures (a + "; " + b) + "; " + c == a + "; " + (b + "; " + c)
  {
  }

  lemma {:induction false} RenderFront(c: Cookie, rest: seq<Cookie>)
    requires rest != []
    ensures Render([c] + rest) == Pair(c) + "; " + Render(rest)
  {
    var n := |rest| - 1;
    var s := [c] + rest;
    assert s[..|s| - 1] == [c] + rest[..n] && s[|s| - 1] == rest[n];
    if n == 0 {
      assert rest[..n] == [] && [c] + rest[..n] == [c];
    } else {
      RenderFront(c, rest[..n]);
      Rejoin(Pair(c), Render(rest[..n]), Pair(rest[n]));
    }
  }

  // -------------------------------------------------------------- reading back

  /** First position of `"; "`, or the length. */
  function NextSeparator(h: string): (i: nat)
    ensures i <= |h|
  {
    if h == "" then 0 else if |h| >= 2 && h[0] == ';' && h[1] == ' ' then 0 else 1 + NextSeparator(h[1..])
  }

  /** First position of `'='`, or the length. */
  function FirstEquals(p: string): (i: nat)
    ensures i <= |p|
  {
    if p == "" || p[0] == '=' then 0 else 1 + FirstEquals(p[1..])
  }

  function SplitPair(p: string): (r: (string, string))
  {
    var i := FirstEquals(p);
    if i < |p| then (p[..i], p[i + 1..]) else (p, "")
  }

  /** A reader that splits at `"; "` and then at the first `'='`. */
  function ReadHeader(h: string): (r: seq<(string, string)>)
    decreases |h|
  {
    var i := NextSeparator(h);
    if i + 2 <= |h| then [SplitPair(h[..i])] + ReadHeader(h[i + 2..]) else [SplitPair(h)]
  }

  function PairsOf(s: seq<Cookie>): (r: seq<(string, string)>)
  {
    if s == [] then [] else [(s[0].name, s[0].value)] + PairsOf(s[1..])
  }

  ghost predicate Lacks(s: string, c: char) { forall i :: 0 <= i < |s| ==> s[i] != c }

  lemma {:induction false} SeparatorAfter(p: string, rest: string)
    requires Lacks(p, ';')
    ensures NextSeparator(p + "; " + rest) == |p|
  {
    var h := p + "; " + rest;
    if p == "" {
      assert h[0] == ';' && h[1] == ' ';
    } else {
      SeparatorAfter(p[1..], rest);
      assert h[1..] == p[1..] + "; " + rest && h[0] == p[0];
    }
  }

  lemma {:induction false} NoSeparator(p: string)
    requires Lacks(p, ';')
    ensures NextSeparator(p) == |p|
  {
    if p != "" { NoSeparator(p[1..]); }
  }

  lemma {:induction false} EqualsAfter(name: string, rest: string)
    requires Lacks(name, '=')
    ensures FirstEquals(name + "=" + rest) == |name|
  {
    var p := name + "=" + rest;
    if name != "" {
      EqualsAfter(name[1..], rest);
      assert p[1..] == name[1..] + "=" + rest && p[0] == name[0];
    }
  }

  lemma PairReadsBack(c: Cookie)
    requires ValidPair(c.name, c.value)
    ensures Lacks(Pair(c), ';') && SplitPair(Pair(c)) == (c.name, c.value)
  {
    assert Lacks(c.name, '=') && Lacks(c.name, ';');
    ValueLacksSemicolon(c.value);
    EqualsAfter(c.name, c.value);
    var p := Pair(c);
    assert p[..|c.name|] == c.name && p[|c.name| + 1..] == c.value;
  }

  lemma ValueLacksSemicolon(value: string)
    requires forall i :: 0 <= i < |Unquoted(value)| ==> ValueByte(Unquoted(value)[i])
    ensures Lacks(value, ';')
  {
    forall i | 0 <= i < |value| ensures value[i] != ';' {
      if Unquoted(value) != value && 0 < i < |value| - 1 { assert Unquoted(value)[i - 1] == value[i]; }
    }
  }

  /** Splitting the header at `"; "` and each piece at its first `'='` recovers every pair, in order. */
  lemma {:induction false} HeaderReadsBack(s: seq<Cookie>)
    requires s != [] && forall c :: c in s ==> ValidPair(c.name, c.value)
    ensures ReadHeader(Render(s)) == PairsOf(s)
  {
    var c, rest := s[0], s[1..];
    PairReadsBack(c);
    if rest == [] {
      NoSeparator(Pair(c));
      assert s == [c] && PairsOf(rest) == [];
    } else {
      assert s == [c] + rest;
      RenderFront(c, rest);
      SeparatorAfter(Pair(c), Render(rest));
      var h := Render(s);
      assert h[..|Pair(c)|] == Pair(c) && h[|Pair(c)| + 2..] == Render(rest);
      HeaderReadsBack(rest);
    }
  }

  // -------------------------------------------------------------------- header

  datatype HeaderResult = NoHeader | Header(text: string) | TooLarge | Unencodable

  predicate HeaderText(h: string) { forall i :: 0 <= i < |h| ==> HeaderCode(h[i] as int) }

  /** The whole header, checked against the limit once at the end. */
  function HeaderFor(lib: Library, limits: Limits, es: seq<Cookie>, req: Request): (r: HeaderResult)
  {
    if !HttpUrl(req.url) then NoHeader
    else
      var text := Render(SortByPath(Selected(lib, req, es)));
      if |text| > limits.maxHeaderBytes then TooLarge
      else if text == "" then NoHeader
      else if HeaderText(text) then Header(text) else Unencodable
  }

  lemma PairVisible(c: Cookie)
    requires ValidPair(c.name, c.value)
    ensures HeaderText(Pair(c))
  {
    assert HeaderText(c.name);
    forall i | 0 <= i < |c.value| ensures 0x20 <= c.value[i] as int <= 0x7e {
      if Unquoted(c.value) != c.value && 0 < i < |c.value| - 1 { assert Unquoted(c.value)[i - 1] == c.value[i]; }
    }
  }

  lemma {:induction false} RenderVisible(s: seq<Cookie>)
    requires forall c :: c in s ==> ValidPair(c.name, c.value)
    ensures HeaderText(Render(s))
  {
    if s != [] {
      PairVisible(s[|s| - 1]);
      if |s| > 1 { RenderVisible(s[..|s| - 1]); }
    }
  }

  /**
   For a jar in good order, the header exists exactly when some cookie is for the request and
   the full text fits. It holds exactly those cookies, by descending path length with
   creation order on ties, and reads back to their pairs.
   */
  lemma HeaderIsExact(lib: Library, limits: Limits, es: seq<Cookie>, req: Request, n: nat)
    requires JarOk(lib, limits, es) && HttpUrl(req.url)
    ensures var s := SortByPath(Selected(lib, req, es));
            && HeaderFor(lib, limits, es, req) ==
               (if |Render(s)| > limits.maxHeaderBytes then TooLarge else if s == [] then NoHeader
                else Header(Render(s)))
            && (forall c :: c in s <==> c in es && SentTo(lib, req, c))
            && Descending(s) && OfLength(s, n) == OfLength(Selected(lib, req, es), n)
            && (s != [] ==> ReadHeader(Render(s)) == PairsOf(s))
  {
    var s := SortByPath(Selected(lib, req, es));
    SortOk(Selected(lib, req, es), n);
    forall c | c in s ensures ValidPair(c.name, c.value) { assert StoredOk(lib, limits, c); }
    RenderVisible(s);
    RenderGrows(s, |s|);
    if s != [] { HeaderReadsBack(s); }
    forall c ensures Eligible(lib, req, c) <==> SentTo(lib, req, c) { EligibleExactly(lib, req, c); }
  }

  lemma {:induction false} PairsExactly(s: seq<Cookie>, p: (string, string))
    ensures p in PairsOf(s) <==> exists c :: c in s && p == (c.name, c.value)
  {
    if s != [] {
      PairsExactly(s[1..], p);
      assert s == [s[0]] + s[1..];
    }
  }

  /** Whether the jar takes a new cookie in: it is live, no secure cookie guards its scope, and there is room. */
  ghost predicate Takes(es: seq<Cookie>, limits: Limits, url: Url, c: Cookie, now: int)
  {
    && (c.expires.Some? ==> now < c.expires.value)
    && (url.scheme == Https || forall o :: o in es ==> !Guards(o, c))
    && (|es| < limits.maxCookies || exists o :: o in es && o.name == c.name && o.domain == c.domain && o.path == c.path)
  }

  lemma UpsertHolds(es: seq<Cookie>, limits: Limits, url: Url, c: Cookie, now: int)
    requires Takes(es, limits, url, c, now)
    ensures !Blocked(es, url, c) && c in Upsert(es, limits.maxCookies, c, now)
  {
    forall o | o in es ensures Overlaps(o, c) <==> Guards(o, c) { OverlapsExactly(o, c); }
    var i := Find(es, KeyOf(c));
    if i < |es| {
      assert es[i := c][i] == c;
    } else {
      assert forall o :: o in es ==> KeyOf(o) != KeyOf(c);
      assert (es + [c])[|es|] == c;
    }
  }

  /** An admitted header leaves the cookie it stands for in the jar, and matching requests carry its name and value. */
  lemma StoredAndSent(es: seq<Cookie>, limits: Limits, lib: Library, url: Url, item: Item, req: Request)
    requires JarOk(lib, limits, es) && ItemOk(lib, item) && Admits(limits, lib, url, item)
    requires Takes(es, limits, url, EntryOf(item.parsed.value), item.now)
    requires HttpUrl(req.url) && SentTo(lib, req, EntryOf(item.parsed.value))
    ensures var raw, after := item.parsed.value, StoreItem(es, limits, lib, url, item);
            && EntryOf(raw) in after
            && var h := HeaderFor(lib, limits, after, req);
               h == TooLarge || (h.Header? && (raw.name, raw.value) in ReadHeader(h.text))
  {
    var c, after := EntryOf(item.parsed.value), StoreItem(es, limits, lib, url, item);
    CandidateExactly(limits, lib, url, item);
    UpsertHolds(es, limits, url, c, item.now);
    StoreItemOk(es, limits, lib, url, item);
    HeaderIsExact(lib, limits, after, req, 0);
    PairsExactly(SortByPath(Selected(lib, req, after)), (c.name, c.value));
  }

  // ----------------------------------------------------------------- shadowing

  lemma {:induction false} SecureMember(es: seq<Cookie>, c: Cookie)
    ensures c in SecureOnly(es) <==> c in es && c.secure
  {
    if es != [] {
      SecureMember(es[1..], c);
      assert es == [es[0]] + es[1..];
    }
  }

  lemma UpsertMembers(es: seq<Cookie>, i: nat, max: nat, e: Cookie, now: int, d: Cookie)
    requires d in UpsertAt(es, i, max, e, now)
    ensures d in es || d == e
  {
  }

  /** Whatever an insecure response leaves behind was there before or clears every secure cookie's scope. */
  lemma {:induction false} NewcomersClear(es: seq<Cookie>, limits: Limits, lib: Library, url: Url, items: seq<Item>,
                                          c: Cookie, e: Cookie)
    requires !url.scheme.Https? && c in es && c.secure && e in StoreItems(es, limits, lib, url, items) && e !in es
    ensures !Overlaps(c, e)
    decreases |items|
  {
    var n := |items| - 1;
    var before := StoreItems(es, limits, lib, url, items[..n]);
    if e in before {
      NewcomersClear(es, limits, lib, url, items[..n], c, e);
    } else {
      var entry := Candidate(limits, lib, url, items[n]).value;
      UpsertMembers(before, Find(before, KeyOf(entry)), limits.maxCookies, entry, items[n].now, e);
      SecureStoreItems(es, limits, lib, url, items[..n]);
      SecureMember(es, c);
      SecureMember(before, c);
    }
  }

  /** A cookie clear of a secure one's scope has a shorter path wherever both are sent. */
  lemma ClearMeansShorter(c: Cookie, e: Cookie, url: Url)
    requires c.secure && c.name == e.name && !Overlaps(c, e) && Matches(c, url) && Matches(e, url)
    ensures |c.path| > |e.path|
  {
    var host := url.host.value;
    assert DomainMatches(host, c.domain) && DomainMatches(host, e.domain);
    if |e.domain| <= |c.domain| {
      DomainsComparable(host, c.domain, e.domain);
    } else {
      DomainsComparable(host, e.domain, c.domain);
    }
    if |c.path| <= |e.path| { PathsComparable(url.path, c.path, e.path); }
  }

  /**
   An insecure response can never shadow a secure cookie: whenever a cookie it brought is
   sent together with a secure cookie of the same name, the secure one comes first.
   */
  lemma NoShadowing(es: seq<Cookie>, limits: Limits, lib: Library, url: Url, items: seq<Item>, now: int,
                    req: Request, c: Cookie, e: Cookie, i: nat, j: nat)
    requires !url.scheme.Https? && c in Prune(es, now) && c.secure && c.name == e.name
    requires e in SetResponse(es, limits, lib, url, items, now) && e !in Prune(es, now)
    requires var s := SortByPath(Selected(lib, req, SetResponse(es, limits, lib, url, items, now)));
             i < |s| && j < |s| && s[i] == c && s[j] == e
    ensures i < j
  {
    var after := SetResponse(es, limits, lib, url, items, now);
    NewcomersClear(Prune(es, now), limits, lib, url, items[..Fits(items, limits.maxSetCookieBytes)], c, e);
    SortOk(Selected(lib, req, after), 0);
    var s := SortByPath(Selected(lib, req, after));
    assert s[i] in s && s[j] in s;
    ClearMeansShorter(c, e, req.url);
  }
}
