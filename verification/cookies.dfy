/**
 The cookie jar: a bounded vector kept in creation order, updated by `Set-Cookie`
 items and pruned on every operation. Strings hold one character per byte. Library
 parsing, host parsing and the public-suffix list enter through `Raw` and `Library`;
 the clock enters as a parameter.
 */
module Cookies {
  import opened Base
  import opened CookieScope

  datatype SameSite = Strict | Lax | Unrestricted

  datatype Cookie = Cookie(
    name: string,
    value: string,
    domain: string,
    hostOnly: bool,
    path: string,
    secure: bool,
    httpOnly: bool,
    sameSite: Option<SameSite>,
    expires: Option<int>)

  datatype Limits = Limits(maxCookies: nat, maxCookieBytes: nat, maxSetCookieBytes: nat, maxHeaderBytes: nat)

  const DEFAULT_LIMITS := Limits(1024, 16 * 1024, 64 * 1024, 64 * 1024)

  datatype Scheme = Http | Https | OtherScheme

  datatype Url = Url(scheme: Scheme, host: Option<string>, path: string)

  predicate HttpUrl(url: Url) { !url.scheme.OtherScheme? && url.host.Some? }

  /** What host parsing and the public-suffix list answer. */
  datatype Library = Library(
    isDomainName: string -> bool,
    hasRegistrable: string -> bool,
    isCanonicalHost: string -> bool,
    siteOf: string -> Option<string>)

  datatype DomainKind = HostOnly(domain: string) | Suffix(domain: string) | Unsupported

  /** The scope the cookie library derives from a header and the response URL. */
  datatype Derived = Derived(kind: DomainKind, path: string, expires: Option<int>)

  /** A syntactically parsed `Set-Cookie` value. */
  datatype Raw = Raw(
    name: string,
    value: string,
    secure: bool,
    httpOnly: bool,
    sameSite: Option<SameSite>,
    domainAbsent: bool,
    rootPath: bool,
    derived: Option<Derived>)

  /** One `Set-Cookie` header: its size, its parse, and the clock when it is stored. */
  datatype Item = Item(size: nat, parsed: Option<Raw>, now: int)

  datatype Key = Key(name: string, domain: string, path: string)

  function KeyOf(c: Cookie): (k: Key) { Key(c.name, c.domain, c.path) }

  predicate Expired(c: Cookie, now: int) { c.expires.Some? && c.expires.value <= now }

  // ---------------------------------------------------------------- validators

  predicate IsAlnum(c: char) { '0' <= c <= '9' || 'a' <= c <= 'z' || 'A' <= c <= 'Z' }

  predicate NameByte(c: char)
  {
    IsAlnum(c) || c == '!' || '#' <= c <= '\'' || c == '*' || c == '+' || c == '-' || c == '.' || '^' <= c <= '`'
    || c == '|' || c == '~'
  }

  predicate ValueByte(c: char)
  {
    var n := c as int;
    n == 0x21 || 0x23 <= n <= 0x2b || 0x2d <= n <= 0x3a || 0x3c <= n <= 0x5b || 0x5d <= n <= 0x7e
  }

  function Unquoted(value: string): (v: string)
  {
    if |value| >= 2 && value[0] == '"' && value[|value| - 1] == '"' then value[1..|value| - 1] else value
  }

  predicate ValidPair(name: string, value: string)
  {
    name != "" && (forall i :: 0 <= i < |name| ==> NameByte(name[i]))
    && (forall i :: 0 <= i < |Unquoted(value)| ==> ValueByte(Unquoted(value)[i]))
  }

  predicate ValidPath(path: string)
  {
    StartsWith(path, '/') && forall i :: 0 <= i < |path| ==> 0x20 <= path[i] as int <= 0x7e && path[i] != ';'
  }

  predicate ValidPrefix(name: string, secure: bool, hostOnly: bool, rootPath: bool)
  {
    ("__Secure-" <= name ==> secure) && ("__Host-" <= name ==> secure && hostOnly && rootPath)
  }

  predicate BoundedFields(name: string, value: string, domain: string, path: string, limit: nat)
  {
    |name| + |value| + 1 <= limit && |domain| <= 253 && |path| <= limit
  }

  predicate ValidDomainScope(lib: Library, domain: string)
  {
    lib.isDomainName(domain) && !EndsWith(domain, '.') && lib.hasRegistrable(domain)
  }

  /** What makes a cookie's own fields acceptable, whether parsed or restored. */
  predicate FieldsOk(lib: Library, limit: nat, name: string, value: string, domain: string, hostOnly: bool,
                     path: string, secure: bool)
  {
    && BoundedFields(name, value, domain, path, limit) && ValidPair(name, value)
    && lib.isCanonicalHost(domain) && domain != "" && (hostOnly || ValidDomainScope(lib, domain))
    && ValidPath(path) && ValidPrefix(name, secure, hostOnly, path == "/")
  }

  // ------------------------------------------------------------------- parsing

  function ParseCookie(lib: Library, url: Url, raw: Raw): (r: Option<Cookie>)
  {
    if !ValidPair(raw.name, raw.value)
       || (raw.secure && !url.scheme.Https?)
       || (raw.sameSite == Some(Unrestricted) && !raw.secure)
       || !ValidPrefix(raw.name, raw.secure, raw.domainAbsent, raw.rootPath)
       || raw.derived.None? then None
    else
      var d := raw.derived.value;
      if d.kind.Unsupported? || (d.kind.Suffix? && !ValidDomainScope(lib, d.kind.domain))
        || !ValidPath(d.path) then None
      else Some(Cookie(raw.name, raw.value, d.kind.domain, d.kind.HostOnly?, d.path, raw.secure, raw.httpOnly,
        raw.sameSite, d.expires))
  }

  /** The checks a header passes before the jar is consulted. */
  function Candidate(limits: Limits, lib: Library, url: Url, item: Item): (r: Option<Cookie>)
  {
    if item.size == 0 || item.size > limits.maxCookieBytes || item.parsed.None? then None
    else
      var entry := ParseCookie(lib, url, item.parsed.value);
      if entry.Some? && BoundedFields(entry.value.name, entry.value.value, entry.value.domain, entry.value.path,
        limits.maxCookieBytes)
      then entry else None
  }

  // ------------------------------------------------------------------- storing

  function Prune(es: seq<Cookie>, now: int): (r: seq<Cookie>)
  {
    if es == [] then [] else Prune(es[..|es| - 1], now) + (if Expired(es[|es| - 1], now) then [] else [es[|es| - 1]])
  }

  /** First position of a key, or the length. */
  function Find(es: seq<Cookie>, k: Key): (i: nat)
    ensures i <= |es|
    ensures i < |es| ==> KeyOf(es[i]) == k
    ensures forall j :: 0 <= j < i ==> KeyOf(es[j]) != k
  {
    if es == [] || KeyOf(es[0]) == k then 0 else 1 + Find(es[1..], k)
  }

  predicate Overlaps(old_: Cookie, entry: Cookie)
  {
    && old_.secure && old_.name == entry.name
    && (DomainMatches(old_.domain, entry.domain) || DomainMatches(entry.domain, old_.domain))
    && PathMatches(entry.path, old_.path)
  }

  /** An insecure response may not touch the scope of a secure cookie. */
  predicate Blocked(es: seq<Cookie>, url: Url, entry: Cookie)
  {
    !url.scheme.Https? && exists i :: 0 <= i < |es| && Overlaps(es[i], entry)
  }

  /** Delete, replace or append, given where the key was found. */
  function UpsertAt(es: seq<Cookie>, i: nat, maxCookies: nat, entry: Cookie, now: int): (r: seq<Cookie>)
  {
    if Expired(entry, now) then (if i < |es| then es[..i] + es[i + 1..] else es)
    else if i < |es| then es[i := entry]
    else if |es| < maxCookies then es + [entry]
    else es
  }

  function Upsert(es: seq<Cookie>, maxCookies: nat, entry: Cookie, now: int): (r: seq<Cookie>)
  {
    UpsertAt(es, Find(es, KeyOf(entry)), maxCookies, entry, now)
  }

  function StoreItem(es: seq<Cookie>, limits: Limits, lib: Library, url: Url, item: Item): (r: seq<Cookie>)
  {
    var entry := Candidate(limits, lib, url, item);
    if entry.None? || Blocked(es, url, entry.value) then es else Upsert(es, limits.maxCookies, entry.value, item.now)
  }

  /** Storing a list of headers one after the other. */
  function StoreItems(es: seq<Cookie>, limits: Limits, lib: Library, url: Url, items: seq<Item>): (r: seq<Cookie>)
    decreases |items|
  {
    if items == [] then es
    else
      var n := |items| - 1;
      StoreItem(StoreItems(es, limits, lib, url, items[..n]), limits, lib, url, items[n])
  }

  function Total(items: seq<Item>): (n: nat)
  {
    if items == [] then 0 else Total(items[..|items| - 1]) + items[|items| - 1].size
  }

  /** Number of leading headers that fit into a byte budget. */
  function Fits(items: seq<Item>, budget: nat): (k: nat)
    ensures k <= |items|
  {
    if items == [] || items[0].size > budget then 0 else 1 + Fits(items[1..], budget - items[0].size)
  }

  /** A response stores the longest prefix of its headers that fits the byte budget. */
  function SetResponse(es: seq<Cookie>, limits: Limits, lib: Library, url: Url, items: seq<Item>,
                       now: int): (r: seq<Cookie>)
  {
    if HttpUrl(url) then StoreItems(Prune(es, now), limits, lib, url, items[..Fits(items, limits.maxSetCookieBytes)])
    else Prune(es, now)
  }
}
