/** What every sequence of responses keeps true of a cookie jar. */
module CookieLaws {
  import opened Base
  import opened CookieScope
  import opened Cookies

  // -------------------------------------------------------- keys stay unique

  ghost predicate Unique(es: seq<Cookie>)
  {
    forall i, j :: 0 <= i < j < |es| ==> KeyOf(es[i]) != KeyOf(es[j])
  }

  lemma {:induction false} PruneMembers(es: seq<Cookie>, now: int)
    ensures forall c :: c in Prune(es, now) <==> c in es && (c.expires.Some? ==> now < c.expires.value)
    ensures |Prune(es, now)| <= |es|
  {
    if es != [] {
      var n := |es| - 1;
      PruneMembers(es[..n], now);
      assert es == es[..n] + [es[n]];
    }
  }

  lemma {:induction false} PruneUnique(es: seq<Cookie>, now: int)
    requires Unique(es)
    ensures Unique(Prune(es, now))
  {
    if es != [] {
      var n := |es| - 1;
      PruneUnique(es[..n], now);
      PruneMembers(es[..n], now);
      forall j | 0 <= j < |Prune(es[..n], now)| ensures KeyOf(Prune(es[..n], now)[j]) != KeyOf(es[n]) {
        assert Prune(es[..n], now)[j] in es[..n];
      }
    }
  }

  lemma UpsertUnique(es: seq<Cookie>, max: nat, entry: Cookie, now: int)
    requires Unique(es)
    ensures Unique(Upsert(es, max, entry, now))
  {
  }

  // -------------------------------------------------- what the libraries promise

  /** Range of representable timestamps. */
  predicate TimestampOk(t: int) { -377705116800 <= t <= 253402300799 }

  /** The library derives canonical hosts, host-only scope without a `Domain`, and the root path when it is given. */
  predicate LibraryOk(lib: Library, raw: Raw)
  {
    raw.derived.Some? ==>
      var d := raw.derived.value;
      && (!d.kind.Unsupported? ==> d.kind.domain != "" && lib.isCanonicalHost(d.kind.domain))
      && (raw.domainAbsent ==> d.kind.HostOnly?)
      && (raw.rootPath ==> d.path == "/")
      && (d.expires.Some? ==> TimestampOk(d.expires.value))
  }

  predicate ItemOk(lib: Library, item: Item) { item.parsed.Some? ==> LibraryOk(lib, item.parsed.value) }

  ghost predicate ItemsOk(lib: Library, items: seq<Item>)
  {
    forall item :: item in items ==> ItemOk(lib, item)
  }

  // ------------------------------------------------------------ stored cookies

  ghost predicate StoredOk(lib: Library, limits: Limits, c: Cookie)
  {
    && FieldsOk(lib, limits.maxCookieBytes, c.name, c.value, c.domain, c.hostOnly, c.path, c.secure)
    && (c.sameSite == Some(Unrestricted) ==> c.secure)
    && (c.expires.Some? ==> TimestampOk(c.expires.value))
  }

  ghost predicate JarOk(lib: Library, limits: Limits, es: seq<Cookie>)
  {
    && |es| <= limits.maxCookies && Unique(es)
    && forall c :: c in es ==> StoredOk(lib, limits, c)
  }

  lemma ParseOk(limits: Limits, lib: Library, url: Url, raw: Raw)
    requires LibraryOk(lib, raw) && ParseCookie(lib, url, raw).Some?
    requires var c := ParseCookie(lib, url, raw).value; BoundedFields(c.name, c.value, c.domain, c.path,
             limits.maxCookieBytes)
    ensures StoredOk(lib, limits, ParseCookie(lib, url, raw).value)
  {
    var c := ParseCookie(lib, url, raw).value;
    assert ValidPair(c.name, c.value) && ValidPath(c.path);
    assert ValidPrefix(c.name, c.secure, c.hostOnly, c.path == "/");
  }

  lemma CandidateOk(limits: Limits, lib: Library, url: Url, item: Item)
    requires ItemOk(lib, item) && Candidate(limits, lib, url, item).Some?
    ensures StoredOk(lib, limits, Candidate(limits, lib, url, item).value)
  {
    ParseOk(limits, lib, url, item.parsed.value);
  }

  lemma StoreItemOk(es: seq<Cookie>, limits: Limits, lib: Library, url: Url, item: Item)
    requires JarOk(lib, limits, es) && ItemOk(lib, item)
    ensures JarOk(lib, limits, StoreItem(es, limits, lib, url, item))
  {
    var entry := Candidate(limits, lib, url, item);
    if entry.Some? {
      CandidateOk(limits, lib, url, item);
      UpsertUnique(es, limits.maxCookies, entry.value, item.now);
    }
  }

  lemma {:induction false} StoreItemsOk(es: seq<Cookie>, limits: Limits, lib: Library, url: Url, items: seq<Item>)
    requires JarOk(lib, limits, es) && ItemsOk(lib, items)
    ensures JarOk(lib, limits, StoreItems(es, limits, lib, url, items))
    decreases |items|
  {
    if items != [] {
      var n := |items| - 1;
      StoreItemsOk(es, limits, lib, url, items[..n]);
      StoreItemOk(StoreItems(es, limits, lib, url, items[..n]), limits, lib, url, items[n]);
    }
  }

  lemma PruneOk(es: seq<Cookie>, limits: Limits, lib: Library, now: int)
    requires JarOk(lib, limits, es)
    ensures JarOk(lib, limits, Prune(es, now))
  {
    PruneMembers(es, now);
    PruneUnique(es, now);
  }

  datatype Response = Response(url: Url, items: seq<Item>, now: int)

  function AfterResponses(es: seq<Cookie>, limits: Limits, lib: Library, rs: seq<Response>): (r: seq<Cookie>)
  {
    if rs == [] then es
    else
      var r := rs[|rs| - 1];
      SetResponse(AfterResponses(es, limits, lib, rs[..|rs| - 1]), limits, lib, r.url, r.items, r.now)
  }

  lemma ResponseOk(es: seq<Cookie>, limits: Limits, lib: Library, r: Response)
    requires JarOk(lib, limits, es) && ItemsOk(lib, r.items)
    ensures JarOk(lib, limits, SetResponse(es, limits, lib, r.url, r.items, r.now))
  {
    PruneOk(es, limits, lib, r.now);
    StoreItemsOk(Prune(es, r.now), limits, lib, r.url, r.items[..Fits(r.items, limits.maxSetCookieBytes)]);
  }

  /** Over any sequence of responses the jar stays within its bounds, its keys stay unique and its cookies valid. */
  lemma {:induction false} JarStaysOk(es: seq<Cookie>, limits: Limits, lib: Library, rs: seq<Response>)
    requires JarOk(lib, limits, es) && forall i :: 0 <= i < |rs| ==> ItemsOk(lib, rs[i].items)
    ensures JarOk(lib, limits, AfterResponses(es, limits, lib, rs))
  {
    if rs != [] {
      JarStaysOk(es, limits, lib, rs[..|rs| - 1]);
      ResponseOk(AfterResponses(es, limits, lib, rs[..|rs| - 1]), limits, lib, rs[|rs| - 1]);
    }
  }

  // --------------------------------------------------------------- byte budget

  lemma {:induction false} TotalFront(items: seq<Item>)
    requires items != []
    ensures Total(items) == items[0].size + Total(items[1..])
  {
    var n := |items| - 1;
    if n > 0 {
      TotalFront(items[..n]);
      assert items[..n][1..] == items[1..][..n - 1];
      assert items[1..][n - 1] == items[n];
    }
  }

  /** It is the longest such prefix. */
  lemma {:induction false} FitsLongest(items: seq<Item>, budget: nat)
    ensures var k := Fits(items, budget);
            && Total(items[..k]) <= budget
            && (k < |items| ==> Total(items[..k + 1]) > budget)
    decreases |items|
  {
    if items != [] && items[0].size <= budget {
      var rest, k := items[1..], Fits(items, budget);
      FitsLongest(rest, budget - items[0].size);
      assert items[..k][1..] == rest[..k - 1];
      TotalFront(items[..k]);
      if k < |items| {
        assert items[..k + 1][1..] == rest[..k];
        TotalFront(items[..k + 1]);
      }
    } else if items != [] {
      assert items[..1] == [items[0]];
      TotalFront(items[..1]);
    }
  }

  lemma {:induction false} TotalGrows(items: seq<Item>, j: nat, k: nat)
    requires j <= k <= |items|
    ensures Total(items[..j]) <= Total(items[..k])
  {
    if j < k {
      TotalGrows(items, j, k - 1);
      assert items[..k][..k - 1] == items[..k - 1];
    }
  }

  /** A loop that stops at the first header over the budget stops exactly there. */
  lemma FitsUnique(items: seq<Item>, budget: nat, n: nat)
    requires n <= |items| && Total(items[..n]) <= budget && (n < |items| ==> Total(items[..n + 1]) > budget)
    ensures n == Fits(items, budget)
  {
    FitsLongest(items, budget);
    var k := Fits(items, budget);
    if k < n { TotalGrows(items, k + 1, n); }
    if n < k { TotalGrows(items, n + 1, k); }
  }

  // --------------------------------------------------------------- ordered map

  /** A map that remembers the order in which its keys were created. */
  datatype OrderedMap = OrderedMap(order: seq<Key>, cookies: map<Key, Cookie>)

  function Without(order: seq<Key>, k: Key): (r: seq<Key>)
  {
    if order == [] then [] else (if order[0] == k then [] else [order[0]]) + Without(order[1..], k)
  }

  /** Replacement keeps the position, a new key goes to the end, and a full map takes no new key. */
  function Put(m: OrderedMap, max: nat, c: Cookie): (r: OrderedMap)
  {
    var k := Key(c.name, c.domain, c.path);
    if k in m.cookies then m.(cookies := m.cookies[k := c])
    else if |m.order| < max then OrderedMap(m.order + [k], m.cookies[k := c])
    else m
  }

  function Remove(m: OrderedMap, k: Key): (r: OrderedMap) { OrderedMap(Without(m.order, k), m.cookies - {k}) }

  /** Octets of a cookie value: visible, without quote, comma, semicolon and backslash. */
  ghost predicate ValueText(v: string) { forall i :: 0 <= i < |v| ==> '!' <= v[i] <= '~' && v[i] !in "\",;\\" }

  /** A token, and value octets that may stand between a pair of quotes. */
  ghost predicate PairAllowed(name: string, value: string)
  {
    && name != "" && (forall i :: 0 <= i < |name| ==> '!' <= name[i] <= '~' && name[i] !in "\"(),/:;<=>?@[\\]{}")
    && (ValueText(value) || exists inner: string :: value == "\"" + inner + "\"" && ValueText(inner))
  }

  ghost predicate PathAllowed(path: string)
  {
    path != "" && path[0] == '/' && forall i :: 0 <= i < |path| ==> ' ' <= path[i] <= '~' && path[i] != ';'
  }

  ghost predicate ScopeAllowed(lib: Library, domain: string)
  {
    lib.isDomainName(domain) && lib.hasRegistrable(domain) && forall front: string :: domain != front + "."
  }

  ghost predicate PrefixAllowed(name: string, secure: bool, hostOnly: bool, rootPath: bool)
  {
    && (forall rest: string :: name == "__Secure-" + rest ==> secure)
    && (forall rest: string :: name == "__Host-" + rest ==> secure && hostOnly && rootPath)
  }

  lemma StartsExactly(name: string, prefix: string)
    ensures prefix <= name <==> exists rest: string :: name == prefix + rest
  {
    if prefix <= name { assert name == prefix + name[|prefix|..]; }
  }

  lemma ValueExactly(value: string)
    ensures (forall i :: 0 <= i < |Unquoted(value)| ==> ValueByte(Unquoted(value)[i])) <==>
            ValueText(value) || exists inner: string :: value == "\"" + inner + "\"" && ValueText(inner)
  {
    var v := Unquoted(value);
    if v != value { assert value == "\"" + v + "\"" && value[0] == '"'; }
    if inner: string :| value == "\"" + inner + "\"" && ValueText(inner) {
      assert value[1..|value| - 1] == inner;
    }
  }

  lemma ValidatorsExactly(lib: Library, name: string, value: string, domain: string, path: string, secure: bool,
                          hostOnly: bool, rootPath: bool)
    ensures ValidPair(name, value) <==> PairAllowed(name, value)
    ensures ValidPath(path) <==> PathAllowed(path)
    ensures ValidDomainScope(lib, domain) <==> ScopeAllowed(lib, domain)
    ensures ValidPrefix(name, secure, hostOnly, rootPath) <==> PrefixAllowed(name, secure, hostOnly, rootPath)
  {
    ValueExactly(value);
    StartsExactly(name, "__Secure-");
    StartsExactly(name, "__Host-");
    if EndsWith(domain, '.') { assert domain == domain[..|domain| - 1] + "."; }
  }

  /** Which headers the jar accepts, in terms of the header, the URL and the limits. */
  ghost predicate Admits(limits: Limits, lib: Library, url: Url, item: Item)
  {
    && 0 < item.size <= limits.maxCookieBytes && item.parsed.Some? && item.parsed.value.derived.Some?
    && var raw := item.parsed.value;
       var d := raw.derived.value;
       && PairAllowed(raw.name, raw.value)
       && (raw.secure ==> url.scheme == Https)
       && (raw.sameSite == Some(Unrestricted) ==> raw.secure)
       && PrefixAllowed(raw.name, raw.secure, raw.domainAbsent, raw.rootPath)
       && d.kind != Unsupported && (d.kind.Suffix? ==> ScopeAllowed(lib, d.kind.domain)) && PathAllowed(d.path)
       && |raw.name| + 1 + |raw.value| <= limits.maxCookieBytes && |d.kind.domain| <= 253
       && |d.path| <= limits.maxCookieBytes
  }

  /** The cookie an accepted header stands for. */
  function EntryOf(raw: Raw): (c: Cookie)
    requires raw.derived.Some? && !raw.derived.value.kind.Unsupported?
  {
    var d := raw.derived.value;
    Cookie(raw.name, raw.value, d.kind.domain, d.kind == HostOnly(d.kind.domain), d.path, raw.secure, raw.httpOnly,
           raw.sameSite, d.expires)
  }

  /** A secure cookie of the same name whose scope the entry reaches into. */
  ghost predicate Guards(old_: Cookie, entry: Cookie)
  {
    && old_.secure && old_.name == entry.name
    && (Under(old_.domain, entry.domain) || Under(entry.domain, old_.domain)) && Below(entry.path, old_.path)
  }

  ghost predicate BlockedIn(m: OrderedMap, url: Url, entry: Cookie)
  {
    url.scheme != Https && exists k :: k in m.cookies && Guards(m.cookies[k], entry)
  }

  ghost function StoreIn(m: OrderedMap, limits: Limits, lib: Library, url: Url, item: Item): (r: OrderedMap)
  {
    if !Admits(limits, lib, url, item) then m
    else
      var c := EntryOf(item.parsed.value);
      if BlockedIn(m, url, c) then m
      else if c.expires.Some? && c.expires.value <= item.now then Remove(m, Key(c.name, c.domain, c.path))
      else Put(m, limits.maxCookies, c)
  }

  /** Storing a list of headers one after the other, without any budget. */
  ghost function StoreAll(m: OrderedMap, limits: Limits, lib: Library, url: Url, items: seq<Item>): (r: OrderedMap)
    decreases |items|
  {
    if items == [] then m
    else
      var n := |items| - 1;
      StoreIn(StoreAll(m, limits, lib, url, items[..n]), limits, lib, url, items[n])
  }

  function Keys(es: seq<Cookie>): (r: seq<Key>) { seq(|es|, i requires 0 <= i < |es| => KeyOf(es[i])) }

  function Contents(es: seq<Cookie>): (r: map<Key, Cookie>)
  {
    map k | k in Keys(es) && Find(es, k) < |es| :: es[Find(es, k)]
  }

  function Abs(es: seq<Cookie>): (m: OrderedMap) { OrderedMap(Keys(es), Contents(es)) }

  lemma ContentsAt(es: seq<Cookie>, k: Key)
    ensures k in Contents(es) <==> exists i :: 0 <= i < |es| && KeyOf(es[i]) == k
    ensures Unique(es) ==>
              forall i :: 0 <= i < |es| && KeyOf(es[i]) == k ==> k in Contents(es) && Contents(es)[k] == es[i]
  {
    if i :| 0 <= i < |es| && KeyOf(es[i]) == k {
      assert Keys(es)[i] == k;
    }
    if k in Contents(es) { assert KeyOf(es[Find(es, k)]) == k; }
  }

  lemma ContentsGet(es: seq<Cookie>, i: nat)
    requires Unique(es) && i < |es|
    ensures KeyOf(es[i]) in Contents(es) && Contents(es)[KeyOf(es[i])] == es[i]
  {
    ContentsAt(es, KeyOf(es[i]));
  }

  /** Where a key of the contents sits in the vector. */
  lemma IndexOf(es: seq<Cookie>, k: Key) returns (i: nat)
    requires k in Contents(es)
    ensures i < |es| && KeyOf(es[i]) == k
  {
    i := Find(es, k);
  }

  lemma BlockedRefines(es: seq<Cookie>, url: Url, entry: Cookie)
    requires Unique(es)
    ensures Blocked(es, url, entry) <==> BlockedIn(Abs(es), url, entry)
  {
    if i :| 0 <= i < |es| && Overlaps(es[i], entry) {
      OverlapsExactly(es[i], entry);
      ContentsAt(es, KeyOf(es[i]));
      assert Guards(Contents(es)[KeyOf(es[i])], entry);
    }
    if k :| k in Contents(es) && Guards(Contents(es)[k], entry) {
      OverlapsExactly(es[Find(es, k)], entry);
    }
  }

  lemma OverlapsExactly(old_: Cookie, entry: Cookie)
    ensures Overlaps(old_, entry) <==> Guards(old_, entry)
  {
    DomainMatchesExactly(old_.domain, entry.domain);
    DomainMatchesExactly(entry.domain, old_.domain);
    PathMatchesExactly(entry.path, old_.path);
  }

  /** The checks on a header accept exactly the admissible ones, and yield the cookie each stands for. */
  lemma CandidateExactly(limits: Limits, lib: Library, url: Url, item: Item)
    ensures Candidate(limits, lib, url, item)
         == if Admits(limits, lib, url, item) then Some(EntryOf(item.parsed.value)) else None
  {
    if item.parsed.Some? && item.parsed.value.derived.Some? {
      var raw := item.parsed.value;
      var d := raw.derived.value;
      var domain := if d.kind.Unsupported? then "" else d.kind.domain;
      ValidatorsExactly(lib, raw.name, raw.value, domain, d.path, raw.secure, raw.domainAbsent, raw.rootPath);
    }
  }

  lemma {:induction false} WithoutCut(order: seq<Key>, i: nat)
    requires i < |order| && forall j :: 0 <= j < |order| && j != i ==> order[j] != order[i]
    ensures Without(order, order[i]) == order[..i] + order[i + 1..]
  {
    if i == 0 {
      WithoutAbsent(order[1..], order[0]);
    } else {
      WithoutCut(order[1..], i - 1);
      assert order[..i] + order[i + 1..] == [order[0]] + (order[1..][..i - 1] + order[1..][i..]);
    }
  }

  lemma {:induction false} WithoutAbsent(order: seq<Key>, k: Key)
    requires k !in order
    ensures Without(order, k) == order
  {
    if order != [] { WithoutAbsent(order[1..], k); }
  }

  /** Contents of two jars agree once they hold the same cookies under unique keys. */
  lemma ContentsEqual(es: seq<Cookie>, m: map<Key, Cookie>)
    requires Unique(es)
    requires forall i :: 0 <= i < |es| ==> KeyOf(es[i]) in m && m[KeyOf(es[i])] == es[i]
    requires forall k :: k in m ==> exists i :: 0 <= i < |es| && KeyOf(es[i]) == k
    ensures Contents(es) == m
  {
    forall k ensures k in Contents(es) <==> k in m { ContentsAt(es, k); }
    forall k | k in m ensures Contents(es)[k] == m[k] { ContentsAt(es, k); }
  }

  function Cut<T>(s: seq<T>, i: nat): (r: seq<T>)
    requires i < |s|
    ensures |r| == |s| - 1
    ensures forall j :: 0 <= j < |r| ==> r[j] == if j < i then s[j] else s[j + 1]
  {
    s[..i] + s[i + 1..]
  }

  lemma CutUnique(es: seq<Cookie>, i: nat)
    requires Unique(es) && i < |es|
    ensures Unique(Cut(es, i))
  {
    var rest := Cut(es, i);
    forall j, k | 0 <= j < k < |rest| ensures KeyOf(rest[j]) != KeyOf(rest[k]) {
      var j', k' := if j < i then j else j + 1, if k < i then k else k + 1;
      assert KeyOf(es[j']) != KeyOf(es[k']);
    }
  }

  lemma CutHolds(es: seq<Cookie>, i: nat, j: nat)
    requires Unique(es) && i < |es| && j < |es| - 1
    ensures var c := Cut(es, i)[j]; KeyOf(c) in Contents(es) - {KeyOf(es[i])} && Contents(es)[KeyOf(c)] == c
  {
    var was := if j < i then j else j + 1;
    assert KeyOf(es[was]) != KeyOf(es[i]) && Cut(es, i)[j] == es[was];
    ContentsGet(es, was);
  }

  lemma CutReaches(es: seq<Cookie>, i: nat, was: nat)
    requires i < |es| && was < |es| && was != i
    ensures exists j :: 0 <= j < |Cut(es, i)| && KeyOf(Cut(es, i)[j]) == KeyOf(es[was])
  {
    assert KeyOf(Cut(es, i)[if was < i then was else was - 1]) == KeyOf(es[was]);
  }

  lemma CutContents(es: seq<Cookie>, i: nat)
    requires Unique(es) && i < |es|
    ensures Contents(Cut(es, i)) == Contents(es) - {KeyOf(es[i])}
  {
    var rest, m := Cut(es, i), Contents(es) - {KeyOf(es[i])};
    CutUnique(es, i);
    forall j | 0 <= j < |rest| ensures KeyOf(rest[j]) in m && m[KeyOf(rest[j])] == rest[j] { CutHolds(es, i, j); }
    forall q | q in m ensures exists j :: 0 <= j < |rest| && KeyOf(rest[j]) == q {
      var was := IndexOf(es, q);
      CutReaches(es, i, was);
    }
    ContentsEqual(rest, m);
  }

  lemma KeysCut(es: seq<Cookie>, i: nat)
    requires Unique(es) && i < |es|
    ensures Keys(Cut(es, i)) == Without(Keys(es), KeyOf(es[i]))
  {
    var keys := Keys(es);
    assert forall j :: 0 <= j < |keys| && j != i ==> keys[j] != keys[i];
    WithoutCut(keys, i);
    assert Keys(Cut(es, i)) == Cut(keys, i);
  }

  lemma DeleteRefines(es: seq<Cookie>, i: nat)
    requires Unique(es) && i < |es|
    ensures Abs(Cut(es, i)) == Remove(Abs(es), KeyOf(es[i]))
  {
    CutContents(es, i);
    KeysCut(es, i);
  }

  lemma ReplaceRefines(es: seq<Cookie>, i: nat, c: Cookie)
    requires Unique(es) && i < |es| && KeyOf(c) == KeyOf(es[i])
    ensures Abs(es[i := c]) == OrderedMap(Keys(es), Contents(es)[KeyOf(c) := c])
  {
    var after, m := es[i := c], Contents(es)[KeyOf(c) := c];
    assert Keys(after) == Keys(es);
    forall j | 0 <= j < |after| ensures KeyOf(after[j]) in m && m[KeyOf(after[j])] == after[j] {
      ContentsAt(es, KeyOf(es[j]));
    }
    forall q | q in m ensures exists j :: 0 <= j < |after| && KeyOf(after[j]) == q {
      if q == KeyOf(c) {
        assert KeyOf(after[i]) == q;
      } else {
        var j := IndexOf(es, q);
        assert KeyOf(after[j]) == q;
      }
    }
    ContentsEqual(after, m);
  }

  lemma AppendHolds(es: seq<Cookie>, c: Cookie, j: nat)
    requires Unique(es) && KeyOf(c) !in Contents(es) && j <= |es|
    ensures var m := Contents(es)[KeyOf(c) := c]; var d := (es + [c])[j]; KeyOf(d) in m && m[KeyOf(d)] == d
  {
    if j < |es| { ContentsAt(es, KeyOf(es[j])); }
  }

  lemma AppendReaches(es: seq<Cookie>, c: Cookie, q: Key)
    requires q in Contents(es) || q == KeyOf(c)
    ensures exists j :: 0 <= j < |es + [c]| && KeyOf((es + [c])[j]) == q
  {
    if q == KeyOf(c) {
      assert (es + [c])[|es|] == c;
    } else {
      var j := IndexOf(es, q);
      assert (es + [c])[j] == es[j];
    }
  }

  lemma AppendRefines(es: seq<Cookie>, c: Cookie)
    requires Unique(es) && Unique(es + [c]) && KeyOf(c) !in Contents(es)
    ensures Abs(es + [c]) == OrderedMap(Keys(es) + [KeyOf(c)], Contents(es)[KeyOf(c) := c])
  {
    var after, m := es + [c], Contents(es)[KeyOf(c) := c];
    assert Keys(after) == Keys(es) + [KeyOf(c)];
    forall j | 0 <= j < |after| ensures KeyOf(after[j]) in m && m[KeyOf(after[j])] == after[j] {
      AppendHolds(es, c, j);
    }
    forall q | q in m ensures exists j :: 0 <= j < |after| && KeyOf(after[j]) == q { AppendReaches(es, c, q); }
    ContentsEqual(after, m);
  }

  lemma UpsertRefines(es: seq<Cookie>, max: nat, c: Cookie, now: int)
    requires Unique(es)
    ensures Abs(Upsert(es, max, c, now)) == if Expired(c, now) then Remove(Abs(es), KeyOf(c)) else Put(Abs(es), max, c)
  {
    var k := KeyOf(c);
    var i := Find(es, k);
    ContentsAt(es, k);
    if i < |es| {
      if Expired(c, now) { DeleteRefines(es, i); } else { ReplaceRefines(es, i, c); }
    } else {
      assert k !in Keys(es);
      WithoutAbsent(Keys(es), k);
      assert Contents(es) - {k} == Contents(es);
      if |es| < max {
        UpsertUnique(es, max, c, now);
        if !Expired(c, now) { AppendRefines(es, c); }
      }
    }
  }

  lemma StoreRefines(es: seq<Cookie>, limits: Limits, lib: Library, url: Url, item: Item)
    requires Unique(es)
    ensures Unique(StoreItem(es, limits, lib, url, item))
    ensures Abs(StoreItem(es, limits, lib, url, item)) == StoreIn(Abs(es), limits, lib, url, item)
  {
    var entry := Candidate(limits, lib, url, item);
    CandidateExactly(limits, lib, url, item);
    if entry.Some? {
      BlockedRefines(es, url, entry.value);
      UpsertUnique(es, limits.maxCookies, entry.value, item.now);
      UpsertRefines(es, limits.maxCookies, entry.value, item.now);
    }
  }

  lemma {:induction false} StoreItemsRefines(es: seq<Cookie>, limits: Limits, lib: Library, url: Url, items: seq<Item>)
    requires Unique(es)
    ensures Unique(StoreItems(es, limits, lib, url, items))
    ensures Abs(StoreItems(es, limits, lib, url, items)) == StoreAll(Abs(es), limits, lib, url, items)
    decreases |items|
  {
    if items != [] {
      var n := |items| - 1;
      StoreItemsRefines(es, limits, lib, url, items[..n]);
      StoreRefines(StoreItems(es, limits, lib, url, items[..n]), limits, lib, url, items[n]);
    }
  }

  // ------------------------------------------------------------ whole sequences

  predicate LiveIn(cookies: map<Key, Cookie>, k: Key, now: int)
  {
    k in cookies && (cookies[k].expires.Some? ==> now < cookies[k].expires.value)
  }

  function Live(cookies: map<Key, Cookie>, now: int): (r: map<Key, Cookie>)
  {
    map k | k in cookies && LiveIn(cookies, k, now) :: cookies[k]
  }

  function Kept(order: seq<Key>, cookies: map<Key, Cookie>, now: int): (r: seq<Key>)
  {
    if order == [] then []
    else
      var last := order[|order| - 1];
      Kept(order[..|order| - 1], cookies, now) + (if LiveIn(cookies, last, now) then [last] else [])
  }

  /** Expiry on the map: the live keys keep their order, and each keeps its cookie. */
  function PruneIn(m: OrderedMap, now: int): (r: OrderedMap)
  {
    OrderedMap(Kept(m.order, m.cookies, now), Live(m.cookies, now))
  }

  /** A response on the map: expiry, then the longest prefix of headers within the byte budget, one after the other. */
  ghost function RespondIn(m: OrderedMap, limits: Limits, lib: Library, r: Response): (n: OrderedMap)
  {
    if !HttpUrl(r.url) then PruneIn(m, r.now)
    else StoreAll(PruneIn(m, r.now), limits, lib, r.url, r.items[..Fits(r.items, limits.maxSetCookieBytes)])
  }

  ghost function MapAfter(m: OrderedMap, limits: Limits, lib: Library, rs: seq<Response>): (n: OrderedMap)
  {
    if rs == [] then m else RespondIn(MapAfter(m, limits, lib, rs[..|rs| - 1]), limits, lib, rs[|rs| - 1])
  }

  lemma {:induction false} KeysPruned(es: seq<Cookie>, cookies: map<Key, Cookie>, now: int)
    requires forall i :: 0 <= i < |es| ==> KeyOf(es[i]) in cookies && cookies[KeyOf(es[i])] == es[i]
    ensures Keys(Prune(es, now)) == Kept(Keys(es), cookies, now)
  {
    if es != [] {
      var n := |es| - 1;
      KeysPruned(es[..n], cookies, now);
      assert Keys(es)[..n] == Keys(es[..n]) && Keys(es)[n] == KeyOf(es[n]);
    }
  }

  lemma PrunedHolds(es: seq<Cookie>, now: int, k: Key)
    requires Unique(es) && Unique(Prune(es, now)) && k in Contents(Prune(es, now))
    ensures LiveIn(Contents(es), k, now) && Contents(es)[k] == Contents(Prune(es, now))[k]
  {
    var pruned := Prune(es, now);
    var i := IndexOf(pruned, k);
    PruneMembers(es, now);
    assert pruned[i] in es && !Expired(pruned[i], now);
    var j :| 0 <= j < |es| && es[j] == pruned[i];
    ContentsAt(es, k);
    ContentsAt(pruned, k);
  }

  lemma PrunedReaches(es: seq<Cookie>, now: int, k: Key)
    requires Unique(es) && LiveIn(Contents(es), k, now)
    ensures k in Contents(Prune(es, now))
  {
    var pruned := Prune(es, now);
    var j := IndexOf(es, k);
    ContentsAt(es, k);
    PruneMembers(es, now);
    assert es[j] in pruned;
    ContentsAt(pruned, k);
  }

  lemma LiveIs(p: map<Key, Cookie>, q: map<Key, Cookie>, now: int)
    requires forall k :: k in p ==> LiveIn(q, k, now) && q[k] == p[k]
    requires forall k :: LiveIn(q, k, now) ==> k in p
    ensures p == Live(q, now)
  {
    forall k ensures k in p <==> k in Live(q, now) {
      if k in Live(q, now) { assert LiveIn(q, k, now); }
    }
  }

  lemma ContentsPruned(es: seq<Cookie>, now: int)
    requires Unique(es) && Unique(Prune(es, now))
    ensures Contents(Prune(es, now)) == Live(Contents(es), now)
  {
    var p, q := Contents(Prune(es, now)), Contents(es);
    forall k | k in p ensures LiveIn(q, k, now) && q[k] == p[k] { PrunedHolds(es, now, k); }
    forall k | LiveIn(q, k, now) ensures k in p { PrunedReaches(es, now, k); }
    LiveIs(p, q, now);
  }

  /** Pruning the vector is expiry on the map. */
  lemma PruneRefines(es: seq<Cookie>, now: int)
    requires Unique(es)
    ensures Unique(Prune(es, now)) && Abs(Prune(es, now)) == PruneIn(Abs(es), now)
  {
    PruneUnique(es, now);
    forall i | 0 <= i < |es| ensures KeyOf(es[i]) in Contents(es) && Contents(es)[KeyOf(es[i])] == es[i] {
      ContentsGet(es, i);
    }
    KeysPruned(es, Contents(es), now);
    ContentsPruned(es, now);
  }

  lemma ResponseRefines(es: seq<Cookie>, limits: Limits, lib: Library, r: Response)
    requires Unique(es)
    ensures var after := SetResponse(es, limits, lib, r.url, r.items, r.now);
            Unique(after) && Abs(after) == RespondIn(Abs(es), limits, lib, r)
  {
    PruneRefines(es, r.now);
    StoreItemsRefines(Prune(es, r.now), limits, lib, r.url, r.items[..Fits(r.items, limits.maxSetCookieBytes)]);
  }

  /**
   Over any sequence of responses the vector refines the insertion-ordered map: the jar
   holds, in the same order, exactly what the map operations alone would leave.
   */
  lemma {:induction false} ResponsesRefine(es: seq<Cookie>, limits: Limits, lib: Library, rs: seq<Response>)
    requires Unique(es)
    ensures var after := AfterResponses(es, limits, lib, rs);
            Unique(after) && Abs(after) == MapAfter(Abs(es), limits, lib, rs)
  {
    if rs != [] {
      var front := rs[..|rs| - 1];
      ResponsesRefine(es, limits, lib, front);
      ResponseRefines(AfterResponses(es, limits, lib, front), limits, lib, rs[|rs| - 1]);
    }
  }

  // ---------------------------------------------------------- secure protection

  function SecureOnly(es: seq<Cookie>): (r: seq<Cookie>)
  {
    if es == [] then [] else (if es[0].secure then [es[0]] else []) + SecureOnly(es[1..])
  }

  lemma SecureFirst(c: Cookie, rest: seq<Cookie>)
    ensures SecureOnly([c] + rest) == (if c.secure then [c] else []) + SecureOnly(rest)
  {
    assert ([c] + rest)[1..] == rest;
  }

  lemma SecureConcatStep(c: Cookie, rest: seq<Cookie>, b: seq<Cookie>)
    requires SecureOnly(rest + b) == SecureOnly(rest) + SecureOnly(b)
    ensures SecureOnly([c] + rest + b) == SecureOnly([c] + rest) + SecureOnly(b)
  {
    var head := if c.secure then [c] else [];
    SecureFirst(c, rest);
    SecureFirst(c, rest + b);
    assert [c] + rest + b == [c] + (rest + b);
    assert head + (SecureOnly(rest) + SecureOnly(b)) == (head + SecureOnly(rest)) + SecureOnly(b);
  }

  lemma {:induction false} SecureConcat(a: seq<Cookie>, b: seq<Cookie>)
    ensures SecureOnly(a + b) == SecureOnly(a) + SecureOnly(b)
  {
    if a == [] {
      assert a + b == b;
    } else {
      SecureConcat(a[1..], b);
      SecureConcatStep(a[0], a[1..], b);
      assert a == [a[0]] + a[1..];
    }
  }

  /** Replacing or removing an entry that is not secure leaves the secure ones as they are. */
  lemma SecureCut(es: seq<Cookie>, i: nat, by_: seq<Cookie>)
    requires i < |es| && !es[i].secure && (by_ == [] || (|by_| == 1 && !by_[0].secure))
    ensures SecureOnly(es[..i] + by_ + es[i + 1..]) == SecureOnly(es)
  {
    assert es == es[..i] + [es[i]] + es[i + 1..];
    SecureConcat(es[..i] + [es[i]], es[i + 1..]);
    SecureConcat(es[..i], [es[i]]);
    SecureConcat(es[..i] + by_, es[i + 1..]);
    SecureConcat(es[..i], by_);
    assert SecureOnly([es[i]]) == [] && SecureOnly(by_) == [];
  }

  /** An insecure candidate that is not blocked never meets a secure cookie of its own key. */
  lemma NotBlockedNotSecure(es: seq<Cookie>, url: Url, entry: Cookie)
    requires !url.scheme.Https? && !Blocked(es, url, entry)
    ensures var i := Find(es, KeyOf(entry)); i < |es| ==> !es[i].secure
  {
    var i := Find(es, KeyOf(entry));
    if i < |es| { assert !Overlaps(es[i], entry); }
  }

  lemma SecureReplace(es: seq<Cookie>, i: nat, c: Cookie)
    requires i < |es| && !es[i].secure && !c.secure
    ensures SecureOnly(es[i := c]) == SecureOnly(es)
  {
    SecureCut(es, i, [c]);
    assert es[..i] + [c] + es[i + 1..] == es[i := c];
  }

  lemma SecureDelete(es: seq<Cookie>, i: nat)
    requires i < |es| && !es[i].secure
    ensures SecureOnly(es[..i] + es[i + 1..]) == SecureOnly(es)
  {
    SecureCut(es, i, []);
    assert es[..i] + [] + es[i + 1..] == es[..i] + es[i + 1..];
  }

  lemma SecureAppend(es: seq<Cookie>, c: Cookie)
    requires !c.secure
    ensures SecureOnly(es + [c]) == SecureOnly(es)
  {
    SecureConcat(es, [c]);
    assert SecureOnly([c]) == [];
  }

  lemma SecureUpsert(es: seq<Cookie>, i: nat, max: nat, c: Cookie, now: int)
    requires !c.secure && (i < |es| ==> !es[i].secure)
    ensures SecureOnly(UpsertAt(es, i, max, c, now)) == SecureOnly(es)
  {
    if i >= |es| {
      SecureAppend(es, c);
    } else if Expired(c, now) {
      SecureDelete(es, i);
    } else {
      SecureReplace(es, i, c);
    }
  }

  /** Headers from an insecure response never yield a secure cookie. */
  lemma CandidateInsecure(limits: Limits, lib: Library, url: Url, item: Item)
    requires !url.scheme.Https? && Candidate(limits, lib, url, item).Some?
    ensures !Candidate(limits, lib, url, item).value.secure
  {
  }

  lemma SecureUntouched(es: seq<Cookie>, limits: Limits, lib: Library, url: Url, item: Item)
    requires !url.scheme.Https?
    ensures SecureOnly(StoreItem(es, limits, lib, url, item)) == SecureOnly(es)
  {
    var entry := Candidate(limits, lib, url, item);
    if entry.Some? && !Blocked(es, url, entry.value) {
      CandidateInsecure(limits, lib, url, item);
      NotBlockedNotSecure(es, url, entry.value);
      SecureUpsert(es, Find(es, KeyOf(entry.value)), limits.maxCookies, entry.value, item.now);
    }
  }

  lemma {:induction false} SecureStoreItems(es: seq<Cookie>, limits: Limits, lib: Library, url: Url, items: seq<Item>)
    requires !url.scheme.Https?
    ensures SecureOnly(StoreItems(es, limits, lib, url, items)) == SecureOnly(es)
    decreases |items|
  {
    if items != [] {
      var n := |items| - 1;
      SecureStoreItems(es, limits, lib, url, items[..n]);
      SecureUntouched(StoreItems(es, limits, lib, url, items[..n]), limits, lib, url, items[n]);
    }
  }

  /**
   No response over plain HTTP, whatever its `Set-Cookie` list, adds, changes, removes or
   reorders a secure cookie: the jar's secure cookies are exactly the unexpired ones it had.
   */
  lemma InsecureResponseKeepsSecure(es: seq<Cookie>, limits: Limits, lib: Library, url: Url, items: seq<Item>, now: int)
    requires !url.scheme.Https?
    ensures SecureOnly(SetResponse(es, limits, lib, url, items, now)) == SecureOnly(Prune(es, now))
  {
    SecureStoreItems(Prune(es, now), limits, lib, url, items[..Fits(items, limits.maxSetCookieBytes)]);
  }
}
