/** The jar object, updated in place, and its versioned snapshots. */
module CookieJar {
  import opened Base
  import opened CookieScope
  import opened Cookies
  import opened CookieLaws
  import opened CookieHeader

  // ------------------------------------------------------------------ snapshots

  datatype SnapshotSameSite = SnapshotStrict | SnapshotLax | SnapshotNone

  function ExportSameSite(s: Option<SameSite>): (r: Option<SnapshotSameSite>)
  {
    match s
    case None => None
    case Some(Strict) => Some(SnapshotStrict)
    case Some(Lax) => Some(SnapshotLax)
    case Some(Unrestricted) => Some(SnapshotNone)
  }

  function ImportSameSite(s: Option<SnapshotSameSite>): (r: Option<SameSite>)
  {
    match s
    case None => None
    case Some(SnapshotStrict) => Some(Strict)
    case Some(SnapshotLax) => Some(Lax)
    case Some(SnapshotNone) => Some(Unrestricted)
  }

  datatype Record = Record(
    name: string,
    value: string,
    domain: string,
    hostOnly: bool,
    path: string,
    secure: bool,
    httpOnly: bool,
    sameSite: Option<SnapshotSameSite>,
    expires: int)

  datatype Snapshot = Snapshot(version: nat, cookies: seq<Record>)

  function ToRecord(c: Cookie): (r: Record)
    requires c.expires.Some?
  {
    Record(c.name, c.value, c.domain, c.hostOnly, c.path, c.secure, c.httpOnly, ExportSameSite(c.sameSite),
      c.expires.value)
  }

  function FromRecord(r: Record): (c: Cookie)
  {
    Cookie(r.name, r.value, r.domain, r.hostOnly, r.path, r.secure, r.httpOnly, ImportSameSite(r.sameSite),
      Some(r.expires))
  }

  function RecordKey(r: Record): (k: Key) { Key(r.name, r.domain, r.path) }

  predicate RecordValid(lib: Library, limit: nat, r: Record)
  {
    && FieldsOk(lib, limit, r.name, r.value, r.domain, r.hostOnly, r.path, r.secure)
    && (r.sameSite == Some(SnapshotNone) ==> r.secure)
    && TimestampOk(r.expires)
  }

  ghost predicate Validates(lib: Library, snap: Snapshot)
  {
    && snap.version == 1 && |snap.cookies| <= DEFAULT_LIMITS.maxCookies
    && (forall i :: 0 <= i < |snap.cookies| ==> RecordValid(lib, DEFAULT_LIMITS.maxCookieBytes, snap.cookies[i]))
    && (forall i, j :: 0 <= i < j < |snap.cookies| ==> RecordKey(snap.cookies[i]) != RecordKey(snap.cookies[j]))
  }

  function Persistent(es: seq<Cookie>): (r: seq<Cookie>)
  {
    if es == [] then [] else Persistent(es[..|es| - 1]) + (if es[|es| - 1].expires.Some? then [es[|es| - 1]] else [])
  }

  /** One record per persistent cookie, in order. */
  function Records(es: seq<Cookie>): (r: seq<Record>)
  {
    if es == [] then [] else Records(es[..|es| - 1]) + (if es[|es| - 1].expires.Some? then [ToRecord(es[|es| - 1])]
      else [])
  }

  function Restored(rs: seq<Record>): (r: seq<Cookie>) { seq(|rs|, i requires 0 <= i < |rs| => FromRecord(rs[i])) }

  lemma {:induction false} PersistentKeeps(es: seq<Cookie>)
    ensures forall c :: c in Persistent(es) <==> c in es && c.expires.Some?
    ensures |Persistent(es)| <= |es| && (Unique(es) ==> Unique(Persistent(es)))
    ensures forall i :: 0 <= i < |Persistent(es)| ==> Persistent(es)[i].expires.Some?
  {
    if es != [] {
      var n := |es| - 1;
      PersistentKeeps(es[..n]);
      assert es == es[..n] + [es[n]];
      if Unique(es) {
        forall j | 0 <= j < |Persistent(es[..n])| ensures KeyOf(Persistent(es[..n])[j]) != KeyOf(es[n]) {
          assert Persistent(es[..n])[j] in es[..n];
        }
      }
    }
  }

  lemma {:induction false} RecordsArePersistent(es: seq<Cookie>)
    ensures |Records(es)| == |Persistent(es)|
    ensures forall i :: 0 <= i < |Records(es)| ==>
              && Persistent(es)[i].expires.Some?
              && Records(es)[i] == ToRecord(Persistent(es)[i])
  {
    if es != [] { RecordsArePersistent(es[..|es| - 1]); }
  }

  /** The snapshot of a jar whose expired entries were just pruned. */
  function SnapshotOf(es: seq<Cookie>): (r: Snapshot) { Snapshot(1, Records(es)) }

  /** What a record says of its cookie. */
  lemma RecordSays(c: Cookie)
    requires c.expires.Some?
    ensures var r := ToRecord(c);
            && (r.name, r.value, r.domain, r.hostOnly) == (c.name, c.value, c.domain, c.hostOnly)
            && (r.path, r.secure, r.httpOnly, Some(r.expires)) == (c.path, c.secure, c.httpOnly, c.expires)
            && (r.sameSite == Some(SnapshotStrict) <==> c.sameSite == Some(Strict))
            && (r.sameSite == Some(SnapshotLax) <==> c.sameSite == Some(Lax))
            && (r.sameSite == None <==> c.sameSite == None)
  {
  }

  lemma RecordReadsBack(c: Cookie)
    requires c.expires.Some?
    ensures FromRecord(ToRecord(c)) == c
  {
  }

  lemma RecordOk(lib: Library, c: Cookie)
    requires StoredOk(lib, DEFAULT_LIMITS, c) && c.expires.Some?
    ensures RecordValid(lib, DEFAULT_LIMITS.maxCookieBytes, ToRecord(c))
  {
    var r := ToRecord(c);
    assert c.name == r.name && c.value == r.value && c.domain == r.domain && c.hostOnly == r.hostOnly;
    assert c.path == r.path && c.secure == r.secure && c.expires == Some(r.expires);
  }

  lemma RecordRestoresOk(lib: Library, r: Record)
    requires RecordValid(lib, DEFAULT_LIMITS.maxCookieBytes, r)
    ensures StoredOk(lib, DEFAULT_LIMITS, FromRecord(r))
  {
    var c := FromRecord(r);
    assert c.name == r.name && c.value == r.value && c.domain == r.domain && c.hostOnly == r.hostOnly;
    assert c.path == r.path && c.secure == r.secure && c.expires == Some(r.expires);
  }

  /** Every snapshot of a jar with default limits passes its own validator. */
  lemma SnapshotValidates(lib: Library, es: seq<Cookie>)
    requires JarOk(lib, DEFAULT_LIMITS, es)
    ensures Validates(lib, SnapshotOf(es))
  {
    PersistentKeeps(es);
    RecordsArePersistent(es);
    var ps := Persistent(es);
    forall i | 0 <= i < |ps| ensures RecordValid(lib, DEFAULT_LIMITS.maxCookieBytes, SnapshotOf(es).cookies[i]) {
      assert ps[i] in es;
      RecordOk(lib, ps[i]);
    }
  }

  /** Restoring yields exactly the persistent cookies, in the same order, with the same attributes. */
  lemma SnapshotRestores(es: seq<Cookie>)
    ensures Restored(SnapshotOf(es).cookies) == Persistent(es)
  {
    PersistentKeeps(es);
    RecordsArePersistent(es);
    var ps := Persistent(es);
    forall i | 0 <= i < |ps| ensures Restored(SnapshotOf(es).cookies)[i] == ps[i] { RecordReadsBack(ps[i]); }
  }

  /** Any snapshot that validates, wherever it came from, restores to a jar in good order. */
  lemma RestoredOk(lib: Library, snap: Snapshot)
    requires Validates(lib, snap)
    ensures JarOk(lib, DEFAULT_LIMITS, Restored(snap.cookies))
  {
    var es := Restored(snap.cookies);
    forall c | c in es ensures StoredOk(lib, DEFAULT_LIMITS, c) {
      var i :| 0 <= i < |es| && es[i] == c;
      RecordRestoresOk(lib, snap.cookies[i]);
    }
    forall i, j | 0 <= i < j < |es| ensures KeyOf(es[i]) != KeyOf(es[j]) {
      assert RecordKey(snap.cookies[i]) != RecordKey(snap.cookies[j]);
    }
  }

  lemma PruneBack(es: seq<Cookie>, c: Cookie, now: int)
    ensures Prune(es + [c], now) == if Expired(c, now) then Prune(es, now) else Prune(es, now) + [c]
  {
    assert (es + [c])[..|es|] == es;
    assert Prune(es, now) + [] == Prune(es, now);
  }

  /** The later of two readings of the wall clock, which may have been set back in between. */
  function Later(a: int, b: int): (r: int) { if a <= b then b else a }

  lemma PersistentIf(es: seq<Cookie>, c: Cookie, keep: bool)
    ensures Persistent(if keep then es + [c] else es) == if keep && c.expires.Some? then Persistent(es) + [c]
            else Persistent(es)
  {
    PersistentBack(es, c);
  }

  /** One step of the commutation, on sequences already pruned. */
  lemma CommuteStep(kept: seq<Cookie>, left: seq<Cookie>, keptNext: seq<Cookie>, leftNext: seq<Cookie>,
                    c: Cookie, saved: int, loaded: int)
    requires Prune(Persistent(kept), loaded) == Persistent(left)
    requires keptNext == (if Expired(c, saved) then kept else kept + [c])
    requires leftNext == (if Expired(c, Later(saved, loaded)) then left else left + [c])
    ensures Prune(Persistent(keptNext), loaded) == Persistent(leftNext)
  {
    PersistentIf(kept, c, !Expired(c, saved));
    PersistentIf(left, c, !Expired(c, Later(saved, loaded)));
    if c.expires.Some? && !Expired(c, saved) { PruneBack(Persistent(kept), c, loaded); }
  }

  /** Pruning and keeping only persistent cookies commute, and two prunings are one at the later time. */
  lemma {:induction false} PruneCommutes(es: seq<Cookie>, saved: int, loaded: int)
    ensures Prune(Persistent(Prune(es, saved)), loaded) == Persistent(Prune(es, Later(saved, loaded)))
  {
    if es != [] {
      var front, c, late := es[..|es| - 1], es[|es| - 1], Later(saved, loaded);
      PruneCommutes(front, saved, loaded);
      CommuteStep(Prune(front, saved), Prune(front, late), Prune(es, saved), Prune(es, late), c, saved, loaded);
    }
  }

  lemma PersistentLast(es: seq<Cookie>, c: Cookie)
    ensures Persistent(es + [c]) == Persistent(es) + IfPersistent(c)
  {
    assert (es + [c])[..|es|] == es;
  }

  lemma PersistentBack(es: seq<Cookie>, c: Cookie)
    ensures Persistent(es + [c]) == if c.expires.Some? then Persistent(es) + [c] else Persistent(es)
  {
    PersistentLast(es, c);
    assert Persistent(es) + [] == Persistent(es);
  }

  // ------------------------------------------------------- headers after a restore

  function IfPersistent(c: Cookie): (r: seq<Cookie>) { if c.expires.Some? then [c] else [] }

  lemma {:induction false} PersistentFront(c: Cookie, s: seq<Cookie>)
    ensures Persistent([c] + s) == IfPersistent(c) + Persistent(s)
  {
    if s == [] {
      PersistentLast([], c);
      assert [] + [c] == [c] + s;
      assert [] + IfPersistent(c) == IfPersistent(c) + [];
    } else {
      var front, last := s[..|s| - 1], s[|s| - 1];
      PersistentFront(c, front);
      PersistentLast([c] + front, last);
      assert [c] + s == ([c] + front) + [last];
      PersistentLast(front, last);
      assert s == front + [last];
    }
  }

  lemma SelectedFront(lib: Library, req: Request, c: Cookie, s: seq<Cookie>)
    ensures Selected(lib, req, [c] + s) == (if Eligible(lib, req, c) then [c] else []) + Selected(lib, req, s)
  {
    assert ([c] + s)[1..] == s;
    assert [] + Selected(lib, req, s) == Selected(lib, req, s);
  }

  lemma SelectedStep(lib: Library, req: Request, c: Cookie, kept: seq<Cookie>, chosen: seq<Cookie>)
    requires Selected(lib, req, kept) == Persistent(chosen)
    ensures Selected(lib, req, IfPersistent(c) + kept)
         == Persistent((if Eligible(lib, req, c) then [c] else []) + chosen)
  {
    SelectedFront(lib, req, c, kept);
    PersistentFront(c, chosen);
    assert [] + kept == kept && [] + chosen == chosen;
    assert [] + Selected(lib, req, kept) == Selected(lib, req, kept);
  }

  lemma {:induction false} SelectedPersistent(lib: Library, req: Request, es: seq<Cookie>)
    ensures Selected(lib, req, Persistent(es)) == Persistent(Selected(lib, req, es))
  {
    if es != [] {
      var c, rest := es[0], es[1..];
      SelectedPersistent(lib, req, rest);
      SelectedStep(lib, req, c, Persistent(rest), Selected(lib, req, rest));
      assert es == [c] + rest;
      PersistentFront(c, rest);
      SelectedFront(lib, req, c, rest);
    }
  }

  lemma OfLengthStep(c: Cookie, kept: seq<Cookie>, ties: seq<Cookie>, n: nat)
    requires OfLength(kept, n) == Persistent(ties)
    ensures OfLength(IfPersistent(c) + kept, n) == Persistent((if |c.path| == n then [c] else []) + ties)
  {
    OfLengthFirst(c, kept, n);
    PersistentFront(c, ties);
    assert [] + kept == kept && [] + ties == ties;
    assert [] + OfLength(kept, n) == OfLength(kept, n);
  }

  lemma {:induction false} OfLengthPersistent(s: seq<Cookie>, n: nat)
    ensures OfLength(Persistent(s), n) == Persistent(OfLength(s, n))
  {
    if s != [] {
      OfLengthPersistent(s[1..], n);
      OfLengthStep(s[0], Persistent(s[1..]), OfLength(s[1..], n), n);
      PersistentFront(s[0], s[1..]);
      assert s == [s[0]] + s[1..];
    }
  }

  lemma {:induction false} PersistentSubset(es: seq<Cookie>)
    ensures forall c :: c in Persistent(es) ==> c in es
  {
    if es != [] {
      PersistentSubset(es[..|es| - 1]);
      assert es == es[..|es| - 1] + [es[|es| - 1]];
    }
  }

  lemma DescendingStep(p: seq<Cookie>, last: Cookie)
    requires Descending(p) && forall c :: c in p ==> |c.path| >= |last.path|
    ensures Descending(p + IfPersistent(last))
  {
  }

  lemma DescendingFront(s: seq<Cookie>)
    requires s != [] && Descending(s)
    ensures Descending(s[..|s| - 1]) && forall c :: c in s[..|s| - 1] ==> |c.path| >= |s[|s| - 1].path|
  {
    var front := s[..|s| - 1];
    assert forall i :: 0 <= i < |front| ==> front[i] == s[i];
  }

  lemma {:induction false} DescendingPersistent(s: seq<Cookie>)
    requires Descending(s)
    ensures Descending(Persistent(s))
  {
    if s != [] {
      var front, last := s[..|s| - 1], s[|s| - 1];
      DescendingFront(s);
      DescendingPersistent(front);
      PersistentSubset(front);
      DescendingStep(Persistent(front), last);
      PersistentLast(front, last);
      assert s == front + [last];
    }
  }

  /** Sorting and keeping only persistent cookies commute. */
  lemma SortPersistent(s: seq<Cookie>)
    ensures SortByPath(Persistent(s)) == Persistent(SortByPath(s))
  {
    SortOk(s, 0);
    SortOk(Persistent(s), 0);
    DescendingPersistent(SortByPath(s));
    forall n: nat ensures OfLength(SortByPath(Persistent(s)), n) == OfLength(Persistent(SortByPath(s)), n) {
      SortOk(Persistent(s), n);
      SortOk(s, n);
      OfLengthPersistent(s, n);
      OfLengthPersistent(SortByPath(s), n);
    }
    DescendingUnique(SortByPath(Persistent(s)), Persistent(SortByPath(s)));
  }

  /**
   A snapshot taken at `saved` and restored at `loaded`, whichever reading is later,
   validates and holds exactly the persistent cookies unexpired at both.
   */
  lemma SnapshotKeeps(lib: Library, es: seq<Cookie>, saved: int, loaded: int)
    requires JarOk(lib, DEFAULT_LIMITS, es)
    ensures var snap := SnapshotOf(Prune(es, saved));
            var restored := Prune(Restored(snap.cookies), loaded);
            && Validates(lib, snap) && JarOk(lib, DEFAULT_LIMITS, restored)
            && restored == Persistent(Prune(es, Later(saved, loaded)))
  {
    PruneOk(es, DEFAULT_LIMITS, lib, saved);
    SnapshotValidates(lib, Prune(es, saved));
    SnapshotRestores(Prune(es, saved));
    PruneCommutes(es, saved, loaded);
    RestoredOk(lib, SnapshotOf(Prune(es, saved)));
    PruneOk(Restored(SnapshotOf(Prune(es, saved)).cookies), DEFAULT_LIMITS, lib, loaded);
  }

  /**
   After the round trip, any request sends, in the same order, exactly the persistent ones
   among the cookies the original jar would have sent.
   */
  lemma SnapshotRoundTrip(lib: Library, es: seq<Cookie>, saved: int, loaded: int, req: Request)
    requires JarOk(lib, DEFAULT_LIMITS, es)
    ensures SortByPath(Selected(lib, req, Prune(Restored(SnapshotOf(Prune(es, saved)).cookies), loaded)))
         == Persistent(SortByPath(Selected(lib, req, Prune(es, Later(saved, loaded)))))
  {
    var live := Prune(es, Later(saved, loaded));
    SnapshotKeeps(lib, es, saved, loaded);
    SelectedPersistent(lib, req, live);
    SortPersistent(Selected(lib, req, live));
  }

  // ------------------------------------------------------------- any use of a jar

  /**
   Everything that can happen to a default-limit jar; a reload replaces it by a restored one if
   the snapshot validates.
   */
  datatype Use =
    | Respond(response: Response)
    | Request(now: int)
    | Export(now: int)
    | Wipe
    | Reload(snap: Snapshot, now: int)

  ghost function AfterUse(es: seq<Cookie>, lib: Library, u: Use): (r: seq<Cookie>)
  {
    match u
    case Respond(r) => SetResponse(es, DEFAULT_LIMITS, lib, r.url, r.items, r.now)
    case Request(now) => Prune(es, now)
    case Export(now) => Prune(es, now)
    case Wipe => []
    case Reload(snap, now) => if Validates(lib, snap) then Prune(Restored(snap.cookies), now) else es
  }

  ghost function AfterUses(es: seq<Cookie>, lib: Library, us: seq<Use>): (r: seq<Cookie>)
  {
    if us == [] then es else AfterUse(AfterUses(es, lib, us[..|us| - 1]), lib, us[|us| - 1])
  }

  ghost predicate UsesOk(lib: Library, us: seq<Use>)
  {
    forall i :: 0 <= i < |us| && us[i].Respond? ==> ItemsOk(lib, us[i].response.items)
  }

  lemma UseOk(es: seq<Cookie>, lib: Library, u: Use)
    requires JarOk(lib, DEFAULT_LIMITS, es) && (u.Respond? ==> ItemsOk(lib, u.response.items))
    ensures JarOk(lib, DEFAULT_LIMITS, AfterUse(es, lib, u))
  {
    match u
    case Respond(r) => ResponseOk(es, DEFAULT_LIMITS, lib, r);
    case Request(now) => PruneOk(es, DEFAULT_LIMITS, lib, now);
    case Export(now) => PruneOk(es, DEFAULT_LIMITS, lib, now);
    case Wipe =>
    case Reload(snap, now) =>
      if Validates(lib, snap) {
        RestoredOk(lib, snap);
        PruneOk(Restored(snap.cookies), DEFAULT_LIMITS, lib, now);
      }
  }

  lemma {:induction false} UsesKeepJarOk(es: seq<Cookie>, lib: Library, us: seq<Use>)
    requires JarOk(lib, DEFAULT_LIMITS, es) && UsesOk(lib, us)
    ensures JarOk(lib, DEFAULT_LIMITS, AfterUses(es, lib, us))
  {
    if us != [] {
      var n := |us| - 1;
      assert forall i :: 0 <= i < n ==> us[..n][i] == us[i];
      UsesKeepJarOk(es, lib, us[..n]);
      UseOk(AfterUses(es, lib, us[..n]), lib, us[n]);
    }
  }

  /**
   However a jar is reached from an empty one, by responses, requests, exports, clears and
   reloads of snapshots from anywhere, it exports a snapshot that validates and restores to
   exactly its unexpired persistent cookies.
   */
  lemma ReachableSnapshots(lib: Library, us: seq<Use>, saved: int, loaded: int)
    requires UsesOk(lib, us)
    ensures var es := AfterUses([], lib, us);
            var snap := SnapshotOf(Prune(es, saved));
            Validates(lib, snap) && Prune(Restored(snap.cookies), loaded) == Persistent(Prune(es, Later(saved, loaded)))
  {
    UsesKeepJarOk([], lib, us);
    SnapshotKeeps(lib, AfterUses([], lib, us), saved, loaded);
  }

  /** Which records a snapshot may hold. */
  ghost predicate RecordAllowed(lib: Library, r: Record)
  {
    && |r.name| + 1 + |r.value| <= 16384 && |r.path| <= 16384 && 0 < |r.domain| <= 253 && lib.isCanonicalHost(r.domain)
    && PairAllowed(r.name, r.value) && PathAllowed(r.path) && (!r.hostOnly ==> ScopeAllowed(lib, r.domain))
    && PrefixAllowed(r.name, r.secure, r.hostOnly, r.path == "/")
    && (r.sameSite == Some(SnapshotNone) ==> r.secure) && -377705116800 <= r.expires <= 253402300799
  }

  /** A snapshot validates exactly if its version, size, records and keys are in order. */
  lemma ValidatesExactly(lib: Library, snap: Snapshot)
    ensures Validates(lib, snap) <==>
            && snap.version == 1 && |snap.cookies| <= 1024
            && (forall i :: 0 <= i < |snap.cookies| ==> RecordAllowed(lib, snap.cookies[i]))
            && forall i, j :: 0 <= i < j < |snap.cookies| ==>
                 var (r, q) := (snap.cookies[i], snap.cookies[j]);
                 r.name != q.name || r.domain != q.domain || r.path != q.path
  {
    forall i | 0 <= i < |snap.cookies|
      ensures RecordValid(lib, DEFAULT_LIMITS.maxCookieBytes, snap.cookies[i]) <==> RecordAllowed(lib, snap.cookies[i])
    {
      var r := snap.cookies[i];
      ValidatorsExactly(lib, r.name, r.value, r.domain, r.path, r.secure, r.hostOnly, r.path == "/");
    }
  }

  method ValidateSnapshot(lib: Library, snap: Snapshot) returns (ok: bool)
    ensures ok <==> Validates(lib, snap)
  {
    if snap.version != 1 || |snap.cookies| > DEFAULT_LIMITS.maxCookies {
      return false;
    }
    for index := 0 to |snap.cookies|
      invariant forall i :: 0 <= i < index ==> RecordValid(lib, DEFAULT_LIMITS.maxCookieBytes, snap.cookies[i])
      invariant forall i, j :: 0 <= i < j < index ==> RecordKey(snap.cookies[i]) != RecordKey(snap.cookies[j])
    {
      if !RecordValid(lib, DEFAULT_LIMITS.maxCookieBytes, snap.cookies[index]) {
        return false;
      }
      for other := 0 to index
        invariant forall i :: 0 <= i < other ==> RecordKey(snap.cookies[i]) != RecordKey(snap.cookies[index])
      {
        if RecordKey(snap.cookies[other]) == RecordKey(snap.cookies[index]) {
          return false;
        }
      }
    }
    ok := true;
  }

  // ------------------------------------------------------------------------ jar

  predicate ValidLimits(l: Limits)
  {
    l.maxCookies > 0 && l.maxCookieBytes > 0 && l.maxSetCookieBytes > 0 && l.maxHeaderBytes > 0
  }

  /** An empty jar, unless one of the limits is zero. */
  method WithLimits(limits: Limits) returns (jar: Jar?)
    ensures jar != null <==> ValidLimits(limits)
    ensures jar != null ==> fresh(jar) && jar.entries == [] && jar.limits == limits
  {
    if limits.maxCookies == 0 || limits.maxCookieBytes == 0 || limits.maxSetCookieBytes == 0
      || limits.maxHeaderBytes == 0 {
      return null;
    }
    jar := new Jar(limits, []);
  }

  /** A new jar with default limits; every record is validated before anything is built. */
  method FromSnapshot(lib: Library, snap: Snapshot, now: int) returns (jar: Jar?)
    ensures jar != null <==> Validates(lib, snap)
    ensures jar != null ==>
              fresh(jar) && jar.limits == DEFAULT_LIMITS && jar.entries == Prune(Restored(snap.cookies), now)
  {
    var ok := ValidateSnapshot(lib, snap);
    if !ok {
      return null;
    }
    var entries: seq<Cookie> := [];
    for i := 0 to |snap.cookies|
      invariant entries == Restored(snap.cookies[..i])
    {
      entries := entries + [FromRecord(snap.cookies[i])];
    }
    assert snap.cookies[..|snap.cookies|] == snap.cookies;
    jar := new Jar(DEFAULT_LIMITS, Prune(entries, now));
  }

  /** Some live cookie for the request has this name and value. */
  ghost predicate Carries(lib: Library, req: Request, es: seq<Cookie>, now: int, p: (string, string))
  {
    exists c :: c in es && (c.expires.Some? ==> now < c.expires.value) && SentTo(lib, req, c) && p == (c.name, c.value)
  }

  lemma HeaderCarries(lib: Library, limits: Limits, es: seq<Cookie>, req: Request, now: int)
    requires JarOk(lib, limits, es) && HttpUrl(req.url)
    ensures var r := HeaderFor(lib, limits, Prune(es, now), req);
            r.Header? ==> forall p :: p in ReadHeader(r.text) <==> Carries(lib, req, es, now, p)
  {
    var live := Prune(es, now);
    PruneOk(es, limits, lib, now);
    PruneMembers(es, now);
    HeaderIsExact(lib, limits, live, req, 0);
    var s := SortByPath(Selected(lib, req, live));
    forall p ensures p in PairsOf(s) <==> Carries(lib, req, es, now, p) {
      PairsExactly(s, p);
      if p in PairsOf(s) { var c :| c in s && p == (c.name, c.value); }
      if Carries(lib, req, es, now, p) {
        var c :| c in es && (c.expires.Some? ==> now < c.expires.value) && SentTo(lib, req, c)
                 && p == (c.name, c.value);
        assert c in s;
      }
    }
  }

  /** A response did to the jar what it does to the insertion-ordered map. */
  ghost predicate ActsLikeMap(es: seq<Cookie>, after: seq<Cookie>, limits: Limits, lib: Library, r: Response)
  {
    Unique(es) ==> Abs(after) == RespondIn(Abs(es), limits, lib, r)
  }

  lemma ResponseActsLikeMap(es: seq<Cookie>, limits: Limits, lib: Library, r: Response)
    ensures ActsLikeMap(es, SetResponse(es, limits, lib, r.url, r.items, r.now), limits, lib, r)
  {
    if Unique(es) { ResponseRefines(es, limits, lib, r); }
  }

  class Jar {
    var entries: seq<Cookie>
    const limits: Limits

    constructor (limits: Limits, entries: seq<Cookie>)
      ensures this.entries == entries && this.limits == limits
    {
      this.entries := entries;
      this.limits := limits;
    }

    method SetResponseCookies(lib: Library, url: Url, items: seq<Item>, now: int)
      modifies this
      ensures entries == SetResponse(old(entries), limits, lib, url, items, now)
      ensures ActsLikeMap(old(entries), entries, limits, lib, Response(url, items, now))
    {
      entries := Prune(entries, now);
      if HttpUrl(url) {
        StoreWithinBudget(lib, url, items);
      }
      ResponseActsLikeMap(old(entries), limits, lib, Response(url, items, now));
    }

    /** Stores headers one by one until the next would exceed the byte budget. */
    method StoreWithinBudget(lib: Library, url: Url, items: seq<Item>)
      modifies this
      ensures entries
           == StoreItems(old(entries), limits, lib, url, items[..Fits(items, limits.maxSetCookieBytes)])
    {
      var total, n := 0, 0;
      while n < |items| && total + items[n].size <= limits.maxSetCookieBytes
        invariant n <= |items| && total == Total(items[..n]) <= limits.maxSetCookieBytes
        invariant entries == StoreItems(old(entries), limits, lib, url, items[..n])
      {
        assert items[..n + 1][..n] == items[..n];
        total := total + items[n].size;
        entries := StoreItem(entries, limits, lib, url, items[n]);
        n := n + 1;
      }
      if n < |items| { assert items[..n + 1][..n] == items[..n]; }
      FitsUnique(items, limits.maxSetCookieBytes, n);
    }

    method CookiesForRequest(lib: Library, req: Request, now: int) returns (r: HeaderResult)
      modifies this
      ensures entries == Prune(old(entries), now)
      ensures r == HeaderFor(lib, limits, entries, req)
      ensures JarOk(lib, limits, old(entries)) && HttpUrl(req.url) && r.Header? ==>
                forall p :: p in ReadHeader(r.text) <==> Carries(lib, req, old(entries), now, p)
    {
      if JarOk(lib, limits, entries) && HttpUrl(req.url) { HeaderCarries(lib, limits, entries, req, now); }
      entries := Prune(entries, now);
      if !HttpUrl(req.url) {
        return NoHeader;
      }
      var matching := SortByPath(Selected(lib, req, entries));
      var header := "";
      for i := 0 to |matching|
        invariant entries == Prune(old(entries), now)
        invariant header == Render(matching[..i]) && |header| <= limits.maxHeaderBytes
      {
        var entry := matching[i];
        RenderNext(matching, i);
        RenderGrows(matching, i + 1);
        var separator := if header == "" then 0 else 2;
        var size := |header| + separator + |entry.name| + 1 + |entry.value|;
        if size > limits.maxHeaderBytes {
          return TooLarge;
        }
        header := (if separator != 0 then header + "; " else header) + Pair(entry);
      }
      assert matching[..|matching|] == matching;
      if header == "" {
        return NoHeader;
      }
      r := if HeaderText(header) then Header(header) else Unencodable;
    }

    method TakeSnapshot(now: int) returns (snap: Snapshot)
      modifies this
      ensures entries == Prune(old(entries), now) && snap == SnapshotOf(entries)
    {
      var state := Prune(entries, now);
      var cookies: seq<Record> := [];
      for i := 0 to |state|
        invariant cookies == Records(state[..i])
      {
        assert state[..i + 1][..i] == state[..i];
        if state[i].expires.Some? {
          cookies := cookies + [ToRecord(state[i])];
        }
      }
      assert state[..|state|] == state;
      entries := state;
      snap := Snapshot(1, cookies);
    }

    method Clear()
      modifies this
      ensures entries == []
    {
      entries := [];
    }
  }
}
