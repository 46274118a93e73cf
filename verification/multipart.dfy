/**
 The form builder and its printer. Random bytes for boundaries enter as
 parameters: `None` where the random source fails.
 */
module Multipart {
  import opened Base
  import opened TextBytes
  import opened MultipartWire
  import opened MultipartRoundTrip

  const MAX_ATTEMPTS: nat := 8

  datatype Error =
    | InvalidName
    | InvalidFilename
    | RandomFailed
    | BoundaryCollides
    | ControlCharacter
    | InvalidContentType

  /** A printed form: its body and its content type. */
  datatype Encoded = Encoded(body: seq<Byte>, contentType: seq<Byte>)

  predicate ValidName(s: string) { s != "" && Clean(s) }

  predicate ValidFilename(s: string) { ValidName(s) && '/' !in s && '\\' !in s }

  predicate ValidPart(p: Part)
  {
    ValidName(p.name) && (p.Binary? && p.filename.Some? ==> ValidFilename(p.filename.value))
  }

  // ---------------------------------------------------------------- boundaries

  function HexDigit(n: int): (r: Byte)
    requires 0 <= n < 16
  {
    if n < 10 then 48 + n else 87 + n
  }

  function Hex(bs: seq<Byte>): (r: seq<Byte>)
  {
    if bs == [] then [] else Hex(bs[..|bs| - 1]) + [HexDigit(bs[|bs| - 1] / 16), HexDigit(bs[|bs| - 1] % 16)]
  }

  function BoundaryOf(bs: seq<Byte>): (r: seq<Byte>) { Ascii("open-net-") + Hex(bs) }

  function Fallback(): (r: seq<Byte>) { Ascii("open-net-boundary-fallback") }

  predicate BoundaryByte(b: Byte) { b == 45 || 48 <= b <= 57 || 97 <= b <= 122 }

  /** Nonempty, of dashes, digits and lower-case letters only. */
  predicate GoodBoundary(b: seq<Byte>) { b != [] && forall i :: 0 <= i < |b| ==> BoundaryByte(b[i]) }

  lemma {:induction false} HexIsGood(bs: seq<Byte>)
    ensures |Hex(bs)| == 2 * |bs| && forall i :: 0 <= i < |Hex(bs)| ==> BoundaryByte(Hex(bs)[i])
  {
    if bs != [] { HexIsGood(bs[..|bs| - 1]); }
  }

  lemma BoundariesAreGood(bs: seq<Byte>)
    ensures GoodBoundary(BoundaryOf(bs))
  {
    HexIsGood(bs);
  }

  predicate BoundaryText(s: string) { s != "" && forall i :: 0 <= i < |s| ==> s[i] == '-' || 'a' <= s[i] <= 'z' }

  lemma GoodText(s: string)
    requires BoundaryText(s)
    ensures GoodBoundary(Ascii(s))
  {
  }

  lemma FallbackText()
    ensures BoundaryText("open-net-boundary-fallback")
  {
  }

  lemma FallbackIsGood()
    ensures GoodBoundary(Fallback())
  {
    FallbackText();
    GoodText("open-net-boundary-fallback");
  }

  lemma HexLast(a: seq<Byte>)
    requires a != []
    ensures var n := |a| - 1;
            |Hex(a)| == 2 * n + 2 && Hex(a)[..2 * n] == Hex(a[..n])
            && Hex(a)[2 * n] == HexDigit(a[n] / 16) && Hex(a)[2 * n + 1] == HexDigit(a[n] % 16)
  {
    HexIsGood(a[..|a| - 1]);
  }

  lemma DigitsTell(x: Byte, y: Byte)
    requires HexDigit(x / 16) == HexDigit(y / 16) && HexDigit(x % 16) == HexDigit(y % 16)
    ensures x == y
  {
  }

  lemma {:induction false} HexInjective(a: seq<Byte>, b: seq<Byte>)
    requires Hex(a) == Hex(b)
    ensures a == b
  {
    HexIsGood(a);
    HexIsGood(b);
    if a != [] {
      var n := |a| - 1;
      HexLast(a);
      HexLast(b);
      DigitsTell(a[n], b[n]);
      HexInjective(a[..n], b[..n]);
      assert a == a[..n] + [a[n]] && b == b[..n] + [b[n]];
    }
  }

  /** Different random bytes give different boundaries. */
  lemma BoundariesDiffer(a: seq<Byte>, b: seq<Byte>)
    requires BoundaryOf(a) == BoundaryOf(b)
    ensures a == b
  {
    assert BoundaryOf(a)[9..] == Hex(a) && BoundaryOf(b)[9..] == Hex(b);
    HexInjective(a, b);
  }

  lemma DigitIs(n: int)
    requires 0 <= n < 16
    ensures HexDigit(n) == "0123456789abcdef"[n] as int
  {
  }

  /** Byte `i` is written as its two lower-case hexadecimal digits, the high one first. */
  lemma {:induction false} HexAt(bs: seq<Byte>, i: nat)
    requires i < |bs|
    ensures |Hex(bs)| == 2 * |bs|
    ensures Hex(bs)[2 * i] == "0123456789abcdef"[bs[i] / 16] as int
    ensures Hex(bs)[2 * i + 1] == "0123456789abcdef"[bs[i] % 16] as int
  {
    HexLast(bs);
    DigitIs(bs[i] / 16);
    DigitIs(bs[i] % 16);
    if i < |bs| - 1 { HexAt(bs[..|bs| - 1], i); }
  }

  method MakeBoundary(bytes: seq<Byte>) returns (boundary: seq<Byte>)
    ensures boundary == BoundaryOf(bytes)
  {
    boundary := Ascii("open-net-");
    var i := 0;
    while i < |bytes|
      invariant i <= |bytes| && boundary == BoundaryOf(bytes[..i])
    {
      assert bytes[..i + 1][..i] == bytes[..i];
      boundary := boundary + [HexDigit(bytes[i] / 16), HexDigit(bytes[i] % 16)];
      i := i + 1;
    }
    assert bytes[..i] == bytes;
  }

  /** The first boundary, among the current one and the draws, that no part contains. */
  function Choose(parts: seq<Part>, b: seq<Byte>, draws: seq<Option<seq<Byte>>>): (r: Result<seq<Byte>, Error>)
    ensures r.Err? ==> r.error == RandomFailed || r.error == BoundaryCollides
    decreases |draws|
  {
    if !Collides(parts, b) then Ok(b)
    else if draws == [] then Err(BoundaryCollides)
    else if draws[0].None? then Err(RandomFailed)
    else Choose(parts, BoundaryOf(draws[0].value), draws[1..])
  }

  function Candidate(b: seq<Byte>, draws: seq<Option<seq<Byte>>>, k: nat): (r: Option<seq<Byte>>)
    requires k <= |draws|
  {
    if k == 0 then Some(b) else if draws[k - 1].None? then None else Some(BoundaryOf(draws[k - 1].value))
  }

  predicate Taken(parts: seq<Part>, b: seq<Byte>, draws: seq<Option<seq<Byte>>>, k: nat)
    requires k <= |draws|
  {
    Candidate(b, draws, k).Some? && Collides(parts, Candidate(b, draws, k).value)
  }

  lemma CandidateShifts(parts: seq<Part>, b: seq<Byte>, draws: seq<Option<seq<Byte>>>, k: nat)
    requires draws != [] && draws[0].Some? && k <= |draws[1..]|
    ensures Candidate(BoundaryOf(draws[0].value), draws[1..], k) == Candidate(b, draws, k + 1)
    ensures Taken(parts, BoundaryOf(draws[0].value), draws[1..], k) == Taken(parts, b, draws, k + 1)
  {
  }

  /** The choice is candidate `k`: every earlier one is taken, and it is free, failed, or the last. */
  lemma {:induction false} ChoiceIsFirst(parts: seq<Part>, b: seq<Byte>, draws: seq<Option<seq<Byte>>>) returns (k: nat)
    ensures k <= |draws| && (forall j :: 0 <= j < k ==> Taken(parts, b, draws, j))
    ensures (Taken(parts, b, draws, k) ==> k == |draws|)
    ensures Choose(parts, b, draws) == if Candidate(b, draws, k).None? then Err(RandomFailed)
                                       else if Taken(parts, b, draws, k) then Err(BoundaryCollides)
                                       else Ok(Candidate(b, draws, k).value)
    decreases |draws|
  {
    if !Collides(parts, b) || draws == [] {
      k := 0;
    } else if draws[0].None? {
      k := 1;
    } else {
      var n := ChoiceIsFirst(parts, BoundaryOf(draws[0].value), draws[1..]);
      k := n + 1;
      CandidateShifts(parts, b, draws, n);
      forall j | 0 <= j < k ensures Taken(parts, b, draws, j) {
        if j > 0 { CandidateShifts(parts, b, draws, j - 1); }
      }
    }
  }

  lemma {:induction false} ChoiceIsGood(parts: seq<Part>, b: seq<Byte>, draws: seq<Option<seq<Byte>>>)
    requires GoodBoundary(b) && Choose(parts, b, draws).Ok?
    ensures GoodBoundary(Choose(parts, b, draws).value) && !Collides(parts, Choose(parts, b, draws).value)
    decreases |draws|
  {
    if Collides(parts, b) {
      BoundariesAreGood(draws[0].value);
      ChoiceIsGood(parts, BoundaryOf(draws[0].value), draws[1..]);
    }
  }

  lemma {:induction false} ChoiceIsFree(parts: seq<Part>, b: seq<Byte>, draws: seq<Option<seq<Byte>>>)
    requires Choose(parts, b, draws).Ok?
    ensures !Collides(parts, Choose(parts, b, draws).value)
    decreases |draws|
  {
    if Collides(parts, b) { ChoiceIsFree(parts, BoundaryOf(draws[0].value), draws[1..]); }
  }

  // ------------------------------------------------------------------- printing

  lemma QuotedNext(out: seq<Byte>, value: string)
    requires value != ""
    ensures var escape := if value[0] == '\\' || value[0] == '"' then [BACKSLASH] else [];
            out + escape + EncodeChar(value[0]) + Quoted(value[1..]) == out + Quoted(value)
  {
  }

  method WriteQuoted(body: seq<Byte>, value: string) returns (out: seq<Byte>, ok: bool)
    ensures ok <==> Clean(value)
    ensures ok ==> out == body + Quoted(value)
  {
    out, ok := body, true;
    var i := 0;
    while i < |value|
      invariant i <= |value| && Clean(value[..i])
      invariant out + Quoted(value[i..]) == body + Quoted(value)
    {
      var c := value[i];
      if c == '\r' || c == '\n' || c == '\0' || IsControl(c) {
        ok := false;
        return;
      }
      QuotedNext(out, value[i..]);
      assert value[i..][1..] == value[i + 1..] && out + [] == out;
      if c == '\\' || c == '"' { out := out + [BACKSLASH]; }
      out := out + EncodeChar(c);
      i := i + 1;
    }
    assert value[..i] == value && value[i..] == "";
  }

  lemma Regroup(a: seq<Byte>, b: seq<Byte>, c: seq<Byte>)
    ensures a + b + c == a + (b + c)
  {
  }

  lemma RegroupLine(body: seq<Byte>, start: seq<Byte>, name: seq<Byte>, file: seq<Byte>, end: seq<Byte>)
    ensures body + start + name + file + end == body + (start + (name + file) + end)
  {
  }

  method WriteDisposition(l: Labels, body: seq<Byte>, name: string, filename: Option<string>)
    returns (out: seq<Byte>, ok: bool)
    ensures ok <==> Clean(name) && (filename.Some? ==> Clean(filename.value))
    ensures ok ==> out == body + (l.disposition + (Closed(name) + FilenameParameter(l, filename)) + CRLF)
  {
    out, ok := WriteQuoted(body + l.disposition, name);
    if !ok { return; }
    Regroup(body + l.disposition, Quoted(name), [QUOTE]);
    out := out + [QUOTE];
    ghost var named := out;
    if filename.Some? {
      out, ok := WriteQuoted(out + l.filename, filename.value);
      if !ok { return; }
      Regroup(named + l.filename, Quoted(filename.value), [QUOTE]);
      Regroup(named, l.filename, Closed(filename.value));
      out := out + [QUOTE];
    }
    assert out == named + FilenameParameter(l, filename);
    out := out + CRLF;
    RegroupLine(body, l.disposition, Closed(name), FilenameParameter(l, filename), CRLF);
  }

  lemma RegroupPart(start: seq<Byte>, line: seq<Byte>, kind: seq<Byte>, value: seq<Byte>)
    ensures start + (line + CRLF) + kind + BLANK + value == start + (line + CRLF + kind + BLANK + value)
  {
  }

  lemma PrintableNext(parts: seq<Part>, i: nat)
    requires i < |parts|
    ensures AllPrintable(parts[..i + 1]) <==> AllPrintable(parts[..i]) && Printable(parts[i])
    ensures !Printable(parts[i]) ==> !AllPrintable(parts)
  {
    assert parts[..i + 1][..i] == parts[..i];
    PrintableEach(parts);
  }

  /** One part as the printer writes it: the boundary line, the part, the line end. */
  function Chunk(b: seq<Byte>, piece: seq<Byte>): (r: seq<Byte>) { DASHES + b + CRLF + piece + CRLF }

  lemma RegroupDelimited(body: seq<Byte>, b: seq<Byte>, part: seq<Byte>)
    ensures body + DASHES + b + CRLF + part + CRLF == body + (DASHES + b + CRLF + part + CRLF)
  {
  }

  method WritePart(l: Labels, body: seq<Byte>, b: seq<Byte>, p: Part) returns (out: seq<Byte>, ok: bool)
    ensures ok <==> Printable(p)
    ensures ok ==> out == body + Chunk(b, PartBytes(l, p))
  {
    var start := body + DASHES + b + CRLF;
    match p {
      case Text(name, value) =>
        out, ok := WriteDisposition(l, start, name, None);
        if !ok { return; }
        out := out + l.text + BLANK + Utf8(value);
      case Binary(name, filename, value) =>
        out, ok := WriteDisposition(l, start, name, filename);
        if !ok { return; }
        out := out + l.binary + BLANK + value;
    }
    RegroupPart(start, DispositionLine(l, p), TypeLine(l, p), Value(p));
    out := out + CRLF;
    RegroupDelimited(body, b, PartBytes(l, p));
  }

  predicate AllPrintable(parts: seq<Part>)
  {
    parts == [] || (AllPrintable(parts[..|parts| - 1]) && Printable(parts[|parts| - 1]))
  }

  lemma {:induction false} PrintableEach(parts: seq<Part>)
    ensures AllPrintable(parts) <==> forall p :: p in parts ==> Printable(p)
  {
    if parts != [] {
      PrintableEach(parts[..|parts| - 1]);
      assert parts == parts[..|parts| - 1] + [parts[|parts| - 1]];
    }
  }

  function Chunks(pieces: seq<seq<Byte>>, b: seq<Byte>): (r: seq<Byte>)
  {
    if pieces == [] then [] else Chunks(pieces[..|pieces| - 1], b) + Chunk(b, pieces[|pieces| - 1])
  }

  lemma ChunksNext(pieces: seq<seq<Byte>>, b: seq<Byte>, i: nat)
    requires i < |pieces|
    ensures Chunks(pieces[..i + 1], b) == Chunks(pieces[..i], b) + Chunk(b, pieces[i])
  {
    assert pieces[..i + 1][..i] == pieces[..i];
  }

  lemma RegroupChunk(b: seq<Byte>, piece: seq<Byte>, tail: seq<Byte>)
    ensures DASHES + b + CRLF + piece + CRLF + (DASHES + b + tail)
         == DASHES + b + (CRLF + (piece + (CRLF + DASHES + b) + tail))
  {
  }

  lemma JoinStep(b: seq<Byte>, piece: seq<Byte>, rest: seq<seq<Byte>>)
    ensures Chunk(b, piece) + Joined(rest, b) == Joined([piece] + rest, b)
  {
    assert ([piece] + rest)[1..] == rest;
    RegroupChunk(b, piece, Tail(rest, b));
  }

  /** Chunks end to end are the front of the wire form. */
  lemma {:induction false} ChunksAreJoined(b: seq<Byte>, pieces: seq<seq<Byte>>, rest: seq<seq<Byte>>)
    ensures Chunks(pieces, b) + Joined(rest, b) == Joined(pieces + rest, b)
  {
    if pieces == [] {
      assert [] + rest == rest;
      assert [] + Joined(rest, b) == Joined(rest, b);
    } else {
      var front, last := pieces[..|pieces| - 1], pieces[|pieces| - 1];
      JoinStep(b, last, rest);
      ChunksAreJoined(b, front, [last] + rest);
      Regroup(Chunks(front, b), Chunk(b, last), Joined(rest, b));
      assert front + ([last] + rest) == pieces + rest;
    }
  }

  lemma JoinEnd(body: seq<Byte>, b: seq<Byte>, pieces: seq<seq<Byte>>)
    requires body == Chunks(pieces, b)
    ensures body + DASHES + b + DASHES + CRLF == Joined(pieces, b)
  {
    ChunksAreJoined(b, pieces, []);
    assert pieces + [] == pieces;
    assert body + DASHES + b + DASHES + CRLF == body + (DASHES + b + (DASHES + CRLF));
  }

  method WriteParts(l: Labels, parts: seq<Part>, b: seq<Byte>) returns (body: seq<Byte>, ok: bool)
    ensures ok <==> AllPrintable(parts)
    ensures ok ==> body == Chunks(Pieces(l, parts), b)
  {
    ghost var pieces := Pieces(l, parts);
    body, ok := [], true;
    var i := 0;
    while i < |parts|
      invariant i <= |parts| && body == Chunks(pieces[..i], b)
      invariant AllPrintable(parts[..i])
    {
      PrintableNext(parts, i);
      ChunksNext(pieces, b, i);
      PieceAt(l, parts, i);
      body, ok := WritePart(l, body, b, parts[i]);
      if !ok { return; }
      i := i + 1;
    }
    assert pieces[..i] == pieces && parts[..i] == parts;
  }

  method WriteForm(l: Labels, parts: seq<Part>, b: seq<Byte>) returns (body: seq<Byte>, ok: bool)
    ensures ok <==> AllPrintable(parts)
    ensures ok ==> body == Wire(l, parts, b)
  {
    body, ok := WriteParts(l, parts, b);
    if !ok { return; }
    JoinEnd(body, b, Pieces(l, parts));
    body := body + DASHES + b + DASHES + CRLF;
  }

  // ------------------------------------------------------------ the literal text

  /** A backslash before every quote and backslash. */
  function Escaped(s: string): (r: string)
  {
    if s == "" then "" else (if s[0] in "\\\"" then ['\\', s[0]] else [s[0]]) + Escaped(s[1..])
  }

  lemma {:induction false} QuotedIsEscaped(s: string)
    ensures Quoted(s) == Utf8(Escaped(s))
  {
    if s != "" {
      QuotedIsEscaped(s[1..]);
      EscapedFirst(s[0], Escaped(s[1..]));
    }
  }

  lemma Utf8First(c: char, rest: string)
    ensures Utf8([c] + rest) == EncodeChar(c) + Utf8(rest)
  {
    assert ([c] + rest)[1..] == rest;
  }

  lemma EscapedFirst(c: char, rest: string)
    ensures Utf8((if c in "\\\"" then ['\\', c] else [c]) + rest)
         == (if c == '\\' || c == '"' then [BACKSLASH] else []) + EncodeChar(c) + Utf8(rest)
  {
    Utf8First(c, rest);
    Utf8First('\\', [c] + rest);
    assert ['\\', c] + rest == ['\\'] + ([c] + rest);
    assert EncodeChar('\\') == [BACKSLASH];
    Regroup([BACKSLASH], EncodeChar(c), Utf8(rest));
  }

  /** The header lines of a part, as they are sent. */
  function PrintedHead(p: Part): (r: seq<Byte>)
  {
    var file := FilenameOf(p);
    Ascii("Content-Disposition: form-data; name=\"")
    + (Utf8(Escaped(p.name)) + Ascii("\"")
       + (if file.Some? then Ascii("; filename=\"") + (Utf8(Escaped(file.value)) + Ascii("\"")) else []))
    + Ascii("\r\n")
    + (if p.Text? then Ascii("Content-Type: text/plain; charset=utf-8")
       else Ascii("Content-Type: application/octet-stream"))
  }

  /** A form, as it is sent. */
  function Printed(parts: seq<Part>, b: seq<Byte>): (r: seq<Byte>)
  {
    if parts == [] then Ascii("--") + b + (Ascii("--") + Ascii("\r\n"))
    else Ascii("--") + b + Ascii("\r\n") + (PrintedHead(parts[0]) + Ascii("\r\n\r\n") + Value(parts[0]))
         + Ascii("\r\n") + Printed(parts[1..], b)
  }

  lemma Marks()
    ensures Ascii("\r\n") == CRLF && Ascii("\r\n\r\n") == BLANK && Ascii("--") == DASHES && Ascii("\"") == [QUOTE]
  {
  }

  lemma StandardHead(p: Part)
    ensures Head(StandardLabels(), p) == PrintedHead(p)
  {
    Marks();
    QuotedIsEscaped(p.name);
    if FilenameOf(p).Some? { QuotedIsEscaped(FilenameOf(p).value); }
  }

  /** With the standard labels the wire form is that text. */
  lemma {:induction false} StandardWire(parts: seq<Part>, b: seq<Byte>)
    ensures Wire(StandardLabels(), parts, b) == Printed(parts, b)
  {
    Marks();
    if parts != [] {
      StandardWire(parts[1..], b);
      StandardHead(parts[0]);
      var l := StandardLabels();
      assert Pieces(l, parts) == [PartBytes(l, parts[0])] + Pieces(l, parts[1..]);
      JoinStep(b, PartBytes(l, parts[0]), Pieces(l, parts[1..]));
    }
  }

  lemma GoodIsVisible(l: Labels, b: seq<Byte>)
    requires SoundLabels(l) && GoodBoundary(b)
    ensures HeaderBytes(l.form + b) && CR !in b && Plain(b)
  {
  }

  lemma VisibleHasNoCR(l: Labels, b: seq<Byte>)
    requires HeaderBytes(l.form + b)
    ensures CR !in b
  {
    forall i | 0 <= i < |b| ensures b[i] != CR { assert (l.form + b)[|l.form| + i] == b[i]; }
  }

  // --------------------------------------------------------------------- the form

  /** Nonempty, without the control characters below space, and from delete to the end of the C1 range. */
  predicate NameAllowed(s: string)
  {
    s != "" && forall i :: 0 <= i < |s| ==> 32 <= s[i] as int < 127 || 160 <= s[i] as int
  }

  /** A printed form: the literal text, and the content type that names its boundary. */
  predicate Sent(e: Encoded, parts: seq<Part>, b: seq<Byte>)
  {
    e.contentType == Ascii("multipart/form-data; boundary=") + b && e.body == Printed(parts, b)
  }

  class Form {
    const labels: Labels
    var boundary: seq<Byte>
    var parts: seq<Part>

    predicate Valid()
      reads this
    {
      && SoundLabels(labels) && labels == StandardLabels() && GoodBoundary(boundary)
      && forall i :: 0 <= i < |parts| ==> ValidPart(parts[i])
    }

    constructor (draw: Option<seq<Byte>>)
      ensures Valid() && parts == [] && labels == StandardLabels()
      ensures boundary == if draw.Some? then Ascii("open-net-") + Hex(draw.value)
                          else Ascii("open-net-boundary-fallback")
    {
      labels := StandardLabels();
      parts := [];
      if draw.Some? {
        var made := MakeBoundary(draw.value);
        boundary := made;
      } else {
        boundary := Fallback();
      }
      new;
      StandardLabelsAreSound();
      if draw.Some? { BoundariesAreGood(draw.value); } else { FallbackIsGood(); }
    }

    method AddText(name: string, value: string) returns (err: Option<Error>)
      requires Valid()
      modifies this`parts
      ensures Valid()
      ensures err == if NameAllowed(name) then None else Some(InvalidName)
      ensures parts == if err.None? then old(parts) + [Text(name, value)] else old(parts)
    {
      if !ValidName(name) { return Some(InvalidName); }
      parts := parts + [Text(name, value)];
      err := None;
    }

    method AddBytes(name: string, value: seq<Byte>) returns (err: Option<Error>)
      requires Valid()
      modifies this`parts
      ensures Valid()
      ensures err == if NameAllowed(name) then None else Some(InvalidName)
      ensures parts == if err.None? then old(parts) + [Binary(name, None, value)] else old(parts)
    {
      if !ValidName(name) { return Some(InvalidName); }
      parts := parts + [Binary(name, None, value)];
      err := None;
    }

    method AddFile(name: string, filename: string, value: seq<Byte>) returns (err: Option<Error>)
      requires Valid()
      modifies this`parts
      ensures Valid()
      ensures err == if !NameAllowed(name) then Some(InvalidName)
              else if !NameAllowed(filename) || '/' in filename || '\\' in filename then Some(InvalidFilename)
              else None
      ensures parts == if err.None? then old(parts) + [Binary(name, Some(filename), value)] else old(parts)
    {
      if !ValidName(name) { return Some(InvalidName); }
      if !ValidFilename(filename) { return Some(InvalidFilename); }
      parts := parts + [Binary(name, Some(filename), value)];
      err := None;
    }

    /** Keeps the boundary, or replaces it up to eight times, until no part contains it. */
    method ChooseBoundary(draws: seq<Option<seq<Byte>>>) returns (r: Result<seq<Byte>, Error>)
      requires |draws| == MAX_ATTEMPTS
      ensures r == Choose(parts, boundary, draws)
    {
      var b, attempts := boundary, 0;
      while Collides(parts, b) && attempts < MAX_ATTEMPTS
        invariant attempts <= MAX_ATTEMPTS && Choose(parts, b, draws[attempts..]) == Choose(parts, boundary, draws)
        decreases MAX_ATTEMPTS - attempts
      {
        assert draws[attempts..][1..] == draws[attempts + 1..];
        if draws[attempts].None? { return Err(RandomFailed); }
        b := MakeBoundary(draws[attempts].value);
        attempts := attempts + 1;
      }
      r := if Collides(parts, b) then Err(BoundaryCollides) else Ok(b);
    }

    /** Prints the form. Whatever is accepted, the decoder reads back as exactly these parts. */
    method Encode(draws: seq<Option<seq<Byte>>>) returns (r: Result<Encoded, Error>)
      requires |draws| == MAX_ATTEMPTS && boundary != [] && SoundLabels(labels)
      ensures var choice := Choose(parts, boundary, draws);
              r == if choice.Err? then Err(choice.error)
              else if !AllPrintable(parts) then Err(ControlCharacter)
              else if !HeaderBytes(labels.form + choice.value) then Err(InvalidContentType)
              else Ok(Encoded(Wire(labels, parts, choice.value), labels.form + choice.value))
      ensures r.Ok? ==> labels.form <= r.value.contentType
                        && Decode(labels, r.value.body, r.value.contentType[|labels.form|..]) == Some(parts)
      ensures Valid() ==> r != Err(ControlCharacter) && r != Err(InvalidContentType)
      ensures Valid() && r.Ok? ==> exists b :: Sent(r.value, parts, b)
    {
      var choice := ChooseBoundary(draws);
      if choice.Err? { return Err(choice.error); }
      var b := choice.value;
      assert Valid() ==> HeaderBytes(labels.form + b) && AllPrintable(parts) by {
        if Valid() {
          PrintableEach(parts);
          ChoiceIsGood(parts, boundary, draws);
          GoodIsVisible(labels, b);
        }
      }
      var body, ok := WriteForm(labels, parts, b);
      if !ok { return Err(ControlCharacter); }
      if !HeaderBytes(labels.form + b) { return Err(InvalidContentType); }
      ChoiceIsFree(parts, boundary, draws);
      VisibleHasNoCR(labels, b);
      PrintableEach(parts);
      RoundTrip(labels, parts, b);
      assert (labels.form + b)[|labels.form|..] == b;
      r := Ok(Encoded(body, labels.form + b));
      StandardWire(parts, b);
      assert labels == StandardLabels() ==> Sent(r.value, parts, b);
    }
  }
}
