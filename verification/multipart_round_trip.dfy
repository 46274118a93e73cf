/** The reference decoder returns exactly the parts that were printed. */
module MultipartRoundTrip {
  import opened Base
  import opened TextBytes
  import opened MultipartWire

  // -------------------------------------------------- header lines cannot be split

  predicate HeaderBytes(s: seq<Byte>) { forall i :: 0 <= i < |s| ==> HeaderCode(s[i]) }

  /** What the decoder needs of the fixed header text. */
  predicate SoundLabels(l: Labels)
  {
    && CR !in l.disposition && CR !in l.filename && CR !in l.text && CR !in l.binary
    && HeaderBytes(l.form) && |l.filename| > 0 && |l.text| > 0 && |l.binary| > 0
    && l.text[0] != DASH && l.binary[0] != DASH && l.text != l.binary
  }

  const DASH: Byte := 45

  predicate LabelText(s: string) { forall i :: 0 <= i < |s| ==> ' ' <= s[i] <= '~' }

  lemma LabelsAreSound(disposition: string, filename: string, text: string, binary: string, form: string)
    requires LabelText(disposition) && LabelText(filename) && LabelText(text) && LabelText(binary) && LabelText(form)
    requires |filename| > 0 && |text| > |binary| > 0 && text[0] != '-' && binary[0] != '-'
    ensures SoundLabels(LabelsOf(disposition, filename, text, binary, form))
  {
  }

  lemma DispositionText()
    ensures LabelText("Content-Disposition: form-data; name=\"")
  {
  }

  lemma TextType()
    ensures LabelText("Content-Type: text/plain; charset=utf-8")
  {
  }

  lemma BinaryType()
    ensures LabelText("Content-Type: application/octet-stream")
  {
  }

  lemma FormType()
    ensures LabelText("multipart/form-data; boundary=")
  {
  }

  lemma StandardLabelsAreSound()
    ensures SoundLabels(StandardLabels())
  {
    DispositionText();
    TextType();
    BinaryType();
    FormType();
    LabelsAreSound("Content-Disposition: form-data; name=\"", "; filename=\"",
                   "Content-Type: text/plain; charset=utf-8", "Content-Type: application/octet-stream",
                   "multipart/form-data; boundary=");
  }

  lemma {:induction false} QuotedHasNoCR(s: string)
    requires Clean(s)
    ensures CR !in Quoted(s)
  {
    if s != "" {
      assert !IsControl(s[0]);
      QuotedHasNoCR(s[1..]);
    }
  }

  /** A printed header line holds no carriage return, so no name can end it early. */
  lemma LinesHaveNoCR(l: Labels, p: Part)
    requires SoundLabels(l) && Printable(p)
    ensures CR !in DispositionLine(l, p) && CR !in TypeLine(l, p)
    ensures |TypeLine(l, p)| > 0 && TypeLine(l, p)[0] != DASH
  {
    QuotedHasNoCR(p.name);
    if FilenameOf(p).Some? { QuotedHasNoCR(FilenameOf(p).value); }
  }

  /** The only carriage return among the header lines is the one between them. */
  lemma HeadReturns(l: Labels, p: Part, j: nat)
    requires SoundLabels(l) && Printable(p) && j < |Head(l, p)|
    ensures Head(l, p)[j] == CR <==> j == |DispositionLine(l, p)|
  {
    LinesHaveNoCR(l, p);
    var d, t := DispositionLine(l, p), TypeLine(l, p);
    assert Head(l, p)[j] == if j < |d| then d[j] else if j < |d| + 2 then CRLF[j - |d|] else t[j - |d| - 2];
  }

  lemma BlankFirst(l: Labels, p: Part)
    requires SoundLabels(l) && Printable(p)
    ensures FindFrom(PartBytes(l, p), BLANK, 0) == Some(|Head(l, p)|)
  {
    LinesHaveNoCR(l, p);
    var s, h := PartBytes(l, p), Head(l, p);
    forall j | 0 <= j < |h| ensures !MatchAt(s, BLANK, j) {
      HeadReturns(l, p, j);
      assert s[j] == h[j];
      if j == |DispositionLine(l, p)| {
        assert s[j + 2] == TypeLine(l, p)[0];
        Mismatch(s, BLANK, j, 2);
      } else {
        Mismatch(s, BLANK, j, 0);
      }
    }
    assert s[|h|..|h| + 4] == BLANK;
    FoundFirst(s, BLANK, 0, |h|);
  }

  lemma LineFirst(l: Labels, p: Part)
    requires SoundLabels(l) && Printable(p)
    ensures FindFrom(Head(l, p), CRLF, 0) == Some(|DispositionLine(l, p)|)
  {
    var h, n := Head(l, p), |DispositionLine(l, p)|;
    forall j | 0 <= j < n ensures !MatchAt(h, CRLF, j) {
      HeadReturns(l, p, j);
      Mismatch(h, CRLF, j, 0);
    }
    assert h[n..n + 2] == CRLF;
    FoundFirst(h, CRLF, 0, n);
  }

  // ------------------------------------------- the delimiter ends the value exactly

  /** A delimiter holds one carriage return, its first byte, so no match runs across the real delimiter. */
  lemma NoStraddling(before: seq<Byte>, b: seq<Byte>, rest: seq<Byte>, j: nat)
    requires CR !in b && j < |before| < j + |Delimiter(b)|
    ensures !MatchAt(before + Delimiter(b) + rest, Delimiter(b), j)
  {
    var d, o := Delimiter(b), |before| - j;
    assert d[o] == if o < 4 then (CRLF + DASHES)[o] else b[o - 4];
    Mismatch(before + d + rest, d, j, o);
  }

  lemma NoMatchInHead(l: Labels, p: Part, s: seq<Byte>, b: seq<Byte>, j: nat)
    requires SoundLabels(l) && Printable(p) && Head(l, p) + BLANK <= s && j < |Head(l, p)| + 2
    ensures !MatchAt(s, Delimiter(b), j)
  {
    LinesHaveNoCR(l, p);
    var h, d := Head(l, p), Delimiter(b);
    assert s[j] == (h + BLANK)[j];
    if j < |h| {
      HeadReturns(l, p, j);
      if j == |DispositionLine(l, p)| {
        assert s[j + 2] == (h + BLANK)[j + 2] == TypeLine(l, p)[0];
        Mismatch(s, d, j, 2);
      } else {
        Mismatch(s, d, j, 0);
      }
    } else if j == |h| {
      assert s[j + 2] == (h + BLANK)[j + 2] == CR;
      Mismatch(s, d, j, 2);
    } else {
      Mismatch(s, d, j, 0);
    }
  }

  lemma NoMatchInValue(head: seq<Byte>, value: seq<Byte>, b: seq<Byte>, rest: seq<Byte>, j: nat)
    requires !Contains(value, b) && |head| <= j + 4 && j + 4 + |b| <= |head| + |value|
    ensures !MatchAt(head + value + rest, Delimiter(b), j)
  {
    assert !MatchAt(value, b, j + 4 - |head|);
    MatchInside(head, value, rest, b, j + 4);
    MatchSuffix(head + value + rest, CRLF + DASHES, b, j);
  }

  /** In a printed part, the first delimiter is the one after the value. */
  lemma DelimiterFirst(l: Labels, p: Part, b: seq<Byte>, rest: seq<Byte>)
    requires SoundLabels(l) && Printable(p) && CR !in b && !Contains(Value(p), b)
    ensures FindFrom(PartBytes(l, p) + Delimiter(b) + rest, Delimiter(b), 0) == Some(|PartBytes(l, p)|)
  {
    var head, v, d := Head(l, p) + BLANK, Value(p), Delimiter(b);
    var s, n := PartBytes(l, p) + d + rest, |PartBytes(l, p)|;
    assert s == head + v + (d + rest);
    forall j | 0 <= j < n ensures !MatchAt(s, d, j) {
      if j < |Head(l, p)| + 2 {
        NoMatchInHead(l, p, s, b, j);
      } else if n < j + |d| {
        NoStraddling(PartBytes(l, p), b, rest, j);
      } else {
        NoMatchInValue(head, v, b, d + rest, j);
      }
    }
    assert s[n..n + |d|] == d;
    FoundFirst(s, d, 0, n);
  }

  // ---------------------------------------------------------------- reading a part

  lemma NameAlone(l: Labels, s: seq<Byte>, name: seq<Byte>)
    requires Unquote(s) == Scanned(name, [])
    ensures ParseDisposition(l, l.disposition + s) == Some((name, None))
  {
    var line := l.disposition + s;
    assert line[0..|l.disposition|] == l.disposition && line[|l.disposition|..] == s;
  }

  lemma NameAndFile(l: Labels, s: seq<Byte>, name: seq<Byte>, t: seq<Byte>, file: seq<Byte>)
    requires l.filename != [] && Unquote(s) == Scanned(name, l.filename + t) && Unquote(t) == Scanned(file, [])
    ensures ParseDisposition(l, l.disposition + s) == Some((name, Some(file)))
  {
    var line, after := l.disposition + s, l.filename + t;
    assert line[0..|l.disposition|] == l.disposition && line[|l.disposition|..] == s;
    assert after[0..|l.filename|] == l.filename && after[|l.filename|..] == t;
  }

  lemma DispositionReadsBack(l: Labels, p: Part)
    requires l.filename != []
    ensures ParseDisposition(l, DispositionLine(l, p))
         == Some((Utf8(p.name), if FilenameOf(p).Some? then Some(Utf8(FilenameOf(p).value)) else None))
  {
    var after := FilenameParameter(l, FilenameOf(p));
    QuotingReadsBack(p.name, after);
    if FilenameOf(p).Some? {
      var file := FilenameOf(p).value;
      QuotingReadsBack(file, []);
      assert Closed(file) + [] == Closed(file);
      NameAndFile(l, Closed(p.name) + after, Utf8(p.name), Closed(file), Utf8(file));
    } else {
      NameAlone(l, Closed(p.name) + after, Utf8(p.name));
    }
  }

  function RawOf(l: Labels, p: Part): (r: RawPart)
  {
    var filename := if FilenameOf(p).Some? then Some(Utf8(FilenameOf(p).value)) else None;
    RawPart(Utf8(p.name), filename, TypeLine(l, p), Value(p))
  }

  lemma RawStep(l: Labels, d: seq<Byte>, t: seq<Byte>, v: seq<Byte>)
    requires FindFrom(d + CRLF + t + BLANK + v, BLANK, 0) == Some(|d + CRLF + t|)
    requires FindFrom(d + CRLF + t, CRLF, 0) == Some(|d|) && ParseDisposition(l, d).Some?
    ensures var fields := ParseDisposition(l, d).value;
            ParseRaw(l, d + CRLF + t + BLANK + v) == Some(RawPart(fields.0, fields.1, t, v))
  {
    var h := d + CRLF + t;
    var s := h + BLANK + v;
    assert s[..|h|] == h && s[|h| + 4..] == v;
    assert h[..|d|] == d && h[|d| + 2..] == t;
  }

  lemma RawReadsBack(l: Labels, p: Part)
    requires SoundLabels(l) && Printable(p)
    ensures ParseRaw(l, PartBytes(l, p)) == Some(RawOf(l, p))
  {
    BlankFirst(l, p);
    LineFirst(l, p);
    DispositionReadsBack(l, p);
    RawStep(l, DispositionLine(l, p), TypeLine(l, p), Value(p));
  }

  lemma InterpretReadsBack(l: Labels, p: Part)
    requires l.text != l.binary
    ensures Interpret(l, RawOf(l, p)) == Some(p)
  {
    Utf8ReadsBack(p.name);
    if FilenameOf(p).Some? { Utf8ReadsBack(FilenameOf(p).value); }
    if p.Text? { Utf8ReadsBack(p.text); }
  }

  /** A part reads back with its kind, name, filename and value. */
  lemma PartReadsBack(l: Labels, p: Part)
    requires SoundLabels(l) && Printable(p)
    ensures ParsePart(l, PartBytes(l, p)) == Some(p)
  {
    RawReadsBack(l, p);
    InterpretReadsBack(l, p);
  }

  lemma ParseNext(l: Labels, piece: seq<Byte>, rest: seq<seq<Byte>>, p: Part, ps: seq<Part>)
    requires ParsePart(l, piece) == Some(p) && ParseAll(l, rest) == Some(ps)
    ensures ParseAll(l, [piece] + rest) == Some([p] + ps)
  {
    assert ([piece] + rest)[1..] == rest;
  }

  lemma {:induction false} PiecesReadBack(l: Labels, parts: seq<Part>)
    requires SoundLabels(l) && forall p :: p in parts ==> Printable(p)
    ensures ParseAll(l, Pieces(l, parts)) == Some(parts)
  {
    if parts != [] {
      PartReadsBack(l, parts[0]);
      PiecesReadBack(l, parts[1..]);
      ParseNext(l, PartBytes(l, parts[0]), Pieces(l, parts[1..]), parts[0], parts[1..]);
      assert parts == [parts[0]] + parts[1..];
    }
  }

  lemma SplitNext(t: seq<Byte>, d: seq<Byte>, k: nat, ps: seq<seq<Byte>>)
    requires FindFrom(t, d, 0) == Some(k) && Split(t[k + |d|..], d) == Some(ps)
    ensures Split(CRLF + t, d) == Some([t[..k]] + ps)
  {
    assert (CRLF + t)[2..] == t;
  }

  lemma SplitStep(piece: seq<Byte>, d: seq<Byte>, rest: seq<Byte>, ps: seq<seq<Byte>>)
    requires FindFrom(piece + d + rest, d, 0) == Some(|piece|) && Split(rest, d) == Some(ps)
    ensures Split(CRLF + (piece + d + rest), d) == Some([piece] + ps)
  {
    var t := piece + d + rest;
    assert t[..|piece|] == piece && t[|piece| + |d|..] == rest;
    SplitNext(t, d, |piece|, ps);
  }

  lemma CollidesTail(parts: seq<Part>, b: seq<Byte>)
    requires parts != [] && !Collides(parts, b)
    ensures !Contains(Value(parts[0]), b) && !Collides(parts[1..], b)
  {
    assert !PartContains(parts[0], b);
    forall i | 0 <= i < |parts[1..]| ensures !PartContains(parts[1..][i], b) { assert parts[1..][i] == parts[i + 1]; }
  }

  /** Splitting at the first delimiter each time yields exactly the printed parts. */
  lemma {:induction false} SplitReadsBack(l: Labels, parts: seq<Part>, b: seq<Byte>)
    requires SoundLabels(l) && (forall p :: p in parts ==> Printable(p)) && CR !in b && !Collides(parts, b)
    ensures Split(Tail(Pieces(l, parts), b), Delimiter(b)) == Some(Pieces(l, parts))
  {
    if parts != [] {
      CollidesTail(parts, b);
      SplitReadsBack(l, parts[1..], b);
      var rest := Tail(Pieces(l, parts[1..]), b);
      DelimiterFirst(l, parts[0], b, rest);
      SplitStep(PartBytes(l, parts[0]), Delimiter(b), rest, Pieces(l, parts[1..]));
      assert Pieces(l, parts)[1..] == Pieces(l, parts[1..]);
    }
  }

  /** Decoding a printed form gives back its parts, in order, with every field intact. */
  lemma RoundTrip(l: Labels, parts: seq<Part>, b: seq<Byte>)
    requires SoundLabels(l) && (forall p :: p in parts ==> Printable(p)) && CR !in b && !Collides(parts, b)
    ensures Decode(l, Wire(l, parts, b), b) == Some(parts)
  {
    SplitReadsBack(l, parts, b);
    PiecesReadBack(l, parts);
    var w := Wire(l, parts, b);
    assert w[0..2 + |b|] == DASHES + b && w[2 + |b|..] == Tail(Pieces(l, parts), b);
  }
}
