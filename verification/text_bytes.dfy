/** Text and its UTF-8 bytes, with searching inside byte sequences. */
module TextBytes {
  import opened Base

  type Byte = x: int | 0 <= x < 256

  /** The bytes of a literal. */
  function Ascii(s: string): (r: seq<Byte>)
  {
    seq(|s|, i requires 0 <= i < |s| => s[i] as int % 256)
  }

  // --------------------------------------------------------------------- UTF-8

  function EncodeChar(c: char): (r: seq<Byte>)
    ensures 1 <= |r| <= 4
    ensures c < 128 as char ==> r == [c as int]
    ensures c >= 128 as char ==> forall b :: b in r ==> b >= 128
  {
    var n := c as int;
    if n < 0x80 then [n]
    else if n < 0x800 then [0xC0 + n / 64, 0x80 + n % 64]
    else if n < 0x10000 then [0xE0 + n / 4096, 0x80 + n / 64 % 64, 0x80 + n % 64]
    else [0xF0 + n / 262144, 0x80 + n / 4096 % 64, 0x80 + n / 64 % 64, 0x80 + n % 64]
  }

  function Utf8(s: string): (r: seq<Byte>)
  {
    if s == "" then [] else EncodeChar(s[0]) + Utf8(s[1..])
  }

  /** The payload of a continuation byte. */
  function Payload(bs: seq<Byte>, i: nat): (r: Option<nat>)
  {
    if i < |bs| && 0x80 <= bs[i] < 0xC0 then Some(bs[i] - 0x80) else None
  }

  /** The code point at the front, with the smallest value its length allows. */
  function LeadingPoint(bs: seq<Byte>): (r: Option<(nat, nat, nat)>)
    requires bs != []
  {
    var b, p1, p2, p3 := bs[0], Payload(bs, 1), Payload(bs, 2), Payload(bs, 3);
    if b < 0x80 then Some((b, 1, 0))
    else if 0xC0 <= b < 0xE0 && p1.Some? then Some(((b - 0xC0) * 64 + p1.value, 2, 0x80))
    else if 0xE0 <= b < 0xF0 && p1.Some? && p2.Some? then Some(((b - 0xE0) * 4096 + p1.value * 64 + p2.value, 3, 0x800))
    else if 0xF0 <= b < 0xF8 && p1.Some? && p2.Some? && p3.Some? then
      Some(((b - 0xF0) * 262144 + p1.value * 4096 + p2.value * 64 + p3.value, 4, 0x10000))
    else None
  }

  predicate Scalar(n: nat) { n < 0xD800 || 0xE000 <= n < 0x110000 }

  /** A strict decoder: no surrogates, no overlong forms, no stray or missing continuation bytes. */
  function FromUtf8(bs: seq<Byte>): (r: Option<string>)
  {
    if bs == [] then Some("") else
    var lead := LeadingPoint(bs);
    if lead.None? || !Scalar(lead.value.0) || lead.value.0 < lead.value.2 || |bs| < lead.value.1
      || lead.value.1 == 0 then None else
    var rest := FromUtf8(bs[lead.value.1..]);
    if rest.None? then None else Some([lead.value.0 as char] + rest.value)
  }

  lemma LeadingReadsBack(c: char, rest: seq<Byte>)
    ensures var lead := LeadingPoint(EncodeChar(c) + rest);
            lead.Some? && lead.value.0 == c as int && lead.value.1 == |EncodeChar(c)| && lead.value.2 <= c as int
  {
    var n := c as int;
    assert n / 64 / 64 == n / 4096 && n / 4096 / 64 == n / 262144;
    assert n < 0x110000;
  }

  /** Decoding undoes encoding, for every string. */
  lemma {:induction false} Utf8ReadsBack(s: string)
    ensures FromUtf8(Utf8(s)) == Some(s)
  {
    if s != "" {
      LeadingReadsBack(s[0], Utf8(s[1..]));
      Utf8ReadsBack(s[1..]);
      assert s[0] as int as char == s[0] && s == [s[0]] + s[1..];
      assert (EncodeChar(s[0]) + Utf8(s[1..]))[|EncodeChar(s[0])|..] == Utf8(s[1..]);
    }
  }

  // ----------------------------------------------------------------- searching

  predicate MatchAt(s: seq<Byte>, m: seq<Byte>, i: nat) { i + |m| <= |s| && s[i..i + |m|] == m }

  predicate Contains(s: seq<Byte>, m: seq<Byte>) { exists i :: 0 <= i <= |s| && MatchAt(s, m, i) }

  /** The first occurrence at or after a position. */
  function FindFrom(s: seq<Byte>, m: seq<Byte>, i: nat): (r: Option<nat>)
    requires i <= |s|
    ensures r.Some? ==> r.value + |m| <= |s|
    decreases |s| - i
  {
    if MatchAt(s, m, i) then Some(i) else if i == |s| then None else FindFrom(s, m, i + 1)
  }

  lemma {:induction false} FoundFirst(s: seq<Byte>, m: seq<Byte>, i: nat, k: nat)
    requires i <= k && MatchAt(s, m, k) && forall j :: i <= j < k ==> !MatchAt(s, m, j)
    ensures FindFrom(s, m, i) == Some(k)
    decreases k - i
  {
    if i < k { FoundFirst(s, m, i + 1, k); }
  }

  lemma Mismatch(s: seq<Byte>, m: seq<Byte>, i: nat, k: nat)
    requires k < |m| && i + k < |s| && s[i + k] != m[k]
    ensures !MatchAt(s, m, i)
  {
    if i + |m| <= |s| { assert s[i..i + |m|][k] == s[i + k]; }
  }

  lemma MatchSuffix(s: seq<Byte>, a: seq<Byte>, b: seq<Byte>, i: nat)
    ensures MatchAt(s, a + b, i) ==> MatchAt(s, b, i + |a|)
  {
    if MatchAt(s, a + b, i) {
      assert s[i + |a|..i + |a| + |b|] == s[i..i + |a + b|][|a|..] == b;
    }
  }

  /** A match that lies inside the middle piece is a match of that piece. */
  lemma MatchInside(a: seq<Byte>, b: seq<Byte>, c: seq<Byte>, m: seq<Byte>, i: nat)
    requires |a| <= i && i + |m| <= |a| + |b|
    ensures MatchAt(a + b + c, m, i) <==> MatchAt(b, m, i - |a|)
  {
    assert (a + b + c)[i..i + |m|] == b[i - |a|..i - |a| + |m|];
  }
}
