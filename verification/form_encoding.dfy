/** `application/x-www-form-urlencoded` output, as Python's `urllib.parse.urlencode` writes it with its
    default `quote_plus`: characters of the unreserved set of section 2.3 of RFC 3986 pass through,
    a space becomes `+`, and every other character is written as the percent-encoded bytes of its
    UTF-8 form (section 2.1 of RFC 3986, upper-case hexadecimal digits). */
module FormEncoding {
  import opened Seqs
  import opened Text

  type Byte = x: int | 0 <= x < 256

  /** Section 2.3 of RFC 3986: ALPHA / DIGIT / "-" / "." / "_" / "~". */
  predicate Unreserved(c: char) {
    ('A' <= c <= 'Z') || ('a' <= c <= 'z') || ('0' <= c <= '9') || c == '-' || c == '.' || c == '_' || c == '~'
  }

  function HexDigit(d: nat): (c: char)
    requires d < 16
    ensures Unreserved(c)
  {
    if d < 10 then (48 + d) as char else (55 + d) as char
  }

  predicate IsHex(c: char) {
    ('0' <= c <= '9') || ('A' <= c <= 'F')
  }

  function HexValue(c: char): (d: nat)
    requires IsHex(c)
    ensures d < 16
  {
    if c <= '9' then c as int - 48 else c as int - 55
  }

  lemma HexRoundTrip(d: nat)
    requires d < 16
    ensures IsHex(HexDigit(d)) && HexValue(HexDigit(d)) == d
  {
  }

  /** The UTF-8 encoding of one code point. */
  function Utf8(c: char): (bs: seq<Byte>)
    ensures 1 <= |bs| <= 4
    ensures |bs| == 1 <==> c as int < 0x80
    ensures |bs| == 1 ==> bs[0] == c as int
  {
    var n := c as int;
    if n < 0x80 then [n]
    else if n < 0x800 then [0xC0 + n / 64, 0x80 + n % 64]
    else if n < 0x1_0000 then [0xE0 + n / 4096, 0x80 + (n / 64) % 64, 0x80 + n % 64]
    else [0xF0 + n / 262144, 0x80 + (n / 4096) % 64, 0x80 + (n / 64) % 64, 0x80 + n % 64]
  }

  /** `%XY` for one byte. */
  function Percent(b: Byte): (s: string)
    ensures |s| == 3 && s[0] == '%' && IsHex(s[1]) && IsHex(s[2])
  {
    HexRoundTrip(b / 16);
    HexRoundTrip(b % 16);
    ['%', HexDigit(b / 16), HexDigit(b % 16)]
  }

  function QuoteChar(c: char): string {
    if Unreserved(c) then [c]
    else if c == ' ' then "+"
    else FlatMap(Utf8(c), Percent)
  }

  /** `urllib.parse.quote_plus(s)` with the default empty `safe` set. */
  function QuotePlus(s: string): string {
    FlatMap(s, QuoteChar)
  }

  /** The characters an encoded key or value can contain: never `&` or `=`, which separate them. */
  predicate FormSafe(c: char) {
    Unreserved(c) || c == '+' || c == '%'
  }

  lemma {:induction false} PercentAllSafe(bs: seq<Byte>)
    ensures forall i :: 0 <= i < |FlatMap(bs, Percent)| ==> FormSafe(FlatMap(bs, Percent)[i])
    decreases |bs|
  {
    if |bs| > 0 {
      PercentAllSafe(bs[1..]);
      var p := Percent(bs[0]);
      assert FlatMap(bs, Percent) == p + FlatMap(bs[1..], Percent);
      forall i | 0 <= i < |p| ensures FormSafe(p[i]) {
        if i > 0 {
          assert IsHex(p[i]);
        }
      }
    }
  }

  /** A quoted string is built only from unreserved characters, `+` and `%`. */
  lemma {:induction false} QuotePlusSafe(s: string)
    ensures forall i :: 0 <= i < |QuotePlus(s)| ==> FormSafe(QuotePlus(s)[i])
    decreases |s|
  {
    if |s| > 0 {
      QuotePlusSafe(s[1..]);
      PercentAllSafe(Utf8(s[0]));
      assert QuotePlus(s) == QuoteChar(s[0]) + QuotePlus(s[1..]);
    }
  }

  /** Quoting changes a character iff it lies outside the unreserved set. */
  lemma QuoteCharFixed(c: char)
    ensures QuoteChar(c) == [c] <==> Unreserved(c)
  {
    if !Unreserved(c) && c != ' ' {
      var bs := Utf8(c);
      FlatMapSplit(bs, 0, Percent);
      assert FlatMap(bs, Percent)[0] == '%';
    }
  }

  /** A string of unreserved characters is left as it is. */
  lemma {:induction false} QuotePlusUnreserved(s: string)
    requires forall i :: 0 <= i < |s| ==> Unreserved(s[i])
    ensures QuotePlus(s) == s
    decreases |s|
  {
    if |s| > 0 {
      QuotePlusUnreserved(s[1..]);
      assert s == [s[0]] + s[1..];
    }
  }

  /** Decoding of a form-encoded string written with single-byte escapes: `+` is a space and
      `%XY` the character with code `XY`. */
  function UnquotePlus(s: string): string
    decreases |s|
  {
    if |s| == 0 then ""
    else if s[0] == '+' then " " + UnquotePlus(s[1..])
    else if s[0] == '%' && |s| >= 3 && IsHex(s[1]) && IsHex(s[2]) then
      [(16 * HexValue(s[1]) + HexValue(s[2])) as char] + UnquotePlus(s[3..])
    else [s[0]] + UnquotePlus(s[1..])
  }

  predicate Ascii(s: string) {
    forall i :: 0 <= i < |s| ==> s[i] as int < 0x80
  }

  lemma UnquoteQuoteChar(c: char, rest: string)
    requires c as int < 0x80
    ensures UnquotePlus(QuoteChar(c) + rest) == [c] + UnquotePlus(rest)
  {
    if Unreserved(c) {
      assert ([c] + rest)[1..] == rest;
    } else if c == ' ' {
      assert ("+" + rest)[1..] == rest;
    } else {
      var b: Byte := c as int;
      assert Utf8(c) == [b];
      assert FlatMap([b], Percent) == Percent(b) + FlatMap([b][1..], Percent);
      var p := Percent(b);
      HexRoundTrip(b / 16);
      HexRoundTrip(b % 16);
      assert (p + rest)[3..] == rest;
      assert (p + rest)[..3] == p;
      assert 16 * (b / 16) + b % 16 == b;
    }
  }

  /** On ASCII text decoding undoes `quote_plus`, so distinct ASCII strings quote differently. */
  lemma {:induction false} UnquoteQuotePlus(s: string)
    requires Ascii(s)
    ensures UnquotePlus(QuotePlus(s)) == s
    decreases |s|
  {
    if |s| > 0 {
      assert QuotePlus(s) == QuoteChar(s[0]) + QuotePlus(s[1..]);
      UnquoteQuoteChar(s[0], QuotePlus(s[1..]));
      UnquoteQuotePlus(s[1..]);
      assert s == [s[0]] + s[1..];
    }
  }

  /** One `key=value` piece of the encoded form. */
  function EncodePair(p: (string, string)): string {
    QuotePlus(p.0) + "=" + QuotePlus(p.1)
  }

  function EncodePieces(ps: seq<(string, string)>): (r: seq<string>)
    ensures |r| == |ps| && forall i :: 0 <= i < |ps| ==> r[i] == EncodePair(ps[i])
    decreases |ps|
  {
    if |ps| == 0 then [] else [EncodePair(ps[0])] + EncodePieces(ps[1..])
  }

  /** `urllib.parse.urlencode(ps)` for string keys and values, in the order given. */
  function EncodePairs(ps: seq<(string, string)>): string {
    Join("&", EncodePieces(ps))
  }

  function DecodePair(piece: string): (string, string) {
    var halves := Split(piece, '=');
    if |halves| == 2 then (UnquotePlus(halves[0]), UnquotePlus(halves[1])) else (UnquotePlus(piece), "")
  }

  function DecodePieces(pieces: seq<string>): (r: seq<(string, string)>)
    ensures |r| == |pieces| && forall i :: 0 <= i < |r| ==> r[i] == DecodePair(pieces[i])
    decreases |pieces|
  {
    if |pieces| == 0 then [] else [DecodePair(pieces[0])] + DecodePieces(pieces[1..])
  }

  /** Reading an encoded form back into its pairs. */
  function DecodePairs(s: string): seq<(string, string)> {
    if s == "" then [] else DecodePieces(Split(s, '&'))
  }

  lemma NoSeparator(s: string, c: char)
    requires c == '&' || c == '='
    ensures c !in QuotePlus(s)
  {
    QuotePlusSafe(s);
  }

  lemma DecodeEncodePair(p: (string, string))
    requires Ascii(p.0) && Ascii(p.1)
    ensures DecodePair(EncodePair(p)) == p
    ensures '&' !in EncodePair(p)
  {
    var a, b := QuotePlus(p.0), QuotePlus(p.1);
    NoSeparator(p.0, '=');
    NoSeparator(p.1, '=');
    NoSeparator(p.0, '&');
    NoSeparator(p.1, '&');
    assert Join(['='], [a, b]) == EncodePair(p);
    SplitJoin([a, b], '=');
    UnquoteQuotePlus(p.0);
    UnquoteQuotePlus(p.1);
  }

  /** The encoded form determines the pairs: decoding gives back exactly the pairs, in order. */
  lemma EncodePairsRoundTrip(ps: seq<(string, string)>)
    requires forall i :: 0 <= i < |ps| ==> Ascii(ps[i].0) && Ascii(ps[i].1)
    ensures DecodePairs(EncodePairs(ps)) == ps
  {
    var pieces := EncodePieces(ps);
    forall i | 0 <= i < |ps| ensures '&' !in pieces[i] && DecodePair(pieces[i]) == ps[i] {
      DecodeEncodePair(ps[i]);
    }
    if |ps| > 0 {
      assert '=' in pieces[0] by {
        assert pieces[0][|QuotePlus(ps[0].0)|] == '=';
      }
      assert EncodePairs(ps) != "" by {
        if |ps| == 1 {
          assert EncodePairs(ps) == pieces[0];
        } else {
          assert EncodePairs(ps) == pieces[0] + "&" + Join("&", pieces[1..]);
        }
      }
      SplitJoin(pieces, '&');
      assert DecodePieces(pieces) == ps;
    }
  }

  /** A single pair whose key is made of unreserved characters: the key as it is, `=`, the quoted
      value. */
  lemma EncodeOnePair(k: string, v: string)
    requires forall i :: 0 <= i < |k| ==> Unreserved(k[i])
    ensures EncodePairs([(k, v)]) == k + "=" + QuotePlus(v)
  {
    QuotePlusUnreserved(k);
    assert EncodePieces([(k, v)]) == [EncodePair((k, v))];
  }
}
