/**
 * Percent-decoding as JavaScript's `decodeURIComponent` and `decodeURI` do it
 * (section 2.1 of RFC 3986; ECMAScript's Decode operation), and the matching
 * encoder `encodeURIComponent`, on single-byte escapes. `None` is the URIError
 * the JavaScript functions throw.
 */
module Uri {
  import opened Wrappers

  predicate IsHex(ch: char) {
    ('0' <= ch <= '9') || ('A' <= ch <= 'F') || ('a' <= ch <= 'f')
  }

  function HexValue(ch: char): (v: nat)
    requires IsHex(ch)
    ensures v < 16
  {
    if '0' <= ch <= '9' then ch as int - '0' as int
    else if 'A' <= ch <= 'F' then ch as int - 'A' as int + 10
    else ch as int - 'a' as int + 10
  }

  function HexDigit(v: nat): (ch: char)
    requires v < 16
    ensures IsHex(ch) && HexValue(ch) == v
    ensures !('a' <= ch <= 'z')
  {
    if v < 10 then ('0' as int + v) as char else ('A' as int + v - 10) as char
  }

  /** The characters `decodeURI` leaves escaped: its reserved set `;/?:@&=+$,#`. */
  predicate IsUriReserved(ch: char) {
    ch in {';', '/', '?', ':', '@', '&', '=', '+', '$', ',', '#'}
  }

  /**
   * Percent-decoding. With `keepReserved` (decodeURI) an escape that stands for
   * a reserved character stays as the three characters it was; without it
   * (decodeURIComponent) every escape is decoded. A `%` that is not followed by
   * two hex digits is an error.
   */
  function Decode(s: string, keepReserved: bool): (r: Option<string>)
    ensures r.Some? && '%' !in s ==> r.value == s
    decreases |s|
  {
    if s == [] then Some([])
    else if s[0] != '%' then
      match Decode(s[1..], keepReserved)
      case None => None
      case Some(rest) => Some([s[0]] + rest)
    else if |s| < 3 || !IsHex(s[1]) || !IsHex(s[2]) then None
    else
      var b := 16 * HexValue(s[1]) + HexValue(s[2]);
      if b >= 0x80 then None
      else
        match Decode(s[3..], keepReserved)
        case None => None
        case Some(rest) =>
          var ch := b as char;
          Some(if keepReserved && IsUriReserved(ch) then s[..3] + rest else [ch] + rest)
  }

  /** Text without `%` decodes to itself. */
  lemma {:induction false} DecodePlain(s: string, keepReserved: bool)
    requires '%' !in s
    ensures Decode(s, keepReserved) == Some(s)
  {
    if s != [] {
      assert '%' !in s[1..] by { assert forall ch :: ch in s[1..] ==> ch in s; }
      DecodePlain(s[1..], keepReserved);
      assert [s[0]] + s[1..] == s;
    }
  }

  /** Decoding text that starts without `%` keeps that start and decodes the rest. */
  lemma {:induction false} DecodePlainPrefix(a: string, b: string, keepReserved: bool)
    requires '%' !in a
    ensures Decode(a + b, keepReserved) ==
      if Decode(b, keepReserved).None? then None else Some(a + Decode(b, keepReserved).value)
  {
    if a != [] {
      var s := a + b;
      assert s[0] == a[0];
      assert s[1..] == a[1..] + b;
      assert '%' !in a[1..] by { assert forall ch :: ch in a[1..] ==> ch in a; }
      DecodePlainPrefix(a[1..], b, keepReserved);
      if Decode(b, keepReserved).Some? {
        assert [a[0]] + (a[1..] + Decode(b, keepReserved).value) == a + Decode(b, keepReserved).value;
      }
    } else {
      assert a + b == b;
      if Decode(b, keepReserved).Some? {
        assert a + Decode(b, keepReserved).value == Decode(b, keepReserved).value;
      }
    }
  }

  /** `%20` decodes to a space, with either decoder. */
  lemma DecodeSpaceEscape(b: string, keepReserved: bool)
    ensures Decode("%20" + b, keepReserved) ==
      if Decode(b, keepReserved).None? then None else Some(" " + Decode(b, keepReserved).value)
  {
    var s := "%20" + b;
    assert s[0] == '%' && s[1] == '2' && s[2] == '0';
    assert s[3..] == b;
  }

  /** `decodeURIComponent`. */
  function DecodeComponent(s: string): Option<string> {
    Decode(s, false)
  }

  /** `decodeURI`. */
  function DecodeUri(s: string): Option<string> {
    Decode(s, true)
  }

  /** The characters `encodeURIComponent` leaves as they are. */
  predicate IsUnreserved(ch: char) {
    || ('A' <= ch <= 'Z') || ('a' <= ch <= 'z') || ('0' <= ch <= '9')
    || ch in {'-', '_', '.', '!', '~', '*', '\'', '(', ')'}
  }

  predicate IsAscii(s: string) {
    forall i :: 0 <= i < |s| ==> s[i] < 128 as char
  }

  function EncodeChar(ch: char): (r: string)
    requires ch < 128 as char
  {
    if IsUnreserved(ch) then [ch]
    else ['%', HexDigit(ch as int / 16), HexDigit(ch as int % 16)]
  }

  /** `encodeURIComponent` on ASCII text. */
  function EncodeComponent(s: string): (r: string)
    requires IsAscii(s)
    ensures forall i :: 0 <= i < |r| ==> IsUnreserved(r[i]) || r[i] == '%' || IsHex(r[i])
  {
    if s == [] then [] else EncodeChar(s[0]) + EncodeComponent(s[1..])
  }

  /** What `encodeURIComponent` produces holds no separator of the cookie syntax and no whitespace. */
  lemma EncodedIsCookieSafe(s: string)
    requires IsAscii(s)
    ensures var e := EncodeComponent(s);
      ',' !in e && ';' !in e && '=' !in e && ' ' !in e
  {
    var e := EncodeComponent(s);
    forall i | 0 <= i < |e| ensures e[i] !in {',', ';', '=', ' '} {
    }
  }

  /** `decodeURIComponent` turns one encoded character back into itself. */
  lemma DecodeEncodedChar(ch: char, t: string)
    requires ch < 128 as char && DecodeComponent(t).Some?
    ensures DecodeComponent(EncodeChar(ch) + t) == Some([ch] + DecodeComponent(t).value)
  {
    var e := EncodeChar(ch) + t;
    if IsUnreserved(ch) {
      assert e[1..] == t;
    } else {
      assert e[3..] == t;
      assert 16 * HexValue(e[1]) + HexValue(e[2]) == ch as int;
      assert (ch as int) as char == ch;
    }
  }

  /** `decodeURIComponent` undoes `encodeURIComponent`. */
  lemma {:induction false} DecodeEncode(s: string)
    requires IsAscii(s)
    ensures DecodeComponent(EncodeComponent(s)) == Some(s)
  {
    if s != [] {
      DecodeEncode(s[1..]);
      DecodeEncodedChar(s[0], EncodeComponent(s[1..]));
      assert s == [s[0]] + s[1..];
    }
  }

  /**
   * What `decodeURI` makes of `encodeURIComponent(s)` when `s` holds no `%`
   * and, of the reserved characters, at most `:` and `,`: those two come back
   * still escaped, as `%3A` and `%2C`, and everything else is decoded.
   */
  function EscapeColonComma(s: string): string {
    if s == [] then []
    else EscapeOne(s[0]) + EscapeColonComma(s[1..])
  }

  predicate OnlyColonCommaReserved(s: string) {
    forall i :: 0 <= i < |s| ==> s[i] != '%' && (IsUriReserved(s[i]) ==> s[i] == ':' || s[i] == ',')
  }

  function EscapeOne(ch: char): string {
    if ch == ':' then "%3A" else if ch == ',' then "%2C" else [ch]
  }

  lemma DecodeUriEncodedChar(ch: char, t: string)
    requires ch < 128 as char && ch != '%' && (IsUriReserved(ch) ==> ch == ':' || ch == ',')
    requires DecodeUri(t).Some?
    ensures DecodeUri(EncodeChar(ch) + t) == Some(EscapeOne(ch) + DecodeUri(t).value)
  {
    var e := EncodeChar(ch) + t;
    if IsUnreserved(ch) {
      assert e[1..] == t;
    } else {
      assert e[3..] == t;
      assert 16 * HexValue(e[1]) + HexValue(e[2]) == ch as int;
      assert (ch as int) as char == ch;
      assert e[..3] == EncodeChar(ch);
    }
  }

  lemma {:induction false} DecodeUriOfEncoded(s: string)
    requires IsAscii(s) && OnlyColonCommaReserved(s)
    ensures DecodeUri(EncodeComponent(s)) == Some(EscapeColonComma(s))
  {
    if s != [] {
      DecodeUriOfEncoded(s[1..]);
      DecodeUriEncodedChar(s[0], EncodeComponent(s[1..]));
    }
  }
}
