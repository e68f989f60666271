/**
 * The client's reading of a `set-cookie` header: `parseCookies`, a loose
 * take on the Set-Cookie syntax of section 4.1 of RFC 6265 that splits the
 * header on every `,`, looks only at the text before each fragment's first
 * `;`, and percent-decodes the parts around the first `=`; and the older
 * third-cookie extraction of the undici clients.
 */
module Cookies {
  import opened Wrappers
  import opened Text
  import opened Uri
  import opened Errors

  /** The current `parseCookies` left-trims each key; the older one in src/utils.ts does not. */
  datatype KeyStyle = TrimmedKeys | RawKeys

  function KeyOf(decoded: string, style: KeyStyle): string {
    match style
    case TrimmedKeys => LeftTrim(decoded)
    case RawKeys => decoded
  }

  /** Decode a raw key and raw value; `None` is the URIError of a malformed escape in either. */
  function MakeEntry(rawKey: string, rawValue: string, style: KeyStyle): Option<(string, string)> {
    match DecodeComponent(rawKey)
    case None => None
    case Some(k) =>
      match DecodeComponent(rawValue)
      case None => None
      case Some(v) => Some((KeyOf(k, style), v))
  }

  /**
   * One comma-separated fragment: the text before its first `;`, split at
   * `=`. A missing second part is `undefined`, which decodes to the
   * string "undefined".
   */
  function Entry(fragment: string, style: KeyStyle): Option<(string, string)> {
    var parts := Split(Before(fragment, ';'), '=');
    MakeEntry(parts[0], if |parts| > 1 then parts[1] else "undefined", style)
  }

  /** The entry of every fragment, in order. */
  function Entries(fragments: seq<string>, style: KeyStyle): (es: seq<Option<(string, string)>>)
    ensures |es| == |fragments|
    ensures forall j :: 0 <= j < |fragments| ==> es[j] == Entry(fragments[j], style)
  {
    seq(|fragments|, j requires 0 <= j < |fragments| => Entry(fragments[j], style))
  }

  /** The output object after writing the entries left to right; `None` once one throws. */
  function Assign(entries: seq<Option<(string, string)>>): Option<map<string, string>>
    decreases |entries|
  {
    if entries == [] then Some(map[])
    else
      match Assign(entries[..|entries| - 1])
      case None => None
      case Some(m) =>
        match entries[|entries| - 1]
        case None => None
        case Some(e) => Some(m[e.0 := e.1])
  }

  /** What `parseCookies(input)` returns; `None` when it throws. */
  function CookieObject(input: string, style: KeyStyle): Option<map<string, string>> {
    Assign(Entries(Split(input, ','), style))
  }

  /** One more entry is written over the object built so far. */
  lemma AssignStep(entries: seq<Option<(string, string)>>, i: nat)
    requires i < |entries|
    ensures Assign(entries[..i + 1]) ==
      if Assign(entries[..i]).None? || entries[i].None? then None
      else Some(Assign(entries[..i]).value[entries[i].value.0 := entries[i].value.1])
  {
    assert entries[..i + 1][..i] == entries[..i];
  }

  /** `parseCookies` (src/utils/utils.ts with `TrimmedKeys`, src/utils.ts with `RawKeys`). */
  method ParseCookies(input: string, style: KeyStyle) returns (r: Option<map<string, string>>)
    ensures r == CookieObject(input, style)
  {
    var cookies := Split(input, ',');
    ghost var entries := Entries(cookies, style);
    var output: map<string, string> := map[];
    for i := 0 to |cookies|
      invariant Assign(entries[..i]) == Some(output)
    {
      var cookieSplit := Split(Before(cookies[i], ';'), '=');
      var key := DecodeComponent(cookieSplit[0]);
      var value := DecodeComponent(if |cookieSplit| > 1 then cookieSplit[1] else "undefined");
      AssignStep(entries, i);
      if key.None? || value.None? {
        FailureSticks(entries, i + 1);
        return None;
      }
      output := output[KeyOf(key.value, style) := value.value];
    }
    assert entries[..|cookies|] == entries;
    return Some(output);
  }

  /** Once an entry throws, the whole parse throws. */
  lemma {:induction false} FailureSticks(entries: seq<Option<(string, string)>>, n: nat)
    requires 0 < n <= |entries|
    requires Assign(entries[..n]).None?
    ensures Assign(entries).None?
    decreases |entries| - n
  {
    if n == |entries| {
      assert entries[..n] == entries;
    } else {
      AssignStep(entries, n);
      FailureSticks(entries, n + 1);
    }
  }

  /** The parse succeeds exactly when every fragment decodes. */
  lemma {:induction false} AssignSucceeds(entries: seq<Option<(string, string)>>)
    ensures Assign(entries).Some? <==> forall j :: 0 <= j < |entries| ==> entries[j].Some?
    decreases |entries|
  {
    if entries != [] {
      var n := |entries| - 1;
      var init := entries[..n];
      assert forall j :: 0 <= j < n ==> init[j] == entries[j];
      AssignSucceeds(init);
    }
  }

  /** The keys of the object are exactly the keys the entries write. */
  lemma {:induction false} AssignKeys(entries: seq<Option<(string, string)>>)
    requires Assign(entries).Some?
    ensures forall k :: k in Assign(entries).value <==> exists j :: 0 <= j < |entries| && entries[j].Some? && entries[j].value.0 == k
    decreases |entries|
  {
    AssignSucceeds(entries);
    if entries != [] {
      var n := |entries| - 1;
      var init := entries[..n];
      assert forall j :: 0 <= j < n ==> init[j] == entries[j];
      AssignKeys(init);
    }
  }

  /** No entry after `j` writes the key entry `j` writes. */
  predicate LastFor(entries: seq<Option<(string, string)>>, j: nat)
    requires j < |entries|
  {
    forall j' :: j < j' < |entries| && entries[j'].Some? && entries[j].Some? ==> entries[j'].value.0 != entries[j].value.0
  }

  /** Entries are written left to right: each key holds the value of the last entry that wrote it. */
  lemma {:induction false} LastWins(entries: seq<Option<(string, string)>>, j: nat)
    requires Assign(entries).Some?
    requires j < |entries| && LastFor(entries, j)
    ensures entries[j].Some? && entries[j].value.0 in Assign(entries).value
    ensures Assign(entries).value[entries[j].value.0] == entries[j].value.1
    decreases |entries|
  {
    AssignSucceeds(entries);
    var n := |entries| - 1;
    var init := entries[..n];
    if j < n {
      assert init[j] == entries[j];
      assert LastFor(init, j) by {
        forall j' | j < j' < n ensures init[j'] == entries[j'] { }
      }
      LastWins(init, j);
    }
  }

  /** Everything from a fragment's first `;` on (expires, Max-Age, path, ...) is ignored. */
  lemma AttributesIgnored(head: string, attrs: string, style: KeyStyle)
    requires ';' !in head
    ensures Entry(head + ";" + attrs, style) == Entry(head, style)
  {
    SplitCons(head, attrs, ';');
    SplitAtFirst(head, ';');
  }

  /**
   * A fragment `name=value; attributes`: the key is the decoded `name`, the
   * value the decoded text of `value` up to a second `=`; what follows a
   * second `=` is dropped.
   */
  lemma EntryOfPair(name: string, value: string, attrs: string, style: KeyStyle)
    requires '=' !in name && ';' !in name && ';' !in value
    requires attrs == [] || attrs[0] == ';'
    ensures Entry(name + "=" + value + attrs, style) == MakeEntry(name, Before(value, '='), style)
  {
    var head := name + "=" + value;
    assert ';' !in head;
    if attrs == [] {
      assert head + attrs == head;
      SplitAtFirst(head, ';');
    } else {
      assert head + attrs == head + [';'] + attrs[1..];
      SplitCons(head, attrs[1..], ';');
    }
    assert head == name + ['='] + value;
    SplitCons(name, value, '=');
  }

  /** A fragment with no `=` before its first `;` still writes its key, with the value "undefined". */
  lemma EntryWithoutValue(text: string, attrs: string, style: KeyStyle)
    requires '=' !in text && ';' !in text
    requires attrs == [] || attrs[0] == ';'
    ensures Entry(text + attrs, style) == MakeEntry(text, "undefined", style)
  {
    if attrs == [] {
      assert text + attrs == text;
      SplitAtFirst(text, ';');
    } else {
      assert text + attrs == text + [';'] + attrs[1..];
      SplitCons(text, attrs[1..], ';');
    }
    SplitAtFirst(text, '=');
  }

  // ---------------------------------------------------------------------
  // The credentials cookie

  /** A cookie name that needs no decoding or trimming and holds no separator. */
  predicate PlainCookieName(name: string) {
    && name != []
    && !IsJsSpace(name[0])
    && forall i :: 0 <= i < |name| ==> name[i] != ',' && name[i] != ';' && name[i] != '=' && name[i] != '%'
  }

  /**
   * `JSON.parse(String(cookies[name])).session_id`: a key that is absent
   * reads as `undefined`, whose string "undefined" is not JSON, so the parse
   * throws a SyntaxError. `decode` stands for JSON.parse followed by the
   * `session_id` read, `None` for a syntax error.
   */
  function SessionIdOf(cookies: map<string, string>, name: string, decode: string -> Option<string>): (r: Result<string, Error>)
    ensures name !in cookies ==> r == Failure(JsonSyntaxError)
    ensures name in cookies ==> (r.Success? <==> decode(cookies[name]).Some?)
    ensures r.Success? ==> decode(cookies[name]) == Some(r.value)
  {
    if name !in cookies then Failure(JsonSyntaxError)
    else
      match decode(cookies[name])
      case None => Failure(JsonSyntaxError)
      case Some(id) => Success(id)
  }

  /** The session id the login reads from a `set-cookie` header through `parseCookies`. */
  function CookieSessionId(setCookie: string, name: string, style: KeyStyle, decode: string -> Option<string>): Result<string, Error> {
    match CookieObject(setCookie, style)
    case None => Failure(UriError)
    case Some(cookies) => SessionIdOf(cookies, name, decode)
  }

  /**
   * A server that sends the credentials as `name=encodeURIComponent(json)`
   * followed by comma-free attributes has its session id read back.
   */
  lemma CredentialsRoundTrip(name: string, json: string, attrs: string, style: KeyStyle,
                             decode: string -> Option<string>, id: string)
    requires PlainCookieName(name) && IsAscii(json) && decode(json) == Some(id)
    requires ',' !in attrs && (attrs == [] || attrs[0] == ';')
    ensures CookieSessionId(name + "=" + EncodeComponent(json) + attrs, name, style, decode) == Success(id)
  {
    var enc := EncodeComponent(json);
    var cookie := name + "=" + enc + attrs;
    EncodedIsCookieSafe(json);
    assert '=' !in name && ';' !in name && '%' !in name;
    assert ',' !in cookie;
    SplitAtFirst(cookie, ',');
    EntryOfPair(name, enc, attrs, style);
    SplitAtFirst(enc, '=');
    DecodePlain(name, false);
    DecodeEncode(json);
    LeftTrimUnspaced(name);
    assert KeyOf(name, style) == name;
    assert Split(cookie, ',') == [cookie];
    assert Entry(cookie, style) == Some((name, json));
    var es := Entries([cookie], style);
    assert es == [Some((name, json))];
    assert es[..0] == [];
    assert Assign(es) == Some(map[name := json]);
  }

  // ---------------------------------------------------------------------
  // The undici clients: cookies cut at `;`, session id from the third cookie

  /** `cookie.substring(0, cookie.indexOf(";"))`: the text before the first `;`, or "" when there is none. */
  function TruncateCookie(c: string): (r: string)
    ensures |r| <= |c|
    ensures ';' !in r && c[..|r|] == r
    ensures ';' in c ==> c[|r|] == ';'
    ensures ';' !in c ==> r == ""
  {
    Substring(c, 0, IndexOf(c, ';'))
  }

  /** Where a `;` is present the cut agrees with what `parseCookies` keeps of a fragment. */
  lemma TruncateMatchesBefore(c: string)
    requires ';' in c
    ensures TruncateCookie(c) == Before(c, ';')
  {
    BeforeIsPrefix(c, ';');
  }

  function TruncateAll(cookies: seq<string>): (r: seq<string>)
    ensures |r| == |cookies|
    ensures forall i :: 0 <= i < |cookies| ==> r[i] == TruncateCookie(cookies[i])
  {
    seq(|cookies|, i requires 0 <= i < |cookies| => TruncateCookie(cookies[i]))
  }

  /** The in-place loop of the undici logins over the `set-cookie` array. */
  method TruncateCookies(cookies: array<string>)
    modifies cookies
    ensures cookies[..] == TruncateAll(old(cookies[..]))
  {
    for i := 0 to cookies.Length
      invariant cookies[..i] == TruncateAll(old(cookies[..]))[..i]
      invariant cookies[i..] == old(cookies[..])[i..]
    {
      assert cookies[i] == old(cookies[..])[i];
      cookies[i] := TruncateCookie(cookies[i]);
    }
  }

  /** `s.substring(s.indexOf("{"), s.length)`: from the first `{`, or all of `s` when there is none. */
  function FromFirstBrace(s: string): (r: string)
    ensures |r| <= |s|
    ensures '{' in s ==> r != [] && r[0] == '{' && s == s[..|s| - |r|] + r && '{' !in s[..|s| - |r|]
    ensures '{' !in s ==> r == s
  {
    var i := IndexOf(s, '{');
    assert i >= 0 ==> s == s[..i] + s[i..];
    Substring(s, i, |s|)
  }

  /**
   * The session id the undici logins read: the third stored cookie put
   * through `decodeURI`, `%3A` and `%2C` turned back into `:` and `,`, cut
   * from the first `{`, and given to JSON.parse. A missing third cookie is
   * `undefined`; its string "undefined" has no `%` and no `{`, so it reaches
   * JSON.parse as it is and the parse throws a SyntaxError.
   */
  function ThirdCookieSessionId(cookies: seq<string>, decode: string -> Option<string>): (r: Result<string, Error>)
    ensures |cookies| <= 2 ==> r == Failure(JsonSyntaxError)
  {
    if |cookies| <= 2 then Failure(JsonSyntaxError)
    else
      match DecodeUri(cookies[2])
      case None => Failure(UriError)
      case Some(d) =>
        var t := ReplaceAll(ReplaceAll(d, "%3A", ":"), "%2C", ",");
        match decode(FromFirstBrace(t))
        case None => Failure(JsonSyntaxError)
        case Some(id) => Success(id)
  }

  /** Text containing a pattern's first character nowhere passes through a replacement unchanged in front. */
  lemma {:induction false} ReplaceAllPlainPrefix(p: string, x: string, pat: string, rep: string)
    requires pat != [] && pat[0] !in p
    ensures ReplaceAll(p + x, pat, rep) == p + ReplaceAll(x, pat, rep)
  {
    if p != [] {
      var s := p + x;
      assert !StartsWith(s, pat) by { assert s[0] == p[0]; }
      assert s[1..] == p[1..] + x;
      assert pat[0] !in p[1..] by { assert forall ch :: ch in p[1..] ==> ch in p; }
      ReplaceAllPlainPrefix(p[1..], x, pat, rep);
      assert [p[0]] + (p[1..] + ReplaceAll(x, pat, rep)) == p + ReplaceAll(x, pat, rep);
    } else {
      assert p + x == x;
    }
  }

  /** Only the commas of `s` escaped as `%2C`. */
  function EscapeCommas(s: string): string {
    if s == [] then [] else (if s[0] == ',' then "%2C" else [s[0]]) + EscapeCommas(s[1..])
  }

  /** Undoing the `%3A` escapes leaves only the `%2C` ones. */
  lemma {:induction false} UnescapeColons(s: string)
    requires forall i :: 0 <= i < |s| ==> s[i] != '%'
    ensures ReplaceAll(EscapeColonComma(s), "%3A", ":") == EscapeCommas(s)
  {
    if s != [] {
      var tail := EscapeColonComma(s[1..]);
      UnescapeColons(s[1..]);
      var e := EscapeColonComma(s);
      assert e == EscapeOne(s[0]) + tail;
      if s[0] == ':' {
        assert StartsWith(e, "%3A");
        assert e[3..] == tail;
      } else if s[0] == ',' {
        assert e == "%2C" + tail;
        assert e[..3] == "%2C";
        assert !StartsWith(e, "%3A");
        var e1 := e[1..];
        assert e1 == "2C" + tail;
        NotStartsWith(e1, "%3A");
        var e2 := e1[1..];
        assert e2 == "C" + tail;
        NotStartsWith(e2, "%3A");
        assert e2[1..] == tail;
        assert ReplaceAll(e2, "%3A", ":") == [e2[0]] + ReplaceAll(tail, "%3A", ":");
        assert ReplaceAll(e1, "%3A", ":") == [e1[0]] + ReplaceAll(e2, "%3A", ":");
        assert ReplaceAll(e, "%3A", ":") == [e[0]] + ReplaceAll(e1, "%3A", ":");
        assert [e[0]] + ([e1[0]] + ([e2[0]] + EscapeCommas(s[1..]))) == "%2C" + EscapeCommas(s[1..]);
      } else {
        assert e[0] == s[0];
        NotStartsWith(e, "%3A");
        assert e[1..] == tail;
      }
    }
  }

  /** Undoing the `%2C` escapes gives the text back. */
  lemma {:induction false} UnescapeCommas(s: string)
    requires forall i :: 0 <= i < |s| ==> s[i] != '%'
    ensures ReplaceAll(EscapeCommas(s), "%2C", ",") == s
  {
    if s != [] {
      var tail := EscapeCommas(s[1..]);
      UnescapeCommas(s[1..]);
      var e := EscapeCommas(s);
      if s[0] == ',' {
        assert e == "%2C" + tail;
        assert StartsWith(e, "%2C");
        assert e[3..] == tail;
      } else {
        assert e == [s[0]] + tail;
        assert e[0] == s[0];
        NotStartsWith(e, "%2C");
        assert e[1..] == tail;
      }
      assert [s[0]] + s[1..] == s;
    }
  }

  /** The third cookie `name=enc; attrs`, cut at its `;`, is `name=enc`. */
  lemma CutThirdCookie(first: string, second: string, name: string, enc: string, attrs: string)
    requires ';' !in name && ';' !in enc
    requires |attrs| > 0 && attrs[0] == ';'
    ensures var cut := TruncateAll([first, second, name + "=" + enc + attrs]);
      |cut| == 3 && cut[2] == name + "=" + enc
  {
    var cookie := name + "=" + enc + attrs;
    var stored := name + "=" + enc;
    assert ';' !in stored;
    assert cookie == stored + [';'] + attrs[1..];
    SplitCons(stored, attrs[1..], ';');
    TruncateMatchesBefore(cookie);
  }

  /** `decodeURI` and the two replacements turn `name=encodeURIComponent(json)` back into `name=json`. */
  lemma UnescapeStored(name: string, json: string)
    requires forall i :: 0 <= i < |name| ==> name[i] != '%'
    requires IsAscii(json) && OnlyColonCommaReserved(json)
    ensures var p := name + "=";
      DecodeUri(p + EncodeComponent(json)).Some?
      && ReplaceAll(ReplaceAll(DecodeUri(p + EncodeComponent(json)).value, "%3A", ":"), "%2C", ",") == p + json
  {
    var p := name + "=";
    var esc := EscapeColonComma(json);
    DecodeUriOfEncoded(json);
    assert '%' !in p;
    DecodePlainPrefix(p, EncodeComponent(json), true);
    ReplaceAllPlainPrefix(p, esc, "%3A", ":");
    UnescapeColons(json);
    ReplaceAllPlainPrefix(p, EscapeCommas(json), "%2C", ",");
    UnescapeCommas(json);
  }

  /** Cutting `name=json` at its first `{` gives the JSON back when the name holds no brace. */
  lemma BraceAfterName(name: string, json: string)
    requires '{' !in name && json != [] && json[0] == '{'
    ensures FromFirstBrace(name + "=" + json) == json
  {
    var t := (name + "=") + json;
    assert '{' !in name + "=";
    assert t[..|name| + 1] == name + "=";
    IndexOfAt(t, '{', |name| + 1);
    assert t[|name| + 1..] == json;
  }

  /**
   * A server that sends the credentials as the third cookie,
   * `name=encodeURIComponent(json)` with `json` starting at `{`, has its
   * session id read back once the cookies are cut at `;`.
   */
  lemma ThirdCookieRoundTrip(first: string, second: string, name: string, json: string, attrs: string,
                             decode: string -> Option<string>, id: string)
    requires PlainCookieName(name) && '{' !in name
    requires IsAscii(json) && OnlyColonCommaReserved(json) && json != [] && json[0] == '{'
    requires decode(json) == Some(id)
    requires |attrs| > 0 && attrs[0] == ';'
    ensures ThirdCookieSessionId(TruncateAll([first, second, name + "=" + EncodeComponent(json) + attrs]), decode) == Success(id)
  {
    EncodedIsCookieSafe(json);
    CutThirdCookie(first, second, name, EncodeComponent(json), attrs);
    UnescapeStored(name, json);
    BraceAfterName(name, json);
  }
}
