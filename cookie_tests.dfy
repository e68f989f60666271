/**
 * The unit examples of `parseCookies` (src/utils/utils_test.ts), as lemmas
 * about the model. Each header is written as the concatenation of the
 * pieces defined in module Cookies, which spell out the same text.
 */
module CookieTests {
  import opened Wrappers
  import opened Text
  import opened Uri
  import opened Cookies

  lemma TwoFragments(a: string, b: string, style: KeyStyle)
    requires ',' !in a && ',' !in b
    ensures CookieObject(a + "," + b, style) == Assign([Entry(a, style), Entry(b, style)])
  {
    assert a + "," + b == a + [','] + b;
    SplitCons(a, b, ',');
    SplitAtFirst(b, ',');
    assert Split(a + "," + b, ',') == [a, b];
    var es := Entries([a, b], style);
    assert es[0] == Entry(a, style) && es[1] == Entry(b, style);
    assert es == [Entry(a, style), Entry(b, style)];
  }

  /** Four fragments without commas, joined by commas, split back into those four. */
  lemma SplitFour(a: string, b: string, c: string, d: string)
    requires ',' !in a && ',' !in b && ',' !in c && ',' !in d
    ensures Split(a + "," + b + "," + c + "," + d, ',') == [a, b, c, d]
  {
    var cd := c + [','] + d;
    var bcd := b + [','] + cd;
    var abcd := a + [','] + bcd;
    assert a + "," + b + "," + c + "," + d == abcd;
    SplitAtFirst(d, ',');
    SplitCons(c, d, ',');
    SplitCons(b, cd, ',');
    SplitCons(a, bcd, ',');
  }

  lemma FourFragments(a: string, b: string, c: string, d: string, style: KeyStyle)
    requires ',' !in a && ',' !in b && ',' !in c && ',' !in d
    ensures CookieObject(a + "," + b + "," + c + "," + d, style)
         == Assign([Entry(a, style), Entry(b, style), Entry(c, style), Entry(d, style)])
  {
    SplitFour(a, b, c, d);
    var es := Entries([a, b, c, d], style);
    assert es[0] == Entry(a, style) && es[1] == Entry(b, style) && es[2] == Entry(c, style) && es[3] == Entry(d, style);
    assert es == [Entry(a, style), Entry(b, style), Entry(c, style), Entry(d, style)];
  }

  lemma AssignTwo(e1: (string, string), e2: (string, string))
    ensures Assign([Some(e1), Some(e2)]) == Some(map[e1.0 := e1.1][e2.0 := e2.1])
  {
    var es := [Some(e1), Some(e2)];
    assert [Some(e1)][..0] == [];
    assert Assign([Some(e1)]) == Some(map[e1.0 := e1.1]);
    assert es[..1] == [Some(e1)];
  }

  lemma AssignFour(e1: (string, string), e2: (string, string), e3: (string, string), e4: (string, string))
    ensures Assign([Some(e1), Some(e2), Some(e3), Some(e4)]) == Some(map[e1.0 := e1.1][e2.0 := e2.1][e3.0 := e3.1][e4.0 := e4.1])
  {
    var es := [Some(e1), Some(e2), Some(e3), Some(e4)];
    assert es[..3] == [Some(e1), Some(e2), Some(e3)];
    assert es[..3][..2] == [Some(e1), Some(e2)];
    AssignTwo(e1, e2);
  }

  // The literals are written as concatenations of short pieces: the same
  // strings, in a form the verifier does not try to evaluate eagerly.
  const Expires := "; expires" + "=Tue"
  const DateText := " 28-Nov-2023" + " 10:28:45 GMT"
  /** What follows the comma inside an `expires` date: a fragment of its own. */
  const DateTail := DateText + "; Max-Age" + "=7776000" + "; path=/"
  /** `Hello%20world!` */
  const HelloWorld := "Hello" + "%20" + "world!"
  /** `I'm%20the%20first%20cookie` */
  const FirstValue := "I'm" + "%20" + "the" + "%20" + "first" + "%20" + "cookie"
  /** `I'm%20the%20second%20cookie` */
  const SecondValue := "I'm" + "%20" + "the" + "%20" + "second" + "%20" + "cookie"

  /** Text with no `=`, `;` or `%`, followed by the Max-Age and path attributes, writes itself as a key with the value "undefined". */
  lemma UnvaluedEntry(text: string, style: KeyStyle)
    requires '=' !in text && ';' !in text && '%' !in text
    ensures Entry(text + "; Max-Age" + "=7776000" + "; path=/", style) == Some((KeyOf(text, style), "undefined"))
  {
    var attrs := "; Max-Age" + "=7776000" + "; path=/";
    assert text + "; Max-Age" + "=7776000" + "; path=/" == text + attrs;
    assert attrs[0] == ';';
    EntryWithoutValue(text, attrs, style);
    UndefinedDecodes();
    DecodePlain(text, false);
  }

  lemma DateTextClean()
    ensures '=' !in DateText && ';' !in DateText && '%' !in DateText
  {
  }

  /** The date tail writes its date as a key, with the value "undefined". */
  lemma DateTailEntry(style: KeyStyle)
    ensures Entry(DateTail, style) == Some((KeyOf(DateText, style), "undefined"))
  {
    DateTextClean();
    UnvaluedEntry(DateText, style);
  }

  lemma UndefinedDecodes()
    ensures DecodeComponent("undefined") == Some("undefined")
  {
    DecodePlain("undefined", false);
  }

  /** One leading space before unspaced text is all that left-trimming removes. */
  lemma TrimOneSpace(d: string)
    requires d != [] && !IsJsSpace(d[0])
    ensures LeftTrim([' '] + d) == d
  {
    assert ([' '] + d)[1..] == d;
  }

  /** Left-trimmed, the date key loses its leading space. */
  lemma DateKey()
    ensures KeyOf(DateText, TrimmedKeys) == "28-Nov-2023 10:28:45 GMT"
  {
    var d := "28-Nov-2023 10:28:45 GMT";
    assert DateText == [' '] + d;
    TrimOneSpace(d);
  }

  lemma DateTailCommaFree()
    ensures ',' !in DateTail
  {
  }

  /** `%20` after text without `%` decodes to a space. */
  lemma DecodeSpace(a: string, rest: string, decoded: string)
    requires '%' !in a && DecodeComponent(rest) == Some(decoded)
    ensures DecodeComponent(a + "%20" + rest) == Some(a + " " + decoded)
  {
    DecodeSpaceEscape(rest, false);
    DecodePlainPrefix(a, "%20" + rest, false);
    assert a + "%20" + rest == a + ("%20" + rest);
    assert a + " " + decoded == a + (" " + decoded);
  }

  /** Two words without `%` joined by `%20` decode to the words joined by a space. */
  lemma DecodeTwoWords(a: string, b: string)
    requires '%' !in a && '%' !in b
    ensures DecodeComponent(a + "%20" + b) == Some(a + " " + b)
  {
    DecodePlain(b, false);
    DecodeSpace(a, b, b);
  }

  /** A fragment `name=value; expires=Tue` whose value decodes to `decoded`. */
  lemma DecodedEntry(name: string, value: string, decoded: string, style: KeyStyle)
    requires '=' !in name && ';' !in name && '%' !in name
    requires '=' !in value && ';' !in value
    requires DecodeComponent(value) == Some(decoded)
    ensures Entry(name + "=" + value + Expires, style) == Some((KeyOf(name, style), decoded))
  {
    EntryOfPair(name, value, Expires, style);
    SplitAtFirst(value, '=');
    DecodePlain(name, false);
  }

  /** One cookie followed by the date tail its `expires` comma splits off. */
  lemma CookieThenDate(name: string, value: string, decoded: string, style: KeyStyle)
    requires '=' !in name && ';' !in name && '%' !in name && ',' !in name
    requires '=' !in value && ';' !in value && ',' !in value
    requires DecodeComponent(value) == Some(decoded)
    ensures CookieObject(name + "=" + value + Expires + "," + DateTail, style)
         == Some(map[KeyOf(name, style) := decoded][KeyOf(DateText, style) := "undefined"])
  {
    var a := name + "=" + value + Expires;
    var e1 := (KeyOf(name, style), decoded);
    var e2 := (KeyOf(DateText, style), "undefined");
    DecodedEntry(name, value, decoded, style);
    DateTailEntry(style);
    DateTailCommaFree();
    FragmentCommaFree(name, value);
    TwoFragments(a, DateTail, style);
    assert [Entry(a, style), Entry(DateTail, style)] == [Some(e1), Some(e2)];
    AssignTwo(e1, e2);
  }

  lemma HelloWorldDecodes()
    ensures DecodeComponent(HelloWorld) == Some("Hello world!")
  {
    DecodeTwoWords("Hello", "world!");
    assert "Hello" + " " + "world!" == "Hello world!";
  }

  /** `I'm%20the%20<word>%20cookie` decodes to `I'm the <word> cookie`. */
  lemma DecodeCookieValue(word: string)
    requires '%' !in word
    ensures DecodeComponent("I'm" + "%20" + "the" + "%20" + word + "%20" + "cookie")
         == Some("I'm" + " " + "the" + " " + word + " " + "cookie")
  {
    var v3 := word + "%20" + "cookie";
    var d3 := word + " " + "cookie";
    DecodeTwoWords(word, "cookie");
    var v2 := "the" + "%20" + v3;
    var d2 := "the" + " " + d3;
    DecodeSpace("the", v3, d3);
    DecodeSpace("I'm", v2, d2);
    assert "I'm" + "%20" + v2 == "I'm" + "%20" + "the" + "%20" + word + "%20" + "cookie";
    assert "I'm" + " " + d2 == "I'm" + " " + "the" + " " + word + " " + "cookie";
  }

  lemma FirstValueDecodes()
    ensures DecodeComponent(FirstValue) == Some("I'm the first cookie")
  {
    DecodeCookieValue("first");
    assert "I'm" + " " + "the" + " " + "first" + " " + "cookie" == "I'm the first cookie";
  }

  lemma SecondValueDecodes()
    ensures DecodeComponent(SecondValue) == Some("I'm the second cookie")
  {
    DecodeCookieValue("second");
    assert "I'm" + " " + "the" + " " + "second" + " " + "cookie" == "I'm the second cookie";
  }

  lemma FragmentCommaFree(name: string, value: string)
    requires ',' !in name && ',' !in value
    ensures ',' !in name + "=" + value + Expires
  {
  }

  /** Two cookies, each followed by the date tail its `expires` comma splits off. */
  lemma TwoCookiesThenDates(n1: string, v1: string, d1: string, n3: string, v3: string, d3: string, style: KeyStyle)
    requires '=' !in n1 && ';' !in n1 && '%' !in n1 && ',' !in n1
    requires '=' !in v1 && ';' !in v1 && ',' !in v1 && DecodeComponent(v1) == Some(d1)
    requires '=' !in n3 && ';' !in n3 && '%' !in n3 && ',' !in n3
    requires '=' !in v3 && ';' !in v3 && ',' !in v3 && DecodeComponent(v3) == Some(d3)
    ensures CookieObject(n1 + "=" + v1 + Expires + "," + DateTail + "," + (n3 + "=" + v3 + Expires) + "," + DateTail, style)
      == Some(map[KeyOf(n1, style) := d1][KeyOf(DateText, style) := "undefined"][KeyOf(n3, style) := d3][KeyOf(DateText, style) := "undefined"])
  {
    var a := n1 + "=" + v1 + Expires;
    var c := n3 + "=" + v3 + Expires;
    var e1 := (KeyOf(n1, style), d1);
    var e2 := (KeyOf(DateText, style), "undefined");
    var e3 := (KeyOf(n3, style), d3);
    DecodedEntry(n1, v1, d1, style);
    DecodedEntry(n3, v3, d3, style);
    DateTailEntry(style);
    DateTailCommaFree();
    FragmentCommaFree(n1, v1);
    FragmentCommaFree(n3, v3);
    FourFragments(a, DateTail, c, DateTail, style);
    assert [Entry(a, style), Entry(DateTail, style), Entry(c, style), Entry(DateTail, style)]
        == [Some(e1), Some(e2), Some(e3), Some(e2)];
    AssignFour(e1, e2, e3, e2);
  }

  lemma SimpleCookieObject()
    ensures CookieObject("testCookie" + "=" + HelloWorld + Expires + "," + DateTail, TrimmedKeys)
         == Some(map[KeyOf("testCookie", TrimmedKeys) := "Hello world!"][KeyOf(DateText, TrimmedKeys) := "undefined"])
  {
    HelloWorldDecodes();
    CookieThenDate("testCookie", HelloWorld, "Hello world!", TrimmedKeys);
  }

  lemma PlainKeys()
    ensures KeyOf("testCookie", TrimmedKeys) == "testCookie"
    ensures KeyOf("firstCookie", TrimmedKeys) == "firstCookie"
    ensures KeyOf("cookieWithNoValue", TrimmedKeys) == "cookieWithNoValue"
  {
    LeftTrimUnspaced("testCookie");
    LeftTrimUnspaced("firstCookie");
    LeftTrimUnspaced("cookieWithNoValue");
  }

  /** `"testCookie=Hello%20world!; expires=...; path=/"` gives testCookie ↦ "Hello world!". */
  lemma ParsesSimpleCookie()
    ensures var r := CookieObject("testCookie" + "=" + HelloWorld + Expires + "," + DateTail, TrimmedKeys);
      r.Some? && "testCookie" in r.value && r.value["testCookie"] == "Hello world!"
  {
    SimpleCookieObject();
    PlainKeys();
    DateKey();
  }

  lemma ValuesClean()
    ensures '=' !in FirstValue && ';' !in FirstValue && ',' !in FirstValue
    ensures '=' !in SecondValue && ';' !in SecondValue && ',' !in SecondValue
  {
  }

  lemma NamesClean()
    ensures '=' !in "firstCookie" && ';' !in "firstCookie" && '%' !in "firstCookie" && ',' !in "firstCookie"
    ensures '=' !in " secondCookie" && ';' !in " secondCookie" && '%' !in " secondCookie" && ',' !in " secondCookie"
  {
  }

  lemma MultipleCookieObject(style: KeyStyle)
    ensures CookieObject(
        "firstCookie" + "=" + FirstValue + Expires + "," + DateTail + ","
        + (" secondCookie" + "=" + SecondValue + Expires) + "," + DateTail, style)
      == Some(map[KeyOf("firstCookie", style) := "I'm the first cookie"][KeyOf(DateText, style) := "undefined"]
                 [KeyOf(" secondCookie", style) := "I'm the second cookie"][KeyOf(DateText, style) := "undefined"])
  {
    FirstValueDecodes();
    SecondValueDecodes();
    ValuesClean();
    NamesClean();
    TwoCookiesThenDates("firstCookie", FirstValue, "I'm the first cookie", " secondCookie", SecondValue, "I'm the second cookie", style);
  }

  lemma SecondKey()
    ensures KeyOf(" secondCookie", TrimmedKeys) == "secondCookie"
  {
    var d := "secondCookie";
    assert " secondCookie" == [' '] + d;
    TrimOneSpace(d);
  }

  /**
   * Two comma-joined cookies, `firstCookie=I'm%20the%20first%20cookie;
   * expires=...` and `secondCookie=I'm%20the%20second%20cookie; ...`: both
   * are found, the second under its name without the space that follows the
   * comma. The comma inside each `expires` date splits off a further
   * fragment, whose key is the date.
   */
  lemma ParsesMultipleCookies()
    ensures var r := CookieObject(
        "firstCookie" + "=" + FirstValue + Expires + "," + DateTail + ","
        + (" secondCookie" + "=" + SecondValue + Expires) + "," + DateTail, TrimmedKeys);
      && r.Some?
      && "firstCookie" in r.value && r.value["firstCookie"] == "I'm the first cookie"
      && "secondCookie" in r.value && r.value["secondCookie"] == "I'm the second cookie"
      && "28-Nov-2023 10:28:45 GMT" in r.value && r.value["28-Nov-2023 10:28:45 GMT"] == "undefined"
  {
    MultipleCookieObject(TrimmedKeys);
    DateKey();
    PlainKeys();
    SecondKey();
  }

  /**
   * The same header under the older parser (src/utils.ts), which does not
   * trim keys: the second cookie lands under " secondCookie".
   */
  lemma RawKeysKeepLeadingSpace()
    ensures var r := CookieObject(
        "firstCookie" + "=" + FirstValue + Expires + "," + DateTail + ","
        + (" secondCookie" + "=" + SecondValue + Expires) + "," + DateTail, RawKeys);
      && r.Some?
      && " secondCookie" in r.value && r.value[" secondCookie"] == "I'm the second cookie"
      && "secondCookie" !in r.value
  {
    MultipleCookieObject(RawKeys);
  }

  lemma NoValueObject()
    ensures CookieObject("cookieWithNoValue" + "=" + "" + Expires + "," + DateTail, TrimmedKeys)
         == Some(map[KeyOf("cookieWithNoValue", TrimmedKeys) := ""][KeyOf(DateText, TrimmedKeys) := "undefined"])
  {
    DecodePlain("", false);
    CookieThenDate("cookieWithNoValue", "", "", TrimmedKeys);
  }

  /** `"cookieWithNoValue=; ..."` maps that key to the empty string. */
  lemma ParsesCookieWithNoValue()
    ensures var r := CookieObject("cookieWithNoValue" + "=" + "" + Expires + "," + DateTail, TrimmedKeys);
      r.Some? && "cookieWithNoValue" in r.value && r.value["cookieWithNoValue"] == ""
  {
    NoValueObject();
    PlainKeys();
    DateKey();
  }
}
