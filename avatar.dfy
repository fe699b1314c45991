/**
 * The avatar helpers: a colour picked from the sum of the username's
 * UTF-16 code units, the upper-cased first letter, and an SVG picture of
 * the two packed into a `data:` address with encodeURIComponent.
 *
 * JavaScript strings are sequences of UTF-16 code units, while a Dafny
 * `string` is a sequence of Unicode scalar values, so the code units are
 * modelled explicitly: a character at or above U+10000 is two units, a
 * surrogate pair.
 */
module Avatar {
  import opened Wrappers
  import opened Strings

  /** A UTF-16 code unit. */
  type Unit = n: int | 0 <= n < 0x1_0000

  /** A byte of a UTF-8 encoding. */
  type Byte = n: int | 0 <= n < 0x100

  predicate IsHighSurrogate(u: int) { 0xD800 <= u < 0xDC00 }

  predicate IsLowSurrogate(u: int) { 0xDC00 <= u < 0xE000 }

  /** The code point a high and a low surrogate stand for together. */
  function PairValue(high: int, low: int): int {
    0x1_0000 + (high - 0xD800) * 0x400 + (low - 0xDC00)
  }

  /** A character's UTF-16 code units: itself below U+10000, a surrogate pair from there on. */
  function CharUnits(c: char): (r: seq<Unit>)
    ensures |r| == 1 <==> c as int < 0x1_0000
    ensures |r| == 1 ==> r[0] == c as int && !IsHighSurrogate(r[0]) && !IsLowSurrogate(r[0])
    ensures |r| != 1 ==> (|r| == 2 && IsHighSurrogate(r[0]) && IsLowSurrogate(r[1]) &&
      PairValue(r[0], r[1]) == c as int)
  {
    if c as int < 0x1_0000 then [c as int]
    else
      var v := c as int - 0x1_0000;
      [0xD800 + v / 0x400, 0xDC00 + v % 0x400]
  }

  /** The code units of a string, as `length`, `charCodeAt` and `charAt` see them. */
  function Utf16(s: string): seq<Unit> {
    if s == [] then [] else CharUnits(s[0]) + Utf16(s[1..])
  }

  lemma {:induction false} Utf16Append(a: string, b: string)
    ensures Utf16(a + b) == Utf16(a) + Utf16(b)
  {
    if a != [] {
      assert (a + b)[1..] == a[1..] + b;
      Utf16Append(a[1..], b);
    } else {
      assert a + b == b;
    }
  }

  /* ---------------------------------------------------------------- colour */

  /** The nine colours, indigo first. */
  const Colors: seq<string> := [
    "#8B5CF6", "#EC4899", "#F97316", "#22C55E", "#06B6D4",
    "#3B82F6", "#D946EF", "#F59E0B", "#64748B"
  ]

  /** The sum of a sequence of code units. */
  function UnitSum(units: seq<Unit>): nat {
    if units == [] then 0 else UnitSum(units[..|units| - 1]) + units[|units| - 1]
  }

  lemma {:induction false} UnitSumAppend(a: seq<Unit>, b: seq<Unit>)
    ensures UnitSum(a + b) == UnitSum(a) + UnitSum(b)
    decreases |b|
  {
    if b != [] {
      assert (a + b)[..|a + b| - 1] == a + b[..|b| - 1];
      assert (a + b)[|a + b| - 1] == b[|b| - 1];
      UnitSumAppend(a, b[..|b| - 1]);
    } else {
      assert a + b == a;
    }
  }

  /** The colour of a username: the sum of its code units, modulo the number of colours, indexes the table. */
  function UsernameColor(username: string): (color: string)
    ensures color in Colors
  {
    Colors[UnitSum(Utf16(username)) % |Colors|]
  }

  /** getUsernameColor: the loop adds up `charCodeAt(i)` over the name's code units. */
  method GetUsernameColor(username: string) returns (color: string)
    ensures color == UsernameColor(username)
    ensures color in Colors
  {
    var units := Utf16(username);
    var hashValue := 0;
    for i := 0 to |units|
      invariant hashValue == UnitSum(units[..i])
    {
      assert units[..i + 1][..i] == units[..i];
      hashValue := hashValue + units[i];
    }
    assert units[..|units|] == units;
    var colorIndex := hashValue % |Colors|;
    color := Colors[colorIndex];
  }

  /** The empty name sums to 0 and gets the first colour. */
  lemma EmptyNameColor()
    ensures UsernameColor("") == "#8B5CF6"
  {
  }

  /** The code units of a string sum to those of its first character plus those of the rest. */
  lemma Utf16SumFront(s: string)
    requires s != []
    ensures UnitSum(Utf16(s)) == UnitSum(CharUnits(s[0])) + UnitSum(Utf16(s[1..]))
  {
    UnitSumAppend(CharUnits(s[0]), Utf16(s[1..]));
  }

  /** Taking a character out of two strings with the same characters leaves two with the same characters. */
  lemma RemoveOne(a: string, b: string, j: int)
    requires multiset(a) == multiset(b) && a != [] && 0 <= j < |b| && b[j] == a[0]
    ensures multiset(a[1..]) == multiset(b[..j] + b[j + 1..])
  {
    assert b == b[..j] + [b[j]] + b[j + 1..];
    assert a == [a[0]] + a[1..];
    calc {
      multiset(a[1..]);
      multiset(a) - multiset{a[0]};
      multiset(b) - multiset{b[j]};
      multiset(b[..j]) + multiset(b[j + 1..]);
      multiset(b[..j] + b[j + 1..]);
    }
  }

  /** A string's code units are those before one of its characters, that character's, and those after. */
  lemma Utf16Split(b: string, j: int)
    requires 0 <= j < |b|
    ensures Utf16(b) == Utf16(b[..j]) + (CharUnits(b[j]) + Utf16(b[j + 1..]))
    ensures Utf16(b[..j] + b[j + 1..]) == Utf16(b[..j]) + Utf16(b[j + 1..])
  {
    assert b == b[..j] + b[j..];
    Utf16Append(b[..j], b[j..]);
    assert b[j..][1..] == b[j + 1..];
    Utf16Append(b[..j], b[j + 1..]);
  }

  lemma SumOfThree(x: seq<Unit>, u: seq<Unit>, y: seq<Unit>)
    ensures UnitSum(x + (u + y)) == UnitSum(x) + UnitSum(u) + UnitSum(y)
  {
    UnitSumAppend(x, u + y);
    UnitSumAppend(u, y);
  }

  /** The code units of a string sum to those of any one of its characters plus those of the others. */
  lemma SumWithout(b: string, j: int)
    requires 0 <= j < |b|
    ensures UnitSum(Utf16(b)) == UnitSum(CharUnits(b[j])) + UnitSum(Utf16(b[..j] + b[j + 1..]))
  {
    Utf16Split(b, j);
    SumOfThree(Utf16(b[..j]), CharUnits(b[j]), Utf16(b[j + 1..]));
    UnitSumAppend(Utf16(b[..j]), Utf16(b[j + 1..]));
  }

  /** The hash does not depend on the order of the characters. */
  lemma {:induction false} UnitSumPermutation(a: string, b: string)
    requires multiset(a) == multiset(b)
    ensures UnitSum(Utf16(a)) == UnitSum(Utf16(b))
    decreases |a|
  {
    if a == [] {
      assert |b| == |multiset(b)| == 0;
    } else {
      assert a[0] in multiset(b);
      var j :| 0 <= j < |b| && b[j] == a[0];
      var rest := b[..j] + b[j + 1..];
      RemoveOne(a, b, j);
      UnitSumPermutation(a[1..], rest);
      SumWithout(b, j);
      Utf16SumFront(a);
    }
  }

  /** Two names made of the same characters in another order get the same colour. */
  lemma SameLettersSameColor(a: string, b: string)
    requires multiset(a) == multiset(b)
    ensures UsernameColor(a) == UsernameColor(b)
  {
    UnitSumPermutation(a, b);
  }

  /* --------------------------------------------------------------- initial */

  /** `toUpperCase` on one code unit: the ASCII small letters map to their capitals. */
  function UpperUnit(u: Unit): (r: Unit)
    ensures 'a' as int <= u <= 'z' as int ==> r == u - 32
    ensures !('a' as int <= u <= 'z' as int) ==> r == u
  {
    if 'a' as int <= u <= 'z' as int then u - 32 else u
  }

  /**
   * getUserInitial as written: "?" for the empty name, otherwise
   * `charAt(0)` upper-cased, one code unit. A name that starts at or above
   * U+10000 gives the first half of a surrogate pair, alone.
   */
  function UserInitialUnits(username: string): (r: seq<Unit>)
    ensures username == "" ==> r == Utf16("?")
    ensures username != "" && username[0] as int < 0x1_0000 ==> r == Utf16([UpperChar(username[0])])
    ensures username != "" && username[0] as int >= 0x1_0000 ==> |r| == 1 && IsHighSurrogate(r[0])
  {
    if username == "" then [('?' as int)]
    else [UpperUnit(Utf16(username)[0])]
  }

  /** getUserInitial with the first character taken whole: "?" for the empty name, else that character upper-cased. */
  function UserInitial(username: string): (r: string)
    ensures username == "" ==> r == "?"
    ensures username != "" ==> r == [UpperChar(username[0])]
    ensures username != "" && username[0] as int < 0x1_0000 ==> Utf16(r) == UserInitialUnits(username)
  {
    if username == "" then "?" else [UpperChar(username[0])]
  }

  /* -------------------------------------------------------------- encoding */

  const HexDigits: string := "0123456789ABCDEF"

  /** A byte as `%` and two upper-case hexadecimal digits. */
  function PercentByte(b: Byte): (r: string)
    ensures |r| == 3 && r[0] == '%'
    ensures UriSafe(r)
  {
    assert forall k :: 0 <= k < |HexDigits| ==> Unreserved(HexDigits[k]);
    ['%', HexDigits[b / 16], HexDigits[b % 16]]
  }

  function PercentBytes(bs: seq<Byte>): (r: string)
    ensures |r| == 3 * |bs|
    ensures UriSafe(r)
  {
    if bs == [] then "" else PercentByte(bs[0]) + PercentBytes(bs[1..])
  }

  /** The UTF-8 encoding of a code point: one to four bytes. */
  function Utf8(cp: int): (r: seq<Byte>)
    requires 0 <= cp < 0x11_0000
    ensures 1 <= |r| <= 4
    ensures |r| == 1 <==> cp < 0x80
    ensures |r| == 1 ==> r[0] == cp
  {
    if cp < 0x80 then [cp]
    else if cp < 0x800 then [0xC0 + cp / 0x40, 0x80 + cp % 0x40]
    else if cp < 0x1_0000 then [0xE0 + cp / 0x1000, 0x80 + (cp / 0x40) % 0x40, 0x80 + cp % 0x40]
    else [0xF0 + cp / 0x4_0000, 0x80 + (cp / 0x1000) % 0x40, 0x80 + (cp / 0x40) % 0x40, 0x80 + cp % 0x40]
  }

  /** The characters encodeURIComponent leaves as they are. */
  predicate Unreserved(c: char) {
    || 'A' <= c <= 'Z' || 'a' <= c <= 'z' || '0' <= c <= '9'
    || c == '-' || c == '_' || c == '.' || c == '!' || c == '~' || c == '*' || c == '\'' || c == '(' || c == ')'
  }

  /** Text encodeURIComponent can produce: unreserved characters and `%`. */
  predicate UriSafe(s: string) {
    forall i :: 0 <= i < |s| ==> Unreserved(s[i]) || s[i] == '%'
  }

  /** One code point: itself when unreserved, otherwise its UTF-8 bytes percent-encoded. */
  function EncodeCodePoint(cp: int): (r: string)
    requires 0 <= cp < 0x11_0000
    ensures cp < 0x80 && Unreserved(cp as char) ==> r == [cp as char]
    ensures !(cp < 0x80 && Unreserved(cp as char)) ==> r == PercentBytes(Utf8(cp))
    ensures UriSafe(r)
  {
    if cp < 0x80 && Unreserved(cp as char) then [cp as char] else PercentBytes(Utf8(cp))
  }

  /**
   * encodeURIComponent on a sequence of code units. A surrogate pair is
   * encoded as the code point it stands for; a surrogate without its
   * partner is a URIError, here None.
   */
  function EncodeUnits(units: seq<Unit>): (r: Option<string>)
    ensures units == [] ==> r == Some("")
    ensures |units| > 0 && IsLowSurrogate(units[0]) ==> r.None?
    ensures r.Some? ==> UriSafe(r.value) && |r.value| >= |units|
    decreases |units|
  {
    if units == [] then Some("")
    else if IsLowSurrogate(units[0]) then None
    else if IsHighSurrogate(units[0]) then
      if |units| >= 2 && IsLowSurrogate(units[1]) then
        var rest := EncodeUnits(units[2..]);
        if rest.None? then None
        else Some(EncodeCodePoint(PairValue(units[0], units[1])) + rest.value)
      else None
    else
      var rest := EncodeUnits(units[1..]);
      if rest.None? then None else Some(EncodeCodePoint(units[0]) + rest.value)
  }

  /** encodeURIComponent on a well-formed string, character by character. */
  function EncodeString(s: string): (r: string)
    ensures UriSafe(r) && |r| >= |s|
  {
    if s == [] then "" else EncodeCodePoint(s[0] as int) + EncodeString(s[1..])
  }

  /**
   * One character's code units followed by any others encode as the
   * character does, followed by the encoding of the others.
   */
  lemma EncodeCharUnits(c: char, rest: seq<Unit>)
    ensures EncodeUnits(CharUnits(c) + rest) ==
      if EncodeUnits(rest).None? then None else Some(EncodeCodePoint(c as int) + EncodeUnits(rest).value)
  {
    var u := CharUnits(c);
    assert (u + rest)[0] == u[0];
    if |u| == 1 {
      assert (u + rest)[1..] == rest;
    } else {
      assert (u + rest)[1] == u[1];
      assert (u + rest)[2..] == rest;
    }
  }

  /** Concatenation regrouped; kept as a lemma so that EncodeUtf16 does not reason about sequence equality itself. */
  lemma Associative(x: string, y: string, z: string)
    ensures x + (y + z) == (x + y) + z
  {
  }

  /**
   * The code units of a string followed by any others encode as the string
   * does, followed by the encoding of the others.
   */
  lemma {:induction false} EncodeUtf16(s: string, rest: seq<Unit>)
    ensures EncodeUnits(Utf16(s) + rest) ==
      if EncodeUnits(rest).None? then None else Some(EncodeString(s) + EncodeUnits(rest).value)
  {
    if s == [] {
      assert Utf16(s) + rest == rest;
      if EncodeUnits(rest).Some? {
        assert EncodeString(s) + EncodeUnits(rest).value == EncodeUnits(rest).value;
      }
    } else {
      var tail := Utf16(s[1..]) + rest;
      EncodeUtf16(s[1..], rest);
      assert Utf16(s) + rest == CharUnits(s[0]) + tail;
      EncodeCharUnits(s[0], tail);
      if EncodeUnits(rest).Some? {
        var c := EncodeCodePoint(s[0] as int);
        var r := EncodeUnits(rest).value;
        assert EncodeUnits(tail) == Some(EncodeString(s[1..]) + r);
        assert EncodeString(s) == c + EncodeString(s[1..]);
        Associative(c, EncodeString(s[1..]), r);
      }
    }
  }

  /** A string's own code units never fail to encode. */
  lemma EncodesWellFormed(s: string)
    ensures EncodeUnits(Utf16(s)) == Some(EncodeString(s))
  {
    EncodeUtf16(s, []);
    assert Utf16(s) + [] == Utf16(s);
  }

  /** A high surrogate followed by the code units of any string is a URIError: no string's units start with a low surrogate. */
  lemma LoneHighSurrogate(high: Unit, s: string)
    requires IsHighSurrogate(high)
    ensures EncodeUnits([high] + Utf16(s)).None?
  {
    if s != [] {
      assert ([high] + Utf16(s))[1] == CharUnits(s[0])[0];
    }
  }

  lemma {:induction false} EncodeStringAppend(a: string, b: string)
    ensures EncodeString(a + b) == EncodeString(a) + EncodeString(b)
  {
    if a == [] {
      assert a + b == b;
    } else {
      assert (a + b)[1..] == a[1..] + b;
      EncodeStringAppend(a[1..], b);
    }
  }

  /** A string of unreserved characters encodes to itself. */
  lemma {:induction false} EncodeUnreserved(s: string)
    requires forall i :: 0 <= i < |s| ==> Unreserved(s[i])
    ensures EncodeString(s) == s
  {
    if s != [] {
      EncodeUnreserved(s[1..]);
    }
  }

  /** `#` and six upper-case hexadecimal digits. */
  predicate IsHexColor(color: string) {
    |color| == 7 && color[0] == '#' &&
    forall i :: 1 <= i < 7 ==> '0' <= color[i] <= '9' || 'A' <= color[i] <= 'F'
  }

  lemma ColorsAreHex()
    ensures forall i :: 0 <= i < |Colors| ==> IsHexColor(Colors[i])
  {
  }

  /** `#` is reserved: it is written `%23`. */
  lemma EncodeHash()
    ensures EncodeCodePoint('#' as int) == "%23"
  {
    assert !Unreserved('#');
    assert Utf8('#' as int) == [0x23];
  }

  /** A hexadecimal colour encodes as `%23` and its digits unchanged. */
  lemma EncodeColor(color: string)
    requires IsHexColor(color)
    ensures EncodeString(color) == "%23" + color[1..]
  {
    var digits := color[1..];
    assert forall i :: 0 <= i < |digits| ==> Unreserved(digits[i]) by {
      forall i | 0 <= i < |digits|
        ensures Unreserved(digits[i])
      {
        assert digits[i] == color[i + 1];
      }
    }
    EncodeUnreserved(digits);
    EncodeHash();
  }

  /* ---------------------------------------------------------------- avatar */

  const UrlPrefix: string := "data:image/svg+xml;utf8,"

  /** The text of the picture around the fill colour and the letter. */
  datatype Template = Template(head: string, middle: string, tail: string)

  /** The picture of generateAvatarUrl, whitespace included. */
  const Picture: Template := Template(
    "\n    <svg xmlns=\"http://www.w3.org/2000/svg\" viewBox=\"0 0 80 80\">\n      <rect width=\"80\" height=\"80\" fill=\"",
    "\" />\n      <text x=\"50%\" y=\"50%\" dy=\".1em\" \n        fill=\"white\" \n        font-size=\"40\" \n"
    + "        font-weight=\"bold\" \n        text-anchor=\"middle\" \n        dominant-baseline=\"middle\"\n"
    + "        font-family=\"Arial, sans-serif\">\n        ",
    "\n      </text>\n    </svg>\n  ")

  /** The picture filled in with the colour and the initial as written, in code units. */
  function PictureUnits(t: Template, username: string): seq<Unit> {
    Utf16(t.head + UsernameColor(username) + t.middle) + UserInitialUnits(username) + Utf16(t.tail)
  }

  /** The address for a picture as written; None stands for the URIError encodeURIComponent throws. */
  function UrlAsWritten(t: Template, username: string): (r: Option<string>)
    ensures r.Some? ==> UrlPrefix <= r.value
  {
    var encoded := EncodeUnits(PictureUnits(t, username));
    if encoded.None? then None else Some(UrlPrefix + encoded.value)
  }

  /** The address for a picture whose initial is a whole character. */
  function UrlCorrected(t: Template, username: string): (r: string)
    ensures UrlPrefix <= r
  {
    UrlPrefix + EncodeString(t.head + UsernameColor(username) + t.middle + UserInitial(username) + t.tail)
  }

  /** generateAvatarUrl as written. */
  function GenerateAvatarUrl(username: string): (r: Option<string>)
    ensures r.Some? ==> UrlPrefix <= r.value
  {
    UrlAsWritten(Picture, username)
  }

  /** generateAvatarUrl with the initial taken as a whole character: always an address. */
  function GenerateAvatarUrlCorrected(username: string): (r: string)
    ensures UrlPrefix <= r
  {
    UrlCorrected(Picture, username)
  }

  lemma UrlAgrees(t: Template, username: string)
    requires username == "" || username[0] as int < 0x1_0000
    ensures UrlAsWritten(t, username) == Some(UrlCorrected(t, username))
  {
    var front := t.head + UsernameColor(username) + t.middle;
    var initial := UserInitial(username);
    Utf16Append(front, initial);
    Utf16Append(front + initial, t.tail);
    assert PictureUnits(t, username) == Utf16(front + initial + t.tail);
    EncodesWellFormed(front + initial + t.tail);
  }

  lemma UrlFails(t: Template, username: string)
    requires username != "" && username[0] as int >= 0x1_0000
    ensures UrlAsWritten(t, username).None?
  {
    var front := t.head + UsernameColor(username) + t.middle;
    var half := UserInitialUnits(username);
    assert PictureUnits(t, username) == Utf16(front) + ([half[0]] + Utf16(t.tail));
    LoneHighSurrogate(half[0], t.tail);
    EncodeUtf16(front, [half[0]] + Utf16(t.tail));
  }

  /** A hexadecimal colour between two texts is encoded as `%23` and its digits, between the texts' encodings. */
  lemma FillShape(head: string, color: string, rest: string)
    requires IsHexColor(color)
    ensures EncodeString(head + color + rest) == EncodeString(head) + ("%23" + color[1..]) + EncodeString(rest)
  {
    EncodeStringAppend(head + color, rest);
    EncodeStringAppend(head, color);
    EncodeColor(color);
  }

  lemma UrlShape(t: Template, username: string)
    ensures UrlCorrected(t, username) ==
      UrlPrefix + (EncodeString(t.head) + ("%23" + UsernameColor(username)[1..]) +
      EncodeString(t.middle + UserInitial(username) + t.tail))
  {
    var color := UsernameColor(username);
    var rest := t.middle + UserInitial(username) + t.tail;
    assert t.head + color + t.middle + UserInitial(username) + t.tail == t.head + color + rest;
    ColorsAreHex();
    FillShape(t.head, color, rest);
  }

  /** The two agree on every name that starts below U+10000, the empty name included. */
  lemma AvatarUrlAgrees(username: string)
    requires username == "" || username[0] as int < 0x1_0000
    ensures GenerateAvatarUrl(username) == Some(GenerateAvatarUrlCorrected(username))
  {
    UrlAgrees(Picture, username);
  }

  /**
   * A name that starts at or above U+10000, an emoji for instance, makes the
   * as-written address fail: its initial is half a surrogate pair.
   */
  lemma AvatarUrlFailsOnAstralInitial(username: string)
    requires username != "" && username[0] as int >= 0x1_0000
    ensures GenerateAvatarUrl(username).None?
  {
    UrlFails(Picture, username);
  }

  /**
   * The corrected address is the prefix, the encoded text up to the fill,
   * the colour with its `#` written `%23`, then the encoded rest.
   */
  lemma AvatarUrlShape(username: string)
    ensures GenerateAvatarUrlCorrected(username) ==
      UrlPrefix + (EncodeString(Picture.head) + ("%23" + UsernameColor(username)[1..]) +
      EncodeString(Picture.middle + UserInitial(username) + Picture.tail))
  {
    UrlShape(Picture, username);
  }
}
