/**
  dismob/colors.py: turning a user-supplied colour string into a discord colour. A known colour
  name (any case, surrounding whitespace ignored) gives that named colour; otherwise the string
  is read as three or six hexadecimal digits, with or without one leading '#'; anything else
  gives blurple and one warning.
*/
module Colors {
  import opened Wrappers
  import opened Logging

  /** The colour names discord.Colour offers as factory methods. */
  const KnownColors: set<string> := {
    "teal", "dark_teal", "brand_green", "green", "dark_green",
    "blue", "dark_blue", "purple", "dark_purple", "magenta",
    "dark_magenta", "gold", "dark_gold", "orange", "dark_orange",
    "brand_red", "red", "dark_red", "lighter_grey", "lighter_gray",
    "dark_grey", "dark_gray", "light_grey", "light_gray", "darker_grey",
    "darker_gray", "og_blurple", "blurple", "greyple", "dark_theme",
    "fuchsia", "yellow", "dark_embed", "light_embed", "pink", "dark_pink"
  }

  /** A discord colour: one of the named factory colours, or a colour built from an integer. */
  datatype Colour = Named(name: string) | Rgb(value: int)

  /** discord.Colour.blurple(), the fallback. */
  const DefaultColour: Colour := Named("blurple")

  // ---------------------------------------------------------------------------------------
  // Character classes and string helpers

  /** str.isspace for one character. */
  predicate IsSpace(c: char) {
    || c == ' ' || '\t' <= c <= '\r' || '\U{1c}' <= c <= '\U{1f}' || c == '\U{85}' || c == '\U{a0}'
    || c == '\U{1680}' || '\U{2000}' <= c <= '\U{200a}' || c == '\U{2028}' || c == '\U{2029}'
    || c == '\U{202f}' || c == '\U{205f}' || c == '\U{3000}'
  }

  /**
    The whitespace int() skips around a number: ASCII blank, tab, line feed, vertical tab, form
    feed, carriage return, and every non-ASCII character str.isspace accepts.
  */
  predicate IsIntSpace(c: char) {
    c == ' ' || '\t' <= c <= '\r' || (c as int >= 128 && IsSpace(c))
  }

  predicate IsHexDigit(c: char) {
    '0' <= c <= '9' || 'a' <= c <= 'f' || 'A' <= c <= 'F'
  }

  predicate AllHexDigits(s: string) {
    forall i :: 0 <= i < |s| ==> IsHexDigit(s[i])
  }

  predicate AllSpace(s: string) {
    forall i :: 0 <= i < |s| ==> IsSpace(s[i])
  }

  function TrimStart(s: string, ws: char -> bool): string
    decreases |s|
  {
    if |s| > 0 && ws(s[0]) then TrimStart(s[1..], ws) else s
  }

  function TrimEnd(s: string, ws: char -> bool): string
    decreases |s|
  {
    if |s| > 0 && ws(s[|s| - 1]) then TrimEnd(s[..|s| - 1], ws) else s
  }

  /** Remove the characters `ws` accepts from both ends (str.strip for ws = IsSpace). */
  function Strip(s: string, ws: char -> bool): string {
    TrimEnd(TrimStart(s, ws), ws)
  }

  function LowerChar(c: char): char {
    if 'A' <= c <= 'Z' then (c as int + 32) as char else c
  }

  /** str.lower, restricted to ASCII letters. */
  function Lower(s: string): string {
    seq(|s|, i requires 0 <= i < |s| => LowerChar(s[i]))
  }

  /** `''.join([c*2 for c in s])`: every character doubled in place. */
  function Expand(s: string): (r: string)
    ensures |r| == 2 * |s|
    ensures forall k :: 0 <= k < |s| ==> r[2 * k] == s[k] && r[2 * k + 1] == s[k]
  {
    if s == [] then [] else [s[0], s[0]] + Expand(s[1..])
  }

  // ---------------------------------------------------------------------------------------
  // int(s, 16)

  function DigitValue(c: char): (d: nat)
    requires IsHexDigit(c)
    ensures d < 16
  {
    if '0' <= c <= '9' then c as int - '0' as int
    else if 'a' <= c <= 'f' then c as int - 'a' as int + 10
    else c as int - 'A' as int + 10
  }

  /** The value of a string of hexadecimal digits, most significant first. */
  function HexValue(s: string): nat
    requires AllHexDigits(s)
    decreases |s|
  {
    if s == [] then 0 else HexValue(s[..|s| - 1]) * 16 + DigitValue(s[|s| - 1])
  }

  /** Digits as int(_, 16) accepts them: hex digits, with single underscores between two digits. */
  predicate WellSeparated(s: string) {
    && |s| > 0 && IsHexDigit(s[0]) && IsHexDigit(s[|s| - 1])
    && (forall i :: 0 <= i < |s| ==> IsHexDigit(s[i]) || s[i] == '_')
    && (forall i :: 0 <= i < |s| - 1 ==> s[i] != '_' || s[i + 1] != '_')
  }

  function Unseparated(s: string): (r: string)
    requires forall i :: 0 <= i < |s| ==> IsHexDigit(s[i]) || s[i] == '_'
    ensures AllHexDigits(r)
  {
    if s == [] then [] else (if s[0] == '_' then [] else [s[0]]) + Unseparated(s[1..])
  }

  /** The text after an optional leading sign. */
  function Unsigned(t: string): string {
    if |t| > 0 && (t[0] == '+' || t[0] == '-') then t[1..] else t
  }

  /** The digits after an optional 0x/0X prefix and the one underscore allowed right after it. */
  function Unprefixed(u: string): string {
    if |u| >= 2 && u[0] == '0' && (u[1] == 'x' || u[1] == 'X') then
      (if |u| >= 3 && u[2] == '_' then u[3..] else u[2..])
    else u
  }

  /**
    Python's int(s, 16) on ASCII input: surrounding whitespace, an optional sign, an optional
    0x/0X prefix (which may be followed by one underscore), then hexadecimal digits that single
    underscores may separate. None stands for the ValueError.
  */
  function PyInt16(s: string): (r: Option<int>)
  {
    var t := Strip(s, IsIntSpace);
    var digits := Unprefixed(Unsigned(t));
    if WellSeparated(digits) then
      var magnitude: int := HexValue(Unseparated(digits));
      Some(if |t| > 0 && t[0] == '-' then -magnitude else magnitude)
    else None
  }

  // ---------------------------------------------------------------------------------------
  // str_to_color

  function WarningText(colorStr: string): string {
    "Invalid color string '" + colorStr + "', using default color (blurple)."
  }

  /** `color_str[1:]` when it starts with '#': only one '#' is removed. */
  function Unhash(s: string): string {
    if |s| > 0 && s[0] == '#' then s[1..] else s
  }

  /** The text handed to int(): three characters are doubled, any other length is kept. */
  function HexCandidate(s: string): string {
    var unhashed := Unhash(s);
    if |unhashed| == 3 then Expand(unhashed) else unhashed
  }

  /**
    str_to_color, with `setUp` telling whether setup_logger has run. A parse failure never
    escapes; the only exception is the logging guard's, and only on the fallback path. The
    fallback, and only the fallback, returns blurple together with exactly one warning.
  */
  function StrToColor(setUp: bool, colorStr: string): (r: Logged<Colour>)
    ensures r.exit.Raised? ==> !setUp && r.exit.error == LoggerNotSetUp
    ensures |r.log| <= 1
    ensures r.log != [] ==> r.log[0].level == WARNING && r.exit == Returned(DefaultColour)
    ensures r.log != [] ==> r.log[0].msg == WarningText(HexCandidate(Strip(colorStr, IsSpace)))
    ensures r.exit.Returned? && r.exit.value.Named? ==> r.exit.value.name in KnownColors
    ensures setUp ==>
      (r.log != [] <==> r.exit == Returned(DefaultColour) && Lower(Strip(colorStr, IsSpace)) != "blurple")
  {
    var s := Strip(colorStr, IsSpace);
    var name := Lower(s);
    if name in KnownColors then
      Logged([], Returned(Named(name)))
    else
      var candidate := HexCandidate(s);
      var parsed := PyInt16(candidate);
      if |candidate| == 6 && parsed.Some? then
        Logged([], Returned(Rgb(parsed.value)))
      else
        Guard(setUp, Entry(WARNING, WarningText(candidate), false), DefaultColour)
  }

  // ---------------------------------------------------------------------------------------
  // Facts about the helpers

  lemma KnownNameShape(n: string)
    requires n in KnownColors
    ensures |n| >= 3 && 'a' <= n[0] <= 'z' && 'a' <= n[|n| - 1] <= 'z'
    ensures !(IsHexDigit(n[0]) && IsHexDigit(n[1]) && IsHexDigit(n[2]))
  {
  }

  lemma {:induction false} TrimStartPadded(pre: string, rest: string, ws: char -> bool)
    requires forall i :: 0 <= i < |pre| ==> ws(pre[i])
    requires rest == [] || !ws(rest[0])
    ensures TrimStart(pre + rest, ws) == rest
  {
    if pre == [] {
      assert pre + rest == rest;
    } else {
      assert (pre + rest)[1..] == pre[1..] + rest;
      TrimStartPadded(pre[1..], rest, ws);
    }
  }

  lemma {:induction false} TrimEndPadded(rest: string, post: string, ws: char -> bool)
    requires forall i :: 0 <= i < |post| ==> ws(post[i])
    requires rest == [] || !ws(rest[|rest| - 1])
    ensures TrimEnd(rest + post, ws) == rest
  {
    if post == [] {
      assert rest + post == rest;
    } else {
      var shorter := post[..|post| - 1];
      assert (rest + post)[..|rest + post| - 1] == rest + shorter;
      TrimEndPadded(rest, shorter, ws);
    }
  }

  /** Stripping removes exactly the padding around a core that neither starts nor ends with it. */
  lemma StripPadded(pre: string, core: string, post: string, ws: char -> bool)
    requires forall i :: 0 <= i < |pre| ==> ws(pre[i])
    requires forall i :: 0 <= i < |post| ==> ws(post[i])
    requires core != [] && !ws(core[0]) && !ws(core[|core| - 1])
    ensures Strip(pre + core + post, ws) == core
  {
    assert pre + core + post == pre + (core + post);
    TrimStartPadded(pre, core + post, ws);
    TrimEndPadded(core, post, ws);
  }

  lemma {:induction false} UnseparatedPlain(s: string)
    requires AllHexDigits(s)
    ensures Unseparated(s) == s
  {
    if s != [] {
      UnseparatedPlain(s[1..]);
      assert s == [s[0]] + s[1..];
    }
  }

  /** On a non-empty string of hex digits, int(s, 16) is the plain hexadecimal value. */
  lemma PyInt16OfDigits(s: string)
    requires |s| > 0 && AllHexDigits(s)
    ensures PyInt16(s) == Some(HexValue(s))
  {
    assert !IsIntSpace(s[0]) && !IsIntSpace(s[|s| - 1]);
    assert TrimStart(s, IsIntSpace) == s;
    assert TrimEnd(s, IsIntSpace) == s;
    assert Unsigned(s) == s by {
      assert s[0] != '+' && s[0] != '-';
    }
    assert Unprefixed(s) == s by {
      if |s| >= 2 {
        assert s[1] != 'x' && s[1] != 'X';
      }
    }
    assert WellSeparated(s);
    UnseparatedPlain(s);
  }

  lemma HexValueLast(s: string, c: char)
    requires AllHexDigits(s) && IsHexDigit(c)
    ensures AllHexDigits(s + [c]) && HexValue(s + [c]) == HexValue(s) * 16 + DigitValue(c)
  {
    assert (s + [c])[..|s|] == s;
  }

  function Pow16(n: nat): nat {
    if n == 0 then 1 else 16 * Pow16(n - 1)
  }

  /** n hexadecimal digits never denote more than 16^n - 1. */
  lemma {:induction false} HexValueBound(s: string)
    requires AllHexDigits(s)
    ensures HexValue(s) < Pow16(|s|)
  {
    if s != [] {
      HexValueBound(s[..|s| - 1]);
    }
  }

  /** The lower-case hex digit of a value below 16. */
  function HexChar(d: nat): (c: char)
    requires d < 16
    ensures IsHexDigit(c) && DigitValue(c) == d
  {
    if d < 10 then ('0' as int + d) as char else ('a' as int + d - 10) as char
  }

  /** `v` written with exactly `n` hexadecimal digits, as in `f"{v:0{n}x}"`. */
  function ToHex(v: nat, n: nat): (s: string)
    ensures |s| == n && AllHexDigits(s)
  {
    if n == 0 then [] else ToHex(v / 16, n - 1) + [HexChar(v % 16)]
  }

  /** Reading back the digits ToHex writes gives the value, as long as it fits in n digits. */
  lemma {:induction false} HexValueOfToHex(v: nat, n: nat)
    requires v < Pow16(n)
    ensures HexValue(ToHex(v, n)) == v
  {
    if n > 0 {
      assert v / 16 < Pow16(n - 1);
      HexValueOfToHex(v / 16, n - 1);
      HexValueLast(ToHex(v / 16, n - 1), HexChar(v % 16));
    }
  }

  /** An all-hex-digit string is never a colour name, in any case. */
  lemma HexIsNoName(h: string)
    requires |h| >= 3 && AllHexDigits(h)
    ensures Lower(h) !in KnownColors
  {
    var l := Lower(h);
    assert IsHexDigit(l[0]) && IsHexDigit(l[1]) && IsHexDigit(l[2]);
    if l in KnownColors {
      KnownNameShape(l);
    }
  }

  /** A string starting with '#' is never a colour name. */
  lemma HashIsNoName(s: string)
    requires |s| > 0 && s[0] == '#'
    ensures Lower(s) !in KnownColors
  {
    var l := Lower(s);
    assert l[0] == '#';
    if l in KnownColors {
      KnownNameShape(l);
    }
  }

  // ---------------------------------------------------------------------------------------
  // Properties of str_to_color

  /**
    Surrounding whitespace is ignored and names match in any case: a known colour name comes
    back as that named colour, before any hex parsing and without a warning.
  */
  lemma NamedColourLookup(setUp: bool, pre: string, word: string, post: string)
    requires AllSpace(pre) && AllSpace(post)
    requires Lower(word) in KnownColors
    ensures StrToColor(setUp, pre + word + post) == Logged([], Returned(Named(Lower(word))))
  {
    KnownNameShape(Lower(word));
    assert LowerChar(word[0]) == Lower(word)[0];
    assert LowerChar(word[|word| - 1]) == Lower(word)[|word| - 1];
    StripPadded(pre, word, post, IsSpace);
  }

  /** The hex text of `h` as written: optionally after one '#'. */
  function HashedIf(hash: bool, h: string): string {
    if hash then "#" + h else h
  }

  /** The core of the two hex lemmas: the trimmed text is `h`, possibly after one '#'. */
  lemma HexCore(pre: string, hash: bool, h: string, post: string)
    requires AllSpace(pre) && AllSpace(post)
    requires |h| >= 3 && AllHexDigits(h)
    ensures Strip(pre + HashedIf(hash, h) + post, IsSpace) == HashedIf(hash, h)
    ensures Lower(HashedIf(hash, h)) !in KnownColors
    ensures Unhash(HashedIf(hash, h)) == h
  {
    var core := HashedIf(hash, h);
    assert core[|core| - 1] == h[|h| - 1];
    StripPadded(pre, core, post, IsSpace);
    if hash {
      HashIsNoName(core);
      assert core[1..] == h;
    } else {
      HexIsNoName(h);
    }
  }

  /**
    Six hex digits, in either case, with or without one leading '#', give the colour whose value
    is the digits' integer value, which lies in [0, 0xFFFFFF]; no warning is logged.
  */
  lemma SixDigitColour(setUp: bool, pre: string, hash: bool, h: string, post: string)
    requires AllSpace(pre) && AllSpace(post)
    requires |h| == 6 && AllHexDigits(h)
    ensures StrToColor(setUp, pre + HashedIf(hash, h) + post) == Logged([], Returned(Rgb(HexValue(h))))
    ensures 0 <= HexValue(h) <= 0xFF_FFFF
  {
    HexCore(pre, hash, h, post);
    PyInt16OfDigits(h);
    HexValueBound(h);
    assert Pow16(6) == 0x100_0000;
  }

  /** Three hex digits are doubled before parsing: "#ABC" means 0xAABBCC. */
  lemma ThreeDigitColour(setUp: bool, pre: string, hash: bool, h: string, post: string)
    requires AllSpace(pre) && AllSpace(post)
    requires |h| == 3 && AllHexDigits(h)
    ensures StrToColor(setUp, pre + HashedIf(hash, h) + post)
         == Logged([], Returned(Rgb(0x11_0000 * DigitValue(h[0]) + 0x1100 * DigitValue(h[1]) + 0x11 * DigitValue(h[2]))))
  {
    HexCore(pre, hash, h, post);
    ExpandedValue(h);
    PyInt16OfDigits(Expand(h));
    assert HexCandidate(HashedIf(hash, h)) == Expand(h);
  }

  /** Doubling three digits a, b, c gives the value 0xaabbcc. */
  lemma ExpandedValue(h: string)
    requires |h| == 3 && AllHexDigits(h)
    ensures AllHexDigits(Expand(h))
    ensures HexValue(Expand(h)) == 0x11_0000 * DigitValue(h[0]) + 0x1100 * DigitValue(h[1]) + 0x11 * DigitValue(h[2])
  {
    ExpandThree(h);
    var a, b, c := h[0], h[1], h[2];
    var da, db, dc := DigitValue(a), DigitValue(b), DigitValue(c);
    assert [a][..0] == [];
    assert HexValue([a]) == da;
    assert [a] + [a] == [a, a];
    HexValueLast([a], a);
    assert HexValue([a, a]) == 0x11 * da;
    assert [a, a] + [b] == [a, a, b];
    HexValueLast([a, a], b);
    assert HexValue([a, a, b]) == 0x110 * da + db;
    assert [a, a, b] + [b] == [a, a, b, b];
    HexValueLast([a, a, b], b);
    assert HexValue([a, a, b, b]) == 0x1100 * da + 0x11 * db;
    assert [a, a, b, b] + [c] == [a, a, b, b, c];
    HexValueLast([a, a, b, b], c);
    assert HexValue([a, a, b, b, c]) == 0x11000 * da + 0x110 * db + dc;
    assert [a, a, b, b, c] + [c] == Expand(h);
    HexValueLast([a, a, b, b, c], c);
  }

  lemma ExpandThree(h: string)
    requires |h| == 3
    ensures Expand(h) == [h[0], h[0], h[1], h[1], h[2], h[2]]
  {
    var t := h[1..][1..];
    assert t[1..] == [];
    assert Expand(t) == [t[0], t[0]] + Expand([]);
    assert Expand(h[1..]) == [h[1], h[1]] + Expand(t);
  }

  /** A value written as "#" and six hex digits comes back as itself. */
  lemma HexRoundTrip(setUp: bool, v: nat)
    requires v <= 0xFF_FFFF
    ensures StrToColor(setUp, "#" + ToHex(v, 6)) == Logged([], Returned(Rgb(v)))
  {
    assert Pow16(6) == 0x100_0000;
    HexValueOfToHex(v, 6);
    assert [] + HashedIf(true, ToHex(v, 6)) + [] == "#" + ToHex(v, 6);
    SixDigitColour(setUp, [], true, ToHex(v, 6), []);
  }

  /**
    A trimmed text that is no colour name, and whose length after removing one '#' is neither
    3 nor 6, gives blurple and one warning quoting that '#'-stripped text, not the argument.
  */
  lemma WrongLengthFallsBack(setUp: bool, colorStr: string)
    requires Lower(Strip(colorStr, IsSpace)) !in KnownColors
    requires |Unhash(Strip(colorStr, IsSpace))| != 3 && |Unhash(Strip(colorStr, IsSpace))| != 6
    ensures StrToColor(setUp, colorStr)
         == Guard(setUp, Entry(WARNING, WarningText(Unhash(Strip(colorStr, IsSpace))), false), DefaultColour)
  {
  }

  /**
    Three or six characters after the one '#' that int() rejects: blurple, and one warning that
    quotes the text handed to int() (trimmed, unhashed and, for three characters, doubled).
  */
  lemma MalformedHexFallsBack(colorStr: string)
    requires Lower(Strip(colorStr, IsSpace)) !in KnownColors
    requires |Unhash(Strip(colorStr, IsSpace))| == 3 || |Unhash(Strip(colorStr, IsSpace))| == 6
    requires PyInt16(HexCandidate(Strip(colorStr, IsSpace))).None?
    ensures StrToColor(true, colorStr)
         == Logged([Entry(WARNING, WarningText(HexCandidate(Strip(colorStr, IsSpace))), false)], Returned(DefaultColour))
    ensures |HexCandidate(Strip(colorStr, IsSpace))| == 6
  {
  }

  lemma ColourExamples()
    ensures StrToColor(true, "  TEAL ") == Logged([], Returned(Named("teal")))
    ensures StrToColor(true, "#ABC") == Logged([], Returned(Rgb(0xAABBCC)))
    ensures StrToColor(false, "#ABC") == Logged([], Returned(Rgb(0xAABBCC)))
  {
    assert "  TEAL " == "  " + "TEAL" + " ";
    assert Lower("TEAL") == "teal";
    NamedColourLookup(true, "  ", "TEAL", " ");
    assert "#ABC" == [] + HashedIf(true, "ABC") + [];
    ThreeDigitColour(true, [], true, "ABC", []);
    ThreeDigitColour(false, [], true, "ABC", []);
  }

  /** A string that starts with neither a letter nor whitespace is never a colour name. */
  lemma NoLetterFirstIsNoName(s: string)
    requires |s| > 0 && !('a' <= LowerChar(s[0]) <= 'z')
    ensures Lower(s) !in KnownColors
  {
    var l := Lower(s);
    assert l[0] == LowerChar(s[0]);
    if l in KnownColors {
      KnownNameShape(l);
    }
  }

  /**
    Failing inputs: wrong lengths after one '#' is removed, and digits int() rejects. Each gives
    blurple and one warning that quotes the text as mutated (trimmed, '#' removed, expanded);
    with no logger set up, the warning call raises instead.
  */
  lemma TooShortExample()
    ensures StrToColor(true, "zz") == Logged([Entry(WARNING, WarningText("zz"), false)], Returned(DefaultColour))
    ensures StrToColor(false, "zz") == Logged([], Raised(LoggerNotSetUp))
  {
    assert "zz" == [] + "zz" + [];
    StripPadded([], "zz", [], IsSpace);
    assert Lower("zz") == "zz";
    WrongLengthFallsBack(true, "zz");
    WrongLengthFallsBack(false, "zz");
  }

  /** Only one '#' is removed: "##abcdef" leaves seven characters. */
  lemma DoubleHashExample()
    ensures StrToColor(true, "##abcdef") == Logged([Entry(WARNING, WarningText("#abcdef"), false)], Returned(DefaultColour))
  {
    assert "##abcdef" == [] + "##abcdef" + [];
    StripPadded([], "##abcdef", [], IsSpace);
    HashIsNoName("##abcdef");
    WrongLengthFallsBack(true, "##abcdef");
  }

  /** Four digits are neither the short nor the long form; the warning quotes the trimmed, unhashed text. */
  lemma FourDigitExample()
    ensures StrToColor(true, "abcd") == Logged([Entry(WARNING, WarningText("abcd"), false)], Returned(DefaultColour))
    ensures StrToColor(true, " #abcd ") == Logged([Entry(WARNING, WarningText("abcd"), false)], Returned(DefaultColour))
  {
    assert "abcd" == [] + "abcd" + [];
    StripPadded([], "abcd", [], IsSpace);
    HexIsNoName("abcd");
    WrongLengthFallsBack(true, "abcd");
    assert " #abcd " == " " + "#abcd" + " ";
    StripPadded(" ", "#abcd", " ", IsSpace);
    HashIsNoName("#abcd");
    WrongLengthFallsBack(true, " #abcd ");
  }

  /** Three characters that are not digits are still doubled; the warning quotes the doubled text. */
  lemma BadShortFormExample()
    ensures StrToColor(true, "#xyz") == Logged([Entry(WARNING, WarningText("xxyyzz"), false)], Returned(DefaultColour))
  {
    assert "#xyz" == [] + "#xyz" + [];
    StripPadded([], "#xyz", [], IsSpace);
    HashIsNoName("#xyz");
    assert Unhash("#xyz") == "xyz";
    ExpandThree("xyz");
    assert HexCandidate("#xyz") == "xxyyzz";
    assert PyInt16("xxyyzz") == None by {
      assert "xxyyzz" == [] + "xxyyzz" + [];
      StripPadded([], "xxyyzz", [], IsIntSpace);
      assert Unprefixed(Unsigned("xxyyzz")) == "xxyyzz";
      assert !WellSeparated("xxyyzz");
    }
  }

  lemma HexValueOf1234()
    ensures AllHexDigits("1234") && HexValue("1234") == 0x1234
  {
    assert "1234"[..3] == "123" && "123"[..2] == "12" && "12"[..1] == "1" && "1"[..0] == [];
  }

  lemma PyInt16Prefixed()
    ensures PyInt16("0x1234") == Some(0x1234)
  {
    var s := "0x1234";
    assert !IsIntSpace(s[0]) && !IsIntSpace(s[|s| - 1]);
    assert TrimStart(s, IsIntSpace) == s;
    assert TrimEnd(s, IsIntSpace) == s;
    assert Unsigned(s) == s;
    assert Unprefixed(s) == "1234";
    HexValueOf1234();
    assert WellSeparated("1234");
    UnseparatedPlain("1234");
  }

  /** int() is lenient: a 0x prefix is accepted, so "0x1234" is the colour 0x1234. */
  lemma PrefixedHexExample()
    ensures StrToColor(true, "0x1234") == Logged([], Returned(Rgb(0x1234)))
  {
    assert "0x1234" == [] + "0x1234" + [];
    StripPadded([], "0x1234", [], IsSpace);
    NoLetterFirstIsNoName("0x1234");
    assert HexCandidate("0x1234") == "0x1234";
    PyInt16Prefixed();
  }
}
