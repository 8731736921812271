/** The parts of Java's `String`, `Character` and `Integer` behaviour that the CDSL
    pipeline relies on, written out so that the model does not depend on them
    implicitly: 32-bit `int` arithmetic, `Integer.parseInt`, `String.trim`,
    `String.split`, `indexOf`, `String.join`, `hashCode` and character classes. */
module JavaText {
  import opened Wrappers

  // ---------------------------------------------------------------- int

  const IntMin: int := -0x8000_0000
  const IntMax: int := 0x7FFF_FFFF

  predicate IsInt32(x: int) {
    IntMin <= x <= IntMax
  }

  /** Java `int` arithmetic: the mathematical value reduced into 32-bit two's complement. */
  function Wrap32(x: int): (r: int)
    ensures IsInt32(r)
    ensures IsInt32(x) ==> r == x
    ensures (r - x) % 0x1_0000_0000 == 0
  {
    (x - IntMin) % 0x1_0000_0000 + IntMin
  }

  // ---------------------------------------------------------------- characters

  predicate IsDigit(c: char) {
    '0' <= c <= '9'
  }

  function DigitValue(c: char): (d: nat)
    requires IsDigit(c)
    ensures d < 10
  {
    (c as int) - ('0' as int)
  }

  function DigitChar(d: nat): (c: char)
    requires d < 10
    ensures IsDigit(c) && DigitValue(c) == d
  {
    (('0' as int) + d) as char
  }

  /** `Character.isWhitespace`: the ASCII controls 9-13 and 28-31, the space, and the
      Unicode space, line and paragraph separators other than the non-breaking ones. */
  predicate IsWhitespace(c: char) {
    var n := c as int;
    (9 <= n <= 13) || (28 <= n <= 32) || n == 0x1680
    || (0x2000 <= n <= 0x2006) || (0x2008 <= n <= 0x200A)
    || n == 0x2028 || n == 0x2029 || n == 0x205F || n == 0x3000
  }

  /** The class `\s` of `java.util.regex` without UNICODE_CHARACTER_CLASS. */
  predicate IsRegexSpace(c: char) {
    c == ' ' || c == '\t' || c == '\n' || c == '\r' || (c as int) == 0x0B || (c as int) == 0x0C
  }

  predicate IsAsciiLetter(c: char) {
    ('A' <= c <= 'Z') || ('a' <= c <= 'z')
  }

  /** `Character.isLetterOrDigit` for the Basic Latin, Latin-1 and Cyrillic letters and
      the ASCII digits. */
  predicate IsLetterOrDigit(c: char) {
    var n := c as int;
    IsAsciiLetter(c) || IsDigit(c)
    || n == 0xAA || n == 0xB5 || n == 0xBA
    || (0xC0 <= n <= 0xD6) || (0xD8 <= n <= 0xF6) || (0xF8 <= n <= 0xFF)
    || (0x400 <= n <= 0x481) || (0x48A <= n <= 0x52F)
  }

  function UpperChar(c: char): char {
    if 'a' <= c <= 'z' then ((c as int) - 32) as char else c
  }

  function LowerChar(c: char): char {
    if 'A' <= c <= 'Z' then ((c as int) + 32) as char else c
  }

  /** `String.toUpperCase` on ASCII letters; every other character is kept. */
  function ToUpper(s: string): (r: string)
    ensures |r| == |s|
    ensures forall i :: 0 <= i < |s| ==> r[i] == UpperChar(s[i])
  {
    seq(|s|, i requires 0 <= i < |s| => UpperChar(s[i]))
  }

  function ToLower(s: string): (r: string)
    ensures |r| == |s|
    ensures forall i :: 0 <= i < |s| ==> r[i] == LowerChar(s[i])
  {
    seq(|s|, i requires 0 <= i < |s| => LowerChar(s[i]))
  }

  lemma ToUpperIdempotent(s: string)
    ensures ToUpper(ToUpper(s)) == ToUpper(s)
  {
  }

  /** `String.equalsIgnoreCase`, for the characters `ToUpper` folds. */
  predicate EqualsIgnoreCase(a: string, b: string) {
    ToUpper(a) == ToUpper(b)
  }

  // ---------------------------------------------------------------- trim

  /** The index of the first character above U+0020, or `|s|`. */
  function TrimStartIndex(s: string, st: nat): (r: nat)
    requires st <= |s|
    ensures st <= r <= |s|
    ensures forall i :: st <= i < r ==> s[i] <= ' '
    ensures r < |s| ==> s[r] > ' '
    decreases |s| - st
  {
    if st < |s| && s[st] <= ' ' then TrimStartIndex(s, st + 1) else st
  }

  /** The end of the trimmed region: `len` shrinks while the last character is at or below
      U+0020 and the region is not empty. */
  function TrimEndIndex(s: string, st: nat, len: nat): (r: nat)
    requires st <= len <= |s|
    ensures st <= r <= len
    ensures forall i :: r <= i < len ==> s[i] <= ' '
    ensures st < r ==> s[r - 1] > ' '
    decreases len
  {
    if st < len && s[len - 1] <= ' ' then TrimEndIndex(s, st, len - 1) else len
  }

  /** `String.trim`: drops the leading and trailing characters at or below U+0020. */
  function Trim(s: string): string {
    var st := TrimStartIndex(s, 0);
    s[st..TrimEndIndex(s, st, |s|)]
  }

  /** `s.trim().isEmpty()` holds exactly when no character of `s` is above U+0020. */
  lemma TrimEmptyIff(s: string)
    ensures Trim(s) == "" <==> forall i :: 0 <= i < |s| ==> s[i] <= ' '
  {
    var st := TrimStartIndex(s, 0);
    var en := TrimEndIndex(s, st, |s|);
    if Trim(s) == "" {
      assert st == en;
    }
  }

  // ---------------------------------------------------------------- search

  /** `s.indexOf(c, from)`: the first index at or after `from` holding `c`, or -1. */
  function IndexOf(s: string, c: char, from: nat): (r: int)
    ensures r == -1 || (from <= r < |s| && s[r] == c)
    ensures r == -1 ==> forall i :: from <= i < |s| ==> s[i] != c
    ensures r != -1 ==> forall i :: from <= i < r ==> s[i] != c
    decreases |s| - from
  {
    if from >= |s| then -1 else if s[from] == c then from else IndexOf(s, c, from + 1)
  }

  /** `s.contains(sub)`. */
  predicate Contains(s: string, sub: string)
    decreases |s|
  {
    sub <= s || (|s| > 0 && Contains(s[1..], sub))
  }

  /** `String.replaceAll` with a one-character pattern and an empty replacement. */
  function RemoveChar(s: string, c: char): (r: string)
    ensures |r| <= |s|
    ensures forall i :: 0 <= i < |r| ==> r[i] != c
    ensures c !in s ==> r == s
  {
    if |s| == 0 then ""
    else if s[0] == c then RemoveChar(s[1..], c)
    else [s[0]] + RemoveChar(s[1..], c)
  }

  /** `text.replaceAll("\"", "")`, the way the parser strips the quotes of a literal. */
  function Unquote(s: string): (r: string)
    ensures '"' !in r
  {
    RemoveChar(s, '"')
  }

  // ---------------------------------------------------------------- join and split

  /** `String.join(sep, parts)`. */
  function Join(parts: seq<string>, sep: string): string
  {
    if |parts| == 0 then ""
    else if |parts| == 1 then parts[0]
    else parts[0] + sep + Join(parts[1..], sep)
  }

  /** A part added at the end follows a separator, unless it is the only part. */
  lemma {:induction false} JoinSnoc(parts: seq<string>, p: string, sep: string)
    ensures Join(parts + [p], sep) == if |parts| == 0 then p else Join(parts, sep) + sep + p
    decreases |parts|
  {
    if |parts| == 1 {
      assert parts + [p] == [parts[0], p];
    } else if |parts| > 1 {
      assert (parts + [p])[1..] == parts[1..] + [p];
      JoinSnoc(parts[1..], p, sep);
    }
  }

  /** Every field of `s` delimited by characters satisfying `isSep`, empty fields included:
      one more field than there are delimiters. */
  function Fields(s: string, isSep: char -> bool): (r: seq<string>)
    ensures |r| >= 1
    ensures forall k :: 0 <= k < |r| ==> forall j :: 0 <= j < |r[k]| ==> !isSep(r[k][j])
    decreases |s|
  {
    if |s| == 0 then [""]
    else
      var rest := Fields(s[1..], isSep);
      if isSep(s[0]) then [""] + rest else [[s[0]] + rest[0]] + rest[1..]
  }

  /** The fields of `[x] + rest`, given the fields `f` of `rest`. */
  function PushField(x: char, isSep: char -> bool, f: seq<string>): seq<string>
    requires |f| > 0
  {
    if isSep(x) then [""] + f else [[x] + f[0]] + f[1..]
  }

  /** Putting a character in front only touches the first field. */
  lemma PushFieldConcat(x: char, isSep: char -> bool, fa: seq<string>, fb: seq<string>)
    requires |fa| > 0
    ensures PushField(x, isSep, fa + fb) == PushField(x, isSep, fa) + fb
  {
    assert (fa + fb)[0] == fa[0] && (fa + fb)[1..] == fa[1..] + fb;
  }

  /** The fields of a text with one more character in front. */
  lemma FieldsCons(x: char, rest: string, isSep: char -> bool)
    ensures Fields([x] + rest, isSep) == PushField(x, isSep, Fields(rest, isSep))
  {
    assert ([x] + rest)[0] == x && ([x] + rest)[1..] == rest;
  }

  /** A delimiter splits the fields: those of the text before it, then those after. */
  lemma {:induction false} FieldsAround(a: string, c: char, b: string, isSep: char -> bool)
    requires isSep(c)
    ensures Fields(a + [c] + b, isSep) == Fields(a, isSep) + Fields(b, isSep)
    decreases |a|
  {
    if |a| == 0 {
      assert a + [c] + b == [c] + b;
      FieldsCons(c, b, isSep);
    } else {
      var a' := a[1..];
      assert a == [a[0]] + a';
      assert a + [c] + b == [a[0]] + (a' + [c] + b);
      FieldsAround(a', c, b, isSep);
      FieldsCons(a[0], a' + [c] + b, isSep);
      FieldsCons(a[0], a', isSep);
      PushFieldConcat(a[0], isSep, Fields(a', isSep), Fields(b, isSep));
    }
  }

  /** A text without delimiters is one field. */
  lemma {:induction false} FieldsWithoutSep(a: string, isSep: char -> bool)
    requires forall i :: 0 <= i < |a| ==> !isSep(a[i])
    ensures Fields(a, isSep) == [a]
    decreases |a|
  {
    if |a| > 0 {
      FieldsWithoutSep(a[1..], isSep);
      assert [a[0]] + a[1..] == a;
    }
  }

  function DropTrailingEmpty(parts: seq<string>): (r: seq<string>)
    ensures |r| <= |parts| && r == parts[..|r|]
    ensures r == [] || r[|r| - 1] != ""
    ensures forall k :: |r| <= k < |parts| ==> parts[k] == ""
    decreases |parts|
  {
    if |parts| > 0 && parts[|parts| - 1] == "" then DropTrailingEmpty(parts[..|parts| - 1])
    else parts
  }

  predicate HasSep(s: string, isSep: char -> bool) {
    exists j :: 0 <= j < |s| && isSep(s[j])
  }

  predicate IsNewline(c: char) {
    c == '\n'
  }

  /** `s.split("\n")`: the fields between newlines, trailing empty fields removed; a string
      without a newline is its own single field. */
  function SplitLines(s: string): seq<string> {
    if !HasSep(s, IsNewline) then [s] else DropTrailingEmpty(Fields(s, IsNewline))
  }

  function NonEmpty(parts: seq<string>): (r: seq<string>)
    ensures forall k :: 0 <= k < |r| ==> r[k] != ""
    ensures |r| <= |parts|
  {
    if |parts| == 0 then []
    else if parts[0] == "" then NonEmpty(parts[1..])
    else [parts[0]] + NonEmpty(parts[1..])
  }

  lemma {:induction false} NonEmptyAppend(a: seq<string>, b: seq<string>)
    ensures NonEmpty(a + b) == NonEmpty(a) + NonEmpty(b)
    decreases |a|
  {
    if |a| == 0 {
      assert a + b == b;
    } else {
      assert (a + b)[1..] == a[1..] + b;
      NonEmptyAppend(a[1..], b);
    }
  }

  /** `s.split(regex)` for a regex `[C]+` of one character class: maximal runs of class
      characters separate the fields, a leading empty field stays when `s` starts with a
      delimiter, and trailing empty fields are removed. */
  function SplitRuns(s: string, isSep: char -> bool): seq<string>
  {
    if !HasSep(s, isSep) then [s]
    else
      var fs := Fields(s, isSep);
      DropTrailingEmpty([fs[0]] + NonEmpty(fs[1..]))
  }

  // ---------------------------------------------------------------- integers as text

  predicate IsDigits(s: string) {
    |s| > 0 && forall i :: 0 <= i < |s| ==> IsDigit(s[i])
  }

  /** The value of a decimal digit string. */
  function DigitsValue(s: string): nat
    requires forall i :: 0 <= i < |s| ==> IsDigit(s[i])
    decreases |s|
  {
    if |s| == 0 then 0 else DigitsValue(s[..|s| - 1]) * 10 + DigitValue(s[|s| - 1])
  }

  /** The decimal text of a natural number, without leading zeros. */
  function NatToString(n: nat): (r: string)
    ensures IsDigits(r)
    ensures |r| > 1 ==> r[0] != '0'
    decreases n
  {
    if n < 10 then [DigitChar(n)] else NatToString(n / 10) + [DigitChar(n % 10)]
  }

  /** `Integer.toString` / `String.valueOf(int)`. */
  function IntToString(n: int): string {
    if n < 0 then "-" + NatToString(-n) else NatToString(n)
  }

  /** `Integer.parseInt`: an optional sign and at least one digit, with a value in the
      32-bit range; `None` stands for the NumberFormatException. */
  function ParseInt(s: string): (r: Option<int>)
    ensures r.Some? ==> IsInt32(r.value)
  {
    var signed := |s| > 0 && (s[0] == '-' || s[0] == '+');
    var body := if signed then s[1..] else s;
    if !IsDigits(body) then None
    else
      var v: int := if signed && s[0] == '-' then 0 - (DigitsValue(body) as int) else DigitsValue(body);
      if IsInt32(v) then Some(v) else None
  }

  lemma {:induction false} DigitsValueOfNat(n: nat)
    ensures DigitsValue(NatToString(n)) == n
    decreases n
  {
    if n >= 10 {
      DigitsValueOfNat(n / 10);
      var s := NatToString(n);
      assert s[..|s| - 1] == NatToString(n / 10);
    }
  }

  /** `Integer.parseInt(Integer.toString(n)) == n` for every `int`. */
  lemma ParseIntToString(n: int)
    requires IsInt32(n)
    ensures ParseInt(IntToString(n)) == Some(n)
  {
    var s := IntToString(n);
    if n < 0 {
      var b := NatToString(-n);
      DigitsValueOfNat(-n);
      assert s[0] == '-' && s[1..] == b && IsDigits(b);
      assert 0 - (DigitsValue(b) as int) == n;
    } else {
      DigitsValueOfNat(n);
      assert IsDigits(s) && IsDigit(s[0]);
      assert !(s[0] == '-' || s[0] == '+');
    }
  }

  lemma DigitsValueBounds(s: string)
    requires forall i :: 0 <= i < |s| ==> IsDigit(s[i])
    ensures DigitsValue(s) >= 0
  {
  }

  // ---------------------------------------------------------------- hashing

  /** `String.hashCode`: `h = 31 * h + c` over the characters, in `int` arithmetic. */
  function StringHash(s: string): (r: int)
    ensures IsInt32(r)
    decreases |s|
  {
    if |s| == 0 then 0 else Wrap32(31 * StringHash(s[..|s| - 1]) + s[|s| - 1] as int)
  }
}
