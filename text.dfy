/** The JavaScript string primitives the core leans on: `trim`, `split`,
    `join`, `padStart`, `Number.prototype.toString` on integers, and the
    `parseInt(s, 10)` / `parseFloat(s)` number readers. */
module Text {
  import opened Wrappers

  /** StrWhiteSpaceChar of ECMAScript: the characters `trim`, `parseInt` and
      `parseFloat` skip, that is the white space (tab, vertical tab, form
      feed, the byte order mark and every Unicode space separator) and the
      line terminators. */
  predicate IsJsSpace(c: char) {
    c == '\t' || c == '\U{000B}' || c == '\U{000C}' || c == '\U{FEFF}'
    || IsSpaceSeparator(c)
    || c == '\n' || c == '\r' || c == '\U{2028}' || c == '\U{2029}'
  }

  /** The characters of Unicode general category Zs. */
  predicate IsSpaceSeparator(c: char) {
    c == ' ' || c == '\U{00A0}' || c == '\U{1680}'
    || ('\U{2000}' <= c <= '\U{200A}')
    || c == '\U{202F}' || c == '\U{205F}' || c == '\U{3000}'
  }

  predicate IsDigit(c: char) {
    '0' <= c <= '9'
  }

  predicate AllDigits(s: string) {
    forall i :: 0 <= i < |s| ==> IsDigit(s[i])
  }

  function DigitValue(c: char): (d: nat)
    requires IsDigit(c)
    ensures d < 10
  {
    (c as int) - ('0' as int)
  }

  function DigitChar(d: nat): (c: char)
    requires d < 10
    ensures IsDigit(c) && DigitValue(c) == d
  {
    (('0' as int) + d) as char
  }

  // ---------------------------------------------------------------------------
  // truthiness of strings

  /** `s || undefined` (or `|| null`): the empty string is falsy. */
  function NonEmpty(s: string): (r: Option<string>)
    ensures r.None? <==> s == ""
    ensures r.Some? ==> r.value == s
  {
    if s == "" then None else Some(s)
  }

  /** `value || ''` on an optional string. */
  function TextOrEmpty(s: Option<string>): (r: string)
    ensures s.None? ==> r == ""
    ensures s.Some? ==> r == s.value
  {
    match s
    case None => ""
    case Some(v) => v
  }

  /** `s || fallback`. */
  function OrElse(s: string, fallback: string): string {
    if s == "" then fallback else s
  }

  // ---------------------------------------------------------------------------
  // trim

  /** Drops the leading white space. */
  function TrimStart(s: string): (r: string)
    ensures |r| <= |s| && r == s[|s| - |r|..]
    ensures forall i :: 0 <= i < |s| - |r| ==> IsJsSpace(s[i])
    ensures r == [] || !IsJsSpace(r[0])
  {
    if |s| > 0 && IsJsSpace(s[0]) then TrimStart(s[1..]) else s
  }

  /** Drops the trailing white space. */
  function TrimEnd(s: string): (r: string)
    ensures |r| <= |s| && r == s[..|r|]
    ensures forall i :: |r| <= i < |s| ==> IsJsSpace(s[i])
    ensures r == [] || !IsJsSpace(r[|r| - 1])
  {
    if |s| > 0 && IsJsSpace(s[|s| - 1]) then TrimEnd(s[..|s| - 1]) else s
  }

  /** `String.prototype.trim`. */
  function Trim(s: string): string {
    TrimEnd(TrimStart(s))
  }

  /** The trimmed text neither starts nor ends with white space. */
  lemma TrimEdges(s: string)
    ensures Trim(s) == [] || (!IsJsSpace(Trim(s)[0]) && !IsJsSpace(Trim(s)[|Trim(s)| - 1]))
  {
  }

  /** `s.trim()` is empty exactly when `s` is all white space. */
  lemma TrimEmptyIff(s: string)
    ensures Trim(s) == [] <==> forall i :: 0 <= i < |s| ==> IsJsSpace(s[i])
  {
    var u := TrimStart(s);
    var k := |s| - |u|;
    assert forall i :: k <= i < |s| ==> s[i] == u[i - k];
  }

  // ---------------------------------------------------------------------------
  // integers as decimal text

  /** The decimal digits of `n`, most significant first, no leading zero. */
  function DecimalText(n: nat): (r: string)
    ensures |r| >= 1 && AllDigits(r)
  {
    if n < 10 then [DigitChar(n)] else DecimalText(n / 10) + [DigitChar(n % 10)]
  }

  /** `Number.prototype.toString()` on an integer. */
  function IntText(i: int): (r: string)
    ensures |r| >= 1
  {
    if i < 0 then "-" + DecimalText(-i) else DecimalText(i)
  }

  /** The number a string of decimal digits denotes (leading zeros allowed). */
  function DigitsValue(s: string): nat
    requires AllDigits(s)
  {
    if s == [] then 0 else DigitsValue(s[..|s| - 1]) * 10 + DigitValue(s[|s| - 1])
  }

  lemma {:induction false} DecimalTextRoundTrip(n: nat)
    ensures DigitsValue(DecimalText(n)) == n
  {
    if n >= 10 {
      var t := DecimalText(n);
      assert t[..|t| - 1] == DecimalText(n / 10);
      DecimalTextRoundTrip(n / 10);
    }
  }

  /** Distinct numbers print differently. */
  lemma DecimalTextInjective(m: nat, n: nat)
    requires DecimalText(m) == DecimalText(n)
    ensures m == n
  {
    DecimalTextRoundTrip(m);
    DecimalTextRoundTrip(n);
  }

  function Zeros(k: nat): (r: string)
    ensures |r| == k && AllDigits(r)
  {
    seq(k, _ => '0')
  }

  /** `s.padStart(width, '0')`. */
  function ZeroPad(s: string, width: nat): (r: string)
    ensures |r| == if |s| < width then width else |s|
    ensures r == Zeros(|r| - |s|) + s
  {
    if |s| < width then Zeros(width - |s|) + s else s
  }

  lemma {:induction false} LeadingZerosValue(k: nat, s: string)
    requires AllDigits(s)
    ensures DigitsValue(Zeros(k) + s) == DigitsValue(s)
    decreases |s|, k
  {
    if s == [] {
      assert Zeros(k) + s == Zeros(k);
      if k > 0 {
        assert Zeros(k)[..k - 1] == Zeros(k - 1);
        LeadingZerosValue(k - 1, []);
        assert Zeros(k - 1) + [] == Zeros(k - 1);
      }
    } else {
      var t := Zeros(k) + s;
      assert t[..|t| - 1] == Zeros(k) + s[..|s| - 1];
      LeadingZerosValue(k, s[..|s| - 1]);
    }
  }

  // ---------------------------------------------------------------------------
  // parseInt / parseFloat

  /** The longest prefix of decimal digits. */
  function DigitPrefix(s: string): (r: string)
    ensures |r| <= |s| && r == s[..|r|] && AllDigits(r)
    ensures |r| == |s| || !IsDigit(s[|r|])
  {
    if s == [] || !IsDigit(s[0]) then [] else [s[0]] + DigitPrefix(s[1..])
  }

  lemma {:induction false} DigitPrefixOfDigits(s: string)
    requires AllDigits(s)
    ensures DigitPrefix(s) == s
  {
    if s != [] {
      DigitPrefixOfDigits(s[1..]);
    }
  }

  /** The text after the white space and the optional sign. */
  function Unsigned(t: string): string {
    if |t| > 0 && (t[0] == '-' || t[0] == '+') then t[1..] else t
  }

  predicate IsNegative(t: string) {
    |t| > 0 && t[0] == '-'
  }

  /** `parseInt(s, 10)`: `None` stands for NaN. */
  function ParseInt(s: string): (r: Option<int>)
    ensures r.None? <==> DigitPrefix(Unsigned(TrimStart(s))) == []
  {
    var t := TrimStart(s);
    var digits := DigitPrefix(Unsigned(t));
    if digits == [] then None
    else if IsNegative(t) then Some(-(DigitsValue(digits) as int))
    else Some(DigitsValue(digits))
  }

  /** The text of an integer has no leading space, and after its sign come
      the digits of its magnitude. */
  lemma IntTextParts(i: int)
    ensures var n: nat := if i < 0 then -i else i;
      && TrimStart(IntText(i)) == IntText(i)
      && Unsigned(IntText(i)) == DecimalText(n)
      && (IsNegative(IntText(i)) <==> i < 0)
  {
    var n: nat := if i < 0 then -i else i;
    var d := DecimalText(n);
    var t := IntText(i);
    assert IsDigit(d[0]);
    if i < 0 {
      assert t == "-" + d;
      assert t[1..] == d;
    } else {
      assert t == d;
    }
    assert !IsJsSpace(t[0]);
  }

  /** Integers read back as themselves: `parseInt(String(i), 10) === i`. */
  lemma ParseIntOfIntText(i: int)
    ensures ParseInt(IntText(i)) == Some(i)
  {
    var n: nat := if i < 0 then -i else i;
    IntTextParts(i);
    DigitPrefixOfDigits(DecimalText(n));
    DecimalTextRoundTrip(n);
  }

  function Pow10(k: nat): (r: real)
    ensures r >= 1.0
  {
    if k == 0 then 1.0 else 10.0 * Pow10(k - 1)
  }

  /** The factor an exponent part `e[+-]digits` contributes; 1 when `s` does
      not start with one. */
  function ExponentScale(s: string): (r: real)
    ensures r > 0.0
  {
    if |s| >= 2 && (s[0] == 'e' || s[0] == 'E') then
      var digits := DigitPrefix(Unsigned(s[1..]));
      if digits == [] then 1.0
      else if IsNegative(s[1..]) then 1.0 / Pow10(DigitsValue(digits))
      else Pow10(DigitsValue(digits))
    else 1.0
  }

  /** A decimal literal cut into its integer digits, its fraction digits and
      what follows them. */
  datatype Literal = Literal(whole: string, fraction: string, after: string)

  /** The longest `digits [. digits]` or `. digits` prefix of `body`. */
  function ScanLiteral(body: string): (l: Literal)
    ensures AllDigits(l.whole) && AllDigits(l.fraction)
  {
    var whole := DigitPrefix(body);
    var rest := body[|whole|..];
    if |rest| > 0 && rest[0] == '.' then
      var fraction := DigitPrefix(rest[1..]);
      Literal(whole, fraction, rest[1 + |fraction|..])
    else Literal(whole, [], rest)
  }

  /** The non-negative value a scanned literal denotes, exponent included. */
  function LiteralValue(l: Literal): (v: real)
    requires AllDigits(l.whole) && AllDigits(l.fraction)
  {
    (DigitsValue(l.whole) as real + DigitsValue(l.fraction) as real / Pow10(|l.fraction|))
    * ExponentScale(l.after)
  }

  /** `parseFloat(s)` on decimal literals (`12`, `12.5`, `.5`, `5.`, `1e3`):
      `None` stands for NaN. */
  function ParseFloat(s: string): (r: Option<real>)
    ensures r.None? <==> ScanLiteral(Unsigned(TrimStart(s))).whole == [] && ScanLiteral(Unsigned(TrimStart(s))).fraction == []
  {
    var t := TrimStart(s);
    var l := ScanLiteral(Unsigned(t));
    if l.whole == [] && l.fraction == [] then None
    else if IsNegative(t) then Some(-LiteralValue(l))
    else Some(LiteralValue(l))
  }

  lemma ScanDigits(d: string)
    requires AllDigits(d) && d != []
    ensures ScanLiteral(d) == Literal(d, [], [])
  {
    DigitPrefixOfDigits(d);
    assert d[|d|..] == [];
  }

  /** A literal of integer digits alone denotes their value. */
  lemma WholeLiteralValue(d: string)
    requires AllDigits(d)
    ensures LiteralValue(Literal(d, [], [])) == DigitsValue(d) as real
  {
    assert DigitsValue([]) == 0;
    assert Pow10(0) == 1.0;
    assert ExponentScale([]) == 1.0;
  }

  /** A whole number prints so that `parseFloat` reads it back. */
  lemma ParseFloatOfIntText(i: int)
    ensures ParseFloat(IntText(i)) == Some(i as real)
  {
    var n: nat := if i < 0 then -i else i;
    var d := DecimalText(n);
    IntTextParts(i);
    ScanDigits(d);
    DecimalTextRoundTrip(n);
    WholeLiteralValue(d);
    assert ScanLiteral(Unsigned(TrimStart(IntText(i)))) == Literal(d, [], []);
  }

  // ---------------------------------------------------------------------------
  // join / split

  /** `parts.join(sep)` for a one-character separator. */
  function Join(parts: seq<string>, sep: char): string {
    if |parts| == 0 then ""
    else if |parts| == 1 then parts[0]
    else parts[0] + [sep] + Join(parts[1..], sep)
  }

  function IndexOf(s: string, c: char): (i: nat)
    requires c in s
    ensures i < |s| && s[i] == c && c !in s[..i]
  {
    if s[0] == c then 0 else 1 + IndexOf(s[1..], c)
  }

  /** `s.split(sep)` for a one-character separator. */
  function Split(s: string, sep: char): (r: seq<string>)
    ensures |r| >= 1
    decreases |s|
  {
    if sep !in s then [s]
    else
      var i := IndexOf(s, sep);
      [s[..i]] + Split(s[i + 1..], sep)
  }

  lemma {:induction false} IndexOfAtMost(s: string, c: char, j: nat)
    requires j < |s| && s[j] == c
    ensures IndexOf(s, c) <= j
  {
    if s[0] != c {
      IndexOfAtMost(s[1..], c, j - 1);
    }
  }

  /** The first separator in `head + [sep] + tail` is the one after `head`. */
  lemma FirstSeparator(head: string, sep: char, tail: string)
    requires sep !in head
    ensures IndexOf(head + [sep] + tail, sep) == |head|
  {
    var s := head + [sep] + tail;
    assert forall j :: 0 <= j < |head| ==> s[j] == head[j];
    IndexOfAtMost(s, sep, |head|);
  }

  /** Splitting a joined line on the separator gives the parts back, as long as
      no part contains the separator. */
  lemma {:induction false} SplitJoin(parts: seq<string>, sep: char)
    requires |parts| >= 1
    requires forall i :: 0 <= i < |parts| ==> sep !in parts[i]
    ensures Split(Join(parts, sep), sep) == parts
  {
    if |parts| > 1 {
      var s := Join(parts, sep);
      var rest := Join(parts[1..], sep);
      assert s == parts[0] + [sep] + rest;
      FirstSeparator(parts[0], sep, rest);
      assert s[..|parts[0]|] == parts[0];
      assert s[|parts[0]| + 1..] == rest;
      SplitJoin(parts[1..], sep);
    }
  }

  /** The first piece of `s.split(sep)` when `s` is `head`, the separator and
      anything after it. */
  lemma SplitHead(head: string, sep: char, tail: string)
    requires sep !in head
    ensures Split(head + [sep] + tail, sep)[0] == head
  {
    var s := head + [sep] + tail;
    FirstSeparator(head, sep, tail);
    assert s[..|head|] == head;
  }

  lemma SplitWithout(s: string, sep: char)
    requires sep !in s
    ensures Split(s, sep) == [s]
  {
  }
}
