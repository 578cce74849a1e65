/**
  The coordinate key codec of the block builder: `keyOf` joins three numbers
  with commas, `parseKey` splits on commas and applies `parseInt(_, 10)` to
  each part.
 */
module Keys {

  /** The JavaScript numbers that reach `keyOf`: integers, except the ground
      height of a ground click, which is the constant 0.5. */
  datatype Number = Int(i: int) | Half

  /** What `parseKey` yields for one position of its triple: the integer
      `parseInt` read, NaN when the part has no leading digits, or undefined
      when the key has fewer than three parts. */
  datatype Component = Num(n: int) | NaN | Undefined

  predicate IsDigit(c: char) {
    '0' <= c <= '9'
  }

  predicate AllDigits(s: string) {
    forall i :: 0 <= i < |s| ==> IsDigit(s[i])
  }

  function DigitChar(d: nat): (c: char)
    requires d < 10
    ensures IsDigit(c) && DigitValue(c) == d
  {
    "0123456789"[d]
  }

  function DigitValue(c: char): nat
    requires IsDigit(c)
  {
    (c - '0') as nat
  }

  // ---------------------------------------------------------------------------
  // Number to text: the template literal `${x}` on integers and on 0.5

  /** Decimal digits of n, most significant first, no leading zeros. */
  function ShowNat(n: nat): (s: string)
    ensures 1 <= |s| && AllDigits(s)
    ensures DigitsValue(s) == n
  {
    if n < 10 then [DigitChar(n)]
    else
      var s := ShowNat(n / 10) + [DigitChar(n % 10)];
      assert s[..|s| - 1] == ShowNat(n / 10);
      s
  }

  function ShowInt(i: int): (s: string)
  {
    if i < 0 then "-" + ShowNat(-i) else ShowNat(i)
  }

  function Show(x: Number): string {
    match x
    case Int(i) => ShowInt(i)
    case Half => "0.5"
  }

  function KeyOf(x: Number, y: Number, z: Number): string {
    Show(x) + "," + Show(y) + "," + Show(z)
  }

  // ---------------------------------------------------------------------------
  // `String.prototype.split(",")` and its inverse, `Array.prototype.join(",")`

  predicate CommaFree(s: string) {
    ',' !in s
  }

  function Join(parts: seq<string>): string
    requires 1 <= |parts|
  {
    if |parts| == 1 then parts[0] else parts[0] + "," + Join(parts[1..])
  }

  /** Splitting on commas cuts the text into comma-free parts that join back
      to it; the empty text splits into one empty part. */
  function Split(s: string): (parts: seq<string>)
    ensures 1 <= |parts|
    ensures forall i :: 0 <= i < |parts| ==> CommaFree(parts[i])
    ensures Join(parts) == s
  {
    if |s| == 0 then [""]
    else
      var rest := Split(s[1..]);
      if s[0] == ',' then
        assert ([""] + rest)[1..] == rest;
        [""] + rest
      else
        var parts := [[s[0]] + rest[0]] + rest[1..];
        assert parts[1..] == rest[1..];
        parts
  }

  /** Text without a comma in front of the rest is glued onto the rest's first part. */
  lemma {:induction false} SplitPrefix(p: string, s: string)
    requires CommaFree(p)
    ensures Split(p + s) == [p + Split(s)[0]] + Split(s)[1..]
    decreases |p|
  {
    if |p| == 0 {
      assert p + s == s;
      assert p + Split(s)[0] == Split(s)[0];
      assert [Split(s)[0]] + Split(s)[1..] == Split(s);
    } else {
      assert (p + s)[1..] == p[1..] + s;
      assert p[0] in p;
      SplitPrefix(p[1..], s);
      assert [p[0]] + (p[1..] + Split(s)[0]) == p + Split(s)[0];
    }
  }

  /** Splitting what comma-free parts joined to gives the parts back. */
  lemma {:induction false} SplitJoin(parts: seq<string>)
    requires 1 <= |parts|
    requires forall i :: 0 <= i < |parts| ==> CommaFree(parts[i])
    ensures Split(Join(parts)) == parts
    decreases |parts|
  {
    if |parts| == 1 {
      SplitPrefix(parts[0], "");
      assert parts[0] + "" == parts[0];
    } else {
      var rest := Join(parts[1..]);
      SplitJoin(parts[1..]);
      assert parts[0] + "," + rest == parts[0] + ("," + rest);
      SplitPrefix(parts[0], "," + rest);
      assert ("," + rest)[1..] == rest;
      assert Split("," + rest) == [""] + parts[1..];
      assert parts[0] + "" == parts[0];
      assert [parts[0]] + parts[1..] == parts;
    }
  }

  // ---------------------------------------------------------------------------
  // `parseInt(s, 10)`

  /** The white space `parseInt` skips: tab, vertical tab, form feed, space,
      no-break space, the byte order mark, the space separators of Unicode
      category Zs, and the line terminators LF, CR, LS and PS. */
  predicate IsSpace(c: char) {
    || c == '\t' || c == '\U{000B}' || c == '\U{000C}' || c == ' '
    || c == '\U{00A0}' || c == '\U{FEFF}' || c == '\U{1680}'
    || ('\U{2000}' <= c <= '\U{200A}')
    || c == '\U{202F}' || c == '\U{205F}' || c == '\U{3000}'
    || c == '\n' || c == '\r' || c == '\U{2028}' || c == '\U{2029}'
  }

  function TrimStart(s: string): string {
    if |s| > 0 && IsSpace(s[0]) then TrimStart(s[1..]) else s
  }

  /** The longest prefix of s made of decimal digits. */
  function LeadingDigits(s: string): (d: string)
    ensures d <= s && AllDigits(d)
    ensures |d| == |s| || !IsDigit(s[|d|])
  {
    if |s| > 0 && IsDigit(s[0]) then [s[0]] + LeadingDigits(s[1..]) else []
  }

  /** The value of a digit string read most significant digit first. */
  function DigitsValue(d: string): nat
    requires AllDigits(d)
  {
    if |d| == 0 then 0 else 10 * DigitsValue(d[..|d| - 1]) + DigitValue(d[|d| - 1])
  }

  /** `parseInt(s, 10)`: skip leading white space, read an optional sign,
      then as many decimal digits as follow; no digit at all gives NaN. */
  function ParseInt(s: string): Component {
    ParseSigned(TrimStart(s))
  }

  function ParseSigned(t: string): Component {
    if |t| > 0 && t[0] == '-' then Negate(ParseUnsigned(t[1..]))
    else if |t| > 0 && t[0] == '+' then ParseUnsigned(t[1..])
    else ParseUnsigned(t)
  }

  function ParseUnsigned(b: string): Component {
    var d := LeadingDigits(b);
    if |d| == 0 then NaN else Num(DigitsValue(d))
  }

  function Negate(c: Component): Component {
    if c.Num? then Num(-c.n) else c
  }

  function ParseKey(k: string): (Component, Component, Component) {
    var parts := Split(k);
    ( ParseInt(parts[0]),
      if |parts| > 1 then ParseInt(parts[1]) else Undefined,
      if |parts| > 2 then ParseInt(parts[2]) else Undefined )
  }

  // ---------------------------------------------------------------------------
  // Laws of the codec

  /** Digits followed by a non-digit (or nothing): the digits are the leading digits. */
  lemma {:induction false} LeadingDigitsOf(d: string, rest: string)
    requires AllDigits(d)
    requires |rest| == 0 || !IsDigit(rest[0])
    ensures LeadingDigits(d + rest) == d
    decreases |d|
  {
    if |d| == 0 {
      assert d + rest == rest;
    } else {
      assert (d + rest)[1..] == d[1..] + rest;
      LeadingDigitsOf(d[1..], rest);
      assert [d[0]] + d[1..] == d;
    }
  }

  /** Text that starts with a digit or a sign is not trimmed. */
  lemma TrimStartNoSpace(s: string)
    requires |s| > 0 && (IsDigit(s[0]) || s[0] == '-')
    ensures TrimStart(s) == s
  {
  }

  /** Text that starts with a digit reads as its unsigned prefix. */
  lemma ParseIntDigitFirst(b: string)
    requires |b| > 0 && IsDigit(b[0])
    ensures ParseInt(b) == ParseUnsigned(b)
  {
    TrimStartNoSpace(b);
  }

  /** A leading minus sign negates what the rest reads as. */
  lemma ParseIntMinus(b: string)
    ensures ParseInt("-" + b) == Negate(ParseUnsigned(b))
  {
    var t := "-" + b;
    assert t[0] == '-' && t[1..] == b;
    TrimStartNoSpace(t);
  }

  /** Digits followed by a non-digit read as the value of the digits. */
  lemma ParseUnsignedDigits(d: string, rest: string)
    requires |d| > 0 && AllDigits(d)
    requires |rest| == 0 || !IsDigit(rest[0])
    ensures ParseUnsigned(d + rest) == Num(DigitsValue(d))
  {
    LeadingDigitsOf(d, rest);
  }

  /** A negative integer prints as a minus sign and the digits of its
      magnitude. */
  lemma ShowNegative(i: int, rest: string)
    requires i < 0
    ensures ShowInt(i) + rest == "-" + (ShowNat(-i) + rest)
  {
    assert ShowInt(i) == "-" + ShowNat(-i);
  }

  /** The minus sign, the digits of -i and a non-digit read as i. */
  lemma ParseNegativeStops(i: int, rest: string)
    requires i < 0
    requires |rest| == 0 || !IsDigit(rest[0])
    ensures ParseInt("-" + (ShowNat(-i) + rest)) == Num(i)
  {
    ParseUnsignedDigits(ShowNat(-i), rest);
    ParseIntMinus(ShowNat(-i) + rest);
  }

  /** The digits of n and a non-digit read as n. */
  lemma ParseNaturalStops(n: nat, rest: string)
    requires |rest| == 0 || !IsDigit(rest[0])
    ensures ParseInt(ShowNat(n) + rest) == Num(n)
  {
    var b := ShowNat(n) + rest;
    ParseUnsignedDigits(ShowNat(n), rest);
    assert b[0] == ShowNat(n)[0];
    ParseIntDigitFirst(b);
  }

  /** `parseInt` reads back a printed integer and stops at the first
      character that is not a digit, whatever follows it. */
  lemma ParseIntStopsAtNonDigit(i: int, rest: string)
    requires |rest| == 0 || !IsDigit(rest[0])
    ensures ParseInt(ShowInt(i) + rest) == Num(i)
  {
    if i < 0 {
      ShowNegative(i, rest);
      ParseNegativeStops(i, rest);
    } else {
      ParseNaturalStops(i, rest);
    }
  }

  /** The ground height prints as "0.5", which `parseInt` truncates to 0. */
  lemma ParseIntHalf()
    ensures ParseInt(Show(Half)) == Num(0)
  {
    ParseIntStopsAtNonDigit(0, ".5");
    assert ShowInt(0) + ".5" == "0.5";
  }

  lemma ShowCommaFree(x: Number)
    ensures CommaFree(Show(x))
  {
    match x
    case Int(i) =>
      var n := if i < 0 then -i else i;
      var digits := ShowNat(n);
      assert forall j :: 0 <= j < |digits| ==> digits[j] != ',';
      if i < 0 {
        assert forall j :: 1 <= j < |ShowInt(i)| ==> ShowInt(i)[j] == digits[j - 1];
      }
    case Half =>
  }

  /** Three comma-free texts joined with commas split back into those three. */
  lemma SplitThree(a: string, b: string, c: string)
    requires CommaFree(a) && CommaFree(b) && CommaFree(c)
    ensures Split(a + "," + b + "," + c) == [a, b, c]
  {
    var parts := [a, b, c];
    assert parts[1..] == [b, c];
    assert parts[1..][1..] == [c];
    assert Join(parts[1..]) == b + "," + c;
    assert Join(parts) == a + "," + (b + "," + c);
    assert Join(parts) == a + "," + b + "," + c;
    SplitJoin(parts);
  }

  lemma SplitKey(x: Number, y: Number, z: Number)
    ensures Split(KeyOf(x, y, z)) == [Show(x), Show(y), Show(z)]
  {
    ShowCommaFree(x);
    ShowCommaFree(y);
    ShowCommaFree(z);
    SplitThree(Show(x), Show(y), Show(z));
  }

  /** Key codec round trip: every integer triple, negative and zero included,
      is read back exactly from its key. */
  lemma KeyRoundTrip(x: int, y: int, z: int)
    ensures ParseKey(KeyOf(Int(x), Int(y), Int(z))) == (Num(x), Num(y), Num(z))
  {
    SplitKey(Int(x), Int(y), Int(z));
    ParseIntStopsAtNonDigit(x, "");
    ParseIntStopsAtNonDigit(y, "");
    ParseIntStopsAtNonDigit(z, "");
    assert ShowInt(x) + "" == ShowInt(x);
    assert ShowInt(y) + "" == ShowInt(y);
    assert ShowInt(z) + "" == ShowInt(z);
  }

  /** The ground key does not round trip: its height reads back as 0, not 0.5. */
  lemma GroundKeyTruncated(x: int, z: int)
    ensures ParseKey(KeyOf(Int(x), Half, Int(z))) == (Num(x), Num(0), Num(z))
    ensures KeyOf(Int(x), Half, Int(z)) != KeyOf(Int(x), Int(0), Int(z))
  {
    SplitKey(Int(x), Half, Int(z));
    SplitKey(Int(x), Int(0), Int(z));
    ParseIntStopsAtNonDigit(x, "");
    ParseIntStopsAtNonDigit(z, "");
    assert ShowInt(x) + "" == ShowInt(x);
    assert ShowInt(z) + "" == ShowInt(z);
    ParseIntHalf();
    assert Show(Half) != Show(Int(0));
  }

  /** Distinct integer triples have distinct keys. */
  lemma KeyOfInjective(x: int, y: int, z: int, x': int, y': int, z': int)
    requires KeyOf(Int(x), Int(y), Int(z)) == KeyOf(Int(x'), Int(y'), Int(z'))
    ensures x == x' && y == y' && z == z'
  {
    KeyRoundTrip(x, y, z);
    KeyRoundTrip(x', y', z');
  }
}
