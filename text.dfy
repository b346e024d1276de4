/** String helpers with the meaning the JavaScript built-ins they stand for have in the
    generator: ASCII case mapping, `startsWith`/`endsWith`, `trim`, `split`, `join`,
    `parseInt` and number-to-text conversion. */
module Text {

  datatype Option<T> = None | Some(value: T)

  predicate IsUpperAscii(c: char) { 'A' <= c <= 'Z' }
  predicate IsLowerAscii(c: char) { 'a' <= c <= 'z' }
  predicate IsAsciiLetter(c: char) { IsUpperAscii(c) || IsLowerAscii(c) }

  /** `toUpperCase` restricted to the ASCII letters. */
  function ToUpperAscii(c: char): char
  {
    if IsLowerAscii(c) then (c as int - 32) as char else c
  }

  /** `toLowerCase` restricted to the ASCII letters. */
  function ToLowerAscii(c: char): char
  {
    if IsUpperAscii(c) then (c as int + 32) as char else c
  }

  predicate StartsWith(s: string, prefix: string)
  {
    |prefix| <= |s| && s[..|prefix|] == prefix
  }

  predicate EndsWith(s: string, suffix: string)
  {
    |suffix| <= |s| && s[|s| - |suffix|..] == suffix
  }

  lemma StartsWithTrans(s: string, p: string, q: string)
    requires StartsWith(s, p + q)
    ensures StartsWith(s, p)
  {
    assert s[..|p|] == (p + q)[..|p|];
  }

  /** `str.charAt(0).toUpperCase() + str.slice(1)` (script.js:142-144). */
  function Capitalize(s: string): (r: string)
    ensures |r| == |s|
    ensures s != [] ==> !IsLowerAscii(r[0]) && ToLowerAscii(r[0]) == ToLowerAscii(s[0]) && r[1..] == s[1..]
    ensures s != [] && !IsLowerAscii(s[0]) ==> r == s
  {
    if s == [] then [] else [ToUpperAscii(s[0])] + s[1..]
  }

  /** Capitalizing an already capitalized name changes nothing. */
  lemma CapitalizeIdempotent(s: string)
    ensures Capitalize(Capitalize(s)) == Capitalize(s)
  {
  }

  /** The characters JavaScript's `trim` removes: WhiteSpace and LineTerminator. */
  predicate IsJsWhitespace(c: char)
  {
    var n := c as int;
    n == 0x09 || n == 0x0A || n == 0x0B || n == 0x0C || n == 0x0D || n == 0x20 ||
    n == 0xA0 || n == 0x1680 || (0x2000 <= n <= 0x200A) || n == 0x2028 || n == 0x2029 ||
    n == 0x202F || n == 0x205F || n == 0x3000 || n == 0xFEFF
  }

  /** The input after its leading whitespace: what is dropped is all whitespace, and
      what is kept does not start with whitespace. */
  function TrimStart(s: string): (r: string)
    ensures r == [] || !IsJsWhitespace(r[0])
    ensures |r| <= |s| && r == s[|s| - |r|..]
    ensures forall i :: 0 <= i < |s| - |r| ==> IsJsWhitespace(s[i])
  {
    if s != [] && IsJsWhitespace(s[0]) then
      var r := TrimStart(s[1..]);
      assert forall i :: 1 <= i < |s| - |r| ==> s[i] == s[1..][i - 1];
      r
    else s
  }

  /** The input before its trailing whitespace, in the same sense. */
  function TrimEnd(s: string): (r: string)
    ensures r == [] || !IsJsWhitespace(r[|r| - 1])
    ensures |r| <= |s| && r == s[..|r|]
    ensures forall i :: |r| <= i < |s| ==> IsJsWhitespace(s[i])
  {
    if s != [] && IsJsWhitespace(s[|s| - 1]) then TrimEnd(s[..|s| - 1]) else s
  }

  /** `String.prototype.trim`: the part of the input between its leading whitespace (`a`
      characters) and its trailing whitespace, itself neither starting nor ending with
      whitespace. */
  function Trim(s: string): (r: string)
    ensures r == [] || (!IsJsWhitespace(r[0]) && !IsJsWhitespace(r[|r| - 1]))
    ensures var a := |s| - |TrimStart(s)|;
            a + |r| <= |s| && r == s[a..a + |r|]
            && (forall i :: 0 <= i < a ==> IsJsWhitespace(s[i]))
            && (forall i :: a + |r| <= i < |s| ==> IsJsWhitespace(s[i]))
  {
    var t := TrimStart(s);
    var r := TrimEnd(t);
    TrimmedSlice(s, t, r);
    r
  }

  /** A prefix `r` of the suffix `t` of `s` is a slice of `s`, and when what follows `r`
      in `t` is whitespace, so is what follows it in `s`. */
  lemma TrimmedSlice(s: string, t: string, r: string)
    requires |t| <= |s| && t == s[|s| - |t|..]
    requires |r| <= |t| && r == t[..|r|]
    requires forall j :: |r| <= j < |t| ==> IsJsWhitespace(t[j])
    ensures var a := |s| - |t|;
            r == s[a..a + |r|] && forall i :: a + |r| <= i < |s| ==> IsJsWhitespace(s[i])
  {
    var a := |s| - |t|;
    forall i | a + |r| <= i < |s|
      ensures IsJsWhitespace(s[i])
    {
      assert s[i] == t[i - a];
    }
  }

  /** Trimming twice is trimming once. */
  lemma TrimIdempotent(s: string)
    ensures Trim(Trim(s)) == Trim(s)
  {
    TrimOfTrimmed(Trim(s));
  }

  /** A string without surrounding whitespace is its own trim. */
  lemma TrimOfTrimmed(s: string)
    requires s == [] || (!IsJsWhitespace(s[0]) && !IsJsWhitespace(s[|s| - 1]))
    ensures Trim(s) == s
  {
  }

  /** `s.split(sep)` for a one-character separator: the pieces between separators,
      empty pieces included. */
  function Split(s: string, sep: char): (r: seq<string>)
    ensures |r| == Count(s, sep) + 1
    ensures forall i :: 0 <= i < |r| ==> sep !in r[i]
    ensures Join(r, [sep]) == s
  {
    if s == [] then [""]
    else
      var rest := Split(s[1..], sep);
      if s[0] == sep then
        JoinCons("", rest, [sep]);
        [""] + rest
      else
        var r := [[s[0]] + rest[0]] + rest[1..];
        JoinHead(s[0], rest, [sep]);
        r
  }

  /** How many times `c` occurs in `s`. */
  function Count(s: string, c: char): (r: nat)
    ensures r <= |s|
    ensures r == 0 <==> c !in s
  {
    if s == [] then 0 else (if s[0] == c then 1 else 0) + Count(s[1..], c)
  }

  /** A piece without the separator, followed by the separator, splits off as one piece. */
  lemma {:induction false} SplitPrefix(p: string, t: string, sep: char)
    requires sep !in p
    ensures Split(p + [sep] + t, sep) == [p] + Split(t, sep)
  {
    var s := p + [sep] + t;
    if p == [] {
      assert s[0] == sep && s[1..] == t;
    } else {
      assert s[0] == p[0] && s[1..] == p[1..] + [sep] + t;
      SplitPrefix(p[1..], t, sep);
      assert [p[0]] + p[1..] == p;
    }
  }

  /** A string without the separator is a single piece. */
  lemma {:induction false} SplitWhole(p: string, sep: char)
    requires sep !in p
    ensures Split(p, sep) == [p]
  {
    if p != [] {
      SplitWhole(p[1..], sep);
      assert [p[0]] + p[1..] == p;
    }
  }

  /** Splitting the joined pieces gives the pieces back, so together with `Join(Split(s)) == s`
      split and join are inverse. */
  lemma {:induction false} SplitJoin(parts: seq<string>, sep: char)
    requires |parts| >= 1 && forall i :: 0 <= i < |parts| ==> sep !in parts[i]
    ensures Split(Join(parts, [sep]), sep) == parts
  {
    if |parts| == 1 {
      SplitWhole(parts[0], sep);
    } else {
      SplitJoin(parts[1..], sep);
      SplitPrefix(parts[0], Join(parts[1..], [sep]), sep);
      assert [parts[0]] + parts[1..] == parts;
    }
  }

  /** `parts.join(sep)`. */
  function Join(parts: seq<string>, sep: string): string
  {
    if |parts| == 0 then ""
    else if |parts| == 1 then parts[0]
    else parts[0] + sep + Join(parts[1..], sep)
  }

  lemma JoinCons(p: string, rest: seq<string>, sep: string)
    requires |rest| >= 1
    ensures Join([p] + rest, sep) == p + sep + Join(rest, sep)
  {
    assert ([p] + rest)[1..] == rest;
  }

  lemma JoinHead(c: char, rest: seq<string>, sep: string)
    requires |rest| >= 1
    ensures Join([[c] + rest[0]] + rest[1..], sep) == [c] + Join(rest, sep)
  {
    var parts := [[c] + rest[0]] + rest[1..];
    if |rest| > 1 {
      assert parts[1..] == rest[1..];
    }
  }

  /** Concatenation of a sequence of strings, built from the left as `s += part` does. */
  function Concat(parts: seq<string>): string
  {
    if parts == [] then "" else Concat(parts[..|parts| - 1]) + parts[|parts| - 1]
  }

  /** One more part appends it. */
  lemma ConcatSnoc(parts: seq<string>, i: nat)
    requires i < |parts|
    ensures Concat(parts[..i + 1]) == Concat(parts[..i]) + parts[i]
  {
    assert parts[..i + 1][..i] == parts[..i];
  }

  /** The concatenation of the first `j` parts begins that of the first `k`. */
  lemma {:induction false} ConcatPrefix(parts: seq<string>, j: nat, k: nat)
    requires j <= k <= |parts|
    ensures Concat(parts[..j]) <= Concat(parts[..k])
  {
    if j < k {
      ConcatPrefix(parts, j, k - 1);
      ConcatSnoc(parts, k - 1);
    }
  }

  /** Part `i` sits right after the parts before it. */
  lemma ConcatPart(parts: seq<string>, i: nat)
    requires i < |parts|
    ensures var start := |Concat(parts[..i])|;
            start + |parts[i]| <= |Concat(parts)| && Concat(parts)[start..start + |parts[i]|] == parts[i]
  {
    ConcatSnoc(parts, i);
    ConcatPrefix(parts, i + 1, |parts|);
    assert parts[..|parts|] == parts;
    var next := Concat(parts[..i + 1]);
    assert next[|Concat(parts[..i])|..] == parts[i];
  }

  function Repeat(c: char, n: nat): (r: string)
    ensures |r| == n && forall i :: 0 <= i < n ==> r[i] == c
  {
    if n == 0 then "" else Repeat(c, n - 1) + [c]
  }

  function Pow10(n: nat): (r: nat)
    ensures r >= 1
  {
    if n == 0 then 1 else 10 * Pow10(n - 1)
  }

  function DigitChar(d: nat): char
    requires d < 10
  {
    ('0' as int + d) as char
  }

  /** Decimal text of a natural number, as JavaScript prints an integral number. */
  function NatToString(n: nat): (r: string)
    ensures |r| >= 1
    ensures forall i :: 0 <= i < |r| ==> '0' <= r[i] <= '9'
    ensures r[0] == '0' ==> n == 0
  {
    if n < 10 then [DigitChar(n)] else NatToString(n / 10) + [DigitChar(n % 10)]
  }

  /** Value of a digit in radix 16 notation; 16 for anything that is not a hex digit. */
  function DigitValue(c: char): (d: nat)
    ensures d <= 16
  {
    if '0' <= c <= '9' then c as int - '0' as int
    else if 'a' <= c <= 'f' then c as int - 'a' as int + 10
    else if 'A' <= c <= 'F' then c as int - 'A' as int + 10
    else 16
  }

  /** Length of the longest prefix of `s` made of digits of `radix`. */
  function LeadingDigits(s: string, radix: nat): (k: nat)
    ensures k <= |s|
    ensures forall i :: 0 <= i < k ==> DigitValue(s[i]) < radix
    ensures k < |s| ==> DigitValue(s[k]) >= radix
  {
    if s == [] || DigitValue(s[0]) >= radix then 0 else 1 + LeadingDigits(s[1..], radix)
  }

  /** Value of a string of digits in `radix`. */
  function DigitsValue(s: string, radix: nat): nat
  {
    if s == [] then 0
    else DigitsValue(s[..|s| - 1], radix) * radix + (if DigitValue(s[|s| - 1]) < radix then DigitValue(s[|s| - 1]) else 0)
  }

  /** The digits after any sign, read as `parseInt` reads them: a `0x`/`0X` prefix selects
      radix 16, and the longest run of digits that follows is the value; `None` when
      there is no digit at all. */
  function UnsignedValue(u: string): Option<nat>
  {
    var hex := |u| >= 2 && u[0] == '0' && (u[1] == 'x' || u[1] == 'X');
    var radix := if hex then 16 else 10;
    var w := if hex then u[2..] else u;
    var k := LeadingDigits(w, radix);
    if k == 0 then None else Some(DigitsValue(w[..k], radix))
  }

  /** `parseInt(s)` without a radix argument: leading whitespace is skipped and an optional
      sign is read before the digits; `None` is JavaScript's NaN. */
  function ParseInt(s: string): Option<int>
  {
    var t := TrimStart(s);
    var signed := t != [] && (t[0] == '-' || t[0] == '+');
    match UnsignedValue(if signed then t[1..] else t)
    case None => None
    case Some(v) => Some(if signed && t[0] == '-' then -(v as int) else v as int)
  }

  /** Reading back the decimal text of `n` gives `n`. */
  lemma {:induction false} DigitsValueOfNatToString(n: nat)
    ensures DigitsValue(NatToString(n), 10) == n
  {
    var s := NatToString(n);
    if n >= 10 {
      DigitsValueOfNatToString(n / 10);
      assert s[..|s| - 1] == NatToString(n / 10);
    }
  }

  /** `parseInt` undoes number-to-text conversion. */
  lemma ParseIntOfNatToString(n: nat)
    ensures ParseInt(NatToString(n)) == Some(n)
  {
    var s := NatToString(n);
    assert !IsJsWhitespace(s[0]);
    assert TrimStart(s) == s;
    assert s[0] != '-' && s[0] != '+';
    UnsignedValueOfDigits(s);
    DigitsValueOfNatToString(n);
  }

  lemma UnsignedValueOfDigits(s: string)
    requires |s| >= 1 && forall i :: 0 <= i < |s| ==> '0' <= s[i] <= '9'
    ensures UnsignedValue(s) == Some(DigitsValue(s, 10))
  {
    assert !(|s| >= 2 && (s[1] == 'x' || s[1] == 'X'));
    LeadingDigitsAllDigits(s);
    assert s[..|s|] == s;
  }

  lemma {:induction false} LeadingDigitsAllDigits(s: string)
    requires forall i :: 0 <= i < |s| ==> '0' <= s[i] <= '9'
    ensures LeadingDigits(s, 10) == |s|
  {
    if s != [] {
      LeadingDigitsAllDigits(s[1..]);
    }
  }

  /** The decimal text of 10^n - 1 is n nines: a digit count of 4 gives 9999. */
  lemma {:induction false} NinesText(n: nat)
    requires n >= 1
    ensures NatToString(Pow10(n) - 1) == Repeat('9', n)
  {
    if n > 1 {
      NinesText(n - 1);
      var m := Pow10(n - 1) - 1;
      assert Pow10(n) - 1 == 10 * m + 9;
      assert (10 * m + 9) / 10 == m;
      assert (10 * m + 9) % 10 == 9;
    }
  }
}
