/** The JavaScript string built-ins the extension relies on, over `string`
    (a `seq<char>`): `Array.prototype.join`, `String.prototype.split` with a
    one-character separator, `replace(/\n/g, '')`, `endsWith`, and
    `parseInt` with and without a radix. */
module Text {

  datatype Option<+T> = None | Some(value: T) {
    function GetOr(default: T): T {
      match this
      case Some(v) => v
      case None => default
    }
  }

  // ---------------------------------------------------------------------
  // join / split

  /** `parts.join(sep)`. */
  function Join(sep: string, parts: seq<string>): string
    decreases |parts|
  {
    if |parts| == 0 then ""
    else if |parts| == 1 then parts[0]
    else parts[0] + sep + Join(sep, parts[1..])
  }

  /** `s.split(d)` for a one-character separator: every field, in order,
      without the separators; never empty (`"".split(d)` is `[""]`). */
  function Split(s: string, d: char): (r: seq<string>)
    ensures |r| >= 1
    ensures forall i :: 0 <= i < |r| ==> d !in r[i]
  {
    if |s| == 0 then [""]
    else
      var rest := Split(s[1..], d);
      if s[0] == d then [""] + rest
      else [[s[0]] + rest[0]] + rest[1..]
  }

  /** Joining the fields of a split with the separator gives back the
      string: the two are inverse. */
  lemma {:induction false} JoinSplit(s: string, d: char)
    ensures Join([d], Split(s, d)) == s
  {
    if |s| > 0 {
      var rest := Split(s[1..], d);
      JoinSplit(s[1..], d);
      assert Join([d], rest) == s[1..];
      if s[0] == d {
        assert Split(s, d) == [""] + rest;
        assert Join([d], [""] + rest) == "" + [d] + Join([d], rest);
        assert s == [s[0]] + s[1..];
      } else {
        var r := Split(s, d);
        assert r == [[s[0]] + rest[0]] + rest[1..];
        if |rest| == 1 {
          assert Join([d], r) == [s[0]] + rest[0];
        } else {
          assert r[1..] == rest[1..];
          assert Join([d], rest) == rest[0] + [d] + Join([d], rest[1..]);
          assert Join([d], r) == [s[0]] + rest[0] + [d] + Join([d], rest[1..]);
        }
        assert s == [s[0]] + s[1..];
      }
    }
  }

  /** The first field of a split is the text before the first separator
      (the whole string when there is none). */
  lemma {:induction false} SplitFirstField(s: string, d: char)
    ensures var f := Split(s, d)[0];
            && |f| <= |s| && s[..|f|] == f
            && (|f| < |s| ==> s[|f|] == d)
            && (|f| == |s| <==> d !in s)
  {
    if |s| > 0 {
      SplitFirstField(s[1..], d);
    }
  }

  /** Splitting `a + [d] + b` where `a` has no separator gives `a`
      followed by the fields of `b`. */
  lemma {:induction false} SplitAtFirst(a: string, d: char, b: string)
    requires d !in a
    ensures Split(a + [d] + b, d) == [a] + Split(b, d)
  {
    if |a| == 0 {
      assert (a + [d] + b)[1..] == b;
    } else {
      assert (a + [d] + b)[1..] == a[1..] + [d] + b;
      SplitAtFirst(a[1..], d, b);
      assert [a[0]] + a[1..] == a;
    }
  }

  /** Splitting the join of fields that hold no separator gives the fields
      back. */
  lemma {:induction false} SplitJoin(parts: seq<string>, d: char)
    requires |parts| > 0
    requires forall i :: 0 <= i < |parts| ==> d !in parts[i]
    ensures Split(Join([d], parts), d) == parts
  {
    if |parts| == 1 {
      SplitNoSeparator(parts[0], d);
    } else {
      SplitJoin(parts[1..], d);
      SplitAtFirst(parts[0], d, Join([d], parts[1..]));
      assert [parts[0]] + parts[1..] == parts;
    }
  }

  /** Splitting a string without the separator gives that one field. */
  lemma {:induction false} SplitNoSeparator(s: string, d: char)
    requires d !in s
    ensures Split(s, d) == [s]
  {
    if |s| > 0 {
      SplitNoSeparator(s[1..], d);
      assert [s[0]] + s[1..] == s;
    }
  }

  // ---------------------------------------------------------------------
  // replace(/\n/g, '')

  /** `s.replace(/\n/g, '')`: `s` with every line feed removed. */
  function StripNewlines(s: string): (r: string)
    ensures '\n' !in r
    ensures |r| <= |s|
  {
    if |s| == 0 then ""
    else if s[0] == '\n' then StripNewlines(s[1..])
    else [s[0]] + StripNewlines(s[1..])
  }

  /** Removing line feeds distributes over concatenation. */
  lemma {:induction false} StripNewlinesConcat(a: string, b: string)
    ensures StripNewlines(a + b) == StripNewlines(a) + StripNewlines(b)
  {
    if |a| > 0 {
      assert (a + b)[1..] == a[1..] + b;
      StripNewlinesConcat(a[1..], b);
    } else {
      assert a + b == b;
    }
  }

  /** A string without line feeds is left as it is. */
  lemma {:induction false} StripNewlinesNoop(s: string)
    requires '\n' !in s
    ensures StripNewlines(s) == s
  {
    if |s| > 0 {
      StripNewlinesNoop(s[1..]);
      assert [s[0]] + s[1..] == s;
    }
  }

  /** Removing line feeds keeps every other character: the result equals
      the input exactly when the input had none. */
  lemma {:induction false} StripNewlinesIdentityIff(s: string)
    ensures StripNewlines(s) == s <==> '\n' !in s
  {
    if '\n' in s {
      assert StripNewlines(s) != s;
    } else {
      StripNewlinesNoop(s);
    }
  }

  // ---------------------------------------------------------------------
  // endsWith

  predicate EndsWith(s: string, suffix: string) {
    |suffix| <= |s| && s[|s| - |suffix|..] == suffix
  }

  // ---------------------------------------------------------------------
  // parseInt

  /** The characters `parseInt` skips before the number: ECMAScript's white
      space (tab, vertical tab, form feed, BOM and every space separator of
      Unicode category Zs) and its four line terminators. */
  predicate IsJsSpace(c: char) {
    c == '\t' || c == '\U{000B}' || c == '\U{000C}' || c == '\U{FEFF}'
    || IsSpaceSeparator(c)
    || c == '\n' || c == '\r' || c == '\U{2028}' || c == '\U{2029}'
  }

  /** Unicode category Zs. */
  predicate IsSpaceSeparator(c: char) {
    c == ' ' || c == '\U{00A0}' || c == '\U{1680}' || '\U{2000}' <= c <= '\U{200A}'
    || c == '\U{202F}' || c == '\U{205F}' || c == '\U{3000}'
  }

  function TrimStart(s: string): (r: string)
    ensures |r| <= |s| && r == s[|s| - |r|..]
    ensures |r| > 0 ==> !IsJsSpace(r[0])
  {
    if |s| > 0 && IsJsSpace(s[0]) then TrimStart(s[1..]) else s
  }

  /** The value of `c` as a digit in `base` (10 or 16), or -1. */
  function DigitValue(c: char, base: nat): (v: int)
    ensures -1 <= v < base || base < 10
  {
    if '0' <= c <= '9' && (c as int) - ('0' as int) < base then (c as int) - ('0' as int)
    else if base == 16 && 'a' <= c <= 'f' then (c as int) - ('a' as int) + 10
    else if base == 16 && 'A' <= c <= 'F' then (c as int) - ('A' as int) + 10
    else -1
  }

  /** Number of leading characters of `s` that are digits in `base`. */
  function DigitRun(s: string, base: nat): (n: nat)
    ensures n <= |s|
    ensures forall i :: 0 <= i < n ==> DigitValue(s[i], base) >= 0
    ensures n < |s| ==> DigitValue(s[n], base) < 0
  {
    if |s| > 0 && DigitValue(s[0], base) >= 0 then 1 + DigitRun(s[1..], base) else 0
  }

  /** The value of a string of digits, most significant first. */
  function DigitsValue(s: string, base: nat): nat
    requires forall i :: 0 <= i < |s| ==> DigitValue(s[i], base) >= 0
  {
    if |s| == 0 then 0
    else DigitsValue(s[..|s| - 1], base) * base + DigitValue(s[|s| - 1], base)
  }

  /** `parseInt(s, 10)` (`hexPrefix` false) or `parseInt(s)` with no radix
      (`hexPrefix` true, where a `0x`/`0X` prefix selects base 16). The
      argument `None` is `undefined`, which `parseInt` reads as the text
      "undefined". `None` as the result is NaN. */
  function ParseInt(arg: Option<string>, hexPrefix: bool): Option<int>
  {
    var t := TrimStart(arg.GetOr("undefined"));
    if |t| > 0 && t[0] == '-' then
      match ParseMagnitude(t[1..], hexPrefix)
      case None => None
      case Some(m) => Some(-(m as int))
    else if |t| > 0 && t[0] == '+' then ParseMagnitude(t[1..], hexPrefix)
    else ParseMagnitude(t, hexPrefix)
  }

  /** The unsigned part of `parseInt`: hexadecimal after a `0x` prefix when
      that prefix is recognised, decimal otherwise. */
  function ParseMagnitude(u: string, hexPrefix: bool): Option<nat>
  {
    if hexPrefix && |u| >= 2 && u[0] == '0' && (u[1] == 'x' || u[1] == 'X') then ParseDigits(u[2..], 16)
    else ParseDigits(u, 10)
  }

  /** The value of the longest run of leading digits, or NaN if there is none. */
  function ParseDigits(v: string, base: nat): Option<nat>
  {
    var n := DigitRun(v, base);
    if n == 0 then None else Some(DigitsValue(v[..n], base))
  }

  /** The decimal text of a natural number, without leading zeros. */
  function DecimalText(n: nat): (r: string)
    ensures |r| > 0 && forall i :: 0 <= i < |r| ==> '0' <= r[i] <= '9'
  {
    if n < 10 then [(('0' as int) + n) as char]
    else DecimalText(n / 10) + [(('0' as int) + n % 10) as char]
  }

  lemma {:induction false} DecimalTextValue(n: nat)
    ensures forall i :: 0 <= i < |DecimalText(n)| ==> DigitValue(DecimalText(n)[i], 10) >= 0
    ensures DigitsValue(DecimalText(n), 10) == n
  {
    var r := DecimalText(n);
    if n >= 10 {
      DecimalTextValue(n / 10);
      assert r[..|r| - 1] == DecimalText(n / 10);
    }
  }

  /** `parseInt` reads the decimal text of a natural number back, whatever
      non-digit text follows it: printing then parsing is the identity. */
  lemma ParseDecimalText(n: nat, rest: string, hexPrefix: bool)
    requires |rest| > 0 ==> DigitValue(rest[0], 10) < 0
    requires hexPrefix && n == 0 ==> |rest| == 0 || (rest[0] != 'x' && rest[0] != 'X')
    ensures ParseInt(Some(DecimalText(n) + rest), hexPrefix) == Some(n)
  {
    var s := DecimalText(n) + rest;
    ParseUnsigned(s, hexPrefix);
    DecimalNotHexPrefixed(n, rest, hexPrefix);
    ParseDigitsDecimal(n, rest);
  }

  /** Text that starts with a digit is parsed with no sign. */
  lemma ParseUnsigned(s: string, hexPrefix: bool)
    requires |s| > 0 && '0' <= s[0] <= '9'
    ensures ParseInt(Some(s), hexPrefix) == ParseMagnitude(s, hexPrefix)
  {
    assert !IsJsSpace(s[0]);
    assert TrimStart(s) == s;
    var t := TrimStart(Some(s).GetOr("undefined"));
    assert t == s;
    assert t[0] != '-' && t[0] != '+';
  }

  /** The decimal text of a number never carries a `0x` prefix, unless a
      zero is followed by an `x`. */
  lemma DecimalNotHexPrefixed(n: nat, rest: string, hexPrefix: bool)
    requires hexPrefix && n == 0 ==> |rest| == 0 || (rest[0] != 'x' && rest[0] != 'X')
    ensures ParseMagnitude(DecimalText(n) + rest, hexPrefix) == ParseDigits(DecimalText(n) + rest, 10)
  {
    var d := DecimalText(n);
    var s := d + rest;
    assert s[0] == d[0];
    if n >= 10 {
      LeadingDigitNonZero(n);
    } else if |rest| > 0 {
      assert |d| == 1 && s[1] == rest[0];
    }
  }

  lemma ParseDigitsDecimal(n: nat, rest: string)
    requires |rest| > 0 ==> DigitValue(rest[0], 10) < 0
    ensures ParseDigits(DecimalText(n) + rest, 10) == Some(n)
  {
    var d := DecimalText(n);
    DecimalTextValue(n);
    RunOverDigits(d, rest, 10);
    assert (d + rest)[..|d|] == d;
  }

  lemma {:induction false} LeadingDigitNonZero(n: nat)
    requires n >= 10
    ensures DecimalText(n)[0] != '0'
  {
    if n / 10 >= 10 {
      LeadingDigitNonZero(n / 10);
    }
  }

  lemma {:induction false} RunOverDigits(d: string, rest: string, base: nat)
    requires forall i :: 0 <= i < |d| ==> DigitValue(d[i], base) >= 0
    requires |rest| > 0 ==> DigitValue(rest[0], base) < 0
    ensures DigitRun(d + rest, base) == |d|
  {
    if |d| > 0 {
      assert (d + rest)[1..] == d[1..] + rest;
      RunOverDigits(d[1..], rest, base);
    } else {
      assert d + rest == rest;
    }
  }

  /** Text that starts with neither white space, a sign nor a digit parses
      as NaN. */
  lemma ParseNonNumeric(s: string, hexPrefix: bool)
    requires |s| > 0 && !IsJsSpace(s[0]) && s[0] != '-' && s[0] != '+' && DigitValue(s[0], 10) < 0
    ensures ParseInt(Some(s), hexPrefix) == None
  {
    assert TrimStart(s) == s;
    assert DigitRun(s, 10) == 0;
  }

  /** Leading white space, the Unicode space separators included, is
      skipped: `parseInt("\u3000" + s)` is `parseInt(s)`. */
  lemma ParseSkipsSpace(c: char, s: string, hexPrefix: bool)
    requires IsJsSpace(c)
    ensures ParseInt(Some([c] + s), hexPrefix) == ParseInt(Some(s), hexPrefix)
  {
    var t := [c] + s;
    assert t[0] == c && t[1..] == s;
    assert TrimStart(t) == TrimStart(s);
    assert Some(t).GetOr("undefined") == t && Some(s).GetOr("undefined") == s;
  }

  /** `parseInt(undefined)` reads "undefined" and gives NaN. */
  lemma ParseIntUndefined(hexPrefix: bool)
    ensures ParseInt(None, hexPrefix) == None
  {
    var u := "undefined";
    assert u[0] == 'u';
    ParseNonNumeric(u, hexPrefix);
  }
}
