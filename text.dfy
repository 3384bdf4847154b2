/** The JavaScript string operations the components rely on, written out over
    `seq<char>`: `trim`, ASCII `toLowerCase`/`toUpperCase`, `includes`,
    `split`/`join`, `slice`, `padStart`, `String(n)` and `parseInt`. */
module Text {
  import opened Wrappers

  // ---------------------------------------------------------------------
  // trim

  /** The characters `String.prototype.trim` removes: the ECMAScript
      WhiteSpace and LineTerminator productions. */
  predicate IsJsWhitespace(c: char)
  {
    || c == ' ' || c == '\t' || c == '\n' || c == '\r'
    || c == '\U{000B}' || c == '\U{000C}' || c == '\U{00A0}' || c == '\U{1680}'
    || ('\U{2000}' <= c <= '\U{200A}')
    || c == '\U{2028}' || c == '\U{2029}' || c == '\U{202F}' || c == '\U{205F}'
    || c == '\U{3000}' || c == '\U{FEFF}'
  }

  /** `s` with leading whitespace removed. */
  function TrimStart(s: string): (r: string)
    ensures |r| <= |s| && r == s[|s| - |r|..]
    ensures r == [] || !IsJsWhitespace(r[0])
    ensures forall i :: 0 <= i < |s| - |r| ==> IsJsWhitespace(s[i])
  {
    if |s| > 0 && IsJsWhitespace(s[0]) then TrimStart(s[1..]) else s
  }

  /** `s` with trailing whitespace removed. */
  function TrimEnd(s: string): (r: string)
    ensures |r| <= |s| && r == s[..|r|]
    ensures r == [] || !IsJsWhitespace(r[|r| - 1])
    ensures forall i :: |r| <= i < |s| ==> IsJsWhitespace(s[i])
  {
    if |s| > 0 && IsJsWhitespace(s[|s| - 1]) then TrimEnd(s[..|s| - 1]) else s
  }

  /** `s.trim()`. */
  function Trim(s: string): string
  {
    TrimEnd(TrimStart(s))
  }

  /** The falsy test `!s.trim()` the forms use to reject blank input. */
  predicate IsBlank(s: string)
  {
    Trim(s) == ""
  }

  /** A string is blank exactly when every character is whitespace. */
  lemma BlankIffAllWhitespace(s: string)
    ensures IsBlank(s) <==> forall i :: 0 <= i < |s| ==> IsJsWhitespace(s[i])
  {
    var t := TrimStart(s);
    if forall i :: 0 <= i < |s| ==> IsJsWhitespace(s[i]) {
      assert |t| > 0 ==> t[0] == s[|s| - |t|];
    } else {
      var k :| 0 <= k < |s| && !IsJsWhitespace(s[k]);
      assert |s| - |t| <= k;
      assert t[k - (|s| - |t|)] == s[k];
      assert t != [];
      assert !IsJsWhitespace(t[k - (|s| - |t|)]);
    }
  }

  // ---------------------------------------------------------------------
  // case mapping (ASCII letters; other characters are left unchanged)

  function LowerChar(c: char): (r: char)
    ensures !('A' <= r <= 'Z')
    ensures !('A' <= c <= 'Z') ==> r == c
  {
    if 'A' <= c <= 'Z' then (c as int - 'A' as int + 'a' as int) as char else c
  }

  function UpperChar(c: char): (r: char)
    ensures !('a' <= r <= 'z')
    ensures !('a' <= c <= 'z') ==> r == c
  {
    if 'a' <= c <= 'z' then (c as int - 'a' as int + 'A' as int) as char else c
  }

  /** `s.toLowerCase()`. */
  function ToLower(s: string): (r: string)
    ensures |r| == |s|
    ensures forall i :: 0 <= i < |r| ==> r[i] == LowerChar(s[i])
  {
    seq(|s|, i requires 0 <= i < |s| => LowerChar(s[i]))
  }

  /** `s.toUpperCase()`. */
  function ToUpper(s: string): (r: string)
    ensures |r| == |s|
    ensures forall i :: 0 <= i < |r| ==> r[i] == UpperChar(s[i])
  {
    seq(|s|, i requires 0 <= i < |s| => UpperChar(s[i]))
  }

  /** Lower-casing is idempotent, so a lower-cased text matches itself. */
  lemma ToLowerIdempotent(s: string)
    ensures ToLower(ToLower(s)) == ToLower(s)
  {
  }

  // ---------------------------------------------------------------------
  // includes

  /** `s.includes(sub)`. */
  predicate Contains(s: string, sub: string)
  {
    exists i | 0 <= i <= |s| - |sub| :: OccursAt(s, sub, i)
  }

  /** `sub` appears in `s` starting at index `i`. */
  predicate OccursAt(s: string, sub: string, i: int)
  {
    0 <= i <= |s| - |sub| && s[i..i + |sub|] == sub
  }

  /** `sub` does not start at an index whose character differs from its
      first. */
  lemma FirstCharMismatch(s: string, sub: string, i: int)
    requires |sub| > 0 && 0 <= i < |s| && s[i] != sub[0]
    ensures !OccursAt(s, sub, i)
  {
    if 0 <= i <= |s| - |sub| {
      assert s[i..i + |sub|][0] == s[i];
    }
  }

  /** Every string includes the empty string. */
  lemma ContainsEmpty(s: string)
    ensures Contains(s, "")
  {
    assert OccursAt(s, "", 0);
  }

  /** A string includes every string it starts with, ends with or is. */
  lemma ContainsParts(a: string, b: string)
    ensures Contains(a + b, a) && Contains(a + b, b)
  {
    assert OccursAt(a + b, a, 0);
    assert OccursAt(a + b, b, |a|);
  }

  // ---------------------------------------------------------------------
  // split and join

  /** `s.split(sep)` for a one-character separator: always at least one part,
      empty parts where separators are adjacent or at the ends. */
  function Split(s: string, sep: char): (r: seq<string>)
    ensures |r| >= 1
    ensures forall k :: 0 <= k < |r| ==> sep !in r[k]
  {
    if |s| == 0 then [""]
    else if s[0] == sep then [""] + Split(s[1..], sep)
    else
      var rest := Split(s[1..], sep);
      [[s[0]] + rest[0]] + rest[1..]
  }

  /** `parts.join(sep)` for a one-character separator. */
  function Join(parts: seq<string>, sep: char): string
  {
    if |parts| == 0 then ""
    else if |parts| == 1 then parts[0]
    else parts[0] + [sep] + Join(parts[1..], sep)
  }

  /** Splitting and joining on the same separator gives back the text. */
  lemma {:induction false} JoinSplit(s: string, sep: char)
    ensures Join(Split(s, sep), sep) == s
  {
    if |s| == 0 {
    } else if s[0] == sep {
      JoinSplit(s[1..], sep);
      assert s == [sep] + s[1..];
    } else {
      JoinSplit(s[1..], sep);
      var rest := Split(s[1..], sep);
      if |rest| == 1 {
        assert Join(rest, sep) == rest[0];
      } else {
        assert Join(rest, sep) == rest[0] + [sep] + Join(rest[1..], sep);
        assert ([[s[0]] + rest[0]] + rest[1..])[1..] == rest[1..];
      }
      assert s == [s[0]] + s[1..];
    }
  }

  /** A text without the separator splits into itself alone. */
  lemma {:induction false} SplitWithoutSeparator(s: string, sep: char)
    requires sep !in s
    ensures Split(s, sep) == [s]
  {
    if |s| > 0 {
      assert forall k :: 0 <= k < |s[1..]| ==> s[1..][k] == s[k + 1];
      SplitWithoutSeparator(s[1..], sep);
      assert s == [s[0]] + s[1..];
    }
  }

  /** Splitting distributes over a separator placed between two texts. */
  lemma {:induction false} SplitAround(a: string, b: string, sep: char)
    ensures Split(a + [sep] + b, sep) == Split(a, sep) + Split(b, sep)
  {
    if |a| == 0 {
      assert a + [sep] + b == [sep] + b;
      assert ([sep] + b)[1..] == b;
    } else {
      var s := a + [sep] + b;
      assert s[0] == a[0];
      assert s[1..] == a[1..] + [sep] + b;
      SplitAround(a[1..], b, sep);
    }
  }

  /** Joining two non-empty lists puts one separator between their joins. */
  lemma {:induction false} JoinConcat(a: seq<string>, b: seq<string>, sep: char)
    requires |a| >= 1 && |b| >= 1
    ensures Join(a + b, sep) == Join(a, sep) + [sep] + Join(b, sep)
  {
    if |a| > 1 {
      assert (a + b)[1..] == a[1..] + b;
      JoinConcat(a[1..], b, sep);
    }
  }

  /** Parts without the separator are given back by splitting their join. */
  lemma {:induction false} SplitJoin(parts: seq<string>, sep: char)
    requires |parts| >= 1
    requires forall k :: 0 <= k < |parts| ==> sep !in parts[k]
    ensures Split(Join(parts, sep), sep) == parts
  {
    SplitWithoutSeparator(parts[0], sep);
    if |parts| > 1 {
      SplitAround(parts[0], Join(parts[1..], sep), sep);
      SplitJoin(parts[1..], sep);
      assert parts == [parts[0]] + parts[1..];
    }
  }

  // ---------------------------------------------------------------------
  // the last segment of a split ( `s.split('-').pop()` )

  /** The text after the last `sep`, or all of `s` when it has none. */
  function LastSegment(s: string, sep: char): (r: string)
    ensures sep !in r
  {
    var parts := Split(s, sep);
    parts[|parts| - 1]
  }

  /** The last segment of `head + sep + tail` is `tail` whenever `tail` has
      no separator in it. */
  lemma LastSegmentOfJoined(head: string, tail: string, sep: char)
    requires sep !in tail
    ensures LastSegment(head + [sep] + tail, sep) == tail
  {
    SplitAround(head, tail, sep);
    SplitWithoutSeparator(tail, sep);
  }

  // ---------------------------------------------------------------------
  // slice and padStart

  /** `s.slice(0, k)` for k >= 0. */
  function Take(s: string, k: nat): (r: string)
    ensures |r| == if |s| < k then |s| else k
    ensures r == s[..|r|]
  {
    if |s| <= k then s else s[..k]
  }

  /** `s.slice(-k)` for k >= 1. */
  function TakeLast(s: string, k: nat): (r: string)
    ensures |r| == if |s| < k then |s| else k
    ensures r == s[|s| - |r|..]
  {
    if |s| <= k then s else s[|s| - k..]
  }

  /** `s.padStart(width, c)`. */
  function PadStart(s: string, width: nat, c: char): (r: string)
    ensures |r| == if |s| < width then width else |s|
    ensures r[|r| - |s|..] == s
    ensures forall i :: 0 <= i < |r| - |s| ==> r[i] == c
    decreases width - |s|
  {
    if |s| >= width then s
    else
      var r := PadStart([c] + s, width, c);
      assert r[|r| - |s|..] == s by {
        assert r[|r| - |s| - 1..] == [c] + s;
        assert r[|r| - |s|..] == r[|r| - |s| - 1..][1..];
      }
      r
  }

  // ---------------------------------------------------------------------
  // decimal numerals: String(n) and parseInt

  predicate IsDigit(c: char)
  {
    '0' <= c <= '9'
  }

  function DigitChar(d: nat): (c: char)
    requires d < 10
    ensures IsDigit(c) && c as int - '0' as int == d
  {
    ('0' as int + d) as char
  }

  function DigitValue(c: char): (d: nat)
    requires IsDigit(c)
    ensures d < 10 && DigitChar(d) == c
  {
    c as int - '0' as int
  }

  predicate AllDigits(s: string)
  {
    forall i :: 0 <= i < |s| ==> IsDigit(s[i])
  }

  /** A run of digits holds no other character. */
  lemma DigitsExclude(s: string, c: char)
    requires AllDigits(s) && !IsDigit(c)
    ensures c !in s
  {
  }

  /** The last characters of a run of digits, and a run of digits padded
      with zeros, are runs of digits. */
  lemma DigitsTakeLast(s: string, k: nat)
    requires AllDigits(s)
    ensures AllDigits(TakeLast(s, k))
  {
    var r := TakeLast(s, k);
    forall i | 0 <= i < |r|
      ensures IsDigit(r[i])
    {
      assert r[i] == s[|s| - |r| + i];
    }
  }

  lemma DigitsPadStart(s: string, width: nat)
    requires AllDigits(s)
    ensures AllDigits(PadStart(s, width, '0'))
  {
    var r := PadStart(s, width, '0');
    forall i | 0 <= i < |r|
      ensures IsDigit(r[i])
    {
      if i >= |r| - |s| {
        assert r[i] == r[|r| - |s|..][i - (|r| - |s|)];
      }
    }
  }

  /** `String(n)` for a whole number n >= 0. */
  function NatToString(n: nat): (r: string)
    ensures |r| >= 1 && AllDigits(r)
    ensures |r| > 1 ==> r[0] != '0'
  {
    if n < 10 then [DigitChar(n)] else NatToString(n / 10) + [DigitChar(n % 10)]
  }

  /** `String(i)` for a whole number i. */
  function IntToString(i: int): (r: string)
    ensures |r| >= 1
    ensures i >= 0 ==> r == NatToString(i)
    ensures i < 0 ==> r == "-" + NatToString(-i)
  {
    if i < 0 then "-" + NatToString(-i) else NatToString(i)
  }

  /** The value of a run of decimal digits. */
  function DigitsValue(s: string): nat
    requires AllDigits(s)
  {
    if |s| == 0 then 0 else DigitsValue(s[..|s| - 1]) * 10 + DigitValue(s[|s| - 1])
  }

  /** The longest prefix of `s` made of decimal digits. */
  function LeadingDigits(s: string): (r: string)
    ensures |r| <= |s| && AllDigits(r) && r == s[..|r|]
    ensures |r| < |s| ==> !IsDigit(s[|r|])
  {
    if |s| > 0 && IsDigit(s[0]) then [s[0]] + LeadingDigits(s[1..]) else ""
  }

  predicate IsHexDigit(c: char)
  {
    IsDigit(c) || 'a' <= c <= 'f' || 'A' <= c <= 'F'
  }

  predicate AllHex(s: string)
  {
    forall i :: 0 <= i < |s| ==> IsHexDigit(s[i])
  }

  function HexDigitValue(c: char): (d: nat)
    requires IsHexDigit(c)
    ensures d < 16
  {
    if IsDigit(c) then DigitValue(c)
    else if 'a' <= c <= 'f' then c as int - 'a' as int + 10
    else c as int - 'A' as int + 10
  }

  /** The value of a run of hexadecimal digits. */
  function HexValue(s: string): nat
    requires AllHex(s)
  {
    if |s| == 0 then 0 else HexValue(s[..|s| - 1]) * 16 + HexDigitValue(s[|s| - 1])
  }

  /** The longest prefix of `s` made of hexadecimal digits. */
  function LeadingHex(s: string): (r: string)
    ensures |r| <= |s| && AllHex(r) && r == s[..|r|]
    ensures |r| < |s| ==> !IsHexDigit(s[|r|])
  {
    if |s| > 0 && IsHexDigit(s[0]) then [s[0]] + LeadingHex(s[1..]) else ""
  }

  /** The `0x` or `0X` that makes `parseInt` without a radix read base 16. */
  predicate HexPrefixed(body: string)
  {
    |body| >= 2 && body[0] == '0' && (body[1] == 'x' || body[1] == 'X')
  }

  /** The digits `parseInt` reads after the sign: the hexadecimal run
      after a `0x` prefix, the decimal run otherwise. */
  function NumeralDigits(body: string): (r: string)
    ensures HexPrefixed(body) ==> r == LeadingHex(body[2..]) && AllHex(r)
    ensures !HexPrefixed(body) ==> r == LeadingDigits(body) && AllDigits(r)
  {
    if HexPrefixed(body) then LeadingHex(body[2..]) else LeadingDigits(body)
  }

  /** Their value, in base 16 or in base 10. */
  function NumeralValue(body: string): (v: nat)
    ensures HexPrefixed(body) ==> v == HexValue(NumeralDigits(body))
    ensures !HexPrefixed(body) ==> v == DigitsValue(NumeralDigits(body))
  {
    if HexPrefixed(body) then HexValue(LeadingHex(body[2..])) else DigitsValue(LeadingDigits(body))
  }

  /** `parseInt(s)` without a radix: leading whitespace, an optional sign,
      then a hexadecimal run after `0x`/`0X` or else a decimal run; `None`
      stands for `NaN`, which an empty run gives. */
  function ParseInt(s: string): (r: Option<int>)
    ensures r.None? <==> NumeralDigits(SignedBody(TrimStart(s))) == ""
    ensures r.Some? ==> r.value == Signed(TrimStart(s), NumeralValue(SignedBody(TrimStart(s))))
  {
    var t := TrimStart(s);
    if NumeralDigits(SignedBody(t)) == "" then None
    else Some(Signed(t, NumeralValue(SignedBody(t))))
  }

  /** The value negated when the text starts with a minus sign. */
  function Signed(t: string, v: nat): int
  {
    if |t| > 0 && t[0] == '-' then -(v as int) else v
  }

  /** The text after an optional leading sign. */
  function SignedBody(t: string): (r: string)
    ensures |t| > 0 && (t[0] == '-' || t[0] == '+') ==> r == t[1..]
    ensures !(|t| > 0 && (t[0] == '-' || t[0] == '+')) ==> r == t
  {
    if |t| > 0 && (t[0] == '-' || t[0] == '+') then t[1..] else t
  }

  lemma {:induction false} LeadingDigitsOfDigits(s: string)
    requires AllDigits(s)
    ensures LeadingDigits(s) == s
  {
    if |s| > 0 {
      LeadingDigitsOfDigits(s[1..]);
    }
  }

  lemma {:induction false} DigitsValueOfDecimal(n: nat)
    ensures DigitsValue(NatToString(n)) == n
  {
    if n >= 10 {
      DigitsValueOfDecimal(n / 10);
      var r := NatToString(n);
      assert r[..|r| - 1] == NatToString(n / 10);
    }
  }

  /** `parseInt(String(i))` gives back `i`. */
  lemma ParseIntOfDecimal(i: int)
    ensures ParseInt(IntToString(i)) == Some(i)
  {
    var n: nat := if i < 0 then -i else i;
    DigitsValueOfDecimal(n);
    if i < 0 {
      ParseNegative(NatToString(n));
    } else {
      ParseDigits(NatToString(n));
    }
  }

  /** A text that starts with neither whitespace nor a sign is its own
      signed body. */
  lemma {:induction false} PlainBody(s: string)
    requires |s| > 0 && !IsJsWhitespace(s[0]) && s[0] != '-' && s[0] != '+'
    ensures TrimStart(s) == s && SignedBody(s) == s
  {
  }

  /** A run of digits parses as its value. */
  lemma ParseDigits(digits: string)
    requires AllDigits(digits) && |digits| >= 1
    ensures ParseInt(digits) == Some(DigitsValue(digits))
  {
    assert IsDigit(digits[0]);
    PlainBody(digits);
    assert !HexPrefixed(digits) by {
      if |digits| >= 2 {
        assert IsDigit(digits[1]);
      }
    }
    LeadingDigitsOfDigits(digits);
  }

  /** A minus sign and a run of digits parse as the negated value. */
  lemma ParseNegative(digits: string)
    requires AllDigits(digits) && |digits| >= 1
    ensures ParseInt("-" + digits) == Some(-(DigitsValue(digits) as int))
  {
    var s := "-" + digits;
    assert s[0] == '-' && s[1..] == digits;
    assert TrimStart(s) == s by {
      assert !IsJsWhitespace(s[0]);
    }
    assert !HexPrefixed(digits) by {
      if |digits| >= 2 {
        assert IsDigit(digits[1]);
      }
    }
    LeadingDigitsOfDigits(digits);
    assert NumeralDigits(SignedBody(s)) == digits;
    assert Signed(s, DigitsValue(digits)) == -(DigitsValue(digits) as int);
  }

  lemma {:induction false} LeadingHexOfHex(s: string)
    requires AllHex(s)
    ensures LeadingHex(s) == s
  {
    if |s| > 0 {
      LeadingHexOfHex(s[1..]);
    }
  }

  /** After `0x`, a run of hexadecimal digits parses as its base-16
      value. */
  lemma ParseHexPrefixed(s: string)
    requires HexPrefixed(s) && |s| >= 3 && AllHex(s[2..])
    ensures ParseInt(s) == Some(HexValue(s[2..]))
  {
    PlainBody(s);
    LeadingHexOfHex(s[2..]);
  }

  /** Two hexadecimal digits are worth the first times sixteen plus the
      second. */
  lemma HexPair(a: char, b: char)
    requires IsHexDigit(a) && IsHexDigit(b)
    ensures AllHex([a, b]) && HexValue([a, b]) == HexDigitValue(a) * 16 + HexDigitValue(b)
  {
    var s := [a, b];
    assert AllHex(s) by {
      assert s[0] == a && s[1] == b;
    }
    assert s[..1] == [a] && [a][..0] == [];
    assert HexValue([a]) == HexDigitValue(a);
  }

  /** `parseInt("0x1A")` is 26. */
  lemma HexExample()
    ensures ParseInt("0x1A") == Some(26)
  {
    var s := "0x1A";
    assert AllHex(s[2..]) && HexValue(s[2..]) == 26 by {
      assert s[2..] == [s[2], s[3]];
      HexPair(s[2], s[3]);
      assert HexDigitValue(s[2]) == 1 && HexDigitValue(s[3]) == 10;
    }
    ParseHexPrefixed(s);
  }

  /** `0x` followed by no hexadecimal digit is `NaN`. */
  lemma HexWithoutDigits()
    ensures ParseInt("0xG") == None
  {
    var s := "0xG";
    assert s[0] == '0' && s[1] == 'x' && s[2..] == "G";
    PlainBody(s);
    assert !IsHexDigit('G');
  }
}
