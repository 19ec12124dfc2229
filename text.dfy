/**
 * The JavaScript string operations the server and client code relies on:
 * the whitespace classes of ECMAScript regular expressions and of
 * `String.prototype.trim`, `startsWith`/`endsWith`, `toUpperCase` on ASCII,
 * `split` on a one-character separator, `Array.prototype.join`, and
 * `Number.prototype.toString(radix)` on non-negative integers.
 */
module Text {
  import opened Wrappers

  /** The characters `.` does not match in an ECMAScript regular expression. */
  predicate IsLineTerminator(c: char) {
    c == '\n' || c == '\r' || c == '\U{2028}' || c == '\U{2029}'
  }

  /** ECMAScript WhiteSpace and LineTerminator: the class `\s` and what `trim()` strips. */
  predicate IsJsSpace(c: char) {
    || c == '\t' || c == '\n' || c == '\U{0B}' || c == '\U{0C}' || c == '\r' || c == ' '
    || c == '\U{A0}' || c == '\U{1680}' || ('\U{2000}' <= c <= '\U{200A}')
    || c == '\U{2028}' || c == '\U{2029}' || c == '\U{202F}' || c == '\U{205F}'
    || c == '\U{3000}' || c == '\U{FEFF}'
  }

  /** An optional text is truthy when it is present and not empty. */
  predicate Truthy(o: Option<string>) { o.Some? && o.value != "" }

  // ---------------------------------------------------------------------------
  // trim()

  /** Number of whitespace characters at the start of `s`. */
  function LeadingSpaces(s: string): (k: nat)
    ensures k <= |s|
    ensures forall i :: 0 <= i < k ==> IsJsSpace(s[i])
    ensures k < |s| ==> !IsJsSpace(s[k])
  {
    if |s| == 0 || !IsJsSpace(s[0]) then 0 else 1 + LeadingSpaces(s[1..])
  }

  /** Number of whitespace characters at the end of `s`. */
  function TrailingSpaces(s: string): (k: nat)
    ensures k <= |s|
    ensures forall i :: |s| - k <= i < |s| ==> IsJsSpace(s[i])
    ensures k < |s| ==> !IsJsSpace(s[|s| - 1 - k])
  {
    if |s| == 0 || !IsJsSpace(s[|s| - 1]) then 0 else 1 + TrailingSpaces(s[..|s| - 1])
  }

  /**
   * `s.trim()`: the slice of `s` that starts after its leading whitespace,
   * is followed only by whitespace, and neither starts nor ends with whitespace.
   */
  function Trim(s: string): (r: string)
    ensures |r| <= |s|
    ensures LeadingSpaces(s) + |r| <= |s| && r == s[LeadingSpaces(s)..LeadingSpaces(s) + |r|]
    ensures forall i :: LeadingSpaces(s) + |r| <= i < |s| ==> IsJsSpace(s[i])
    ensures r != [] ==> !IsJsSpace(r[0]) && !IsJsSpace(r[|r| - 1])
  {
    var t := s[LeadingSpaces(s)..];
    t[..|t| - TrailingSpaces(t)]
  }

  // ---------------------------------------------------------------------------
  // startsWith, endsWith, includes

  predicate StartsWith(s: string, prefix: string) {
    |prefix| <= |s| && s[..|prefix|] == prefix
  }

  predicate EndsWith(s: string, suffix: string) {
    |suffix| <= |s| && s[|s| - |suffix|..] == suffix
  }

  /** `s.includes(part)`: `part` occurs in `s` at some offset. */
  predicate Contains(s: string, part: string) {
    exists i :: 0 <= i <= |s| && part <= s[i..]
  }

  lemma {:induction false} ContainsMiddle(a: string, part: string, b: string)
    ensures Contains(a + part + b, part)
  {
    var s := a + part + b;
    assert s[|a|..] == part + b;
  }

  // ---------------------------------------------------------------------------
  // toUpperCase, restricted to ASCII letters

  function UpperChar(c: char): char {
    if 'a' <= c <= 'z' then (c as int - 32) as char else c
  }

  /** `s.toUpperCase()` for ASCII text: lower-case a-z mapped to A-Z, the rest kept. */
  function ToUpper(s: string): (r: string)
    ensures |r| == |s|
    ensures forall i :: 0 <= i < |s| ==> r[i] == UpperChar(s[i])
  {
    seq(|s|, i requires 0 <= i < |s| => UpperChar(s[i]))
  }

  // ---------------------------------------------------------------------------
  // split(sep) and join(sep)

  /** `s.split(sep)` for a one-character separator: never empty, no part contains `sep`. */
  function Split(s: string, sep: char): (parts: seq<string>)
    ensures |parts| >= 1
    ensures forall i :: 0 <= i < |parts| ==> sep !in parts[i]
    decreases |s|
  {
    if |s| == 0 then [""]
    else
      var rest := Split(s[1..], sep);
      if s[0] == sep then [""] + rest
      else [[s[0]] + rest[0]] + rest[1..]
  }

  /** `parts.join(sep)`. */
  function Join(parts: seq<string>, sep: string): string
  {
    if |parts| == 0 then ""
    else if |parts| == 1 then parts[0]
    else parts[0] + sep + Join(parts[1..], sep)
  }

  /** Joining the parts of a split with the separator gives the original text back. */
  lemma {:induction false} JoinSplit(s: string, sep: char)
    ensures Join(Split(s, sep), [sep]) == s
  {
    if |s| > 0 {
      JoinSplit(s[1..], sep);
      var rest := Split(s[1..], sep);
      if s[0] == sep {
        assert Split(s, sep) == [""] + rest;
        assert s == [sep] + s[1..];
      } else {
        var parts := [[s[0]] + rest[0]] + rest[1..];
        assert Split(s, sep) == parts;
        if |rest| == 1 {
          assert Join(parts, [sep]) == [s[0]] + rest[0];
        } else {
          assert parts[1..] == rest[1..];
          calc {
            Join(parts, [sep]);
            ([s[0]] + rest[0]) + [sep] + Join(rest[1..], [sep]);
            [s[0]] + (rest[0] + [sep] + Join(rest[1..], [sep]));
            [s[0]] + Join(rest, [sep]);
          }
        }
        assert s == [s[0]] + s[1..];
      }
    }
  }

  /** Text free of the separator splits into itself alone. */
  lemma {:induction false} SplitFree(a: string, sep: char)
    requires sep !in a
    ensures Split(a, sep) == [a]
  {
    if |a| > 0 {
      SplitFree(a[1..], sep);
      assert [a[0]] + a[1..] == a;
    }
  }

  /** Splitting `a + sep + b` where `a` is free of the separator peels off `a`. */
  lemma {:induction false} SplitAfter(a: string, sep: char, b: string)
    requires sep !in a
    ensures Split(a + [sep] + b, sep) == [a] + Split(b, sep)
    decreases |a|
  {
    if |a| == 0 {
      assert a + [sep] + b == [sep] + b;
      assert ([sep] + b)[1..] == b;
    } else {
      SplitAfter(a[1..], sep, b);
      var s := a + [sep] + b;
      assert s[1..] == a[1..] + [sep] + b;
      assert [a[0]] + a[1..] == a;
    }
  }

  /** Splitting a join of separator-free parts gives the parts back. */
  lemma {:induction false} SplitJoin(parts: seq<string>, sep: char)
    requires |parts| >= 1
    requires forall i :: 0 <= i < |parts| ==> sep !in parts[i]
    ensures Split(Join(parts, [sep]), sep) == parts
  {
    if |parts| == 1 {
      SplitFree(parts[0], sep);
    } else {
      SplitJoin(parts[1..], sep);
      SplitAfter(parts[0], sep, Join(parts[1..], [sep]));
      assert [parts[0]] + parts[1..] == parts;
    }
  }

  // ---------------------------------------------------------------------------
  // Number.prototype.toString(radix) and parseInt(text, radix) on naturals

  /** The digit `d` as `toString` writes it: 0-9 then lower-case a-z. */
  function DigitChar(d: nat): char
    requires d < 36
  {
    if d < 10 then ('0' as int + d) as char else ('a' as int + d - 10) as char
  }

  /** The value of a digit character in either case, as `parseInt` reads it. */
  function DigitValue(c: char): Option<nat>
  {
    if '0' <= c <= '9' then Some(c as int - '0' as int)
    else if 'a' <= c <= 'z' then Some(c as int - 'a' as int + 10)
    else if 'A' <= c <= 'Z' then Some(c as int - 'A' as int + 10)
    else None
  }

  /** `n.toString(radix)`: most significant digit first, no leading zero. */
  function Radix(n: nat, radix: nat): (r: string)
    requires 2 <= radix <= 36
    decreases n
  {
    if n < radix then [DigitChar(n)] else Radix(n / radix, radix) + [DigitChar(n % radix)]
  }

  /** The value of a digit string in the given radix; `None` when a character is not a digit below it. */
  function DigitsValue(s: string, radix: nat): Option<nat>
    requires 2 <= radix <= 36
    decreases |s|
  {
    if |s| == 0 then Some(0)
    else
      match (DigitsValue(s[..|s| - 1], radix), DigitValue(s[|s| - 1]))
      case (Some(high), Some(d)) => if d < radix then Some(high * radix + d) else None
      case _ => None
  }

  lemma DivModRadix(n: nat, radix: nat)
    requires 2 <= radix
    ensures n == (n / radix) * radix + n % radix && n % radix < radix
    ensures n >= radix ==> 0 < n / radix < n
  {
  }

  lemma DigitRoundTrip(d: nat)
    requires d < 36
    ensures DigitValue(DigitChar(d)) == Some(d)
    ensures DigitValue(UpperChar(DigitChar(d))) == Some(d)
  {
  }

  /** The radix representation of `n` is never empty, starts with a non-zero digit unless `n` is 0, and contains only digits. */
  lemma {:induction false} RadixShape(n: nat, radix: nat)
    requires 2 <= radix <= 36
    ensures |Radix(n, radix)| >= 1
    ensures n > 0 ==> Radix(n, radix)[0] != '0'
    ensures forall i :: 0 <= i < |Radix(n, radix)| ==> DigitValue(Radix(n, radix)[i]).Some?
    decreases n
  {
    DivModRadix(n, radix);
    DigitRoundTrip(n % radix);
    if n >= radix {
      RadixShape(n / radix, radix);
    }
  }

  /** Reading back `toString(radix)` gives the number. */
  lemma {:induction false} RadixReadsBack(n: nat, radix: nat)
    requires 2 <= radix <= 36
    ensures DigitsValue(Radix(n, radix), radix) == Some(n)
    decreases n
  {
    var s := Radix(n, radix);
    DivModRadix(n, radix);
    DigitRoundTrip(n % radix);
    if n < radix {
      assert s[..0] == [];
    } else {
      RadixReadsBack(n / radix, radix);
      assert s[..|s| - 1] == Radix(n / radix, radix);
    }
  }

  /** Digits are read alike in either letter case. */
  lemma {:induction false} UpperDigitsValue(s: string, radix: nat)
    requires 2 <= radix <= 36
    ensures DigitsValue(ToUpper(s), radix) == DigitsValue(s, radix)
    decreases |s|
  {
    if |s| > 0 {
      var u := ToUpper(s);
      UpperDigitsValue(s[..|s| - 1], radix);
      assert u[..|s| - 1] == ToUpper(s[..|s| - 1]);
      assert DigitValue(u[|s| - 1]) == DigitValue(s[|s| - 1]);
    }
  }

  /** Reading back `toString(radix)`, in either letter case, gives the number. */
  lemma RadixRoundTrip(n: nat, radix: nat)
    requires 2 <= radix <= 36
    ensures DigitsValue(Radix(n, radix), radix) == Some(n)
    ensures DigitsValue(ToUpper(Radix(n, radix)), radix) == Some(n)
  {
    RadixReadsBack(n, radix);
    UpperDigitsValue(Radix(n, radix), radix);
  }
}
