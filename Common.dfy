/** Helpers shared by the client and server models: an optional value, the
    decimal rendering of a natural number as JavaScript template literals
    produce it, JavaScript's `+s` conversion restricted to decimal digit
    strings, and `String.prototype.split` on a single character. */
module Common {

  datatype Option<T> = None | Some(value: T)

  predicate IsDigit(c: char) {
    '0' <= c <= '9'
  }

  predicate IsDigits(s: string) {
    forall i :: 0 <= i < |s| ==> IsDigit(s[i])
  }

  function DigitChar(d: nat): (c: char)
    requires d < 10
    ensures IsDigit(c)
  {
    (48 + d) as char
  }

  function DigitValue(c: char): (d: nat)
    requires IsDigit(c)
    ensures d < 10 && DigitChar(d) == c
  {
    c as int - 48
  }

  /** `${n}` for a non-negative integer number: its decimal digits, most
      significant first, without leading zeros. */
  function NatToString(n: nat): (s: string)
    ensures |s| > 0 && IsDigits(s)
    ensures |s| > 1 ==> s[0] != '0'
    decreases n
  {
    if n < 10 then [DigitChar(n)] else NatToString(n / 10) + [DigitChar(n % 10)]
  }

  /** The value of a string of decimal digits. */
  function DigitsValue(s: string): nat
    requires IsDigits(s)
  {
    if s == [] then 0 else DigitsValue(s[..|s| - 1]) * 10 + DigitValue(s[|s| - 1])
  }

  /** Rendering then reading a natural gives it back. */
  lemma {:induction false} DigitsValueOfNatToString(n: nat)
    ensures DigitsValue(NatToString(n)) == n
    decreases n
  {
    var s := NatToString(n);
    if n >= 10 {
      DigitsValueOfNatToString(n / 10);
      assert s[..|s| - 1] == NatToString(n / 10);
    }
  }

  /** Decimal rendering is injective. */
  lemma NatToStringInjective(m: nat, n: nat)
    ensures NatToString(m) == NatToString(n) ==> m == n
  {
    if NatToString(m) == NatToString(n) {
      DigitsValueOfNatToString(m);
      DigitsValueOfNatToString(n);
    }
  }

  /** JavaScript's unary `+` on a string, for the strings it reads as a
      natural number written in plain decimal: the empty string is 0 and a
      string of decimal digits is its value. Every other string is None here;
      JavaScript also reads signs, surrounding white space, fractions,
      exponents, radix prefixes and `Infinity`, so None stands for NaN only
      on a string holding a `NeverNumeric` character. */
  function ToNumber(s: string): (r: Option<nat>)
    ensures IsDigits(s) <==> r.Some?
  {
    if IsDigits(s) then Some(DigitsValue(s)) else None
  }

  /** Characters no string that `+` reads as a number contains: the ASCII
      letters other than the hexadecimal digits, the radix and exponent
      markers and the letters of `Infinity`, and the ASCII punctuation other
      than the signs and the decimal point. */
  predicate NeverNumeric(c: char) {
    || ('g' <= c <= 'z' && c !in "inotxy")
    || ('G' <= c <= 'Z' && c !in "IOX")
    || ('!' <= c <= '/' && c !in "+-.")
    || (':' <= c <= '@') || ('[' <= c <= '`') || ('{' <= c <= '~')
  }

  lemma ToNumberOfNatToString(n: nat)
    ensures ToNumber(NatToString(n)) == Some(n)
  {
    DigitsValueOfNatToString(n);
  }

  /** `s.split(sep)` for a one-character separator. */
  function Split(s: string, sep: char): (parts: seq<string>)
    ensures |parts| >= 1
    ensures forall k :: 0 <= k < |parts| ==> sep !in parts[k]
  {
    if s == [] then [""]
    else
      var rest := Split(s[1..], sep);
      if s[0] == sep then [""] + rest else [[s[0]] + rest[0]] + rest[1..]
  }

  /** `parts.join(sep)`. */
  function Join(parts: seq<string>, sep: char): string
    requires |parts| >= 1
  {
    if |parts| == 1 then parts[0] else parts[0] + [sep] + Join(parts[1..], sep)
  }

  /** Splitting loses nothing: joining the parts again gives the string back. */
  lemma {:induction false} JoinSplit(s: string, sep: char)
    ensures Join(Split(s, sep), sep) == s
  {
    if s != [] {
      JoinSplit(s[1..], sep);
      var rest := Split(s[1..], sep);
      assert s == [s[0]] + s[1..];
      if s[0] == sep {
        assert Split(s, sep) == [""] + rest;
        assert Join([""] + rest, sep) == [sep] + Join(rest, sep);
      } else if |rest| == 1 {
        assert Split(s, sep) == [[s[0]] + rest[0]];
        assert Join(rest, sep) == rest[0];
      } else {
        var first := [s[0]] + rest[0];
        assert Split(s, sep) == [first] + rest[1..];
        assert Join([first] + rest[1..], sep) == first + [sep] + Join(rest[1..], sep);
        assert Join(rest, sep) == rest[0] + [sep] + Join(rest[1..], sep);
      }
    }
  }

  /** A string without the separator splits into itself alone. */
  lemma {:induction false} SplitWithoutSeparator(s: string, sep: char)
    requires sep !in s
    ensures Split(s, sep) == [s]
  {
    if s != [] {
      assert sep !in s[1..];
      SplitWithoutSeparator(s[1..], sep);
      assert s[0] != sep;
      assert [s[0]] + s[1..] == s;
    }
  }

  /** The separator's first occurrence ends the first part. */
  lemma {:induction false} SplitAtFirstSeparator(h: string, sep: char, t: string)
    requires sep !in h
    ensures Split(h + [sep] + t, sep) == [h] + Split(t, sep)
  {
    if h == [] {
      assert h + [sep] + t == [sep] + t;
      assert ([sep] + t)[1..] == t;
    } else {
      assert (h + [sep] + t)[1..] == h[1..] + [sep] + t;
      assert sep !in h[1..];
      SplitAtFirstSeparator(h[1..], sep, t);
      assert [h[0]] + h[1..] == h;
    }
  }

  /** The first part of a split is the whole string exactly when the
      separator is absent; otherwise the string starts with the first part,
      the separator and the second part. */
  lemma SplitFirstTwo(s: string, sep: char)
    ensures var parts := Split(s, sep);
      && (|parts| == 1 <==> sep !in s)
      && (|parts| == 1 ==> parts[0] == s)
      && (|parts| > 1 ==> parts[0] + [sep] + parts[1] <= s)
  {
    var parts := Split(s, sep);
    JoinSplit(s, sep);
    if sep !in s {
      SplitWithoutSeparator(s, sep);
    } else if |parts| > 1 {
      var tail := Join(parts[1..], sep);
      assert s == parts[0] + [sep] + tail;
      JoinStartsWithFirst(parts[1..], sep);
      assert tail[..|parts[1]|] == parts[1];
      assert (parts[0] + [sep] + tail)[..|parts[0]| + 1 + |parts[1]|] == parts[0] + [sep] + parts[1];
    }
  }

  lemma JoinStartsWithFirst(parts: seq<string>, sep: char)
    requires |parts| >= 1
    ensures parts[0] <= Join(parts, sep)
  {
  }

  lemma DigitsHaveNoSeparator(s: string, c: char)
    requires IsDigits(s) && !IsDigit(c)
    ensures c !in s
  {
  }
}
