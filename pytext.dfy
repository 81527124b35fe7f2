/** The few Python string operations the client relies on, written out over
    `seq<char>`: `str.rstrip(c)`, `str.split(c)`, `sep.join(parts)` and `str(int)`. */
module PyText {

  /** `s.endswith(c)` for a one-character suffix. */
  predicate EndsWith(s: string, c: char)
  {
    |s| > 0 && s[|s| - 1] == c
  }

  /** Python's `s.rstrip(c)`: drop every trailing occurrence of `c`.
      The result is the longest prefix of `s` that does not end in `c`,
      and everything cut off is `c`. */
  function RStrip(s: string, c: char): (r: string)
    ensures r <= s
    ensures !EndsWith(r, c)
    ensures forall i :: |r| <= i < |s| ==> s[i] == c
    decreases |s|
  {
    if EndsWith(s, c) then RStrip(s[..|s| - 1], c) else s
  }

  /** Stripping twice strips nothing more. */
  lemma RStripIdempotent(s: string, c: char)
    ensures RStrip(RStrip(s, c), c) == RStrip(s, c)
  {
  }

  /** The result of `RStrip` is the only prefix with both properties of its
      contract: it is fully determined by them. */
  lemma RStripUnique(s: string, c: char, p: string)
    requires p <= s && !EndsWith(p, c)
    requires forall i :: |p| <= i < |s| ==> s[i] == c
    ensures p == RStrip(s, c)
  {
  }

  /** Python's `sep.join(parts)`. */
  function Join(parts: seq<string>, sep: string): string
    decreases |parts|
  {
    if |parts| == 0 then ""
    else if |parts| == 1 then parts[0]
    else Join(parts[..|parts| - 1], sep) + sep + parts[|parts| - 1]
  }

  /** Python's `s.split(sep)` for a one-character separator: the maximal runs
      between separators, always at least one (`"".split("/") == [""]`). */
  function Split(s: string, sep: char): (parts: seq<string>)
    ensures |parts| >= 1
    ensures forall k :: 0 <= k < |parts| ==> sep !in parts[k]
    decreases |s|
  {
    if |s| == 0 then [""]
    else
      var rest := Split(s[..|s| - 1], sep);
      var c := s[|s| - 1];
      if c == sep then rest + [""]
      else rest[..|rest| - 1] + [rest[|rest| - 1] + [c]]
  }

  /** Appending a character to the last part appends it to the joined text. */
  lemma JoinExtendLast(parts: seq<string>, sep: string, c: char)
    requires |parts| >= 1
    ensures Join(parts[..|parts| - 1] + [parts[|parts| - 1] + [c]], sep) == Join(parts, sep) + [c]
  {
  }

  /** `sep.join(s.split(sep)) == s`: splitting loses nothing. */
  lemma {:induction false} SplitJoin(s: string, sep: char)
    ensures Join(Split(s, sep), [sep]) == s
  {
    if |s| > 0 {
      var init := s[..|s| - 1];
      var rest := Split(init, sep);
      var c := s[|s| - 1];
      assert init + [c] == s;
      SplitJoin(init, sep);
      if c == sep {
        var parts := rest + [""];
        assert Split(s, sep) == parts;
        assert parts[..|parts| - 1] == rest;
        assert Join(parts, [sep]) == Join(rest, [sep]) + [sep] + "";
      } else {
        assert Split(s, sep) == rest[..|rest| - 1] + [rest[|rest| - 1] + [c]];
        JoinExtendLast(rest, [sep], c);
      }
    }
  }

  /** `s.split(sep)[-1]`: the text after the last separator. */
  function LastSegment(s: string, sep: char): string
  {
    var parts := Split(s, sep);
    parts[|parts| - 1]
  }

  /** The last segment is the suffix of `s` after its last separator (all of `s`
      when there is none), and it holds no separator. */
  lemma {:induction false} LastSegmentIsTail(s: string, sep: char)
    ensures var l := LastSegment(s, sep);
      && |l| <= |s|
      && l == s[|s| - |l|..]
      && sep !in l
      && (|l| == |s| || s[|s| - |l| - 1] == sep)
  {
    if |s| > 0 {
      var init := s[..|s| - 1];
      LastSegmentIsTail(init, sep);
      var rest := Split(init, sep);
      var c := s[|s| - 1];
      var l0 := LastSegment(init, sep);
      if c != sep {
        var l := LastSegment(s, sep);
        assert l == l0 + [c];
        assert s[|s| - |l|..] == s[|s| - |l|..|s| - 1] + [c];
        assert s[|s| - |l|..|s| - 1] == init[|init| - |l0|..];
      }
    }
  }

  /** The character for a decimal digit. */
  function DigitChar(d: nat): char
    requires d < 10
  {
    (('0' as int) + d) as char
  }

  /** Python's `str(n)` for a natural number: decimal digits, with no
      leading zero except in `"0"` itself. */
  function NatStr(n: nat): (r: string)
    ensures |r| >= 1
    ensures forall k :: 0 <= k < |r| ==> '0' <= r[k] <= '9'
    ensures r[0] == '0' ==> n == 0
    decreases n
  {
    if n < 10 then [DigitChar(n)] else NatStr(n / 10) + [DigitChar(n % 10)]
  }

  /** Python's `str(n)` for any integer: a minus sign exactly when `n` is
      negative, then decimal digits without a leading zero (except for 0). */
  function IntStr(n: int): (r: string)
    ensures |r| >= 1 && (r[0] == '-' <==> n < 0)
    ensures |r| >= (if n < 0 then 2 else 1)
    ensures forall k :: (if n < 0 then 1 else 0) <= k < |r| ==> '0' <= r[k] <= '9'
    ensures r[if n < 0 then 1 else 0] == '0' ==> n == 0
  {
    if n < 0 then "-" + NatStr(-n) else NatStr(n)
  }

  /** The number a text of decimal digits denotes, most significant digit first. */
  function DigitsValue(s: string): int
    decreases |s|
  {
    if |s| == 0 then 0 else DigitsValue(s[..|s| - 1]) * 10 + (s[|s| - 1] as int - '0' as int)
  }

  /** The digits of `NatStr(n)` spell `n` in base ten. */
  lemma {:induction false} NatStrValue(n: nat)
    ensures DigitsValue(NatStr(n)) == n
    decreases n
  {
    var r := NatStr(n);
    if n >= 10 {
      NatStrValue(n / 10);
      assert r[..|r| - 1] == NatStr(n / 10);
    }
  }

  /** `str(n)` is the decimal numeral of `n`: a minus sign and the digits of
      `-n` for a negative number, the digits of `n` otherwise. */
  lemma IntStrValue(n: int)
    ensures n < 0 ==> IntStr(n)[0] == '-' && DigitsValue(IntStr(n)[1..]) == -n
    ensures n >= 0 ==> DigitsValue(IntStr(n)) == n
  {
    if n < 0 {
      NatStrValue(-n);
      assert IntStr(n)[1..] == NatStr(-n);
    } else {
      NatStrValue(n);
    }
  }

  /** Different numbers have different decimal texts. */
  lemma {:induction false} NatStrInjective(a: nat, b: nat)
    requires NatStr(a) == NatStr(b)
    ensures a == b
  {
    var sa, sb := NatStr(a), NatStr(b);
    if a < 10 && b < 10 {
      assert DigitChar(a) == sa[0] == sb[0] == DigitChar(b);
    } else if a >= 10 && b >= 10 {
      assert DigitChar(a % 10) == sa[|sa| - 1] == sb[|sb| - 1] == DigitChar(b % 10);
      assert NatStr(a / 10) == sa[..|sa| - 1] == sb[..|sb| - 1] == NatStr(b / 10);
      NatStrInjective(a / 10, b / 10);
    }
  }

  /** `str` is injective on integers, so a number can be read back from its text. */
  lemma IntStrInjective(a: int, b: int)
    requires IntStr(a) == IntStr(b)
    ensures a == b
  {
    if a < 0 && b < 0 {
      assert NatStr(-a) == IntStr(a)[1..] == IntStr(b)[1..] == NatStr(-b);
      NatStrInjective(-a, -b);
    } else if a >= 0 && b >= 0 {
      NatStrInjective(a, b);
    }
  }

  /** Every HTTP status code (three digits) prints as exactly three characters. */
  lemma ThreeDigitStr(n: int)
    requires 100 <= n < 1000
    ensures |IntStr(n)| == 3
  {
    assert NatStr(n) == NatStr(n / 10) + [DigitChar(n % 10)];
    assert NatStr(n / 10) == NatStr(n / 100) + [DigitChar((n / 10) % 10)];
    assert NatStr(n / 100) == [DigitChar(n / 100)];
  }
}
