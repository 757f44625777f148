/** What all modules share: optional and failing results, and strings with their white space, substrings and numerals. */
module Text {
  datatype Option<+T> = None | Some(value: T)

  datatype Result<+R, +E> = Ok(value: R) | Err(error: E)

  /** The length of a text in bytes of UTF-8. */
  function ByteLen(s: string): nat {
    if s == "" then 0
    else (if s[0] as int < 0x80 then 1 else if s[0] as int < 0x800 then 2 else if s[0] as int < 0x10000 then 3 else 4) +
         ByteLen(s[1..])
  }

  lemma ConcatAssociates<T>(a: seq<T>, b: seq<T>, c: seq<T>)
    ensures a + b + c == a + (b + c)
  {}

  /** `strings.Join`. */
  function Join(pieces: seq<string>, sep: string): string {
    if pieces == [] then "" else if |pieces| == 1 then pieces[0] else pieces[0] + sep + Join(pieces[1..], sep)
  }

  lemma FiveParts<T>(a: seq<T>, b: seq<T>, c: seq<T>, d: seq<T>, e: seq<T>, rest: seq<T>)
    ensures a + b + c + d + e + rest == a + (b + (c + (d + (e + rest))))
  {}

  /** Two items, then the rest. */
  lemma TwoItems<T>(a: T, b: T, c: seq<T>, d: seq<T>)
    ensures [a, b] + c + d == [a] + ([b] + (c + d))
    ensures [a, b] + c + d == [a, b] + (c + d)
  {}

  lemma OneItem<T>(a: T, c: seq<T>, d: seq<T>)
    ensures [a] + c + d == [a] + (c + d)
  {}

  const MAX_INT64: int := 0x7FFF_FFFF_FFFF_FFFF

  /** Go's `unicode.IsSpace`, the class that `strings.TrimSpace` strips. */
  predicate IsSpace(c: char) {
    || '\t' <= c <= '\r'
    || c in {' ', '\U{85}', '\U{A0}', '\U{1680}', '\U{2028}', '\U{2029}', '\U{202F}', '\U{205F}', '\U{3000}'}
    || '\U{2000}' <= c <= '\U{200A}'
  }

  function TrimLeft(s: string): string {
    if s != "" && IsSpace(s[0]) then TrimLeft(s[1..]) else s
  }

  function TrimRight(s: string): string {
    if s != "" && IsSpace(s[|s| - 1]) then TrimRight(s[..|s| - 1]) else s
  }

  function TrimSpace(s: string): string { TrimRight(TrimLeft(s)) }

  /** `strings.TrimRight(s, "\n")`. */
  function TrimNewlines(s: string): string {
    if s != "" && s[|s| - 1] == '\n' then TrimNewlines(s[..|s| - 1]) else s
  }

  predicate HasPrefix(s: string, m: string) { |m| <= |s| && s[..|m|] == m }

  predicate Contains(s: string, m: string) {
    HasPrefix(s, m) || (s != "" && Contains(s[1..], m))
  }

  lemma {:induction false} ContainsInContext(pre: string, s: string, post: string, m: string)
    requires Contains(s, m)
    ensures Contains(pre + s + post, m)
  {
    if pre != "" {
      ContainsInContext(pre[1..], s, post, m);
      assert (pre + s + post)[1..] == pre[1..] + s + post;
    } else if HasPrefix(s, m) {
      assert (pre + s + post)[..|m|] == s[..|m|];
    } else {
      ContainsInContext("", s[1..], post, m);
      assert (pre + s + post)[1..] == "" + s[1..] + post;
    }
  }

  lemma ContainsSelf(m: string)
    ensures Contains(m, m)
  {
    assert m[..|m|] == m;
  }

  lemma {:induction false} ContainsFits(s: string, m: string)
    requires Contains(s, m)
    ensures |m| <= |s|
  {
    if !HasPrefix(s, m) { ContainsFits(s[1..], m); }
  }

  lemma {:induction false} TrimLeftIsSuffix(s: string) returns (pre: string)
    ensures s == pre + TrimLeft(s)
  {
    if s != "" && IsSpace(s[0]) {
      var p := TrimLeftIsSuffix(s[1..]);
      pre := [s[0]] + p;
    } else {
      pre := "";
    }
  }

  lemma {:induction false} TrimRightIsPrefix(s: string) returns (post: string)
    ensures s == TrimRight(s) + post
  {
    if s != "" && IsSpace(s[|s| - 1]) {
      var p := TrimRightIsPrefix(s[..|s| - 1]);
      post := p + [s[|s| - 1]];
    } else {
      post := "";
    }
  }

  /** Trimming only removes text, so a line whose trimmed form is `m` contains `m`. */
  lemma TrimmedIsContained(line: string)
    ensures Contains(line, TrimSpace(line))
  {
    var pre := TrimLeftIsSuffix(line);
    var post := TrimRightIsPrefix(TrimLeft(line));
    ContainsSelf(TrimSpace(line));
    ContainsInContext(pre, TrimSpace(line), post, TrimSpace(line));
    assert line == pre + TrimSpace(line) + post;
  }

  // ---------------------------------------------------------------- numerals

  predicate IsDigit(c: char) { '0' <= c <= '9' }

  function Digit(d: nat): char
    requires d < 10
  {
    (d + '0' as int) as char
  }

  /** The two bases the AgentFile tools use: file modes are octal, all else is decimal. */
  type Base = b: nat | b == 8 || b == 10 witness 10

  predicate IsNumeral(s: string, base: Base) {
    forall i :: 0 <= i < |s| ==> IsDigit(s[i]) && s[i] as int - '0' as int < base
  }

  /** The usual positional notation, without leading zeros. */
  function Numeral(n: nat, base: Base): (s: string)
    ensures s != "" && IsNumeral(s, base)
    ensures n != 0 ==> s[0] != '0'
  {
    if n < base then [Digit(n)] else Numeral(n / base, base) + [Digit(n % base)]
  }

  function NumeralValue(s: string, base: Base): nat
    requires IsNumeral(s, base)
  {
    if s == "" then 0 else NumeralValue(s[..|s| - 1], base) * base + (s[|s| - 1] as int - '0' as int)
  }

  lemma ValueOfSnoc(s: string, d: nat, base: Base)
    requires IsNumeral(s, base) && d < base
    ensures IsNumeral(s + [Digit(d)], base)
    ensures NumeralValue(s + [Digit(d)], base) == NumeralValue(s, base) * base + d
  {
    var t := s + [Digit(d)];
    assert t[..|t| - 1] == s;
  }

  lemma {:induction false} ValueOfNumeral(n: nat, base: Base)
    ensures NumeralValue(Numeral(n, base), base) == n
  {
    if n < base {
      ValueOfSnoc("", n, base);
      assert "" + [Digit(n)] == [Digit(n)];
    } else {
      var q, r := n / base, n % base;
      ValueOfNumeral(q, base);
      ValueOfSnoc(Numeral(q, base), r, base);
      assert Numeral(n, base) == Numeral(q, base) + [Digit(r)];
    }
  }

  lemma {:induction false} ValueOfLeadingZero(s: string, base: Base)
    requires IsNumeral(s, base)
    ensures IsNumeral("0" + s, base) && NumeralValue("0" + s, base) == NumeralValue(s, base)
  {
    var z := "0" + s;
    if s == "" {
      assert z[..0] == "";
    } else {
      ValueOfLeadingZero(s[..|s| - 1], base);
      assert z[..|z| - 1] == "0" + s[..|s| - 1];
    }
  }

  /** `strconv.ParseInt(s, base, 64)` on text made of digits and dots: an error is None. */
  function ParseInt(s: string, base: Base): Option<int> {
    if s != "" && IsNumeral(s, base) && NumeralValue(s, base) <= MAX_INT64 then Some(NumeralValue(s, base)) else None
  }

  /** Ten to the n-th has more than n decimal digits. */
  function Pow10(n: nat): nat { if n == 0 then 1 else 10 * Pow10(n - 1) }

  lemma {:induction false} NumeralOfPow10IsLong(n: nat)
    ensures |Numeral(Pow10(n), 10)| == n + 1
  {
    if n > 0 {
      NumeralOfPow10IsLong(n - 1);
      assert Pow10(n) / 10 == Pow10(n - 1);
    }
  }
}
