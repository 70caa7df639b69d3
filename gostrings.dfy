/**
 * The parts of Go's `strings`, `strconv` and `fmt` packages that the
 * cluster-api-manager and the reconciler rely on, on Unicode code points.
 * Separators are single characters: every call in the modelled code splits
 * on ".", " " or "/".
 */
module GoStrings {

  /** `strings.Split(s, string(sep))`: never empty; `Split("", sep) == [""]`. */
  function Split(s: string, sep: char): (parts: seq<string>)
    ensures |parts| >= 1
    ensures forall i :: 0 <= i < |parts| ==> sep !in parts[i]
    decreases |s|
  {
    if s == [] then [""]
    else if s[0] == sep then [""] + Split(s[1..], sep)
    else
      var rest := Split(s[1..], sep);
      [[s[0]] + rest[0]] + rest[1..]
  }

  /** Go's `m[k]` on a `map[string]string`: "" for a missing key. */
  function MapIndex(m: map<string, string>, k: string): string
  {
    if k in m then m[k] else ""
  }

  /** `strings.Join(parts, sep)`. */
  function Join(parts: seq<string>, sep: string): string
    decreases |parts|
  {
    if parts == [] then ""
    else if |parts| == 1 then parts[0]
    else parts[0] + sep + Join(parts[1..], sep)
  }

  /** Every occurrence of `c` in `s` replaced by `d`, every other character kept. */
  function ReplaceChar(s: string, c: char, d: char): (r: string)
    ensures |r| == |s|
    ensures forall i :: 0 <= i < |s| ==> r[i] == if s[i] == c then d else s[i]
  {
    seq(|s|, i requires 0 <= i < |s| => if s[i] == c then d else s[i])
  }

  /** Joining a part in front of at least one more adds it and a separator. */
  lemma JoinCons(x: string, rest: seq<string>, sep: string)
    requires |rest| >= 1
    ensures Join([x] + rest, sep) == x + sep + Join(rest, sep)
  {
    assert ([x] + rest)[1..] == rest;
  }

  /** Extending the first part by one character extends the joined text by it. */
  lemma JoinExtendHead(ch: char, rest: seq<string>, sep: string)
    requires |rest| >= 1
    ensures Join([[ch] + rest[0]] + rest[1..], sep) == [ch] + Join(rest, sep)
  {
    if |rest| > 1 {
      JoinCons([ch] + rest[0], rest[1..], sep);
      assert rest == [rest[0]] + rest[1..];
      JoinCons(rest[0], rest[1..], sep);
    }
  }

  /** Splitting on `c` and joining with `d` replaces each `c` by `d`. */
  lemma {:induction false} JoinSplitReplaces(s: string, c: char, d: char)
    ensures Join(Split(s, c), [d]) == ReplaceChar(s, c, d)
    decreases |s|
  {
    if s != [] {
      var rest := Split(s[1..], c);
      JoinSplitReplaces(s[1..], c, d);
      assert ReplaceChar(s, c, d) == [if s[0] == c then d else s[0]] + ReplaceChar(s[1..], c, d);
      if s[0] == c {
        JoinCons("", rest, [d]);
      } else {
        JoinExtendHead(s[0], rest, [d]);
      }
    }
  }

  /** Splitting and re-joining with the same separator gives back the input. */
  lemma JoinSplit(s: string, c: char)
    ensures Join(Split(s, c), [c]) == s
  {
    JoinSplitReplaces(s, c, c);
    assert ReplaceChar(s, c, c) == s;
  }

  /** A string without the separator is one part. */
  lemma {:induction false} SplitWithoutSep(s: string, c: char)
    requires c !in s
    ensures Split(s, c) == [s]
    decreases |s|
  {
    if s != [] {
      assert c !in s[1..] by {
        forall i | 0 <= i < |s[1..]| ensures s[1..][i] != c { assert s[1..][i] == s[i + 1]; }
      }
      SplitWithoutSep(s[1..], c);
      assert [s[0]] + s[1..] == s;
    }
  }

  /** A separator after a separator-free prefix ends the first part. */
  lemma {:induction false} SplitAtSep(a: string, b: string, c: char)
    requires c !in a
    ensures Split(a + [c] + b, c) == [a] + Split(b, c)
    decreases |a|
  {
    var s := a + [c] + b;
    if a == [] {
      assert s[1..] == b;
    } else {
      assert s[1..] == a[1..] + [c] + b;
      assert c !in a[1..] by {
        forall i | 0 <= i < |a[1..]| ensures a[1..][i] != c { assert a[1..][i] == a[i + 1]; }
      }
      SplitAtSep(a[1..], b, c);
      assert [a[0]] + a[1..] == a;
    }
  }

  /** Joining separator-free parts and splitting again gives back the parts. */
  lemma {:induction false} SplitJoin(parts: seq<string>, c: char)
    requires |parts| >= 1
    requires forall i :: 0 <= i < |parts| ==> c !in parts[i]
    ensures Split(Join(parts, [c]), c) == parts
    decreases |parts|
  {
    if |parts| == 1 {
      SplitWithoutSep(parts[0], c);
    } else {
      SplitJoin(parts[1..], c);
      SplitAtSep(parts[0], Join(parts[1..], [c]), c);
    }
  }

  /** The first part is everything before the first separator. */
  lemma {:induction false} SplitHead(s: string, c: char, k: nat)
    requires k <= |s|
    requires c !in s[..k]
    requires k == |s| || s[k] == c
    ensures Split(s, c)[0] == s[..k]
    decreases k
  {
    if k > 0 {
      assert s[1..][..k - 1] == s[1..k];
      SplitHead(s[1..], c, k - 1);
    }
  }

  /** The position of the first `c` in `s`, or `|s|` when there is none. */
  function IndexOrEnd(s: string, c: char): (k: nat)
    ensures k <= |s|
    ensures c !in s[..k]
    ensures k < |s| ==> s[k] == c
    decreases |s|
  {
    if s == [] || s[0] == c then 0
    else
      var k := IndexOrEnd(s[1..], c);
      assert s[..k + 1] == [s[0]] + s[1..][..k];
      k + 1
  }

  /** The number of separators in `s`. */
  function Count(s: string, c: char): nat
    decreases |s|
  {
    if s == [] then 0 else (if s[0] == c then 1 else 0) + Count(s[1..], c)
  }

  /** Splitting yields one more part than there are separators. */
  lemma {:induction false} SplitCount(s: string, c: char)
    ensures |Split(s, c)| == Count(s, c) + 1
    decreases |s|
  {
    if s != [] {
      SplitCount(s[1..], c);
    }
  }

  /** `strings.Replace(s, string(c), r, -1)` for a one-character pattern. */
  function ReplaceAll(s: string, c: char, r: string): (out: string)
    ensures c !in r ==> c !in out
    ensures c !in s ==> out == s
    ensures forall e :: e in out ==> e in s || e in r
    decreases |s|
  {
    if s == [] then ""
    else (if s[0] == c then r else [s[0]]) + ReplaceAll(s[1..], c, r)
  }

  /** `strings.LastIndex(s, string(c))`: the position of the last `c`, or -1. */
  function LastIndex(s: string, c: char): (i: int)
    ensures -1 <= i < |s|
    ensures i == -1 <==> c !in s
    ensures i >= 0 ==> s[i] == c && c !in s[i + 1..]
    decreases |s|
  {
    if s == [] then -1
    else if s[|s| - 1] == c then |s| - 1
    else
      var j := LastIndex(s[..|s| - 1], c);
      assert j >= 0 ==> s[j + 1..] == s[..|s| - 1][j + 1..] + [s[|s| - 1]];
      j
  }

  predicate IsUpper(ch: char) { 'A' <= ch <= 'Z' }

  /** `unicode.ToLower` on the ASCII range; other characters are kept. */
  function LowerChar(ch: char): char
  {
    if IsUpper(ch) then (ch as int - 'A' as int + 'a' as int) as char else ch
  }

  /** `strings.ToLower` on the ASCII range. */
  function ToLower(s: string): (r: string)
    ensures |r| == |s|
    ensures forall i :: 0 <= i < |s| ==> r[i] == LowerChar(s[i]) && !IsUpper(r[i])
  {
    seq(|s|, i requires 0 <= i < |s| => LowerChar(s[i]))
  }

  /** A string without upper-case letters. */
  predicate IsLower(s: string)
  {
    forall i :: 0 <= i < |s| ==> !IsUpper(s[i])
  }

  /** Lower-casing leaves a lower-case string as it is. */
  lemma ToLowerOfLower(s: string)
    requires IsLower(s)
    ensures ToLower(s) == s
  {
  }

  /** Lower-casing works piece by piece. */
  lemma ToLowerConcat(a: string, b: string)
    ensures ToLower(a + b) == ToLower(a) + ToLower(b)
  {
    assert forall i :: 0 <= i < |a + b| ==> ToLower(a + b)[i] == (ToLower(a) + ToLower(b))[i];
  }

  // ---------------------------------------------------------------------
  // Decimal integers: `strconv.Atoi` and `fmt.Sprintf("%v", n)` on Go's
  // 64-bit `int`.

  const MinInt64: int := -0x8000_0000_0000_0000
  const MaxInt64: int := 0x7fff_ffff_ffff_ffff

  predicate IsDigit(ch: char) { '0' <= ch <= '9' }

  predicate AllDigits(s: string) { forall i :: 0 <= i < |s| ==> IsDigit(s[i]) }

  /** The value of a run of decimal digits, most significant first. */
  function DigitsValue(ds: string): nat
    requires AllDigits(ds)
    decreases |ds|
  {
    if ds == [] then 0
    else DigitsValue(ds[..|ds| - 1]) * 10 + (ds[|ds| - 1] as int - '0' as int)
  }

  /** The strings `strconv.Atoi` parses: an optional sign, then at least one decimal digit. */
  predicate AtoiSyntax(s: string)
  {
    var digits := if |s| > 0 && (s[0] == '+' || s[0] == '-') then s[1..] else s;
    digits != [] && AllDigits(digits)
  }

  /**
   * `strconv.Atoi`, with its error dropped as every caller here does: an
   * optional sign followed by at least one decimal digit gives the value
   * (saturated at the bounds of `int` on overflow); anything else gives 0.
   */
  function Atoi(s: string): (n: int)
    ensures MinInt64 <= n <= MaxInt64
    ensures !AtoiSyntax(s) ==> n == 0
  {
    var signed := |s| > 0 && (s[0] == '+' || s[0] == '-');
    var digits := if signed then s[1..] else s;
    if digits == [] || !AllDigits(digits) then 0
    else
      var v: int := DigitsValue(digits);
      if signed && s[0] == '-' then (if -v < MinInt64 then MinInt64 else -v)
      else (if v > MaxInt64 then MaxInt64 else v)
  }

  /** The decimal digits of a natural number, without leading zeros. */
  function NatToString(n: nat): (s: string)
    ensures |s| >= 1 && AllDigits(s)
    decreases n
  {
    if n < 10 then [('0' as int + n) as char]
    else NatToString(n / 10) + [('0' as int + n % 10) as char]
  }

  /** `fmt.Sprintf("%v", n)` for an integer. */
  function Itoa(n: int): string
  {
    if n < 0 then "-" + NatToString(-n) else NatToString(n)
  }

  lemma {:induction false} DigitsOfNat(n: nat)
    ensures DigitsValue(NatToString(n)) == n
    decreases n
  {
    if n >= 10 {
      DigitsOfNat(n / 10);
      var s := NatToString(n);
      assert s[..|s| - 1] == NatToString(n / 10);
    }
  }

  /** Printing an `int` with `%v` and parsing it with `Atoi` gives it back. */
  lemma AtoiItoa(n: int)
    requires MinInt64 <= n <= MaxInt64
    ensures Atoi(Itoa(n)) == n
  {
    if n < 0 {
      var ds := NatToString(-n);
      DigitsOfNat(-n);
      var s := Itoa(n);
      assert s == "-" + ds;
      assert s[0] == '-' && s[1..] == ds;
      assert AllDigits(ds) && ds != [];
      var v: int := DigitsValue(ds);
      assert Atoi(s) == (if -v < MinInt64 then MinInt64 else -v);
    } else {
      var ds := NatToString(n);
      DigitsOfNat(n);
      assert ds[0] != '+' && ds[0] != '-' by { assert IsDigit(ds[0]); }
      assert Atoi(ds) == (if DigitsValue(ds) > MaxInt64 then MaxInt64 else DigitsValue(ds));
    }
  }
}
