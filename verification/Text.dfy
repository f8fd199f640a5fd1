/** The text formats the gateway prints and parses: decimal integers, hexadecimal
    bytes, and strings cut at the first or the last occurrence of a separator. */
module Text {
  import opened Wrappers

  newtype byte = x: int | 0 <= x < 256

  const I64_MIN: int := -0x8000_0000_0000_0000
  const I64_MAX: int := 0x7fff_ffff_ffff_ffff

  predicate IsI64(n: int) { I64_MIN <= n <= I64_MAX }

  // ----- decimal -----

  predicate IsDigit(c: char) { '0' <= c <= '9' }

  function Digit(d: nat): (c: char)
    requires d < 10
  {
    ('0' as int + d) as char
  }

  function PrintNat(n: nat): (s: string)
    ensures s != "" && forall i :: 0 <= i < |s| ==> IsDigit(s[i])
  {
    if n < 10 then [Digit(n)] else PrintNat(n / 10) + [Digit(n % 10)]
  }

  function PrintInt(n: int): string {
    if n < 0 then "-" + PrintNat(-n) else PrintNat(n)
  }

  /** A nonempty run of digits; leading zeros are accepted. */
  function ParseNat(s: string): Option<nat> {
    if s == "" || !IsDigit(s[|s| - 1]) then None
    else
      var d := s[|s| - 1] as int - '0' as int;
      if |s| == 1 then Some(d)
      else
        var n :- ParseNat(s[..|s| - 1]);
        Some(10 * n + d)
  }

  /** An optional sign, then digits, then the range check of a signed 64-bit parse. */
  function ParseI64(s: string): Option<int> {
    if s == "" then None
    else
      var n: int :- ParseNat(if s[0] == '-' || s[0] == '+' then s[1..] else s);
      var v := if s[0] == '-' then -n else n;
      if IsI64(v) then Some(v) else None
  }

  /** An unsigned 16-bit parse: a leading '+' is accepted, a '-' is not. */
  function ParseU16(s: string): Option<nat> {
    if s == "" then None
    else
      var n :- ParseNat(if s[0] == '+' then s[1..] else s);
      if n < 0x1_0000 then Some(n) else None
  }

  lemma {:induction false} NatRoundTrip(n: nat)
    ensures ParseNat(PrintNat(n)) == Some(n)
  {
    if n >= 10 {
      NatRoundTrip(n / 10);
      var s := PrintNat(n);
      assert s[..|s| - 1] == PrintNat(n / 10);
    }
  }

  lemma SignOfPrint(n: int)
    ensures PrintInt(n) != "" && (PrintInt(n)[0] == '-' <==> n < 0)
    ensures ParseNat(if n < 0 then PrintInt(n)[1..] else PrintInt(n)) == Some(if n < 0 then -n else n)
  {
    NatRoundTrip(if n < 0 then -n else n);
    if n < 0 {
      assert PrintInt(n)[1..] == PrintNat(-n);
    } else {
      assert IsDigit(PrintNat(n)[0]);
    }
  }

  lemma I64RoundTrip(n: int)
    requires IsI64(n)
    ensures ParseI64(PrintInt(n)) == Some(n)
  {
    SignOfPrint(n);
    if n >= 0 { assert IsDigit(PrintNat(n)[0]); }
  }

  lemma PrintIntInjective(m: int, n: int)
    requires PrintInt(m) == PrintInt(n)
    ensures m == n
  {
    SignOfPrint(m);
    SignOfPrint(n);
  }

  // ----- hexadecimal -----

  function HexDigit(d: nat): (c: char)
    requires d < 16
  {
    if d < 10 then ('0' as int + d) as char else ('a' as int + d - 10) as char
  }

  function HexValue(c: char): (v: Option<nat>)
    ensures v.Some? ==> v.value < 16
  {
    if '0' <= c <= '9' then Some(c as int - '0' as int)
    else if 'a' <= c <= 'f' then Some(c as int - 'a' as int + 10)
    else if 'A' <= c <= 'F' then Some(c as int - 'A' as int + 10)
    else None
  }

  function HexEncode(bs: seq<byte>): (s: string)
    ensures |s| == 2 * |bs|
    ensures forall i :: 0 <= i < |s| ==> HexValue(s[i]).Some?
  {
    if bs == [] then ""
    else [HexDigit(bs[0] as int / 16), HexDigit(bs[0] as int % 16)] + HexEncode(bs[1..])
  }

  function HexDecode(s: string): Option<seq<byte>> {
    if s == "" then Some([])
    else if |s| == 1 then None
    else
      var hi :- HexValue(s[0]);
      var lo :- HexValue(s[1]);
      var rest :- HexDecode(s[2..]);
      Some([(16 * hi + lo) as byte] + rest)
  }

  lemma {:induction false} HexRoundTrip(bs: seq<byte>)
    ensures HexDecode(HexEncode(bs)) == Some(bs)
  {
    if bs != [] {
      HexRoundTrip(bs[1..]);
      var s := HexEncode(bs);
      var d := bs[0] as int;
      assert s[0] == HexDigit(d / 16) && s[1] == HexDigit(d % 16);
      assert HexValue(s[0]) == Some(d / 16) && HexValue(s[1]) == Some(d % 16);
      assert s[2..] == HexEncode(bs[1..]);
      assert [bs[0]] + bs[1..] == bs;
    }
  }

  // ----- cutting a string -----

  /** Cut at the first `c`. */
  function SplitFirst(s: string, c: char): (r: Option<(string, string)>)
    ensures r.None? <==> c !in s
    ensures r.Some? ==> s == r.value.0 + [c] + r.value.1 && c !in r.value.0
  {
    if s == "" then None
    else if s[0] == c then Some(("", s[1..]))
    else
      match SplitFirst(s[1..], c)
      case None => None
      case Some(p) => Some(([s[0]] + p.0, p.1))
  }

  /** Cut at the last `c`. */
  function SplitLast(s: string, c: char): (r: Option<(string, string)>)
    ensures r.None? <==> c !in s
    ensures r.Some? ==> s == r.value.0 + [c] + r.value.1 && c !in r.value.1
  {
    if s == "" then None
    else
      var n := |s| - 1;
      assert s == s[..n] + [s[n]];
      if s[n] == c then Some((s[..n], ""))
      else
        match SplitLast(s[..n], c)
        case None => None
        case Some(p) =>
          assert s == p.0 + [c] + (p.1 + [s[n]]);
          Some((p.0, p.1 + [s[n]]))
  }

  /** A cut whose left part has no separator is the first one. */
  lemma {:induction false} FirstCutUnique(a: string, c: char, b: string)
    requires c !in a
    ensures SplitFirst(a + [c] + b, c) == Some((a, b))
  {
    var s := a + [c] + b;
    if a == "" {
      assert s[1..] == b;
    } else {
      assert s[0] == a[0];
      assert s[1..] == a[1..] + [c] + b;
      FirstCutUnique(a[1..], c, b);
      assert [a[0]] + a[1..] == a;
    }
  }

  /** A cut whose right part has no separator is the last one. */
  lemma {:induction false} LastCutUnique(a: string, c: char, b: string)
    requires c !in b
    ensures SplitLast(a + [c] + b, c) == Some((a, b))
  {
    var s := a + [c] + b;
    var n := |s| - 1;
    if b == "" {
      assert s[..n] == a;
    } else {
      assert s[n] == b[|b| - 1];
      assert s[..n] == a + [c] + b[..|b| - 1];
      LastCutUnique(a, c, b[..|b| - 1]);
      assert b[..|b| - 1] + [b[|b| - 1]] == b;
    }
  }

  /** Cut at every `c`: the pieces between the separators, at least one. */
  function SplitAll(s: string, c: char): (r: seq<string>)
    ensures r != []
    decreases |s|
  {
    match SplitFirst(s, c)
    case None => [s]
    case Some(p) => [p.0] + SplitAll(p.1, c)
  }

  function Join(parts: seq<string>, c: char): string {
    if parts == [] then ""
    else if |parts| == 1 then parts[0]
    else parts[0] + [c] + Join(parts[1..], c)
  }

  lemma {:induction false} SplitJoin(parts: seq<string>, c: char)
    requires parts != [] && forall i :: 0 <= i < |parts| ==> c !in parts[i]
    ensures SplitAll(Join(parts, c), c) == parts
  {
    if |parts| > 1 {
      FirstCutUnique(parts[0], c, Join(parts[1..], c));
      SplitJoin(parts[1..], c);
    }
  }

  // ----- trimming -----

  /** The White_Space characters of Unicode. */
  predicate IsBlank(c: char) {
    || c == ' ' || '\t' <= c <= '\r'
    || c == '\U{85}' || c == '\U{A0}' || c == '\U{1680}' || '\U{2000}' <= c <= '\U{200A}'
    || c == '\U{2028}' || c == '\U{2029}' || c == '\U{202F}' || c == '\U{205F}' || c == '\U{3000}'
  }

  function Trim(s: string): string {
    if s == "" then ""
    else if IsBlank(s[0]) then Trim(s[1..])
    else if IsBlank(s[|s| - 1]) then Trim(s[..|s| - 1])
    else s
  }

  ghost predicate AllBlank(s: string) { forall i :: 0 <= i < |s| ==> IsBlank(s[i]) }

  /** Neither begins nor ends with a blank. */
  ghost predicate Bare(s: string) { s != "" ==> !IsBlank(s[0]) && !IsBlank(s[|s| - 1]) }

  /** Blanks on both sides go, and only they. */
  lemma {:induction false} TrimUnique(l: string, t: string, r: string)
    requires AllBlank(l) && AllBlank(r) && Bare(t)
    ensures Trim(l + t + r) == t
    decreases |l| + |r|
  {
    var s := l + t + r;
    if l != "" {
      assert s[0] == l[0] && s[1..] == l[1..] + t + r;
      TrimUnique(l[1..], t, r);
    } else if r != "" {
      if t == "" {
        assert s[0] == r[0] && s[1..] == l + t + r[1..];
        TrimUnique(l, t, r[1..]);
      } else {
        assert s[0] == t[0] && s[|s| - 1] == r[|r| - 1] && s[..|s| - 1] == l + t + r[..|r| - 1];
        TrimUnique(l, t, r[..|r| - 1]);
      }
    } else {
      assert s == t;
    }
  }

  lemma BlankJoined(l: string, r: string)
    requires AllBlank(l) && AllBlank(r)
    ensures AllBlank(l + r)
  {
  }

  lemma {:induction false} TrimParts(s: string) returns (l: string, r: string)
    ensures s == l + Trim(s) + r && AllBlank(l) && AllBlank(r) && Bare(Trim(s))
    decreases |s|
  {
    l, r := "", "";
    if s != "" && IsBlank(s[0]) {
      var l1, r1 := TrimParts(s[1..]);
      l, r := [s[0]] + l1, r1;
      BlankJoined([s[0]], l1);
      assert s == [s[0]] + s[1..] && [s[0]] + (l1 + Trim(s) + r1) == l + Trim(s) + r;
    } else if s != "" && IsBlank(s[|s| - 1]) {
      var n := |s| - 1;
      var l1, r1 := TrimParts(s[..n]);
      l, r := l1, r1 + [s[n]];
      BlankJoined(r1, [s[n]]);
      assert s == s[..n] + [s[n]] && (l1 + Trim(s) + r1) + [s[n]] == l + Trim(s) + r;
    } else {
      assert "" + s + "" == s;
    }
  }

  // ----- what parses, and to what -----

  ghost predicate AllDigits(s: string) { forall i :: 0 <= i < |s| ==> IsDigit(s[i]) }

  lemma {:induction false} DigitsParse(s: string)
    ensures ParseNat(s).Some? <==> s != "" && AllDigits(s)
  {
    if s != "" {
      var n := |s| - 1;
      DigitsParse(s[..n]);
      assert s == s[..n] + [s[n]];
    }
  }

  /** A number with leading zeros is the number. */
  lemma {:induction false} LeadingZeros(k: nat, n: nat)
    ensures ParseNat(Zeros(k) + PrintNat(n)) == Some(n)
  {
    var s := Zeros(k) + PrintNat(n);
    if n < 10 {
      assert s[..|s| - 1] == Zeros(k);
      ZerosParse(k);
    } else {
      assert s[..|s| - 1] == Zeros(k) + PrintNat(n / 10);
      LeadingZeros(k, n / 10);
    }
  }

  function Zeros(k: nat): string { if k == 0 then "" else Zeros(k - 1) + "0" }

  lemma {:induction false} ZerosParse(k: nat)
    ensures k > 0 ==> ParseNat(Zeros(k)) == Some(0)
    ensures |Zeros(k)| == k
  {
    if k > 0 {
      ZerosParse(k - 1);
      assert Zeros(k)[..k - 1] == Zeros(k - 1);
    }
  }

  /** Every run of digits is a printed number behind zeros. */
  lemma {:induction false} DigitsAreNumbers(s: string) returns (k: nat)
    requires ParseNat(s).Some?
    ensures s == Zeros(k) + PrintNat(ParseNat(s).value)
  {
    var n := |s| - 1;
    var d := s[n] as int - '0' as int;
    k := 0;
    if n > 0 {
      var init := s[..n];
      k := DigitsAreNumbers(init);
      assert s == init + [s[n]] && Digit(d) == s[n];
      if ParseNat(init).value == 0 {
        assert PrintNat(0) == "0" && init == Zeros(k + 1);
        k := k + 1;
      }
    } else {
      assert s == [Digit(d)];
    }
  }

  /** The number in decimal, perhaps behind zeros. */
  ghost predicate Numeral(s: string, n: nat) { exists k: nat :: s == Zeros(k) + PrintNat(n) }

  lemma NumeralIff(s: string, n: nat)
    ensures ParseNat(s) == Some(n) <==> Numeral(s, n)
  {
    if ParseNat(s) == Some(n) { var k := DigitsAreNumbers(s); }
    if k: nat :| s == Zeros(k) + PrintNat(n) { LeadingZeros(k, n); }
  }

  lemma NumeralBegins(s: string, n: nat)
    requires Numeral(s, n)
    ensures s != "" && IsDigit(s[0])
  {
    NumeralIff(s, n);
    DigitsParse(s);
  }

  /** What a signed 64-bit parse accepts: a numeral in range, with a sign or without. */
  lemma I64Iff(s: string, n: int)
    ensures ParseI64(s) == Some(n)
       <==> -0x8000_0000_0000_0000 <= n < 0x8000_0000_0000_0000
            && (|| (n >= 0 && Numeral(s, n))
                || (n >= 0 && s != "" && s[0] == '+' && Numeral(s[1..], n))
                || (n <= 0 && s != "" && s[0] == '-' && Numeral(s[1..], -n)))
  {
    if s != "" {
      if n >= 0 { NumeralIff(s, n); NumeralIff(s[1..], n); if Numeral(s, n) { NumeralBegins(s, n); } }
      if n <= 0 { NumeralIff(s[1..], -n); }
    } else if n >= 0 && Numeral(s, n) {
      NumeralBegins(s, n);
    }
  }

  /** What an unsigned 16-bit parse accepts. */
  ghost predicate U16Numeral(s: string, n: nat) {
    n < 65536 && (Numeral(s, n) || (s != "" && s[0] == '+' && Numeral(s[1..], n)))
  }

  lemma U16Iff(s: string, n: nat)
    ensures ParseU16(s) == Some(n) <==> U16Numeral(s, n)
  {
    if s != "" {
      NumeralIff(s, n);
      NumeralIff(s[1..], n);
      if Numeral(s, n) { NumeralBegins(s, n); }
    } else if Numeral(s, n) {
      NumeralBegins(s, n);
    }
  }

  /** A numeral neither begins nor ends with a blank. */
  lemma U16NumeralIsBare(s: string, n: nat)
    requires U16Numeral(s, n)
    ensures Bare(s)
  {
    if Numeral(s, n) {
      NumeralIff(s, n);
      DigitsParse(s);
    } else {
      NumeralIff(s[1..], n);
      DigitsParse(s[1..]);
      assert s[|s| - 1] == s[1..][|s| - 2];
    }
  }

  /** Digit after digit, the leading one first. */
  lemma DecimalDigits(n: nat)
    ensures PrintNat(n) == (if n < 10 then "" else PrintNat(n / 10)) + ["0123456789"[n % 10]]
  {
    assert forall d :: 0 <= d < 10 ==> "0123456789"[d] == ('0' as int + d) as char;
  }

  // ----- hexadecimal, digit by digit -----

  lemma {:induction false} HexDigits(bs: seq<byte>, i: nat)
    requires i < |bs|
    ensures HexEncode(bs)[2 * i] == "0123456789abcdef"[bs[i] as int / 16]
    ensures HexEncode(bs)[2 * i + 1] == "0123456789abcdef"[bs[i] as int % 16]
  {
    if i == 0 {
      HexDigitAt(bs[0] as int / 16);
      HexDigitAt(bs[0] as int % 16);
    } else {
      HexDigits(bs[1..], i - 1);
    }
  }

  lemma HexDigitAt(d: nat)
    requires d < 16
    ensures HexDigit(d) == "0123456789abcdef"[d]
  {
  }

  /** Capital letters count as small ones. */
  function Lower(c: char): char { if 'A' <= c <= 'F' then (c as int + 32) as char else c }

  function Lowered(s: string): string { seq(|s|, i requires 0 <= i < |s| => Lower(s[i])) }

  lemma {:induction false} HexDecodeIff(s: string, bs: seq<byte>)
    ensures HexDecode(s) == Some(bs) <==> Lowered(s) == HexEncode(bs)
    decreases |s|
  {
    if s == "" || |s| == 1 {
    } else if bs != [] {
      HexDecodeIff(s[2..], bs[1..]);
      var low, rest := Lowered(s), Lowered(s[2..]);
      assert low == [Lower(s[0]), Lower(s[1])] + rest;
      HexPair(s[0], s[1], bs[0]);
      assert bs == [bs[0]] + bs[1..];
      var enc := HexEncode(bs);
      assert enc[2..] == HexEncode(bs[1..]) && low[2..] == rest;
    }
  }

  lemma HexPair(c: char, d: char, b: byte)
    ensures HexValue(c).Some? && HexValue(d).Some? && (16 * HexValue(c).value + HexValue(d).value) as byte == b
       <==> Lower(c) == HexDigit(b as int / 16) && Lower(d) == HexDigit(b as int % 16)
  {
  }

  /** In ASCII: the space, and the five control characters from tab to carriage return. */
  lemma AsciiBlanks(c: char)
    requires c as int < 128
    ensures IsBlank(c) <==> c as int in {9, 10, 11, 12, 13, 32}
  {
  }
}
