/** Number formatting of kservice.c: print_number and skip_atoi, with precision and the 0x prefix. */
module Printf {

  datatype Flags = Flags(zeropad: bool, sign: bool, plus: bool, space: bool, left: bool, special: bool, large: bool)

  const SMALL_DIGITS: string := "0123456789abcdef"
  const LARGE_DIGITS: string := "0123456789ABCDEF"

  const WORD: int := 0x1_0000_0000

  /** divide works in base 10 or, for every other base, in base 16. */
  function Radix(base: int): nat { if base == 10 then 10 else 16 }

  /** The digits of n, least significant first; none for 0. */
  function DigitsOf(n: nat, r: nat): (ds: seq<nat>)
    requires r >= 2
    ensures forall i :: 0 <= i < |ds| ==> ds[i] < r
  {
    if n == 0 then [] else Smaller(n, r); [n % r] + DigitsOf(n / r, r)
  }

  lemma Smaller(n: nat, r: nat)
    requires r >= 2 && n > 0
    ensures n / r < n
  {
    if n / r >= n {
      assert n / r * r >= n * 2 by { MulUp(n / r, n, r); }
    }
  }

  lemma MulUp(a: nat, b: nat, r: nat)
    requires a >= b && r >= 2
    ensures a * r >= b * 2
  {
  }

  /** What digits stand for, the most significant one first. */
  function Eval(ds: seq<nat>, r: nat): nat {
    if ds == [] then 0 else Eval(ds[..|ds| - 1], r) * r + ds[|ds| - 1]
  }

  function Reversed(s: seq<nat>): (r: seq<nat>)
    ensures |r| == |s| && forall i :: 0 <= i < |s| ==> r[i] == s[|s| - 1 - i]
  {
    seq(|s|, i requires 0 <= i < |s| => s[|s| - 1 - i])
  }

  /** The digits of a number, put most significant first, evaluate to it. */
  lemma {:induction false} DigitsEval(n: nat, r: nat)
    requires r >= 2
    ensures Eval(Reversed(DigitsOf(n, r)), r) == n
    decreases n
  {
    hide Eval, Reversed;
    if n == 0 {
      EvalNone(r);
    } else {
      Smaller(n, r);
      DigitsEval(n / r, r);
      var rest := DigitsOf(n / r, r);
      assert DigitsOf(n, r) == [n % r] + rest;
      ReversedMore(rest, n % r);
      EvalMore(Reversed(rest), n % r, r);
      assert n == n / r * r + n % r;
    }
  }

  lemma EvalNone(r: nat)
    ensures Eval(Reversed([]), r) == 0
  {
  }

  lemma EvalMore(ds: seq<nat>, d: nat, r: nat)
    ensures Eval(ds + [d], r) == Eval(ds, r) * r + d
  {
    var all := ds + [d];
    assert all[..|all| - 1] == ds;
  }

  lemma ReversedMore(ds: seq<nat>, d: nat)
    ensures Reversed([d] + ds) == Reversed(ds) + [d]
  {
    var a, b := Reversed([d] + ds), Reversed(ds) + [d];
    assert forall i :: 0 <= i < |a| ==> a[i] == b[i];
  }

  lemma {:induction false} LeadingZeros(k: nat, ds: seq<nat>, r: nat)
    ensures Eval(seq(k, _ => 0) + ds, r) == Eval(ds, r)
    decreases |ds|, k
  {
    var all := seq(k, _ => 0) + ds;
    if ds != [] {
      assert all[..|all| - 1] == seq(k, _ => 0) + ds[..|ds| - 1];
      LeadingZeros(k, ds[..|ds| - 1], r);
    } else if k > 0 {
      assert all[..|all| - 1] == seq(k - 1, _ => 0) + ds;
      LeadingZeros(k - 1, ds, r);
    }
  }

  /** The digits fit the scratch array of 16 characters. */
  lemma {:induction false} DigitsFit(n: nat, r: nat, k: nat, limit: nat)
    requires r >= 10 && n < limit && limit == Ten(k)
    ensures |DigitsOf(n, r)| <= k
    decreases k
  {
    if n > 0 && k > 0 {
      assert limit == 10 * Ten(k - 1);
      DivBelow(n, r, Ten(k - 1));
      DigitsFit(n / r, r, k - 1, Ten(k - 1));
    }
  }

  function Ten(k: nat): nat { if k == 0 then 1 else 10 * Ten(k - 1) }

  lemma DivBelow(n: nat, r: nat, m: nat)
    requires r >= 10 && n < 10 * m
    ensures n / r < m
  {
    if n / r >= m {
      MulUp10(n / r, m, r);
    }
  }

  lemma MulUp10(a: nat, b: nat, r: nat)
    requires a >= b && r >= 10
    ensures a * r >= 10 * b
  {
  }

  // ----- The text -----

  function DigitChar(d: nat, large: bool): char
    requires d < 16
  {
    if large then LARGE_DIGITS[d] else SMALL_DIGITS[d]
  }

  function Chars(ds: seq<nat>, large: bool): string
    requires forall i :: 0 <= i < |ds| ==> ds[i] < 16
  {
    seq(|ds|, i requires 0 <= i < |ds| => DigitChar(ds[i], large))
  }

  function Repeat(c: char, n: int): string {
    seq(if n > 0 then n else 0, _ => c)
  }

  /** The magnitude that is printed: a negative number without SIGN is taken as unsigned. */
  function Magnitude(num: int, f: Flags): nat
    requires -0x8000_0000 <= num < 0x8000_0000
  {
    if num >= 0 then num else if f.sign then -num else num + WORD
  }

  function SignOf(num: int, f: Flags): string {
    if !f.sign then "" else if num < 0 then "-" else if f.plus then "+" else if f.space then " " else ""
  }

  function Prefix(base: int, f: Flags): string {
    if !f.special then "" else if base == 8 then "0" else if base == 16 then (if f.large then "0X" else "0x") else ""
  }

  function Numeral(num: int, base: int, f: Flags): (ds: seq<nat>)
    requires -0x8000_0000 <= num < 0x8000_0000
    ensures |ds| > 0 && forall i :: 0 <= i < |ds| ==> ds[i] < 16
  {
    var n := Magnitude(num, f);
    if n == 0 then [0] else Reversed(DigitsOf(n, Radix(base)))
  }

  /** The padding left over by prefix, precision and digits. */
  function Room(num: int, base: int, s: int, precision: int, f: Flags): int
    requires -0x8000_0000 <= num < 0x8000_0000
  {
    var digits := |Numeral(num, base, f)|;
    s - |Prefix(base, f)| - if digits > precision then digits else precision
  }

  /** Whether zeros pad: LEFT switches ZEROPAD off. */
  predicate PadsZero(f: Flags) { f.zeropad && !f.left }

  /** The padding on the zero or right side.  signFits says whether the sign still falls inside the
      buffer: one that does not is not deducted. */
  function Pad(num: int, base: int, s: int, precision: int, f: Flags, signFits: bool): int
    requires -0x8000_0000 <= num < 0x8000_0000
  {
    Room(num, base, s, precision, f) - if SignOf(num, f) != "" && signFits then 1 else 0
  }

  function Spaces(num: int, base: int, s: int, precision: int, f: Flags): int
    requires -0x8000_0000 <= num < 0x8000_0000
  {
    if f.zeropad || f.left then 0
    else Room(num, base, s, precision, f) - if SignOf(num, f) != "" && Room(num, base, s, precision, f) > 0 then 1
      else 0
  }

  function Lead(num: int, base: int, s: int, precision: int, f: Flags): string
    requires -0x8000_0000 <= num < 0x8000_0000
  {
    Repeat(' ', Spaces(num, base, s, precision, f)) + SignOf(num, f) + Prefix(base, f)
  }

  function Core(num: int, base: int, s: int, precision: int, f: Flags, signFits: bool): string
    requires -0x8000_0000 <= num < 0x8000_0000
  {
    var ds := Numeral(num, base, f);
    Repeat('0', if PadsZero(f) then Pad(num, base, s, precision, f, signFits) else 0) + Repeat('0', precision - |ds|)
      + Chars(ds, f.large)
  }

  function Tail(num: int, base: int, s: int, precision: int, f: Flags, signFits: bool): string
    requires -0x8000_0000 <= num < 0x8000_0000
  {
    Repeat(' ', if f.left then Pad(num, base, s, precision, f, signFits) else 0)
  }

  /** Everything print_number emits. */
  function Text(num: int, base: int, s: int, precision: int, f: Flags, signFits: bool): string
    requires -0x8000_0000 <= num < 0x8000_0000
  {
    Lead(num, base, s, precision, f) + Core(num, base, s, precision, f, signFits)
      + Tail(num, base, s, precision, f, signFits)
  }

  // ----- Reading it back -----

  predicate IsDigit(c: char) { '0' <= c <= '9' }

  /** int arithmetic. */
  function Signed(x: int): int {
    var m := x % WORD;
    if m < 0x8000_0000 then m else m - WORD
  }

  /** How many digits s begins with. */
  function DigitRun(s: string): (k: nat)
    ensures k <= |s| && (forall i :: 0 <= i < k ==> IsDigit(s[i])) && (k < |s| ==> !IsDigit(s[k]))
  {
    if s == "" || !IsDigit(s[0]) then 0
    else
      var rest := s[1..];
      assert forall i :: 0 <= i < |rest| ==> rest[i] == s[i + 1];
      1 + DigitRun(rest)
  }

  predicate AllDigits(s: string) {
    forall i :: 0 <= i < |s| ==> IsDigit(s[i])
  }

  function ValueOf(c: char): int { c as int - '0' as int }

  /** The number that the characters of s denote in base 10. */
  function Decimal(s: string): int {
    if s == "" then 0 else Decimal(s[..|s| - 1]) * 10 + ValueOf(s[|s| - 1])
  }

  lemma {:induction false} DecimalPrefix(s: string, k: nat)
    requires k <= |s| && AllDigits(s)
    ensures 0 <= Decimal(s[..k]) <= Decimal(s)
    decreases |s|
  {
    if k < |s| {
      var t := s[..|s| - 1];
      DecimalPrefix(t, k);
      assert t[..k] == s[..k];
    } else {
      assert s[..k] == s;
      if s != "" {
        DecimalPrefix(s[..|s| - 1], |s| - 1);
      }
    }
  }

  /** The loop of skip_atoi on a text, with i as it stands. */
  function Scan(s: string, i: int): int {
    if s == "" || !IsDigit(s[0]) then i else Scan(s[1..], Signed(i * 10 + ValueOf(s[0])))
  }

  /** skip_atoi on the text from position `start` on. */
  method SkipAtoi(s: string, start: nat) returns (i: int, next: nat)
    requires start <= |s|
    ensures next == start + DigitRun(s[start..])
    ensures i == Scan(s[start..], 0)
  {
    i := 0;
    next := start;
    while next < |s| && IsDigit(s[next])
      invariant start <= next <= |s|
      invariant next + DigitRun(s[next..]) == start + DigitRun(s[start..])
      invariant Scan(s[next..], i) == Scan(s[start..], 0)
      decreases |s| - next
    {
      assert s[next..][1..] == s[next + 1..];
      i := Signed(i * 10 + ValueOf(s[next]));
      next := next + 1;
    }
  }

  lemma SignedSmall(x: int)
    requires 0 <= x < 0x8000_0000
    ensures Signed(x) == x
  {
  }

  /** Reading on after the digits t. */
  lemma {:induction false} ScanAfter(t: string, s: string)
    requires AllDigits(t) && Decimal(t + s[..DigitRun(s)]) < 0x8000_0000
    ensures Scan(s, Decimal(t)) == Decimal(t + s[..DigitRun(s)])
    decreases |s|
  {
    hide Signed, Decimal;
    if s == "" || !IsDigit(s[0]) {
      assert t + s[..DigitRun(s)] == t;
    } else {
      var u := t + [s[0]];
      var rest := s[1..];
      DecimalMore(t, s[0]);
      assert t + s[..DigitRun(s)] == u + rest[..DigitRun(rest)];
      var all := u + rest[..DigitRun(rest)];
      RunDigits(u, rest);
      DecimalPrefix(all, |u|);
      assert all[..|u|] == u;
      SignedSmall(Decimal(u));
      ScanAfter(u, rest);
    }
  }

  lemma DecimalMore(t: string, c: char)
    ensures Decimal(t + [c]) == Decimal(t) * 10 + ValueOf(c)
  {
    var u := t + [c];
    assert u[..|u| - 1] == t;
  }

  lemma RunDigits(u: string, s: string)
    requires AllDigits(u)
    ensures AllDigits(u + s[..DigitRun(s)])
  {
    var all := u + s[..DigitRun(s)];
    forall i | 0 <= i < |all|
      ensures IsDigit(all[i])
    {
      if i >= |u| {
        assert all[i] == s[i - |u|];
      }
    }
  }

  /** Below 2^31 skip_atoi reads the number that the leading digits denote. */
  lemma AtoiReads(s: string)
    requires Decimal(s[..DigitRun(s)]) < 0x8000_0000
    ensures Scan(s, 0) == Decimal(s[..DigitRun(s)])
  {
    assert "" + s[..DigitRun(s)] == s[..DigitRun(s)];
    ScanAfter("", s);
  }

  // ----- The round trip -----

  /** Decimal digits as characters denote what the digits evaluate to. */
  lemma {:induction false} CharsDecimal(ds: seq<nat>, large: bool)
    requires forall i :: 0 <= i < |ds| ==> ds[i] < 10
    ensures AllDigits(Chars(ds, large)) && Decimal(Chars(ds, large)) == Eval(ds, 10)
    decreases |ds|
  {
    var cs := Chars(ds, large);
    forall i | 0 <= i < |ds|
      ensures IsDigit(cs[i]) && ValueOf(cs[i]) == ds[i]
    {
      DigitValue(ds[i], large);
    }
    if ds != [] {
      CharsDecimal(ds[..|ds| - 1], large);
      assert cs[..|ds| - 1] == Chars(ds[..|ds| - 1], large);
    }
  }

  lemma DigitValue(d: nat, large: bool)
    requires d < 10
    ensures IsDigit(DigitChar(d, large)) && ValueOf(DigitChar(d, large)) == d
  {
    assert d == 0 || d == 1 || d == 2 || d == 3 || d == 4 || d == 5 || d == 6 || d == 7 || d == 8 || d == 9;
  }

  lemma NumeralEval(num: int, base: int, f: Flags)
    requires -0x8000_0000 <= num < 0x8000_0000
    ensures Eval(Numeral(num, base, f), Radix(base)) == Magnitude(num, f)
    ensures forall i :: 0 <= i < |Numeral(num, base, f)| ==> Numeral(num, base, f)[i] < Radix(base)
  {
    var n := Magnitude(num, f);
    if n == 0 {
      assert Eval([0], Radix(base)) == Eval([0][..0], Radix(base)) * Radix(base) + 0;
    } else {
      DigitsEval(n, Radix(base));
    }
  }

  lemma ZerosThenDigits(k: nat, ds: seq<nat>, large: bool)
    requires forall i :: 0 <= i < |ds| ==> ds[i] < 10
    ensures AllDigits(Repeat('0', k) + Chars(ds, large)) && Decimal(Repeat('0', k) + Chars(ds, large)) == Eval(ds, 10)
  {
    hide Decimal, Eval, AllDigits, DigitChar;
    var zs := seq(k, _ => 0);
    CharsDecimal(zs + ds, large);
    LeadingZeros(k, ds, 10);
    ZeroChars(k, ds, large);
  }

  lemma ZeroChars(k: nat, ds: seq<nat>, large: bool)
    requires forall i :: 0 <= i < |ds| ==> ds[i] < 16
    ensures var all := seq(k, _ => 0) + ds; forall i :: 0 <= i < |all| ==> all[i] < 16
    ensures Chars(seq(k, _ => 0) + ds, large) == Repeat('0', k) + Chars(ds, large)
  {
  }

  /** In base 10: no digit before the core, only digits in it, none after it; and the core denotes the
      magnitude, whatever the width, the precision and the flags. */
  lemma DecimalText(num: int, s: int, precision: int, f: Flags, signFits: bool)
    requires -0x8000_0000 <= num < 0x8000_0000
    ensures forall i :: 0 <= i < |Lead(num, 10, s, precision, f)| ==> !IsDigit(Lead(num, 10, s, precision, f)[i])
    ensures forall i :: 0 <= i < |Tail(num, 10, s, precision, f, signFits)| ==>
            !IsDigit(Tail(num, 10, s, precision, f, signFits)[i])
    ensures AllDigits(Core(num, 10, s, precision, f, signFits)) && Core(num, 10, s, precision, f, signFits) != ""
    ensures Decimal(Core(num, 10, s, precision, f, signFits)) == Magnitude(num, f)
  {
    hide Lead, Core, Tail, AllDigits, Decimal;
    LeadBlank(num, s, precision, f);
    TailBlank(num, s, precision, f, signFits);
    CoreDigits(num, s, precision, f, signFits);
  }

  lemma LeadBlank(num: int, s: int, precision: int, f: Flags)
    requires -0x8000_0000 <= num < 0x8000_0000
    ensures forall i :: 0 <= i < |Lead(num, 10, s, precision, f)| ==> !IsDigit(Lead(num, 10, s, precision, f)[i])
  {
    hide Spaces;
    var blanks, sign := Repeat(' ', Spaces(num, 10, s, precision, f)), SignOf(num, f);
    assert Lead(num, 10, s, precision, f) == blanks + sign;
  }

  lemma TailBlank(num: int, s: int, precision: int, f: Flags, signFits: bool)
    requires -0x8000_0000 <= num < 0x8000_0000
    ensures forall i :: 0 <= i < |Tail(num, 10, s, precision, f, signFits)| ==>
            !IsDigit(Tail(num, 10, s, precision, f, signFits)[i])
  {
    hide Pad;
  }

  lemma CoreDigits(num: int, s: int, precision: int, f: Flags, signFits: bool)
    requires -0x8000_0000 <= num < 0x8000_0000
    ensures AllDigits(Core(num, 10, s, precision, f, signFits)) && Core(num, 10, s, precision, f, signFits) != ""
    ensures Decimal(Core(num, 10, s, precision, f, signFits)) == Magnitude(num, f)
  {
    hide Pad, Numeral, Eval, Decimal, AllDigits, DigitChar;
    var ds := Numeral(num, 10, f);
    NumeralEval(num, 10, f);
    var k := if PadsZero(f) then Pad(num, 10, s, precision, f, signFits) else 0;
    RepeatJoin('0', k, precision - |ds|);
    ZerosThenDigits(|Repeat('0', k)| + |Repeat('0', precision - |ds|)|, ds, f.large);
  }

  lemma RepeatJoin(c: char, m: int, n: int)
    ensures Repeat(c, m) + Repeat(c, n) == Repeat(c, |Repeat(c, m)| + |Repeat(c, n)|)
  {
  }

  lemma RunOfDigits(core: string, tail: string)
    requires AllDigits(core) && forall i :: 0 <= i < |tail| ==> !IsDigit(tail[i])
    ensures (core + tail)[..DigitRun(core + tail)] == core
  {
    var all := core + tail;
    var k := DigitRun(all);
    assert forall i :: 0 <= i < |core| ==> all[i] == core[i];
    assert tail != "" ==> all[|core|] == tail[0];
  }

  /** After the blanks and the sign, skip_atoi reads back every magnitude below 2^31. */
  lemma ReadsBack(num: int, s: int, precision: int, f: Flags, signFits: bool)
    requires -0x8000_0000 <= num < 0x8000_0000 && Magnitude(num, f) < 0x8000_0000
    ensures Scan(Text(num, 10, s, precision, f, signFits)[|Lead(num, 10, s, precision, f)|..], 0) == Magnitude(num, f)
  {
    hide Lead, Core, Tail, Scan;
    DecimalText(num, s, precision, f, signFits);
    var core, tail := Core(num, 10, s, precision, f, signFits), Tail(num, 10, s, precision, f, signFits);
    RunOfDigits(core, tail);
    AtoiReads(core + tail);
    assert Text(num, 10, s, precision, f, signFits)[|Lead(num, 10, s, precision, f)|..] == core + tail;
  }

  /** With ZEROPAD only, for any width and precision: skip_atoi of the whole text gives the number back. */
  lemma RoundTrip(num: int, s: int, precision: int, signFits: bool, large: bool)
    requires 0 <= num < 0x8000_0000
    ensures Scan(Text(num, 10, s, precision, Flags(true, false, false, false, false, false, large), signFits), 0) == num
  {
    hide Core, Tail, Scan;
    var f := Flags(true, false, false, false, false, false, large);
    ReadsBack(num, s, precision, f, signFits);
    assert Lead(num, 10, s, precision, f) == "";
    assert Text(num, 10, s, precision, f, signFits)[0..] == Text(num, 10, s, precision, f, signFits);
  }

  // ----- Sign, prefix and width -----

  /** Before the prefix, where every padding blank is: a '-' exactly for a negative number with SIGN, a '+' exactly for
      another one with SIGN and PLUS, a blank more with SPACE instead.  LEFT and ZEROPAD pad elsewhere. */
  lemma LeadText(num: int, base: int, s: int, precision: int, f: Flags)
    requires -0x8000_0000 <= num < 0x8000_0000
    ensures |Prefix(base, f)| <= |Lead(num, base, s, precision, f)|
    ensures var l := Lead(num, base, s, precision, f);
            var k := |l| - |Prefix(base, f)|;
            && l[k..] == Prefix(base, f)
            && ('-' in l <==> f.sign && num < 0)
            && ('+' in l <==> f.sign && num >= 0 && f.plus)
            && (f.sign && (num < 0 || f.plus || f.space) ==>
                  k > 0 && l[k - 1] == if num < 0 then '-' else if f.plus then '+' else ' ')
            && (forall i :: 0 <= i < k - 1 ==> l[i] == ' ')
            && (k > 0 && l[k - 1] != ' ' ==> f.sign)
            && (f.zeropad || f.left ==> k <= 1)
  {
    hide Room, Numeral;
    var blanks := Repeat(' ', Spaces(num, base, s, precision, f));
    var l := Lead(num, base, s, precision, f);
    var sign, prefix := SignOf(num, f), Prefix(base, f);
    var k := |l| - |prefix|;
    assert l[k..] == prefix;
    assert forall i :: 0 <= i < |blanks| ==> l[i] == ' ';
    assert '-' !in prefix && '+' !in prefix;
    assert sign != "" ==> l[k - 1] == sign[0];
  }

  function Longer(m: int, n: int): int {
    if m < n then n else m
  }

  /** A text is as wide as asked for, or as sign, prefix and digits need, whatever is more.  Only a sign that falls
      behind the end of the buffer makes a padded one longer by itself. */
  lemma TextWidth(num: int, base: int, s: int, precision: int, f: Flags, signFits: bool)
    requires -0x8000_0000 <= num < 0x8000_0000
    ensures var need := |SignOf(num, f)| + |Prefix(base, f)| + Longer(precision, |Numeral(num, base, f)|);
            && (signFits || SignOf(num, f) == "" ==> |Text(num, base, s, precision, f, signFits)| == Longer(s, need))
            && |Text(num, base, s, precision, f, signFits)| >= Longer(s, need)
            && |Text(num, base, s, precision, f, signFits)| <= Longer(s + 1, need)
    ensures !f.left ==> Tail(num, base, s, precision, f, signFits) == ""
    ensures f.left || !f.zeropad ==>
              |Core(num, base, s, precision, f, signFits)| == Longer(precision, |Numeral(num, base, f)|)
  {
    hide Numeral;
  }

  /** No digit is in front of the first one that counts. */
  lemma NumeralShort(num: int, base: int, f: Flags)
    requires -0x8000_0000 <= num < 0x8000_0000
    ensures |Numeral(num, base, f)| > 1 ==> Numeral(num, base, f)[0] != 0
  {
    var n := Magnitude(num, f);
    if n > 0 {
      TopDigit(n, Radix(base));
    }
  }

  // ----- Bases 16 and 8 -----

  function HexValue(c: char): int {
    if IsDigit(c) then c as int - '0' as int
    else if 'a' <= c <= 'f' then c as int - 'a' as int + 10
    else c as int - 'A' as int + 10
  }

  lemma HexDigit(d: nat, large: bool)
    requires d < 16
    ensures HexValue(DigitChar(d, large)) == d
  {
    assert d == 0 || d == 1 || d == 2 || d == 3 || d == 4 || d == 5 || d == 6 || d == 7
      || d == 8 || d == 9 || d == 10 || d == 11 || d == 12 || d == 13 || d == 14 || d == 15;
  }

  /** The number that hexadecimal characters denote. */
  function Hex(s: string): int {
    if s == "" then 0 else Hex(s[..|s| - 1]) * 16 + HexValue(s[|s| - 1])
  }

  lemma {:induction false} CharsHex(ds: seq<nat>, large: bool)
    requires forall i :: 0 <= i < |ds| ==> ds[i] < 16
    ensures Hex(Chars(ds, large)) == Eval(ds, 16)
    decreases |ds|
  {
    if ds != [] {
      var cs := Chars(ds, large);
      HexDigit(ds[|ds| - 1], large);
      CharsHex(ds[..|ds| - 1], large);
      assert cs[..|ds| - 1] == Chars(ds[..|ds| - 1], large);
    }
  }

  /** In base 16 the core denotes the magnitude, in either letter case. */
  lemma HexText(num: int, s: int, precision: int, f: Flags, signFits: bool)
    requires -0x8000_0000 <= num < 0x8000_0000
    ensures Hex(Core(num, 16, s, precision, f, signFits)) == Magnitude(num, f)
  {
    var ds := Numeral(num, 16, f);
    NumeralEval(num, 16, f);
    var a := Repeat('0', if PadsZero(f) then Pad(num, 16, s, precision, f, signFits) else 0);
    var b := Repeat('0', precision - |ds|);
    var k := |a| + |b|;
    var zs := seq(k, _ => 0);
    CharsHex(zs + ds, f.large);
    LeadingZeros(k, ds, 16);
    ZeroChars(k, ds, f.large);
    assert a + b == Repeat('0', k);
  }

  lemma {:induction false} EvalLess(ds: seq<nat>)
    requires |ds| >= 1 && ds[0] > 0
    ensures Eval(ds, 8) <= Eval(ds, 16) && Eval(ds, 16) > 0 && (|ds| >= 2 ==> Eval(ds, 8) < Eval(ds, 16))
    decreases |ds|
  {
    if |ds| >= 2 {
      EvalLess(ds[..|ds| - 1]);
    } else {
      assert ds[..0] == [];
    }
  }

  lemma {:induction false} TopDigit(n: nat, r: nat)
    requires r >= 2 && n > 0
    ensures |DigitsOf(n, r)| > 0 && DigitsOf(n, r)[|DigitsOf(n, r)| - 1] > 0
    ensures n < r ==> DigitsOf(n, r) == [n]
    ensures n >= r ==> |DigitsOf(n, r)| >= 2
    decreases n
  {
    Smaller(n, r);
    if n >= r {
      DivPositive(n, r);
      TopDigit(n / r, r);
    } else {
      DivZero(n, r);
    }
  }

  lemma DivPositive(n: nat, r: nat)
    requires n >= r > 0
    ensures n / r > 0
  {
  }

  lemma DivZero(n: nat, r: nat)
    requires n < r
    ensures n / r == 0 && n % r == n
  {
  }

  /** In base 8 divide still works in base 16: the text is the octal one exactly for magnitudes below 8. */
  lemma OctalIff(num: int, f: Flags)
    requires -0x8000_0000 <= num < 0x8000_0000
    ensures (forall i :: 0 <= i < |Numeral(num, 8, f)| ==> Numeral(num, 8, f)[i] < 8)
            && Eval(Numeral(num, 8, f), 8) == Magnitude(num, f)
            <==> Magnitude(num, f) < 8
  {
    var n := Magnitude(num, f);
    var ds := Numeral(num, 8, f);
    if n == 0 {
      assert Eval(ds, 8) == Eval(ds[..0], 8) * 8 + 0;
    } else {
      TopDigit(n, 16);
      DigitsEval(n, 16);
      EvalLess(ds);
      if n < 16 {
        assert ds == [n];
        assert Eval(ds, 8) == Eval(ds[..0], 8) * 8 + n;
        assert ds[0] == n;
      }
    }
  }

  // ----- print_number on a buffer -----

  /** The buffer after a text is written from pos on; characters past `end` are counted but not stored. */
  ghost function Written(buf: string, pos: nat, end: int, text: string): string {
    seq(|buf|, i requires 0 <= i < |buf| => if pos <= i < pos + |text| && i <= end then text[i - pos] else buf[i])
  }

  lemma WrittenThen(buf: string, pos: nat, end: int, a: string, b: string)
    ensures Written(Written(buf, pos, end, a), pos + |a|, end, b) == Written(buf, pos, end, a + b)
  {
    var w := Written(Written(buf, pos, end, a), pos + |a|, end, b);
    var v := Written(buf, pos, end, a + b);
    forall i | 0 <= i < |buf|
      ensures w[i] == v[i]
    {
      if pos + |a| <= i < pos + |a| + |b| {
        assert (a + b)[i - pos] == b[i - pos - |a|];
      }
    }
  }

  method Put(buf: array<char>, pos: nat, end: int, c: char) returns (next: nat)
    requires end < buf.Length
    modifies buf
    ensures next == pos + 1 && buf[..] == Written(old(buf[..]), pos, end, [c])
  {
    if pos <= end {
      buf[pos] := c;
    }
    next := pos + 1;
  }

  method PutAll(buf: array<char>, pos: nat, end: int, text: string) returns (next: nat)
    requires end < buf.Length
    modifies buf
    ensures next == pos + |text| && buf[..] == Written(old(buf[..]), pos, end, text)
  {
    next := pos;
    var k := 0;
    ghost var before := buf[..];
    assert Written(before, pos, end, "") == before;
    while k < |text|
      invariant 0 <= k <= |text| && next == pos + k
      invariant buf[..] == Written(before, pos, end, text[..k])
    {
      WrittenThen(before, pos, end, text[..k], [text[k]]);
      assert text[..k] + [text[k]] == text[..k + 1];
      next := Put(buf, next, end, text[k]);
      k := k + 1;
    }
    assert text[..k] == text;
  }

  /** A padding loop: while (size-- > 0). */
  method Fill(buf: array<char>, pos: nat, end: int, c: char, count: int) returns (next: nat, left: int)
    requires end < buf.Length
    modifies buf
    ensures next == pos + |Repeat(c, count)| && buf[..] == Written(old(buf[..]), pos, end, Repeat(c, count))
    ensures left == if count > 0 then -1 else count - 1
  {
    next := pos;
    left := count;
    ghost var before := buf[..];
    assert Written(before, pos, end, Repeat(c, 0)) == before;
    while left > 0
      invariant left <= count && (count > 0 ==> left >= 0) && (count <= 0 ==> left == count)
      invariant next == pos + |Repeat(c, count - left)|
      invariant buf[..] == Written(before, pos, end, Repeat(c, count - left))
    {
      WrittenThen(before, pos, end, Repeat(c, count - left), [c]);
      assert Repeat(c, count - left) + [c] == Repeat(c, count - left + 1);
      next := Put(buf, next, end, c);
      left := left - 1;
    }
    left := left - 1;
  }

  /** divide. */
  method Divide(n: nat, base: int) returns (res: nat, rest: nat)
    ensures res == n % Radix(base) && rest == n / Radix(base)
  {
    if base == 10 {
      res := n % 10;
      rest := n / 10;
    } else {
      res := n % 16;
      rest := n / 16;
    }
  }

  /** The digit loop: least significant first. */
  method Digits(n: nat, base: int) returns (tmp: seq<nat>)
    requires n < WORD
    ensures |tmp| <= 16
    ensures tmp == if n == 0 then [0] else DigitsOf(n, Radix(base))
  {
    if n == 0 {
      return [0];
    }
    DigitsFit(n, Radix(base), 10, Ten(10));
    var num := n;
    tmp := [];
    while num != 0
      invariant tmp + DigitsOf(num, Radix(base)) == DigitsOf(n, Radix(base))
      decreases num
    {
      Smaller(num, Radix(base));
      var d;
      d, num := Divide(num, base);
      tmp := tmp + [d];
    }
  }

  lemma RepeatNone(c: char, n: int)
    ensures n <= 0 ==> Repeat(c, n) == ""
  {
  }

  lemma NumeralIs(num: int, base: int, f: Flags, tmp: seq<nat>)
    requires -0x8000_0000 <= num < 0x8000_0000
    requires tmp == if Magnitude(num, f) == 0 then [0] else DigitsOf(Magnitude(num, f), Radix(base))
    ensures Reversed(tmp) == Numeral(num, base, f)
  {
    if Magnitude(num, f) == 0 {
      assert Reversed([0]) == [0];
    }
  }

  /** Blanks, sign and prefix; `left` is what remains of the padding. */
  method PutLead(buf: array<char>, pos: nat, end: int, num: int, base: int, s: int, precision: int, f: Flags, room: int)
      returns (next: nat, left: int)
    requires end < buf.Length && -0x8000_0000 <= num < 0x8000_0000 && room == Room(num, base, s, precision, f)
    modifies buf
    ensures next == pos + |Lead(num, base, s, precision, f)|
    ensures buf[..] == Written(old(buf[..]), pos, end, Lead(num, base, s, precision, f))
    ensures f.zeropad || f.left ==>
              left == Pad(num, base, s, precision, f, pos + |Repeat(' ', Spaces(num, base, s, precision, f))| <= end)
    ensures !(f.zeropad || f.left) ==> left < 0
  {
    hide Written, Prefix, SignOf, Room;
    var sign := SignOf(num, f);
    ghost var before := buf[..];
    ghost var blanks := Repeat(' ', Spaces(num, base, s, precision, f));
    next := pos;
    left := room;
    if !(f.zeropad || f.left) {
      if sign != "" && left > 0 {
        left := left - 1;
      }
      next, left := Fill(buf, next, end, ' ', left);
    } else {
      RepeatNone(' ', 0);
      WrittenNone(before, pos, end);
    }
    if sign != "" && next <= end {
      left := left - 1;
    }
    next := PutAll(buf, next, end, sign);
    WrittenThen(before, pos, end, blanks, sign);
    next := PutAll(buf, next, end, Prefix(base, f));
    WrittenThen(before, pos, end, blanks + sign, Prefix(base, f));
  }

  lemma WrittenNone(buf: string, pos: nat, end: int)
    ensures Written(buf, pos, end, "") == buf
  {
  }

  /** Zero padding, precision, digits and the blanks on the right. */
  method PutCore(buf: array<char>, pos: nat, end: int, num: int, base: int, s: int, precision: int, f: Flags,
                 tmp: seq<nat>, room: int, ghost signFits: bool) returns (next: nat)
    requires end < buf.Length && -0x8000_0000 <= num < 0x8000_0000
    requires tmp == if Magnitude(num, f) == 0 then [0] else DigitsOf(Magnitude(num, f), Radix(base))
    requires f.zeropad || f.left ==> room == Pad(num, base, s, precision, f, signFits)
    requires !(f.zeropad || f.left) ==> room < 0
    modifies buf
    ensures var text := Core(num, base, s, precision, f, signFits) + Tail(num, base, s, precision, f, signFits);
            next == pos + |text| && buf[..] == Written(old(buf[..]), pos, end, text)
  {
    hide Written, Pad, DigitsOf, Repeat;
    NumeralIs(num, base, f, tmp);
    var digits := Chars(Reversed(tmp), f.large);
    ghost var before := buf[..];
    var size := room;
    ghost var zeros := "";
    next := pos;
    if !f.left {
      zeros := Repeat(if f.zeropad then '0' else ' ', size);
      next, size := Fill(buf, next, end, if f.zeropad then '0' else ' ', size);
    } else {
      WrittenNone(before, pos, end);
    }
    RepeatNone('0', 0);
    RepeatNone(' ', 0);
    RepeatNone(' ', room);
    ghost var more := Repeat('0', precision - |tmp|);
    var spent;
    next, spent := Fill(buf, next, end, '0', precision - |tmp|);
    WrittenThen(before, pos, end, zeros, more);
    next := PutAll(buf, next, end, digits);
    WrittenThen(before, pos, end, zeros + more, digits);
    ghost var blanks := Repeat(' ', size);
    RepeatNone(' ', size);
    next, spent := Fill(buf, next, end, ' ', size);
    WrittenThen(before, pos, end, zeros + more + digits, blanks);
    assert zeros + more + digits == Core(num, base, s, precision, f, signFits);
    assert blanks == Tail(num, base, s, precision, f, signFits);
  }

  /** print_number: returns the position after the text, stored or not. */
  method PrintNumber(buf: array<char>, pos: nat, end: int, num: int, base: int, s: int, precision: int, f: Flags)
    returns (next: nat)
    requires end < buf.Length && -0x8000_0000 <= num < 0x8000_0000
    modifies buf
    ensures var text :=
            Text(num, base, s, precision, f, pos + |Repeat(' ', Spaces(num, base, s, precision, f))| <= end);
            next == pos + |text| && buf[..] == Written(old(buf[..]), pos, end, text)
  {
    hide Written, Lead, Core, Tail, Spaces, Prefix, DigitsOf, Repeat;
    ghost var signFits := pos + |Repeat(' ', Spaces(num, base, s, precision, f))| <= end;
    ghost var before := buf[..];
    var tmp := Digits(Magnitude(num, f), base);
    NumeralIs(num, base, f, tmp);
    var size := s - |Prefix(base, f)| - if |tmp| > precision then |tmp| else precision;
    next, size := PutLead(buf, pos, end, num, base, s, precision, f, size);
    next := PutCore(buf, next, end, num, base, s, precision, f, tmp, size, signFits);
    WrittenThen(before, pos, end, Lead(num, base, s, precision, f),
                Core(num, base, s, precision, f, signFits) + Tail(num, base, s, precision, f, signFits));
    assert Lead(num, base, s, precision, f)
      + (Core(num, base, s, precision, f, signFits) + Tail(num, base, s, precision, f, signFits))
        == Text(num, base, s, precision, f, signFits);
  }
}
