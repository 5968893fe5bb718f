/** What the conversions print, said of formats and arguments. */
module PrintfLaws {
  import opened PrintfSpec
  import opened PrintfFacts
  import opened PrintfGrammar

  // --------------------------------------------------------------------- numerals

  /** The value of a digit, in either case. */
  function DigitValue(c: char): nat {
    if '0' <= c <= '9' then c as int - '0' as int
    else if 'a' <= c <= 'f' then c as int - 'a' as int + 10
    else if 'A' <= c <= 'F' then c as int - 'A' as int + 10
    else 16
  }

  /** The number a text of digits stands for. */
  function ValueIn(s: string, base: nat): nat {
    if s == "" then 0 else ValueIn(s[..|s| - 1], base) * base + DigitValue(s[|s| - 1])
  }

  predicate DigitsOf(s: string, base: nat, upper: bool) {
    forall i :: 0 <= i < |s| ==>
      DigitValue(s[i]) < base && (if upper then !('a' <= s[i] <= 'f') else !('A' <= s[i] <= 'F'))
  }

  /** `s` is how `n` is written in the base, with no leading zeros. */
  predicate Writes(s: string, n: nat, base: nat, upper: bool) {
    s != "" && DigitsOf(s, base, upper) && ValueIn(s, base) == n && (|s| > 1 ==> s[0] != '0')
  }

  function Power(b: nat, n: nat): nat {
    if n == 0 then 1 else b * Power(b, n - 1)
  }

  lemma ValueAppend(s: string, c: char, base: nat, upper: bool)
    requires DigitsOf(s, base, upper) && DigitsOf([c], base, upper)
    ensures DigitsOf(s + [c], base, upper) && ValueIn(s + [c], base) == ValueIn(s, base) * base + DigitValue(c)
  {
    assert (s + [c])[..|s|] == s;
    assert [c][0] == c;
  }

  lemma DigitIs(d: nat, base: nat, upper: bool)
    requires d < base <= 16
    ensures DigitsOf([DigitChar(d, upper)], base, upper) && DigitValue(DigitChar(d, upper)) == d
    ensures DigitChar(d, upper) == '0' <==> d == 0
  {
  }

  lemma DivideBelow(value: nat, base: nat, q: nat)
    requires base > 0 && value < base * q
    ensures value / base < q
  {
  }

  lemma DigitsUnfolded(value: nat, base: nat, upper: bool, room: nat)
    requires 2 <= base <= 16 && room > 0
    ensures var c, more := DigitChar(value % base, upper), value / base > 0 && room > 1;
      Reverse(Digits(value, base, upper, room))
        == (if more then Reverse(Digits(value / base, base, upper, room - 1)) else []) + [c]
  {
    hide DigitChar;
    var c := DigitChar(value % base, upper);
    if value / base > 0 && room > 1 {
      ReverseJoin([c], Digits(value / base, base, upper, room - 1));
    } else {
      assert Digits(value, base, upper, room) == [c] + [];
    }
    ReverseShort(c);
  }

  lemma OneDigitMore(s: string, c: char, value: nat, base: nat, upper: bool)
    requires base > 0 && Writes(s, value / base, base, upper) && s[0] != '0'
    requires DigitsOf([c], base, upper) && DigitValue(c) == value % base
    ensures Writes(s + [c], value, base, upper) && (s + [c])[0] != '0'
  {
    hide DigitsOf, DigitValue, ValueIn;
    ValueAppend(s, c, base, upper);
    Divided(value, base);
  }

  lemma LastDigit(c: char, value: nat, base: nat, upper: bool)
    requires value < base && DigitsOf([c], base, upper) && DigitValue(c) == value
    ensures Writes([c], value, base, upper)
  {
    ValueNone(base, upper);
    ValueAppend([], c, base, upper);
    assert [] + [c] == [c];
  }

  lemma Smaller(value: nat, base: nat, room: nat)
    requires base >= 2 && room > 0 && value < Power(base, room)
    ensures value / base < Power(base, room - 1) && (value / base > 0 ==> room > 1)
    ensures value / base == 0 ==> value % base == value < base
  {
    PowerUnfolded(base, room);
    DivideBelow(value, base, Power(base, room - 1));
    Divided(value, base);
    hide Power;
    if room == 1 { NoneBelow(base); }
  }

  /** The digits that are printed are how the number is written. */
  lemma {:induction false} DigitsWrite(value: nat, base: nat, upper: bool, room: nat)
    requires 2 <= base <= 16 && room > 0 && value < Power(base, room)
    ensures Writes(Reverse(Digits(value, base, upper, room)), value, base, upper)
    ensures value > 0 ==> Reverse(Digits(value, base, upper, room))[0] != '0'
    decreases room
  {
    hide Digits, Reverse, DigitChar, ValueIn, DigitsOf, DigitValue, Power;
    DigitsUnfolded(value, base, upper, room);
    DigitIs(value % base, base, upper);
    Smaller(value, base, room);
    var c, q := DigitChar(value % base, upper), value / base;
    if q > 0 {
      DigitsWrite(q, base, upper, room - 1);
      OneDigitMore(Reverse(Digits(q, base, upper, room - 1)), c, value, base, upper);
    } else {
      LastDigit(c, value, base, upper);
      assert [] + [c] == [c];
    }
  }

  lemma PowerUnfolded(base: nat, n: nat)
    requires n > 0
    ensures Power(base, n) == base * Power(base, n - 1)
  {
  }

  lemma NoneBelow(base: nat)
    ensures Power(base, 0) == 1
  {
  }

  lemma Divided(value: nat, base: nat)
    requires base > 0
    ensures value == (value / base) * base + value % base && value % base < base
  {
  }

  lemma ValueNone(base: nat, upper: bool)
    ensures ValueIn("", base) == 0 && DigitsOf("", base, upper)
  {
  }

  /** A number is written in one way only, so that its text says all about it. */
  lemma {:induction false} WritesOnce(s: string, t: string, n: nat, base: nat, upper: bool)
    requires 2 <= base <= 16 && Writes(s, n, base, upper) && Writes(t, n, base, upper)
    ensures s == t
    decreases |s|
  {
    hide DigitsOf, DigitValue, ValueIn;
    LastIs(s, base, upper);
    LastIs(t, base, upper);
    var s0, t0 := s[..|s| - 1], t[..|t| - 1];
    SameDigit(s[|s| - 1], t[|t| - 1], base, upper);
    if |s| > 1 && |t| > 1 {
      WritesOnce(s0, t0, n / base, base, upper);
    } else {
      if |s| > 1 { AtLeastOne(s0, base, upper); EmptyIsZero(t0, base); }
      if |t| > 1 { AtLeastOne(t0, base, upper); EmptyIsZero(s0, base); }
    }
    assert s == s0 + [s[|s| - 1]] && t == t0 + [t[|t| - 1]];
  }

  lemma EmptyIsZero(s: string, base: nat)
    ensures s == "" ==> ValueIn(s, base) == 0
  {
  }

  lemma LastIs(s: string, base: nat, upper: bool)
    requires base > 0 && s != "" && DigitsOf(s, base, upper)
    ensures var s0, c := s[..|s| - 1], s[|s| - 1];
      && DigitsOf(s0, base, upper) && DigitsOf([c], base, upper)
      && ValueIn(s, base) / base == ValueIn(s0, base) && ValueIn(s, base) % base == DigitValue(c)
      && (|s0| > 0 ==> s0[0] == s[0])
  {
    QuotientIs(ValueIn(s[..|s| - 1], base), DigitValue(s[|s| - 1]), base);
  }

  lemma QuotientIs(q: nat, r: nat, base: nat)
    requires r < base
    ensures (q * base + r) / base == q && (q * base + r) % base == r
  {
    var n := q * base + r;
    Divided(n, base);
    if n / base > q { Multiples(n / base, q, base); }
    if n / base < q { Multiples(q, n / base, base); }
  }

  lemma {:induction false} Multiples(a: nat, b: nat, c: nat)
    requires a > b
    ensures a * c >= b * c + c
    decreases a
  {
    assert a * c == (a - 1) * c + c;
    if a > b + 1 { Multiples(a - 1, b, c); }
  }

  lemma SameDigit(c: char, d: char, base: nat, upper: bool)
    requires base <= 16 && DigitsOf([c], base, upper) && DigitsOf([d], base, upper) && DigitValue(c) == DigitValue(d)
    ensures c == d
  {
    assert [c][0] == c && [d][0] == d;
  }

  lemma {:induction false} AtLeastOne(s: string, base: nat, upper: bool)
    requires base >= 2 && s != "" && s[0] != '0' && DigitsOf(s, base, upper) && base <= 16
    ensures ValueIn(s, base) >= 1
    decreases |s|
  {
    if |s| > 1 {
      AtLeastOne(s[..|s| - 1], base, upper);
      Multiples(ValueIn(s[..|s| - 1], base), 0, base);
    } else {
      EmptyIsZero(s[..0], base);
      assert DigitValue(s[0]) >= 1;
    }
  }

  lemma {:induction false} ValueBelow(s: string, base: nat, upper: bool)
    requires base >= 2 && DigitsOf(s, base, upper)
    ensures ValueIn(s, base) < Power(base, |s|)
    decreases |s|
  {
    hide DigitValue;
    if s != "" {
      ValueBelow(s[..|s| - 1], base, upper);
      Room(ValueIn(s[..|s| - 1], base), DigitValue(s[|s| - 1]), base, Power(base, |s| - 1));
    }
  }

  lemma Room(q: nat, r: nat, base: nat, power: nat)
    requires r < base && q < power
    ensures q * base + r < base * power
  {
    Multiples(power, q, base);
  }

  lemma {:induction false} PowerGrows(b: nat, m: nat, n: nat)
    requires b >= 1 && m <= n
    ensures Power(b, m) <= Power(b, n)
    decreases n
  {
    if m < n {
      PowerGrows(b, m, n - 1);
      PowerUnfolded(b, n);
      assert (b - 1) * Power(b, n - 1) >= 0;
    }
  }

  /** The digits that fit the room write the number exactly if it is below that power of the base. */
  lemma DigitsExact(value: nat, base: nat, upper: bool, room: nat)
    requires 2 <= base <= 16 && room > 0
    ensures Writes(Reverse(Digits(value, base, upper, room)), value, base, upper) <==> value < Power(base, room)
  {
    hide DigitsOf, Power, Digits, ValueIn;
    var s := Reverse(Digits(value, base, upper, room));
    if value < Power(base, room) { DigitsWrite(value, base, upper, room); }
    if Writes(s, value, base, upper) {
      ValueBelow(s, base, upper);
      PowerGrows(base, |s|, room);
    }
  }

  lemma PowersSuffice(base: nat)
    requires base == 2 || base == 8 || base == 10 || base == 16
    ensures if base == 2 then Power(base, 32) == 2 * HALF32 else Power(base, 32) >= 2 * HALF64
  {
    hide Power;
    FourthPower(base);
    Squared(base, 4);
    Squared(base, 8);
    Squared(base, 16);
    if base == 2 { assert 16 * 16 == 256 && 256 * 256 == 65536; }
    else if base == 8 { assert 4096 * 4096 == 16777216 && 16777216 * 16777216 == 281474976710656; }
    else if base == 10 { assert 10000 * 10000 == 100000000 && 100000000 * 100000000 == 10000000000000000; }
    else { assert 65536 * 65536 == 4294967296 && 4294967296 * 4294967296 == 18446744073709551616; }
  }

  lemma FourthPower(b: nat)
    ensures Power(b, 4) == b * (b * (b * b))
  {
    assert Power(b, 1) == b * 1;
    assert Power(b, 2) == b * b;
    assert Power(b, 3) == b * (b * b);
  }

  lemma Squared(b: nat, n: nat)
    ensures Power(b, 2 * n) == Power(b, n) * Power(b, n)
  {
    PowerDoubles(b, n, n);
  }

  lemma {:induction false} PowerDoubles(b: nat, m: nat, n: nat)
    ensures Power(b, m + n) == Power(b, m) * Power(b, n)
    decreases m
  {
    if m > 0 {
      PowerDoubles(b, m - 1, n);
      assert b * (Power(b, m - 1) * Power(b, n)) == (b * Power(b, m - 1)) * Power(b, n);
    }
  }

  // --------------------------------------------------------------------- integers

  /** How many values the integer type of a length has. */
  function Modulus(p: Platform, n: Length): (m: nat)
    ensures m > 0
  {
    match n
    case Hh => 0x100
    case H => 0x1_0000
    case NoLength => 0x1_0000_0000
    case Ll => 0x1_0000_0000_0000_0000
    case J => 0x1_0000_0000_0000_0000
    case _ => if p.wideLong then 0x1_0000_0000_0000_0000 else 0x1_0000_0000
  }

  predicate PassedWide(p: Platform, n: Length) {
    n.Ll? || n.J? || (p.wideLong && (n.L? || n.T? || n.Z?))
  }

  /** The integer that the low bits of an argument stand for: two's complement if the type is signed. A `char` is as
      signed as the platform has it. */
  function IntegerOf(p: Platform, n: Length, signed: bool, bits: nat): int {
    var m := Modulus(p, n);
    var r := bits % m;
    if signed && (n.Hh? ==> p.charSigned) && 2 * r >= m then r - m else r
  }

  predicate Radix(c: char, base: nat) {
    if c == 'x' || c == 'X' then base == 16 else if c == 'o' then base == 8 else if c == 'b' then base == 2
    else (c == 'd' || c == 'i' || c == 'u') && base == 10
  }

  lemma ValueIsInteger(p: Platform, n: Length, fl: Flags, signed: bool, arg: Arg)
    requires SaysLength(p, n, fl) && IsWord([arg], 0, PassedWide(p, n))
    ensures IsWide(p, fl) == PassedWide(p, n)
    ensures Value(p, fl, signed, Bits(arg)) == IntegerOf(p, n, signed, Bits(arg))
  {
  }

  /** The flags that matter for padding and sign. */
  predicate SameLook(a: Flags, b: Flags) {
    a.left == b.left && a.zeropad == b.zeropad && a.plus == b.plus && a.space == b.space
  }

  lemma LooksTheSame(digits: string, precision: nat, width: nat, negative: bool, a: Flags, b: Flags)
    requires SameLook(a, b)
    ensures Filled(|digits|, precision, width, a) == Filled(|digits|, precision, width, b)
    ensures var q := Filled(|digits|, precision, width, a);
      && Left(q, width, negative, a) == Left(q, width, negative, b)
      && (0 <= Left(q, width, negative, a) ==>
            Printed(digits, |digits|, q, width, negative, a) == Printed(digits, |digits|, q, width, negative, b))
  {
    hide Laid, Min, Max;
  }

  predicate IntegerConversion(c: char) {
    c in "diuxXob"
  }

  predicate SignedConversion(c: char) {
    c == 'd' || c == 'i'
  }

  /** How the directive wants the number to look. */
  predicate Looks(d: Directive, leftward: bool, look: Flags) {
    && (look.left <==> Has(d.marks, '-') || leftward) && (look.zeropad <==> Has(d.marks, '0'))
    && (look.plus <==> SignedConversion(d.conversion) && Has(d.marks, '+'))
    && (look.space <==> SignedConversion(d.conversion) && Has(d.marks, ' '))
  }

  /** The argument of an integer directive, and the integer it stands for. */
  predicate IntegerArg(p: Platform, d: Directive, args: seq<Arg>, a: nat) {
    IsWord(args, a, PassedWide(p, d.length))
  }

  function IntegerAt(p: Platform, d: Directive, args: seq<Arg>, a: nat): int
    requires IntegerArg(p, d, args, a)
  {
    IntegerOf(p, d.length, SignedConversion(d.conversion), Bits(args[a]))
  }

  function Magnitude(v: int): nat {
    if v < 0 then -v else v
  }

  /** The conversion buffer holds all digits of any integer but the longest in binary. */
  predicate WithinBuffer(c: char, v: int) {
    c == 'b' ==> Magnitude(v) < 2 * HALF32
  }

  /** The prefix of `#` is for other bases than these. */
  predicate Unprefixed(d: Directive) {
    Has(d.marks, '#') ==> d.conversion == 'd' || d.conversion == 'i' || d.conversion == 'u' || d.conversion == 'b'
  }

  lemma EffectiveIs(p: Platform, d: Directive, args: seq<Arg>, arg: nat, sp: Spec)
    requires StarsFit(d, args, arg) && Says(p, d, args, arg, sp) && IntegerConversion(d.conversion)
    ensures var e := Effective(sp.flags, sp.conversion);
      && Looks(d, WidthArg(d, args, arg) < 0, e) && e.precision == d.precision.Some? && e.upper == (d.conversion == 'X')
      && (Unprefixed(d) ==> !e.hash) && Radix(d.conversion, BaseOf(sp.conversion)) && IsInteger(sp.conversion)
      && IsSigned(sp.conversion) == SignedConversion(d.conversion)
  {
    hide Has, WidthArg, PrecisionArg;
  }

  lemma IntegerFits(p: Platform, d: Directive, args: seq<Arg>, a: nat)
    requires IntegerArg(p, d, args, a)
    ensures Magnitude(IntegerAt(p, d, args, a)) < 2 * HALF64
  {
  }

  lemma PlainWrites(value: nat, base: nat, fl: Flags)
    requires base == 2 || base == 8 || base == 10 || base == 16
    requires value < 2 * HALF64
    ensures var digits := Reverse(Plain(value, base, fl));
      && |digits| == |Plain(value, base, fl)| && (digits == "" <==> fl.precision && value == 0)
      && if fl.precision && value == 0 then digits == ""
         else Writes(digits, value, base, fl.upper) <==> (base == 2 ==> value < 2 * HALF32)
  {
    hide Digits, Writes, Power;
    PowersSuffice(base);
    DigitsExact(value, base, fl.upper, BUFFER_SIZE);
  }

  /** An integer directive prints its argument: the digits are how the integer is written in the base of the
      conversion, exactly if it is not binary with more than 32 digits, and sign, zeros and spaces go around them as
      Printed says. */
  lemma IntegerPrints(p: Platform, d: Directive, args: seq<Arg>, arg: nat, sp: Spec) returns (digits: string)
    requires StarsFit(d, args, arg) && Says(p, d, args, arg, sp) && IntegerConversion(d.conversion) && Unprefixed(d)
    requires IntegerArg(p, d, args, ArgAfterStars(d, arg))
    ensures var v := IntegerAt(p, d, args, ArgAfterStars(d, arg));
      if d.precision.Some? && v == 0 then digits == ""
      else forall base :: Radix(d.conversion, base) ==>
        (Writes(digits, Magnitude(v), base, d.conversion == 'X') <==> WithinBuffer(d.conversion, v))
    ensures digits == "" <==> d.precision.Some? && IntegerAt(p, d, args, ArgAfterStars(d, arg)) == 0
    ensures |digits| <= BUFFER_SIZE && (SignedConversion(d.conversion) ==> |digits| <= 20)
    ensures var v := IntegerAt(p, d, args, ArgAfterStars(d, arg));
      forall look :: Looks(d, WidthArg(d, args, arg) < 0, look) ==>
        var q := Filled(|digits|, sp.precision, sp.width, look);
        Convert(p, sp, args, ArgAfterStars(d, arg))
          == if Left(q, sp.width, v < 0, look) < 0 then None
             else Some((Printed(digits, |digits|, q, sp.width, v < 0, look), ArgAfterStars(d, arg) + 1))
  {
    hide Number, Plain, Reverse, Writes, Value, Filled, Left, Printed, Effective, IntegerOf, Looks, Has, Unprefixed;
    var a, e := ArgAfterStars(d, arg), Effective(sp.flags, sp.conversion);
    var v, base := IntegerAt(p, d, args, a), BaseOf(sp.conversion);
    EffectiveIs(p, d, args, arg, sp);
    SaysLengthOf(p, d, args, arg, sp);
    ValueIsInteger(p, d.length, sp.flags, SignedConversion(d.conversion), args[a]);
    IntegerFits(p, d, args, a);
    assert Abs(v) == Magnitude(v);
    PlainWrites(Magnitude(v), base, e);
    NumberShape(Magnitude(v), v < 0, base, sp.precision, sp.width, e);
    digits := Reverse(Plain(Magnitude(v), base, e));
    if SignedConversion(d.conversion) { PlainLength(Magnitude(v), e); }
    forall look | Looks(d, WidthArg(d, args, arg) < 0, look)
      ensures var q := Filled(|digits|, sp.precision, sp.width, look);
        Convert(p, sp, args, a)
          == if Left(q, sp.width, v < 0, look) < 0 then None
             else Some((Printed(digits, |digits|, q, sp.width, v < 0, look), a + 1))
    {
      LooksAlike(d, WidthArg(d, args, arg) < 0, look, e);
      LooksTheSame(digits, sp.precision, sp.width, v < 0, look, e);
    }
  }

  lemma SaysLengthOf(p: Platform, d: Directive, args: seq<Arg>, arg: nat, sp: Spec)
    requires StarsFit(d, args, arg) && Says(p, d, args, arg, sp)
    ensures SaysLength(p, d.length, sp.flags) && sp.conversion == d.conversion
  {
  }

  lemma LooksAlike(d: Directive, leftward: bool, a: Flags, b: Flags)
    requires Looks(d, leftward, a) && Looks(d, leftward, b)
    ensures SameLook(a, b)
  {
    hide Has;
  }

  // -------------------------------------------------------- the other conversions

  lemma {:induction false} DigitsShort(value: nat, base: nat, upper: bool, room: nat, k: nat)
    requires 2 <= base <= 16 && 1 <= k <= room && value < Power(base, k)
    ensures |Digits(value, base, upper, room)| <= k
    decreases k
  {
    hide DigitChar, Power;
    Smaller(value, base, k);
    if value / base > 0 && room > 1 { DigitsShort(value / base, base, upper, room - 1, k - 1); }
  }

  /** A string is printed up to its precision, with spaces on the side away from its own up to the width. */
  lemma StringPrints(p: Platform, d: Directive, args: seq<Arg>, arg: nat, sp: Spec)
    requires StarsFit(d, args, arg) && Says(p, d, args, arg, sp) && d.conversion == 's'
    requires IsText(args, ArgAfterStars(d, arg))
    ensures var s, w := args[ArgAfterStars(d, arg)].s, WidthArg(d, args, arg);
      var cut := if d.precision.Some? && PrecisionArg(d, args, arg) < |s| then s[..PrecisionArg(d, args, arg)] else s;
      var spaces := Repeat(' ', if |cut| < Magnitude(w) then Magnitude(w) - |cut| else 0);
      Convert(p, sp, args, ArgAfterStars(d, arg))
        == Some((if Has(d.marks, '-') || w < 0 then cut + spaces else spaces + cut, ArgAfterStars(d, arg) + 1))
  {
    hide Has, WidthArg, PrecisionArg;
  }

  /** A character is printed with spaces on the other side up to the width. */
  lemma CharPrints(p: Platform, d: Directive, args: seq<Arg>, arg: nat, sp: Spec)
    requires StarsFit(d, args, arg) && Says(p, d, args, arg, sp) && d.conversion == 'c'
    requires IsWord(args, ArgAfterStars(d, arg), false)
    ensures var c, w := (args[ArgAfterStars(d, arg)].bits % 0x100) as char, WidthArg(d, args, arg);
      var spaces := Repeat(' ', if 1 < Magnitude(w) then Magnitude(w) - 1 else 0);
      Convert(p, sp, args, ArgAfterStars(d, arg))
        == Some((if Has(d.marks, '-') || w < 0 then [c] + spaces else spaces + [c], ArgAfterStars(d, arg) + 1))
  {
    hide Has, WidthArg, PrecisionArg;
  }

  predicate Converts(c: char) {
    IntegerConversion(c) || c == 'c' || c == 's' || c == 'p' || c == 'f' || c == 'F'
  }

  /** A percent sign, and any other character that is no conversion, prints itself and takes no argument. */
  lemma PlainPrints(p: Platform, d: Directive, args: seq<Arg>, arg: nat, sp: Spec)
    requires StarsFit(d, args, arg) && Says(p, d, args, arg, sp) && !Converts(d.conversion)
    ensures Convert(p, sp, args, ArgAfterStars(d, arg)) == Some(([d.conversion], ArgAfterStars(d, arg)))
  {
    hide Has, WidthArg, PrecisionArg;
  }

  /** How a pointer looks: like an unsigned number with zeros, but a sign is not refused. */
  predicate PointerLooks(d: Directive, leftward: bool, look: Flags) {
    && (look.left <==> Has(d.marks, '-') || leftward) && look.zeropad
    && (look.plus <==> Has(d.marks, '+')) && (look.space <==> Has(d.marks, ' '))
  }

  function PointerWidth(p: Platform): nat {
    if p.wideLong then 16 else 8
  }

  /** A pointer is printed in hexadecimal in a width of its own, whatever width the directive gives. */
  lemma PointerPrints(p: Platform, d: Directive, args: seq<Arg>, arg: nat, sp: Spec, look: Flags)
    returns (digits: string)
    requires StarsFit(d, args, arg) && Says(p, d, args, arg, sp) && d.conversion == 'p' && !Has(d.marks, '#')
    requires IsWord(args, ArgAfterStars(d, arg), p.wideLong) && PointerLooks(d, WidthArg(d, args, arg) < 0, look)
    ensures var value := Bits(args[ArgAfterStars(d, arg)]);
      if d.precision.Some? && value == 0 then digits == "" else Writes(digits, value, 16, true)
    ensures |digits| <= PointerWidth(p)
    ensures var q := Filled(|digits|, sp.precision, PointerWidth(p), look);
      Convert(p, sp, args, ArgAfterStars(d, arg))
        == if Left(q, PointerWidth(p), false, look) < 0 then None
           else Some((Printed(digits, |digits|, q, PointerWidth(p), false, look), ArgAfterStars(d, arg) + 1))
  {
    hide Number, Plain, Reverse, Writes, Power, Laid, Filled, Left, Printed, Has, WidthArg, PrecisionArg;
    var fl, value := sp.flags.(zeropad := true, upper := true), Bits(args[ArgAfterStars(d, arg)]);
    PlainWrites(value, 16, fl);
    NumberShape(value, false, 16, sp.precision, PointerWidth(p), fl);
    digits := Reverse(Plain(value, 16, fl));
    PointerFits(value, fl, PointerWidth(p), p.wideLong);
    LooksTheSame(digits, sp.precision, PointerWidth(p), false, look, fl);
  }

  /** With no flags and no precision all the digits of the pointer are printed, leading zeros too. */
  lemma PointerAlone(p: Platform, args: seq<Arg>, arg: nat, sp: Spec) returns (digits: string)
    requires Says(p, Directive("", "", None, NoLength, 'p'), args, arg, sp) && IsWord(args, arg, p.wideLong)
    ensures Writes(digits, Bits(args[arg]), 16, true) && |digits| <= PointerWidth(p)
    ensures Convert(p, sp, args, arg) == Some((Repeat('0', PointerWidth(p) - |digits|) + digits, arg + 1))
  {
    hide Convert, Writes, Laid;
    var d, look := Directive("", "", None, NoLength, 'p'), NO_FLAGS.(zeropad := true);
    NatOfNone();
    HasNone();
    digits := PointerPrints(p, d, args, arg, sp, look);
    LaidPlain(PointerWidth(p) - |digits|, digits);
  }

  lemma PointerFits(value: nat, fl: Flags, w: nat, wide: bool)
    requires w == (if wide then 16 else 8) && value < if wide then 2 * HALF64 else 2 * HALF32
    ensures |Plain(value, 16, fl)| <= w
  {
    hide Power, Digits;
    FourthPower(16);
    Squared(16, 4);
    Squared(16, 8);
    assert 65536 * 65536 == 4294967296 && 4294967296 * 4294967296 == 18446744073709551616;
    DigitsShort(value, 16, fl.upper, BUFFER_SIZE, w);
  }

  lemma LaidPlain(z: nat, digits: string)
    ensures Laid(0, "", z, digits, 0) == Repeat('0', z) + digits
  {
    assert Repeat(' ', 0) == [];
    assert "" + (Repeat('0', z) + digits) == Repeat('0', z) + digits;
    assert [] + (Repeat('0', z) + digits) + [] == Repeat('0', z) + digits;
  }

  // ------------------------------------------------------------------ whole formats

  lemma CharCopied(p: Platform, f: string, pos: nat, args: seq<Arg>, arg: nat)
    requires pos < |f| && f[pos] != '%'
    ensures var rest := Render(p, f, pos + 1, args, arg);
      Render(p, f, pos, args, arg) == if rest.None? then None else Some([f[pos]] + rest.value)
  {
  }

  /** Characters outside conversions are copied. */
  lemma {:induction false} LiteralPrints(p: Platform, f: string, pos: nat, lit: string, args: seq<Arg>, arg: nat)
    requires StandsAt(f, pos, lit) && !Has(lit, '%')
    ensures var rest := Render(p, f, pos + |lit|, args, arg);
      Render(p, f, pos, args, arg) == if rest.None? then None else Some(lit + rest.value)
    decreases |lit|
  {
    hide Render, Has;
    var rest := Render(p, f, pos + |lit|, args, arg);
    if lit != "" {
      var c, more := lit[0], lit[1..];
      assert lit == [c] + more;
      StandsParts(f, pos, [c], more);
      Within(f, pos, [c]);
      HasOne(c, more, '%');
      CharCopied(p, f, pos, args, arg);
      LiteralPrints(p, f, pos + 1, more, args, arg);
      if rest.Some? { assert [c] + (more + rest.value) == lit + rest.value; }
    } else if rest.Some? {
      assert lit + rest.value == rest.value;
    }
  }

  /** A directive prints what its conversion prints, and the format goes on behind it with the next argument. */
  lemma ConversionPrints(p: Platform, f: string, pos: nat, d: Directive, args: seq<Arg>, arg: nat) returns (sp: Spec)
    requires WellFormed(d) && StarsFit(d, args, arg) && StandsAt(f, pos, Written(d))
    ensures Says(p, d, args, arg, sp)
    ensures var c := Convert(p, sp, args, ArgAfterStars(d, arg));
      if c.None? then Render(p, f, pos, args, arg) == None
      else
        var rest := Render(p, f, pos + |Written(d)|, args, c.value.1);
        Render(p, f, pos, args, arg) == if rest.None? then None else Some(c.value.0 + rest.value)
  {
    hide Scan, Convert, Says, Tail, WellFormed;
    StandsParts(f, pos, "%", Tail(d));
    Within(f, pos, "%");
    ReadAsWritten(p, f, pos + 1, d, args, arg);
    sp := Scan(p, f, pos + 1, args, arg).value.spec;
  }

  /** A format of one directive between two literal texts prints the first text, what the conversion prints, and the
      second text. */
  lemma DirectivePrints(p: Platform, before: string, d: Directive, after: string, args: seq<Arg>) returns (sp: Spec)
    requires WellFormed(d) && StarsFit(d, args, 0) && !Has(before, '%') && !Has(after, '%')
    ensures Says(p, d, args, 0, sp)
    ensures var c := Convert(p, sp, args, ArgAfterStars(d, 0));
      Render(p, before + (Written(d) + after), 0, args, 0)
        == if c.None? then None else Some(before + (c.value.0 + after))
  {
    hide Render, Convert, Says, Written, WellFormed, Has;
    var f := before + (Written(d) + after);
    Placed(before, Written(d), after);
    LiteralPrints(p, f, 0, before, args, 0);
    sp := ConversionPrints(p, f, |before|, d, args, 0);
    var c := Convert(p, sp, args, ArgAfterStars(d, 0));
    if c.Some? {
      LiteralPrints(p, f, |before| + |Written(d)|, after, args, c.value.1);
      NothingLeft(p, f, args, c.value.1);
      assert after + [] == after;
    }
  }

  lemma Placed(a: string, b: string, c: string)
    ensures StandsAt(a + (b + c), 0, a) && StandsAt(a + (b + c), |a|, b) && StandsAt(a + (b + c), |a| + |b|, c)
    ensures |a + (b + c)| == |a| + |b| + |c|
  {
  }

  lemma NothingLeft(p: Platform, f: string, args: seq<Arg>, arg: nat)
    ensures Render(p, f, |f|, args, arg) == Some([])
  {
  }

  // ----------------------------------------------------------------- plain numbers

  /** A conversion with a length and nothing else. */
  function Just(n: Length, c: char): Directive {
    Directive("", "", None, n, c)
  }

  /** A number without width and precision is its digits behind its sign. */
  lemma PlainLook(digits: string, negative: bool, look: Flags)
    requires digits != "" && |digits| <= BUFFER_SIZE && (negative ==> |digits| < BUFFER_SIZE)
    requires !look.left && !look.zeropad && !look.plus && !look.space
    ensures var q := Filled(|digits|, 0, 0, look);
      0 <= Left(q, 0, negative, look)
      && Printed(digits, |digits|, q, 0, negative, look) == (if negative then "-" else "") + digits
  {
    var sign := if negative then "-" else "";
    LaidSign(sign, digits);
    hide Laid;
  }

  lemma LaidSign(sign: string, digits: string)
    ensures Laid(0, sign, 0, digits, 0) == sign + digits
  {
    assert Repeat(' ', 0) == [] && Repeat('0', 0) == [];
    assert [] + (sign + ([] + digits)) + [] == sign + digits;
  }

  /** An integer printed with no flags, width or precision: the format's own text around a sign, if it is negative, and
      its digits in the base of the conversion. */
  lemma IntegerAlone(p: Platform, before: string, n: Length, c: char, after: string, arg: Arg) returns (digits: string)
    requires !Has(before, '%') && !Has(after, '%') && IntegerConversion(c) && IsWord([arg], 0, PassedWide(p, n))
    ensures var v := IntegerOf(p, n, SignedConversion(c), Bits(arg));
      && (forall base :: Radix(c, base) ==> (Writes(digits, Magnitude(v), base, c == 'X') <==> WithinBuffer(c, v)))
      && Render(p, before + (Written(Just(n, c)) + after), 0, [arg], 0)
           == Some(before + (((if v < 0 then "-" else "") + digits) + after))
  {
    hide Render, Convert, Writes, Written, Printed, Filled, Left;
    var d, v := Just(n, c), IntegerOf(p, n, SignedConversion(c), Bits(arg));
    JustFine(n, c);
    var sp := DirectivePrints(p, before, d, after, [arg]);
    digits := IntegerPrints(p, d, [arg], 0, sp);
    assert Looks(d, false, NO_FLAGS) by { hide *; BlankLook(n, c); }
    JustSays(p, n, c, arg, sp);
    HasNone();
    PlainLook(digits, v < 0, NO_FLAGS);
  }

  lemma JustFine(n: Length, c: char)
    requires IntegerConversion(c)
    ensures WellFormed(Just(n, c)) && Unprefixed(Just(n, c)) && StarsFit(Just(n, c), [], 0)
  {
    NatOfNone();
  }

  lemma HasNone()
    ensures forall m :: !Has("", m)
  {
  }

  lemma BlankLook(n: Length, c: char)
    ensures Looks(Just(n, c), false, NO_FLAGS)
  {
  }

  lemma JustSays(p: Platform, n: Length, c: char, arg: Arg, sp: Spec)
    requires Says(p, Just(n, c), [arg], 0, sp)
    ensures sp.width == 0 && sp.precision == 0
    ensures WidthArg(Just(n, c), [arg], 0) == 0 && ArgAfterStars(Just(n, c), 0) == 0
  {
    NatOfNone();
  }

  lemma JustWritten(n: Length, c: char)
    ensures Written(Just(n, c)) == "%" + LengthText(n) + [c]
  {
    assert "" + ("" + ("" + (LengthText(n) + [c]))) == LengthText(n) + [c];
  }

  lemma {:induction false} DecimalValue(s: string)
    requires DigitsOf(s, 10, false)
    ensures AllDigits(s) && NatOf(s) == ValueIn(s, 10)
    decreases |s|
  {
    if s != "" { DecimalValue(s[..|s| - 1]); }
  }

  lemma WordFits(p: Platform, long: bool, n: nat)
    requires n < UINT_LIMIT
    ensures var arg, len := if long && p.wideLong then Word64(n) else Word32(n), if long then L else NoLength;
      && IsWord([arg], 0, PassedWide(p, len)) && Bits(arg) == n && IntegerOf(p, len, false, Bits(arg)) == n
  {
  }

  /** An unsigned number printed with %u or %lu reads back as itself, to the last character of its text. */
  lemma UnsignedReadsBack(p: Platform, before: string, after: string, long: bool, n: nat) returns (text: string)
    requires n < UINT_LIMIT && !Has(before, '%') && !Has(after, '%')
    ensures var arg := if long && p.wideLong then Word64(n) else Word32(n);
      Render(p, before + ((if long then "%lu" else "%u") + after), 0, [arg], 0) == Some(before + (text + after))
    ensures forall rest: string :: (rest != "" ==> !IsDigit(rest[0])) ==> Atoi(text + rest, 0, 0) == (n, |text|)
  {
    hide Render, Writes, Written, IntegerOf, Atoi, Has;
    var arg, len := if long && p.wideLong then Word64(n) else Word32(n), if long then L else NoLength;
    WordFits(p, long, n);
    JustWritten(len, 'u');
    text := IntegerAlone(p, before, len, 'u', after, arg);
    assert Radix('u', 10) && "" + text == text;
    assert "%" + LengthText(len) + ['u'] == if long then "%lu" else "%u";
    WritesDecimal(text, n);
    forall rest: string | rest != "" ==> !IsDigit(rest[0])
      ensures Atoi(text + rest, 0, 0) == (n, |text|)
    {
      AtoiWhole(text, rest);
    }
  }

  lemma WritesDecimal(text: string, n: nat)
    requires Writes(text, n, 10, false)
    ensures AllDigits(text) && NatOf(text) == n
  {
    DecimalValue(text);
  }

  /** A 32-bit number printed with %x, %X, %o or %b is how it is written in base 16, 16, 8 or 2. */
  lemma BasesPrint(p: Platform, before: string, c: char, after: string, n: nat) returns (text: string)
    requires n < UINT_LIMIT && !Has(before, '%') && !Has(after, '%') && c in "xXob"
    ensures Render(p, before + (("%" + [c]) + after), 0, [Word32(n)], 0) == Some(before + (text + after))
    ensures c == 'x' ==> Writes(text, n, 16, false)
    ensures c == 'X' ==> Writes(text, n, 16, true)
    ensures c == 'o' ==> Writes(text, n, 8, false)
    ensures c == 'b' ==> Writes(text, n, 2, false)
  {
    hide Render, Writes, Written, IntegerOf, Has;
    WordFits(p, false, n);
    JustWritten(NoLength, c);
    assert "%" + "" + [c] == "%" + [c];
    text := IntegerAlone(p, before, NoLength, c, after, Word32(n));
    assert "" + text == text;
    assert c == 'x' || c == 'X' ==> Radix(c, 16);
    assert c == 'o' ==> Radix(c, 8);
    assert c == 'b' ==> Radix(c, 2);
  }

  /** A string in a format, with any width, precision and flags. */
  lemma StringInFormat(p: Platform, before: string, d: Directive, after: string, args: seq<Arg>)
    requires WellFormed(d) && d.conversion == 's' && StarsFit(d, args, 0) && IsText(args, ArgAfterStars(d, 0))
    requires !Has(before, '%') && !Has(after, '%')
    ensures var s, w := args[ArgAfterStars(d, 0)].s, WidthArg(d, args, 0);
      var cut := if d.precision.Some? && PrecisionArg(d, args, 0) < |s| then s[..PrecisionArg(d, args, 0)] else s;
      var spaces := Repeat(' ', if |cut| < Magnitude(w) then Magnitude(w) - |cut| else 0);
      Render(p, before + (Written(d) + after), 0, args, 0)
        == Some(before + ((if Has(d.marks, '-') || w < 0 then cut + spaces else spaces + cut) + after))
  {
    hide Render, Convert, Says, Written, WellFormed, Has;
    var sp := DirectivePrints(p, before, d, after, args);
    StringPrints(p, d, args, 0, sp);
  }

  /** A character in a format, with any width and flags. */
  lemma CharInFormat(p: Platform, before: string, d: Directive, after: string, args: seq<Arg>)
    requires WellFormed(d) && d.conversion == 'c' && StarsFit(d, args, 0) && IsWord(args, ArgAfterStars(d, 0), false)
    requires !Has(before, '%') && !Has(after, '%')
    ensures var c, w := (args[ArgAfterStars(d, 0)].bits % 0x100) as char, WidthArg(d, args, 0);
      var spaces := Repeat(' ', if 1 < Magnitude(w) then Magnitude(w) - 1 else 0);
      Render(p, before + (Written(d) + after), 0, args, 0)
        == Some(before + ((if Has(d.marks, '-') || w < 0 then [c] + spaces else spaces + [c]) + after))
  {
    hide Render, Convert, Says, Written, WellFormed, Has;
    var sp := DirectivePrints(p, before, d, after, args);
    CharPrints(p, d, args, 0, sp);
  }

  /** An integer in a format, with any flags but `#`, any width, precision and length. */
  lemma IntegerInFormat(p: Platform, before: string, d: Directive, after: string, args: seq<Arg>, look: Flags)
    returns (digits: string)
    requires WellFormed(d) && StarsFit(d, args, 0) && IntegerConversion(d.conversion) && Unprefixed(d)
    requires !Has(before, '%') && !Has(after, '%') && IntegerArg(p, d, args, ArgAfterStars(d, 0))
    requires Looks(d, WidthArg(d, args, 0) < 0, look)
    ensures var v := IntegerAt(p, d, args, ArgAfterStars(d, 0));
      if d.precision.Some? && v == 0 then digits == ""
      else forall base :: Radix(d.conversion, base) ==>
        (Writes(digits, Magnitude(v), base, d.conversion == 'X') <==> WithinBuffer(d.conversion, v))
    ensures var v, w := IntegerAt(p, d, args, ArgAfterStars(d, 0)), Magnitude(WidthArg(d, args, 0));
      var q := Filled(|digits|, PrecisionArg(d, args, 0), w, look);
      Render(p, before + (Written(d) + after), 0, args, 0)
        == if Left(q, w, v < 0, look) < 0 then None
           else Some(before + (Printed(digits, |digits|, q, w, v < 0, look) + after))
  {
    hide Render, Convert, Written, WellFormed, Has, Writes, Printed, Filled, Left, Looks, IntegerAt, Unprefixed;
    var sp := DirectivePrints(p, before, d, after, args);
    digits := IntegerPrints(p, d, args, 0, sp);
  }
}
