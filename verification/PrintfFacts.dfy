/** Numbers print and read back. */
module PrintfFacts {
  import opened PrintfSpec

  predicate AllDigits(s: string) {
    forall i :: 0 <= i < |s| ==> IsDigit(s[i])
  }

  /** The number a text of decimal digits stands for. */
  function NatOf(s: string): nat
    requires AllDigits(s)
  {
    if s == [] then 0 else NatOf(s[..|s| - 1]) * 10 + Digit(s[|s| - 1])
  }

  lemma NatOfAppend(s: string, c: char)
    requires AllDigits(s) && IsDigit(c)
    ensures AllDigits(s + [c]) && NatOf(s + [c]) == NatOf(s) * 10 + Digit(c)
  {
    assert (s + [c])[..|s|] == s;
  }

  lemma {:induction false} PrefixBelow(s: string, k: nat)
    requires AllDigits(s) && k <= |s|
    ensures NatOf(s[..k]) <= NatOf(s)
    decreases |s| - k
  {
    if k < |s| {
      assert s[..k + 1][..k] == s[..k];
      PrefixBelow(s, k + 1);
    } else {
      assert s[..k] == s;
    }
  }

  lemma {:induction false} ZerosFirst(n: nat, s: string)
    requires AllDigits(s)
    ensures AllDigits(Repeat('0', n) + s) && NatOf(Repeat('0', n) + s) == NatOf(s)
    decreases |s|, n
  {
    var z := Repeat('0', n);
    if s == [] {
      if n > 0 {
        ZerosFirst(n - 1, []);
        assert z + [] == (Repeat('0', n - 1) + []) + ['0'];
        NatOfAppend(Repeat('0', n - 1) + [], '0');
      }
    } else {
      var front, c := s[..|s| - 1], s[|s| - 1];
      ZerosFirst(n, front);
      assert z + s == (z + front) + [c];
      NatOfAppend(z + front, c);
    }
  }

  lemma DigitCharIs(d: nat)
    requires d < 10
    ensures IsDigit(DigitChar(d, false)) && Digit(DigitChar(d, false)) == d
    ensures DigitChar(d, true) == DigitChar(d, false)
  {
  }

  /** A number small enough for the room. */
  ghost predicate FitsIn(value: nat, room: nat)
    decreases room
  {
    value < 10 || (room > 1 && FitsIn(value / 10, room - 1))
  }

  lemma DigitsUnfold(value: nat, upper: bool, room: nat)
    requires room > 0
    ensures var c := DigitChar(value % 10, upper);
      var more := value / 10 > 0 && room > 1;
      && IsDigit(c) && Digit(c) == value % 10
      && (!more ==> Digits(value, 10, upper, room) == [c] && Reverse(Digits(value, 10, upper, room)) == [c])
      && (more ==>
            var tail := Digits(value / 10, 10, upper, room - 1);
            Digits(value, 10, upper, room) == [c] + tail
            && Reverse(Digits(value, 10, upper, room)) == Reverse(tail) + [c])
  {
    DigitCharIs(value % 10);
    hide DigitChar, Digit;
    var c := DigitChar(value % 10, upper);
    if value / 10 > 0 && room > 1 {
      var tail := Digits(value / 10, 10, upper, room - 1);
      assert Reverse([c] + tail) == Reverse(tail) + [c];
    } else {
      assert Digits(value, 10, upper, room) == [c];
      assert Reverse([c]) == [c];
    }
  }

  /** The digits printed stand for the number. */
  lemma {:induction false} DigitsAre(value: nat, upper: bool, room: nat)
    requires room > 0 && FitsIn(value, room)
    ensures var r := Reverse(Digits(value, 10, upper, room)); AllDigits(r) && NatOf(r) == value
    decreases room
  {
    hide DigitChar, Digit, Digits, Reverse, IsDigit, NatOf;
    DigitsUnfold(value, upper, room);
    var c := DigitChar(value % 10, upper);
    if value / 10 > 0 {
      DigitsAre(value / 10, upper, room - 1);
      NatOfAppend(Reverse(Digits(value / 10, 10, upper, room - 1)), c);
    } else {
      NatOfOne(c);
    }
  }

  lemma NatOfOne(c: char)
    requires IsDigit(c)
    ensures AllDigits([c]) && NatOf([c]) == Digit(c)
  {
    NatOfAppend([], c);
    assert [] + [c] == [c];
  }

  lemma AtoiStep(s: string, rest: string, k: nat)
    requires AllDigits(s) && k < |s| && NatOf(s[..k + 1]) < UINT_LIMIT
    ensures Atoi(s + rest, k, NatOf(s[..k])) == Atoi(s + rest, k + 1, NatOf(s[..k + 1]))
  {
    assert s[..k + 1][..k] == s[..k];
    var i := NatOf(s[..k]) * 10 + Digit(s[k]);
    assert NatOf(s[..k + 1]) == i;
    assert i % UINT_LIMIT == i;
    assert At(s + rest, k) == s[k];
    hide NatOf, Digit;
  }

  /** Reading digits from the middle on adds them to what has been read. */
  lemma {:induction false} AtoiReads(s: string, rest: string, k: nat)
    requires AllDigits(s) && NatOf(s) < UINT_LIMIT && k <= |s| && (rest != [] ==> !IsDigit(rest[0]))
    ensures Atoi(s + rest, k, NatOf(s[..k])) == (NatOf(s), |s|)
    decreases |s| - k
  {
    if k < |s| {
      hide NatOf, Digit, Atoi;
      PrefixBelow(s, k + 1);
      AtoiStep(s, rest, k);
      AtoiReads(s, rest, k + 1);
    } else {
      hide NatOf, Digit;
      assert s[..k] == s;
      assert !IsDigit(At(s + rest, k));
    }
  }

  lemma AtoiWhole(s: string, rest: string)
    requires AllDigits(s) && NatOf(s) < UINT_LIMIT && (rest != [] ==> !IsDigit(rest[0]))
    ensures Atoi(s + rest, 0, 0) == (NatOf(s), |s|)
  {
    AtoiReads(s, rest, 0);
    assert s[..0] == [];
    hide Atoi, Digit;
  }

  /** No flag that adds to the digits anything but leading zeros. */
  predicate PlainFlags(fl: Flags) {
    !fl.left && !fl.hash && !fl.plus && !fl.space && !fl.precision
  }

  /** How many digits a number has. */
  function DigitCount(value: nat): (n: nat)
    ensures n > 0
  {
    if value < 10 then 1 else 1 + DigitCount(value / 10)
  }

  lemma {:induction false} CountFits(value: nat, room: nat)
    requires DigitCount(value) <= room
    ensures FitsIn(value, room)
    ensures forall upper :: |Digits(value, 10, upper, room)| == DigitCount(value)
    decreases room
  {
    if value >= 10 {
      CountFits(value / 10, room - 1);
    }
  }

  /** Every 32-bit number has at most ten digits. */
  lemma TenDigits(value: nat)
    requires value < UINT_LIMIT
    ensures DigitCount(value) <= 10
  {
    Below(value, 10);
  }

  function Pow10(n: nat): nat {
    if n == 0 then 1 else 10 * Pow10(n - 1)
  }

  lemma TwentyDigits()
    ensures 2 * HALF64 < Pow10(20)
  {
    assert Pow10(4) == 10000;
    assert Pow10(8) == 10000 * Pow10(4);
    assert Pow10(12) == 10000 * Pow10(8);
    assert Pow10(16) == 10000 * Pow10(12);
    assert Pow10(20) == 10000 * Pow10(16);
  }

  lemma {:induction false} Below(value: nat, n: nat)
    requires n > 0 && value < Pow10(n)
    ensures DigitCount(value) <= n
    decreases n
  {
    if value >= 10 {
      assert n > 1;
      Below(value / 10, n - 1);
    }
  }

  lemma PlainText(value: nat, width: nat, fl: Flags)
    requires PlainFlags(fl) && DigitCount(value) <= BUFFER_SIZE
    ensures var rev := Digits(value, 10, fl.upper, BUFFER_SIZE);
      && |rev| == DigitCount(value)
      && Number(value, false, 10, 0, width, fl) ==
         Some(if fl.zeropad then Padding('0', |rev|, Min(width, BUFFER_SIZE)) + Reverse(rev)
              else Padding(' ', |rev|, width) + Reverse(rev))
  {
    hide Digits, Reverse;
    CountFits(value, BUFFER_SIZE);
    var rev := Digits(value, 10, fl.upper, BUFFER_SIZE);
    var zeros := Padding('0', |rev|, Min(width, BUFFER_SIZE));
    assert rev + Padding('0', |rev|, 0) == rev;
    if fl.zeropad {
      ReverseZeros(rev, |zeros|);
      assert [] + Reverse(rev + zeros) + [] == Reverse(rev + zeros);
    } else {
      assert Padding(' ', |rev|, width) + Reverse(rev) + [] == Padding(' ', |rev|, width) + Reverse(rev);
    }
  }

  lemma ReverseZeros(rev: string, n: nat)
    ensures Reverse(rev + Repeat('0', n)) == Repeat('0', n) + Reverse(rev)
  {
  }

  /** Printing an unsigned 32-bit number in decimal, with leading zeros up to a width that fits the
      conversion buffer, and reading it back gives the number and consumes the whole text; the text has
      as many characters as the number has digits, or as the width asks for. */
  lemma RoundTrip(value: nat, width: nat, fl: Flags, rest: string)
    requires value < UINT_LIMIT && PlainFlags(fl) && (rest != [] ==> !IsDigit(rest[0]))
    requires if fl.zeropad then width <= BUFFER_SIZE else width <= DigitCount(value)
    ensures var text := Number(value, false, 10, 0, width, fl);
      && text.Some?
      && |text.value| == (if DigitCount(value) < width then width else DigitCount(value))
      && Atoi(text.value + rest, 0, 0) == (value, |text.value|)
  {
    hide Number, Digits, Atoi, NatOf, Digit, Reverse, IsDigit, DigitCount;
    TenDigits(value);
    PlainText(value, width, fl);
    CountFits(value, BUFFER_SIZE);
    DigitsAre(value, fl.upper, BUFFER_SIZE);
    var digits := Reverse(Digits(value, 10, fl.upper, BUFFER_SIZE));
    var n := if DigitCount(value) < width then width - DigitCount(value) else 0;
    var text := Number(value, false, 10, 0, width, fl).value;
    assert text == Repeat('0', n) + digits;
    ZerosFirst(n, digits);
    AtoiWhole(text, rest);
  }

  // -------------------------------------------------------------------- the sign

  /** The length wraps around exactly for a zero printed with precision zero, no width, no prefix and a
      sign flag. */
  lemma UnderflowExact(value: nat, negative: bool, base: nat, precision: nat, width: nat, fl: Flags)
    requires 2 <= base <= 16
    ensures Number(value, negative, base, precision, width, fl).None?
       <==> Signs(negative, fl) && fl.precision && value == 0 && width == 0 && (fl.left || precision == 0) && !fl.hash
  {
    var plain := Plain(value, base, fl);
    var padded := Padded(plain, precision, width, fl);
    assert plain == [] <==> fl.precision && value == 0;
    assert fl.left ==> padded == plain;
    assert !fl.left ==> |padded| >= Min(precision, BUFFER_SIZE);
    hide Digits, WithSign, Spread;
  }

  /** The parts of a printed number: spaces, a sign, zeros, digits, spaces. */
  function Laid(a: nat, sign: string, z: nat, digits: string, b: nat): string {
    Repeat(' ', a) + (sign + (Repeat('0', z) + digits)) + Repeat(' ', b)
  }

  /** The text shows the sign, if there is one, and all the digits, with zeros in between that make them
      at least `least`, and nothing but spaces around. */
  ghost predicate Shows(text: string, sign: string, digits: string, least: nat) {
    exists a: nat, z: nat, b: nat :: z + |digits| >= least && text == Laid(a, sign, z, digits, b)
  }

  function SignText(negative: bool, fl: Flags): string {
    if Signs(negative, fl) then [SignChar(negative, fl)] else []
  }

  /** How many digits a number is printed with before zeros are added: none for a zero with a precision. */
  function PlainCount(value: nat, fl: Flags): nat {
    if fl.precision && value == 0 then 0 else DigitCount(value)
  }

  /** How many digits and zeros there are before room is made for a sign. */
  function Filled(n: nat, precision: nat, width: nat, fl: Flags): nat {
    if fl.left then n
    else
      var m := Max(n, Min(precision, BUFFER_SIZE));
      if fl.zeropad then Max(m, Min(width, BUFFER_SIZE)) else m
  }

  function Max(a: nat, b: nat): nat {
    if a < b then b else a
  }

  /** How many of them a sign leaves. */
  function Left(p: nat, width: nat, negative: bool, fl: Flags): int {
    if Signs(negative, fl) && p == width then p - 1 else p
  }

  /** A sign is put in front unless the digits and zeros fill the conversion buffer; a space may then still
      be there as padding. */
  predicate SignShown(p: nat, width: nat, negative: bool, fl: Flags) {
    || !Signs(negative, fl) || p < BUFFER_SIZE || width == BUFFER_SIZE
    || (SignChar(negative, fl) == ' ' && width > p && !fl.zeropad)
  }

  /** The sign as it is put in front. */
  function Put(p: nat, width: nat, negative: bool, fl: Flags): string
  {
    if Left(p, width, negative, fl) < BUFFER_SIZE then SignText(negative, fl) else []
  }

  function Zeros(n: nat, p: nat, width: nat, negative: bool, fl: Flags): nat {
    var left := Left(p, width, negative, fl);
    if n <= left then left - n else 0
  }

  /** The digits that are left: at full width without zeros the first one makes way. */
  function Kept(digits: string, p: nat, width: nat, negative: bool, fl: Flags): string {
    if |digits| <= Left(p, width, negative, fl) || digits == [] then digits else digits[1..]
  }

  function Before(p: nat, width: nat, negative: bool, fl: Flags): nat {
    var len := Left(p, width, negative, fl) + |Put(p, width, negative, fl)|;
    if !fl.left && !fl.zeropad && len < width then width - len else 0
  }

  function After(p: nat, width: nat, negative: bool, fl: Flags): nat {
    var len := Left(p, width, negative, fl) + |Put(p, width, negative, fl)|;
    if fl.left && len < width then width - len else 0
  }

  /** The text of a decimal number. */
  function Printed(digits: string, n: nat, p: nat, width: nat, negative: bool, fl: Flags): string
    requires 0 <= Left(p, width, negative, fl)
  {
    Laid(Before(p, width, negative, fl), Put(p, width, negative, fl), Zeros(n, p, width, negative, fl),
         Kept(digits, p, width, negative, fl), After(p, width, negative, fl))
  }

  lemma PlainLength(value: nat, fl: Flags)
    requires value < 2 * HALF64
    ensures |Plain(value, 10, fl)| == PlainCount(value, fl) <= 20 && AllDigits(Reverse(Plain(value, 10, fl)))
  {
    hide Digits, DigitCount, Reverse, Pow10, IsDigit;
    TwentyDigits();
    Below(value, 20);
    CountFits(value, BUFFER_SIZE);
    DigitsAre(value, fl.upper, BUFFER_SIZE);
    assert Reverse([]) == [];
  }

  lemma FilledFits(n: nat, precision: nat, width: nat, fl: Flags)
    requires n <= BUFFER_SIZE
    ensures n <= Filled(n, precision, width, fl) <= BUFFER_SIZE
    ensures n < BUFFER_SIZE && Filled(n, precision, width, fl) == BUFFER_SIZE ==> !fl.left
  {
  }

  lemma PaddedIs(rev: string, precision: nat, width: nat, fl: Flags)
    requires |rev| <= BUFFER_SIZE
    ensures var p := Filled(|rev|, precision, width, fl);
      p >= |rev| && Padded(rev, precision, width, fl) == rev + Repeat('0', p - |rev|)
  {
  }

  lemma ReverseJoin(s: string, t: string)
    ensures Reverse(s + t) == Reverse(t) + Reverse(s)
  {
  }

  lemma ReverseRepeat(c: char, n: nat)
    ensures Reverse(Repeat(c, n)) == Repeat(c, n)
  {
  }

  lemma ReverseShort(c: char)
    ensures Reverse([]) == [] && Reverse([c]) == [c]
  {
  }

  /** What is left of digits and zeros, turned around. */
  lemma RevParts(rev: string, p: nat, width: nat, negative: bool, fl: Flags)
    requires |rev| <= p && 0 <= Left(p, width, negative, fl)
    ensures var left, all := Left(p, width, negative, fl), rev + Repeat('0', p - |rev|);
      Reverse(all[..left]) == Repeat('0', Zeros(|rev|, p, width, negative, fl))
        + Kept(Reverse(rev), p, width, negative, fl)
  {
    hide Repeat;
    var left, all := Left(p, width, negative, fl), rev + Repeat('0', p - |rev|);
    if |rev| <= left {
      assert all[..left] == rev + Repeat('0', left - |rev|);
      ReverseJoin(rev, Repeat('0', left - |rev|));
      ReverseRepeat('0', left - |rev|);
    } else {
      assert all[..left] == rev[..|rev| - 1];
      assert Reverse(rev[..|rev| - 1]) == Reverse(rev)[1..];
      assert Repeat('0', 0) + Reverse(rev)[1..] == Reverse(rev)[1..];
    }
  }

  lemma WithSignIs(rev: string, width: nat, negative: bool, fl: Flags)
    requires |rev| <= BUFFER_SIZE && 0 <= Left(|rev|, width, negative, fl)
    ensures SignFits(rev, width, negative, fl)
    ensures WithSign(rev, width, negative, fl) == rev[..Left(|rev|, width, negative, fl)]
      + Put(|rev|, width, negative, fl)
  {
  }

  /** What the number printer does to the digits, in closed form: for every base, flag, precision and width, the
      prefix of `#` aside. */
  lemma NumberShape(value: nat, negative: bool, base: nat, precision: nat, width: nat, fl: Flags)
    requires 2 <= base <= 16 && !fl.hash
    ensures var digits, text := Plain(value, base, fl), Number(value, negative, base, precision, width, fl);
      var p := Filled(|digits|, precision, width, fl);
      && (Left(p, width, negative, fl) < 0 ==> text.None?)
      && (0 <= Left(p, width, negative, fl) ==>
            text == Some(Printed(Reverse(digits), |digits|, p, width, negative, fl)))
  {
    hide Plain, Reverse, Repeat, Put, Padded, Filled, WithSign;
    var rev := Plain(value, base, fl);
    PaddedIs(rev, precision, width, fl);
    FilledFits(|rev|, precision, width, fl);
    var p, all := Filled(|rev|, precision, width, fl), Padded(rev, precision, width, fl);
    assert Prefixed(value, base, precision, width, fl) == all;
    if 0 <= Left(p, width, negative, fl) {
      WithSignIs(all, width, negative, fl);
      RevParts(rev, p, width, negative, fl);
      var body, put := all[..Left(p, width, negative, fl)], Put(p, width, negative, fl);
      ReverseJoin(body, put);
      PutReversed(p, width, negative, fl);
      SpreadIs(body + put, width, fl);
    }
  }

  lemma PutReversed(p: nat, width: nat, negative: bool, fl: Flags)
    ensures Reverse(Put(p, width, negative, fl)) == Put(p, width, negative, fl)
  {
    ReverseShort(SignChar(negative, fl));
  }

  lemma SpreadIs(rev: string, width: nat, fl: Flags)
    ensures var pad := if |rev| < width then width - |rev| else 0;
      Spread(rev, width, fl) ==
        Repeat(' ', if !fl.left && !fl.zeropad then pad else 0) + Reverse(rev) + Repeat(' ', if fl.left then pad else 0)
  {
    assert Repeat(' ', 0) == [];
    hide Repeat;
  }

  /** How many characters are not spaces. */
  function Marks(s: string): nat {
    if s == [] then 0 else (if s[0] == ' ' then 0 else 1) + Marks(s[1..])
  }

  lemma {:induction false} MarksJoin(s: string, t: string)
    ensures Marks(s + t) == Marks(s) + Marks(t)
    decreases |s|
  {
    if s == [] {
      assert s + t == t;
    } else {
      assert (s + t)[1..] == s[1..] + t;
      MarksJoin(s[1..], t);
    }
  }

  lemma {:induction false} MarksAll(s: string, space: bool)
    requires forall i :: 0 <= i < |s| ==> (s[i] == ' ' <==> space)
    ensures Marks(s) == if space then 0 else |s|
    decreases |s|
  {
    if s != [] { MarksAll(s[1..], space); }
  }

  lemma LaidMarks(a: nat, sign: string, z: nat, digits: string, b: nat)
    requires |sign| <= 1 && AllDigits(digits)
    ensures Marks(Laid(a, sign, z, digits, b)) == (if sign == [] || sign == [' '] then 0 else 1) + z + |digits|
  {
    hide Marks, Repeat;
    MarksAll(Repeat(' ', a), true);
    MarksAll(Repeat(' ', b), true);
    MarksAll(Repeat('0', z), false);
    MarksAll(digits, false);
    MarksAll(sign, sign == [' ']);
    MarksJoin(Repeat('0', z), digits);
    MarksJoin(sign, Repeat('0', z) + digits);
    MarksJoin(Repeat(' ', a), sign + (Repeat('0', z) + digits));
    MarksJoin(Repeat(' ', a) + (sign + (Repeat('0', z) + digits)), Repeat(' ', b));
  }

  /** Padding in front can pass for a sign that is a space. */
  lemma SpaceShown(a: nat, z: nat, digits: string, b: nat)
    requires a > 0
    ensures Laid(a, [], z, digits, b) == Laid(a - 1, [' '], z, digits, b)
  {
    assert Repeat(' ', a) == Repeat(' ', a - 1) + [' '];
  }

  /** Only a space can pass for a sign that is not put in front. */
  lemma SignSeen(a: nat, z: nat, digits: string, b: nat, a1: nat, sign: char, z1: nat, digits1: string, b1: nat)
    requires AllDigits(digits) && !IsDigit(sign)
    requires Laid(a, [], z, digits, b) == Laid(a1, [sign], z1, digits1, b1)
    ensures sign == ' ' && a + b > 0
  {
    LaidAt(a, z, digits, b, a1);
    assert Laid(a1, [sign], z1, digits1, b1)[a1] == sign;
  }

  lemma LaidAt(a: nat, z: nat, digits: string, b: nat, i: nat)
    requires AllDigits(digits) && i < |Laid(a, [], z, digits, b)|
    ensures var c := Laid(a, [], z, digits, b)[i]; IsDigit(c) || (c == ' ' && a + b > 0)
  {
    var text := Laid(a, [], z, digits, b);
    assert a + z <= i < a + z + |digits| ==> text[i] == digits[i - a - z];
  }

  /** A decimal number of at most 64 bits is printed with its sign, all its digits and at least `least`
      digits in all exactly when the conversion buffer leaves room for the sign and the digit or zero that
      makes way for a sign at full width can be spared: for every flag, precision and width. */
  lemma SignedExact(value: nat, negative: bool, precision: nat, width: nat, fl: Flags, least: nat)
    requires value < 2 * HALF64 && !fl.hash
    ensures var text, n := Number(value, negative, 10, precision, width, fl), PlainCount(value, fl);
      var p := Filled(n, precision, width, fl);
      (text.Some? && Shows(text.value, SignText(negative, fl), Reverse(Plain(value, 10, fl)), least))
      <==> SignShown(p, width, negative, fl) && Max(n, least) <= Left(p, width, negative, fl)
  {
    hide Number, Plain, Reverse, PlainCount, Laid, Filled, DigitCount;
    PlainLength(value, fl);
    FilledFits(PlainCount(value, fl), precision, width, fl);
    var text, n := Number(value, negative, 10, precision, width, fl), PlainCount(value, fl);
    var p, digits, sign := Filled(n, precision, width, fl), Reverse(Plain(value, 10, fl)), SignText(negative, fl);
    NumberShape(value, negative, 10, precision, width, fl);
    if 0 <= Left(p, width, negative, fl) {
      var put, z, kept := Put(p, width, negative, fl), Zeros(n, p, width, negative, fl),
        Kept(digits, p, width, negative, fl);
      var a, b := Before(p, width, negative, fl), After(p, width, negative, fl);
      if SignShown(p, width, negative, fl) && Max(n, least) <= Left(p, width, negative, fl) {
        if put != sign { SpaceShown(a, z, digits, b); }
        assert kept == digits && z + n >= least;
        assert text.value == Laid(if put != sign then a - 1 else a, sign, z, digits, b);
      } else if Shows(text.value, sign, digits, least) {
        var a1: nat, z1: nat, b1: nat :| z1 + n >= least && text.value == Laid(a1, sign, z1, digits, b1);
        LaidMarks(a, put, z, kept, b);
        LaidMarks(a1, sign, z1, digits, b1);
        if put != sign { SignSeen(a, z, kept, b, a1, sign[0], z1, digits, b1); }
      }
    }
  }

  /** A format that is one decimal conversion prints what Number says. */
  lemma OneConversion(p: Platform, format: string, bits: nat, sp: Spec)
    requires 1 <= |format| && format[0] == '%'
    requires Scan(p, format, 1, [Word32(bits)], 0) == Some(Scanned(sp, |format|, 0))
    requires sp.conversion == 'd' && bits < UINT_LIMIT && !sp.flags.l && !sp.flags.ll && !sp.flags.h && !sp.flags.hh
    ensures var v := Signed(bits, HALF32);
      Render(p, format, 0, [Word32(bits)], 0)
        == Number(Abs(v), v < 0, 10, sp.precision, sp.width, sp.flags.(hash := false))
  {
    hide Number, Scan;
    var args, v := [Word32(bits)], Signed(bits, HALF32);
    var text := Number(Abs(v), v < 0, 10, sp.precision, sp.width, sp.flags.(hash := false));
    assert Convert(p, sp, args, 0) == if text.Some? then Some((text.value, 1)) else None;
    assert Render(p, format, |format|, args, 1) == Some([]);
    if text.Some? { assert text.value + [] == text.value; }
  }

  const MINUS_FIVE: nat := 0xFFFF_FFFB

  /** Five is one digit. */
  lemma FiveIs(fl: Flags)
    ensures Plain(5, 10, fl) == "5" && PlainCount(5, fl) == 1 && Reverse("5") == "5"
  {
    ReverseShort('5');
  }

  lemma LaidParts(sign: string, digits: string)
    ensures Laid(0, sign, 0, digits, 0) == sign + digits
    ensures forall z: nat :: Laid(0, [], z, digits, 0) == Repeat('0', z) + digits
    ensures Laid(0, sign, 1, digits, 0) == sign + "0" + digits
  {
    assert Repeat(' ', 0) == [] && Repeat('0', 0) == [];
    assert Repeat('0', 1) == "0";
  }

  /** What is printed of five, for some widths and precisions. */
  lemma FiveShapes(fl: Flags)
    requires !fl.hash
    ensures !fl.zeropad ==> Number(5, true, 10, 0, 1, fl) == Some("-")
    ensures !fl.zeropad && !fl.left ==> Number(5, true, 10, 32, 0, fl) == Some(Repeat('0', 31) + "5")
    ensures fl.zeropad && !fl.left ==> Number(5, true, 10, 0, 33, fl) == Some(Repeat('0', 31) + "5")
    ensures fl.plus && !fl.zeropad && !fl.left ==> Number(5, false, 10, 3, 3, fl) == Some("+05")
  {
    hide Number, Plain, PlainCount, Reverse, Laid, Repeat;
    FiveIs(fl);
    NumberShape(5, true, 10, 0, 1, fl);
    NumberShape(5, true, 10, 32, 0, fl);
    NumberShape(5, true, 10, 0, 33, fl);
    NumberShape(5, false, 10, 3, 3, fl);
    LaidParts("-", []);
    assert "5"[1..] == [] && "-" + [] == "-";
    assert "+" + "0" + "5" == "+05";
    LaidParts([], "5");
    LaidParts("+", "5");
  }

  /** Minus five, in a width of one: the digit makes way for the sign, on either side of the padding. */
  lemma DigitLost(p: Platform)
    ensures Render(p, "%1d", 0, [Word32(MINUS_FIVE)], 0) == Some("-")
    ensures Render(p, "%-1d", 0, [Word32(MINUS_FIVE)], 0) == Some("-")
  {
    var right, left := NO_FLAGS, NO_FLAGS.(left := true);
    assert Scan(p, "%1d", 1, [Word32(MINUS_FIVE)], 0) == Some(Scanned(Spec(right, 1, 0, 'd'), 3, 0));
    assert Scan(p, "%-1d", 1, [Word32(MINUS_FIVE)], 0) == Some(Scanned(Spec(left, 1, 0, 'd'), 4, 0));
    hide Render, Scan, Number;
    OneConversion(p, "%1d", MINUS_FIVE, Spec(right, 1, 0, 'd'));
    OneConversion(p, "%-1d", MINUS_FIVE, Spec(left, 1, 0, 'd'));
    FiveShapes(right);
    FiveShapes(left);
  }

  /** Minus five with zeros up to the length of the conversion buffer: no sign. */
  lemma SignLost(p: Platform)
    ensures Render(p, "%.32d", 0, [Word32(MINUS_FIVE)], 0) == Some(Repeat('0', 31) + "5")
    ensures Render(p, "%033d", 0, [Word32(MINUS_FIVE)], 0) == Some(Repeat('0', 31) + "5")
  {
    var precise, padded := NO_FLAGS.(precision := true), NO_FLAGS.(zeropad := true);
    assert Scan(p, "%.32d", 1, [Word32(MINUS_FIVE)], 0) == Some(Scanned(Spec(precise, 0, 32, 'd'), 5, 0));
    assert Scan(p, "%033d", 1, [Word32(MINUS_FIVE)], 0) == Some(Scanned(Spec(padded, 33, 0, 'd'), 5, 0));
    hide Render, Scan, Number;
    OneConversion(p, "%.32d", MINUS_FIVE, Spec(precise, 0, 32, 'd'));
    OneConversion(p, "%033d", MINUS_FIVE, Spec(padded, 33, 0, 'd'));
    FiveShapes(precise);
    FiveShapes(padded);
  }

  /** Five in a width and a precision of three, with a sign: two digits. */
  lemma ZeroLost(p: Platform)
    ensures Render(p, "%+3.3d", 0, [Word32(5)], 0) == Some("+05")
  {
    var fl := NO_FLAGS.(plus := true, precision := true);
    assert Scan(p, "%+3.3d", 1, [Word32(5)], 0) == Some(Scanned(Spec(fl, 3, 3, 'd'), 6, 0));
    hide Render, Scan, Number;
    OneConversion(p, "%+3.3d", 5, Spec(fl, 3, 3, 'd'));
    FiveShapes(fl);
  }
}
