/** The prefix of `#` for octal and hexadecimal numbers, and exactly when it costs digits. */
module PrintfHash {
  import opened PrintfSpec
  import opened PrintfFacts
  import opened PrintfGrammar
  import opened PrintfLaws

  function PrefixOf(base: nat, upper: bool): string {
    if base != 16 then "0" else if upper then "0X" else "0x"
  }

  /** How many digits or zeros make way for the prefix: when there are as many as the precision or the width. */
  function MakeWay(q: nat, base: nat, precision: nat, width: nat): (cut: nat)
    ensures cut <= q
  {
    if (q == precision || q == width) && q > 0 then if base == 16 && q > 1 then 2 else 1 else 0
  }

  /** As much of the prefix as the conversion buffer has room for behind `k` characters. */
  function PrefixPut(k: nat, base: nat, upper: bool): string {
    if k >= BUFFER_SIZE then ""
    else if base != 16 then "0"
    else if k + 1 < BUFFER_SIZE then PrefixOf(base, upper) else PrefixOf(base, upper)[1..]
  }

  /** The last `k` of the digits, or all. */
  function LastOf(digits: string, k: nat): string {
    if |digits| <= k then digits else digits[|digits| - k..]
  }

  lemma RevKept(rev: string, q: nat, k: nat)
    requires |rev| <= q && k <= q
    ensures Reverse((rev + Repeat('0', q - |rev|))[..k])
      == Repeat('0', if |rev| <= k then k - |rev| else 0) + LastOf(Reverse(rev), k)
  {
    hide Repeat;
    var all := rev + Repeat('0', q - |rev|);
    if |rev| <= k {
      assert all[..k] == rev + Repeat('0', q - |rev|)[..k - |rev|];
      ZerosCut(q - |rev|, k - |rev|);
      ReverseJoin(rev, Repeat('0', k - |rev|));
      ReverseRepeat('0', k - |rev|);
    } else {
      assert all[..k] == rev[..k];
      assert Reverse(rev[..k]) == Reverse(rev)[|rev| - k..];
      NoZeros(Reverse(rev)[|rev| - k..]);
    }
  }

  lemma ZerosCut(n: nat, k: nat)
    requires k <= n
    ensures Repeat('0', n)[..k] == Repeat('0', k)
  {
  }

  lemma NoZeros(s: string)
    ensures Repeat('0', 0) + s == s
  {
  }

  lemma HashedIs(rev: string, base: nat, precision: nat, width: nat, fl: Flags)
    requires |rev| <= BUFFER_SIZE && fl.hash
    ensures var k := |rev| - MakeWay(|rev|, base, precision, width);
      Hashed(rev, base, precision, width, fl) == rev[..k] + Reverse(PrefixPut(k, base, fl.upper))
  {
    ReverseShort('0');
    ReverseShort('x');
    ReverseShort('X');
    ReverseJoin("0", "x");
    ReverseJoin("0", "X");
    assert "0" + "x" == "0x" && "0" + "X" == "0X" && "0x"[1..] == "x" && "0X"[1..] == "X";
    assert "x" + "0" == "x0" && "X" + "0" == "X0";
  }

  /** What is printed with the prefix, in closed form. */
  lemma HashShape(value: nat, base: nat, precision: nat, width: nat, fl: Flags)
    requires (base == 8 || base == 16) && fl.hash && !Signs(false, fl)
    ensures var digits := Reverse(Plain(value, base, fl));
      var q := Filled(|digits|, precision, width, fl);
      var k := q - MakeWay(q, base, precision, width);
      var put := PrefixPut(k, base, fl.upper);
      var pad := if k + |put| < width then width - (k + |put|) else 0;
      Number(value, false, base, precision, width, fl)
        == Some(Laid(if !fl.left && !fl.zeropad then pad else 0, put, if |digits| <= k then k - |digits| else 0,
                     LastOf(digits, k), if fl.left then pad else 0))
  {
    hide Plain, Reverse, Repeat, Padded, Filled, MakeWay, PrefixPut, LastOf, Hashed;
    var rev := Plain(value, base, fl);
    PaddedIs(rev, precision, width, fl);
    FilledFits(|rev|, precision, width, fl);
    var q, all := Filled(|rev|, precision, width, fl), Padded(rev, precision, width, fl);
    HashedIs(all, base, precision, width, fl);
    var k := q - MakeWay(q, base, precision, width);
    var put := PrefixPut(k, base, fl.upper);
    RevKept(rev, q, k);
    ReverseJoin(all[..k], Reverse(put));
    ReverseTwice(put);
    PutLength(k, base, fl.upper);
    SpreadIs(all[..k] + Reverse(put), width, fl);
  }

  lemma ReverseTwice(s: string)
    ensures Reverse(Reverse(s)) == s
  {
  }

  lemma PutLength(k: nat, base: nat, upper: bool)
    ensures |PrefixPut(k, base, upper)| <= 2
  {
  }

  predicate NoSpaces(s: string) {
    forall i :: 0 <= i < |s| ==> s[i] != ' '
  }

  lemma LaidCount(a: nat, pre: string, z: nat, digits: string, b: nat)
    requires NoSpaces(pre) && NoSpaces(digits)
    ensures Marks(Laid(a, pre, z, digits, b)) == |pre| + z + |digits|
  {
    hide Marks, Repeat;
    MarksAll(Repeat(' ', a), true);
    MarksAll(Repeat(' ', b), true);
    MarksAll(Repeat('0', z), false);
    MarksAll(digits, false);
    MarksAll(pre, false);
    MarksJoin(Repeat('0', z), digits);
    MarksJoin(pre, Repeat('0', z) + digits);
    MarksJoin(Repeat(' ', a), pre + (Repeat('0', z) + digits));
    MarksJoin(Repeat(' ', a) + (pre + (Repeat('0', z) + digits)), Repeat(' ', b));
  }

  /** A zero can stand for the octal prefix. */
  lemma ZeroForPrefix(a: nat, z: nat, digits: string, b: nat)
    requires z > 0
    ensures Laid(a, "", z, digits, b) == Laid(a, "0", z - 1, digits, b)
  {
    assert Repeat('0', z) == "0" + Repeat('0', z - 1);
    assert "" + (Repeat('0', z) + digits) == "0" + (Repeat('0', z - 1) + digits);
  }

  /** Digits of a number: no spaces, and no letter of a prefix. */
  lemma DigitsClean(value: nat, base: nat, fl: Flags)
    requires (base == 8 || base == 16) && value < 2 * HALF64
    ensures var digits := Reverse(Plain(value, base, fl));
      NoSpaces(digits) && (forall i :: 0 <= i < |digits| ==> digits[i] != 'x' && digits[i] != 'X') && |digits| <= 22
  {
    hide Plain, Reverse;
    PlainWrites(value, base, fl);
    PlainShort(value, base, fl);
  }

  lemma PlainShort(value: nat, base: nat, fl: Flags)
    requires (base == 8 || base == 16) && value < 2 * HALF64
    ensures |Plain(value, base, fl)| <= 22
  {
    hide Power, Digits;
    PowerBig(base);
    DigitsShort(value, base, fl.upper, BUFFER_SIZE, 22);
  }

  lemma PowerBig(base: nat)
    requires base == 8 || base == 16
    ensures Power(base, 22) >= 2 * HALF64
  {
    hide Power;
    FourthPower(base);
    Squared(base, 4);
    Squared(base, 8);
    PowerDoubles(base, 16, 6);
    PowerDoubles(base, 4, 2);
    SecondPower(base);
    if base == 8 {
      assert 4096 * 4096 == 16777216 && 16777216 * 16777216 == 281474976710656 && 4096 * 64 == 262144;
      assert 281474976710656 * 262144 == 73786976294838206464;
    } else {
      assert 65536 * 65536 == 4294967296 && 4294967296 * 4294967296 == 18446744073709551616 && 65536 * 256 == 16777216;
    }
  }

  lemma SecondPower(b: nat)
    ensures Power(b, 2) == b * b
  {
    assert Power(b, 1) == b * 1;
  }

  /** Text that shows a hexadecimal prefix has its two characters in front of everything but spaces. */
  lemma HexSeen(a: nat, put: string, z: nat, digits: string, b: nat, a1: nat, pre: string,
                z1: nat, digits1: string, b1: nat)
    requires pre == "0x" || pre == "0X"
    requires NoSpaces(put) && NoSpaces(digits) && put + (Repeat('0', z) + digits) != ""
    requires Laid(a, put, z, digits, b) == Laid(a1, pre, z1, digits1, b1)
    ensures |put + (Repeat('0', z) + digits)| >= 2
    ensures (put + (Repeat('0', z) + digits))[0] == pre[0] && (put + (Repeat('0', z) + digits))[1] == pre[1]
  {
    var body, t := put + (Repeat('0', z) + digits), Laid(a, put, z, digits, b);
    assert t[a1] == '0' && t[a1 + 1] == pre[1];
    assert forall i :: 0 <= i < a ==> t[i] == ' ';
    assert forall i :: 0 <= i < a1 ==> t[i] == ' ';
    assert forall i :: 0 <= i < |body| ==> t[a + i] == body[i] && body[i] != ' ';
    assert forall i :: a + |body| <= i < |t| ==> t[i] == ' ';
    assert t[a] != ' ';
    assert a == a1;
  }

  lemma KeptLength(digits: string, k: nat)
    ensures (if |digits| <= k then k - |digits| else 0) + |LastOf(digits, k)| == k
    ensures NoSpaces(digits) ==> NoSpaces(LastOf(digits, k))
    ensures (forall i :: 0 <= i < |digits| ==> digits[i] != 'x' && digits[i] != 'X') ==>
      forall i :: 0 <= i < |LastOf(digits, k)| ==> LastOf(digits, k)[i] != 'x' && LastOf(digits, k)[i] != 'X'
  {
  }

  lemma PutIs(k: nat, base: nat, upper: bool)
    requires base == 8 || base == 16
    ensures var put, pre := PrefixPut(k, base, upper), PrefixOf(base, upper);
      && NoSpaces(put) && NoSpaces(pre) && |put| <= |pre|
      && (k + |pre| <= BUFFER_SIZE ==> put == pre)
      && (base == 16 && k + 1 == BUFFER_SIZE ==> put == [pre[1]])
      && (k >= BUFFER_SIZE ==> put == "")
      && pre == if base == 8 then "0" else if upper then "0X" else "0x"
  {
    assert "0x"[1..] == "x" && "0X"[1..] == "X";
  }

  /** Zeros and digits hold no letter of a prefix. */
  lemma NoLetter(z: nat, digits: string, i: nat)
    requires (forall j :: 0 <= j < |digits| ==> digits[j] != 'x' && digits[j] != 'X') && i < z + |digits|
    ensures (Repeat('0', z) + digits)[i] != 'x' && (Repeat('0', z) + digits)[i] != 'X'
  {
  }

  lemma HexMissing(put: string, z: nat, kept: string, pre: string)
    requires pre == "0x" || pre == "0X"
    requires put == "" || put == [pre[1]]
    requires forall j :: 0 <= j < |kept| ==> kept[j] != 'x' && kept[j] != 'X'
    ensures var body := put + (Repeat('0', z) + kept); !(|body| >= 2 && body[0] == pre[0] && body[1] == pre[1])
  {
    var rest := Repeat('0', z) + kept;
    var body := put + rest;
    if put == "" {
      if |body| >= 2 {
        NoLetter(z, kept, 1);
        assert body[1] == rest[1];
      }
    } else {
      assert body[0] == put[0];
    }
  }

  /** An octal or hexadecimal number with `#` shows its prefix and all its digits exactly when none of the digits has to
      make way for the prefix, and the conversion buffer has room for 0x. */
  lemma HashExact(value: nat, base: nat, precision: nat, width: nat, fl: Flags)
    requires (base == 8 || base == 16) && value < 2 * HALF64 && fl.hash && !Signs(false, fl)
    ensures var digits, t := Reverse(Plain(value, base, fl)), Number(value, false, base, precision, width, fl);
      var q := Filled(|digits|, precision, width, fl);
      var k := q - MakeWay(q, base, precision, width);
      && t.Some?
      && (Shows(t.value, PrefixOf(base, fl.upper), digits, 0)
          <==> |digits| <= k && (base == 16 ==> k + 2 <= BUFFER_SIZE))
  {
    hide Number, Plain, Reverse, Laid, Filled, MakeWay, PrefixPut, PrefixOf, LastOf, NoSpaces, Repeat;
    var digits, t := Reverse(Plain(value, base, fl)), Number(value, false, base, precision, width, fl);
    var q := Filled(|digits|, precision, width, fl);
    var k := q - MakeWay(q, base, precision, width);
    var put, pre := PrefixPut(k, base, fl.upper), PrefixOf(base, fl.upper);
    var kept, z := LastOf(digits, k), if |digits| <= k then k - |digits| else 0;
    var pad := if k + |put| < width then width - (k + |put|) else 0;
    var a, b := if !fl.left && !fl.zeropad then pad else 0, if fl.left then pad else 0;
    HashShape(value, base, precision, width, fl);
    DigitsClean(value, base, fl);
    FilledFits(|digits|, precision, width, fl);
    KeptLength(digits, k);
    PutIs(k, base, fl.upper);
    PutLength(k, base, fl.upper);
    PrefixLength(base, fl.upper);
    LaidCount(a, put, z, kept, b);
    if |digits| <= k && (base == 16 ==> k + 2 <= BUFFER_SIZE) {
      WholeDigits(digits, k);
      if put != pre { ZeroForPrefix(a, z, digits, b); }
      assert t.value == Laid(a, pre, if put != pre then z - 1 else z, digits, b);
    } else if Shows(t.value, pre, digits, 0) {
      var a1: nat, z1: nat, b1: nat :| z1 + |digits| >= 0 && t.value == Laid(a1, pre, z1, digits, b1);
      LaidCount(a1, pre, z1, digits, b1);
      if base == 16 && k + 2 > BUFFER_SIZE {
        HexSeen(a, put, z, kept, b, a1, pre, z1, digits, b1);
        HexMissing(put, z, kept, pre);
      }
    }
  }

  lemma PrefixLength(base: nat, upper: bool)
    ensures |PrefixOf(base, upper)| == if base == 16 then 2 else 1
  {
  }

  lemma WholeDigits(digits: string, k: nat)
    requires |digits| <= k
    ensures LastOf(digits, k) == digits
  {
  }

  /** The text of an octal or hexadecimal number with the prefix. */
  function HashText(digits: string, base: nat, precision: nat, width: nat, look: Flags, upper: bool): string {
    var q := Filled(|digits|, precision, width, look);
    var k := if MakeWay(q, base, precision, width) <= q then q - MakeWay(q, base, precision, width) else 0;
    var put := PrefixPut(k, base, upper);
    var pad := if k + |put| < width then width - (k + |put|) else 0;
    Laid(if !look.left && !look.zeropad then pad else 0, put, if |digits| <= k then k - |digits| else 0,
         LastOf(digits, k), if look.left then pad else 0)
  }

  lemma HashLooks(digits: string, base: nat, precision: nat, width: nat, a: Flags, b: Flags, upper: bool)
    requires SameLook(a, b)
    ensures HashText(digits, base, precision, width, a, upper) == HashText(digits, base, precision, width, b, upper)
  {
    hide Laid, PrefixPut, LastOf, MakeWay;
  }

  lemma HashEffective(p: Platform, d: Directive, args: seq<Arg>, arg: nat, sp: Spec)
    requires StarsFit(d, args, arg) && Says(p, d, args, arg, sp) && Has(d.marks, '#')
    requires d.conversion == 'x' || d.conversion == 'X' || d.conversion == 'o'
    ensures var e := Effective(sp.flags, sp.conversion); e.hash && !Signs(false, e)
  {
    hide Has, WidthArg, PrecisionArg;
  }

  /** An octal or hexadecimal integer with `#` in a format. */
  lemma HashInFormat(p: Platform, before: string, d: Directive, after: string, args: seq<Arg>, look: Flags)
    returns (digits: string)
    requires WellFormed(d) && StarsFit(d, args, 0) && Has(d.marks, '#')
    requires d.conversion == 'x' || d.conversion == 'X' || d.conversion == 'o'
    requires !Has(before, '%') && !Has(after, '%') && IntegerArg(p, d, args, ArgAfterStars(d, 0))
    requires Looks(d, WidthArg(d, args, 0) < 0, look)
    ensures var v := IntegerAt(p, d, args, ArgAfterStars(d, 0));
      if d.precision.Some? && v == 0 then digits == ""
      else Writes(digits, Magnitude(v), if d.conversion == 'o' then 8 else 16, d.conversion == 'X')
    ensures Render(p, before + (Written(d) + after), 0, args, 0)
      == Some(before + (HashText(digits, if d.conversion == 'o' then 8 else 16, PrecisionArg(d, args, 0),
                                 Magnitude(WidthArg(d, args, 0)), look, d.conversion == 'X') + after))
  {
    hide Render, Number, Plain, Reverse, Written, WellFormed, Has, Writes, HashText, Looks, Value, IntegerOf, Effective;
    var sp := DirectivePrints(p, before, d, after, args);
    var a, e := ArgAfterStars(d, 0), Effective(sp.flags, sp.conversion);
    var v, base := IntegerAt(p, d, args, a), if d.conversion == 'o' then 8 else 16;
    EffectiveIs(p, d, args, 0, sp);
    HashEffective(p, d, args, 0, sp);
    SaysLengthOf(p, d, args, 0, sp);
    ValueIsInteger(p, d.length, sp.flags, false, args[a]);
    IntegerFits(p, d, args, a);
    NotNegative(p, d, args, a);
    PlainWrites(v, base, e);
    digits := Reverse(Plain(v, base, e));
    HashShape(v, base, sp.precision, sp.width, e);
    NumberIsHash(v, base, sp.precision, sp.width, e);
    LooksAlike(d, WidthArg(d, args, 0) < 0, look, e);
    HashLooks(digits, base, sp.precision, sp.width, look, e, d.conversion == 'X');
  }

  lemma NotNegative(p: Platform, d: Directive, args: seq<Arg>, a: nat)
    requires IntegerArg(p, d, args, a) && !SignedConversion(d.conversion)
    ensures IntegerAt(p, d, args, a) >= 0
  {
  }

  lemma NumberIsHash(value: nat, base: nat, precision: nat, width: nat, fl: Flags)
    requires (base == 8 || base == 16) && fl.hash && !Signs(false, fl)
    ensures Number(value, false, base, precision, width, fl)
      == Some(HashText(Reverse(Plain(value, base, fl)), base, precision, width, fl, fl.upper))
  {
    hide Number, Plain, Reverse, Laid, Filled, MakeWay, PrefixPut, LastOf;
    HashShape(value, base, precision, width, fl);
  }

  /** 0x1234 with the prefix in a width of four: two of its digits make way. */
  lemma HashLost(p: Platform)
    ensures Render(p, "%#4x", 0, [Word32(0x1234)], 0) == Some("0x34")
  {
    hide Render, Written, WellFormed, Has, HashText, Looks, Writes, IntegerOf, StarsFit, WidthArg,
      PrecisionArg, ArgAfterStars;
    var d, args := Directive("#", "4", None, NoLength, 'x'), [Word32(0x1234)];
    SharpFour(args);
    SharpArg(p, args);
    var digits := HashInFormat(p, "", d, "", args, NO_FLAGS);
    Written1234();
    WritesOnce(digits, "1234", 0x1234, 16, false);
    FourDigits();
  }

  lemma SharpFour(args: seq<Arg>)
    ensures var d := Directive("#", "4", None, NoLength, 'x');
      && WellFormed(d) && Has(d.marks, '#') && !Has("", '%') && Looks(d, false, NO_FLAGS)
      && StarsFit(d, args, 0) && WidthArg(d, args, 0) == 4 && PrecisionArg(d, args, 0) == 0 && ArgAfterStars(d, 0) == 0
      && "" + (Written(d) + "") == "%#4x"
  {
    assert "4"[..0] == "" && NatOf("4") == NatOf("") * 10 + Digit('4');
    assert "4" != "*" by { assert "4"[0] != "*"[0]; }
    assert "#" + ("4" + ("" + ("" + ['x']))) == "#4x";
    assert "%" + "#4x" == "%#4x";
  }

  lemma SharpArg(p: Platform, args: seq<Arg>)
    requires args == [Word32(0x1234)]
    ensures var d := Directive("#", "4", None, NoLength, 'x');
      IntegerArg(p, d, args, 0) && IntegerAt(p, d, args, 0) == 0x1234
  {
  }

  lemma FourDigits()
    ensures "" + (HashText("1234", 16, 0, 4, NO_FLAGS, false) + "") == "0x34"
  {
    assert "1234"[2..] == "34";
    assert Repeat(' ', 0) == [] && Repeat('0', 0) == [];
    assert [] + ("0x" + ([] + "34")) + [] == "0x34";
  }

  lemma DecimalDigit(c: char)
    requires '0' <= c <= '9'
    ensures DigitsOf([c], 16, false) && DigitValue(c) == c as int - '0' as int
  {
  }

  lemma Written1234()
    ensures Writes("1234", 0x1234, 16, false)
  {
    hide ValueIn, DigitsOf, DigitValue;
    DecimalDigit('1');
    DecimalDigit('2');
    DecimalDigit('3');
    DecimalDigit('4');
    ValueNone(16, false);
    ValueAppend("", '1', 16, false);
    ValueAppend("1", '2', 16, false);
    ValueAppend("12", '3', 16, false);
    ValueAppend("123", '4', 16, false);
    assert "" + ['1'] == "1" && "1" + ['2'] == "12" && "12" + ['3'] == "123" && "123" + ['4'] == "1234";
  }
}
