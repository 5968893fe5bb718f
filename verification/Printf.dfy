/** What printf.cpp prints: the text of a format and its arguments, floating point aside. */
module PrintfSpec {

  const BUFFER_SIZE: nat := 32
  const UINT_LIMIT: nat := 0x1_0000_0000

  datatype Option<T> = None | Some(value: T)

  /** What the code leaves to the platform: the sign of `char`, and whether `long` and pointers have 64
      bits. */
  datatype Platform = Platform(charSigned: bool, wideLong: bool)

  datatype Flags = Flags(zeropad: bool, left: bool, plus: bool, space: bool, hash: bool, upper: bool,
                         hh: bool, h: bool, l: bool, ll: bool, precision: bool)

  const NO_FLAGS := Flags(false, false, false, false, false, false, false, false, false, false, false)

  /** An argument as it is passed: a word of 32 or 64 bits, or a string. */
  datatype Arg = Word32(bits: nat) | Word64(wide: nat) | Text(s: string)

  datatype Spec = Spec(flags: Flags, width: nat, precision: nat, conversion: char)

  // ------------------------------------------------------------------- scanning

  /** The character at `pos`; a format ends with a NUL. */
  function At(format: string, pos: nat): char {
    if pos < |format| then format[pos] else '\0'
  }

  predicate IsDigit(c: char) {
    '0' <= c <= '9'
  }

  function Digit(c: char): nat
    requires IsDigit(c)
  {
    c as int - '0' as int
  }

  /** _atoi: the value of the digits at `pos`, modulo the width of an unsigned int, and where they end. */
  function Atoi(s: string, pos: nat, i: nat): (r: (nat, nat))
    ensures pos <= |s| ==> pos <= r.1 <= |s|
    decreases |s| - pos
  {
    if IsDigit(At(s, pos)) then Atoi(s, pos + 1, (i * 10 + Digit(At(s, pos))) % UINT_LIMIT) else (i, pos)
  }

  predicate IsFlag(c: char) {
    c == '0' || c == '-' || c == '+' || c == ' ' || c == '#'
  }

  function WithFlag(fl: Flags, c: char): Flags {
    if c == '0' then fl.(zeropad := true)
    else if c == '-' then fl.(left := true)
    else if c == '+' then fl.(plus := true)
    else if c == ' ' then fl.(space := true)
    else if c == '#' then fl.(hash := true)
    else fl
  }

  function ScanFlags(format: string, pos: nat, fl: Flags): (r: (Flags, nat))
    ensures pos <= |format| ==> pos <= r.1 <= |format|
    decreases |format| - pos
  {
    if IsFlag(At(format, pos)) then ScanFlags(format, pos + 1, WithFlag(fl, format[pos])) else (fl, pos)
  }

  /** A two's complement number of `2 * half` values. */
  function Signed(bits: nat, half: nat): int {
    if bits < half then bits else bits - 2 * half
  }

  const HALF32: nat := 0x8000_0000
  const HALF64: nat := 0x8000_0000_0000_0000

  predicate IsWord(args: seq<Arg>, arg: nat, wide: bool) {
    arg < |args| && if wide then args[arg].Word64? && args[arg].wide < 2 * HALF64
                    else args[arg].Word32? && args[arg].bits < 2 * HALF32
  }

  predicate IsText(args: seq<Arg>, arg: nat) {
    arg < |args| && args[arg].Text? && '\0' !in args[arg].s
  }

  function Bits(a: Arg): nat
    requires !a.Text?
  {
    if a.Word32? then a.bits else a.wide
  }

  /** A field so far: flags, its value, and how far the format and the arguments have been read. */
  datatype Field = Field(flags: Flags, value: nat, pos: nat, arg: nat)

  /** A `*` takes its value from the arguments. */
  predicate StarFits(format: string, pos: nat, args: seq<Arg>, arg: nat) {
    At(format, pos) == '*' ==> IsWord(args, arg, false)
  }

  function ScanWidth(format: string, pos: nat, fl: Flags, args: seq<Arg>, arg: nat): (f: Field)
    requires StarFits(format, pos, args, arg)
    ensures pos <= |format| ==> pos <= f.pos <= |format|
  {
    if IsDigit(At(format, pos)) then
      var (i, p) := Atoi(format, pos, 0);
      Field(fl, i, p, arg)
    else if At(format, pos) == '*' then
      var w := Signed(args[arg].bits, HALF32);
      if w < 0 then Field(fl.(left := true), -w, pos + 1, arg + 1) else Field(fl, w, pos + 1, arg + 1)
    else Field(fl, 0, pos, arg)
  }

  function ScanPrecision(format: string, pos: nat, fl: Flags, args: seq<Arg>, arg: nat): (f: Field)
    requires At(format, pos) == '.' ==> StarFits(format, pos + 1, args, arg)
    ensures pos <= |format| ==> pos <= f.pos <= |format|
  {
    if At(format, pos) != '.' then Field(fl, 0, pos, arg)
    else
      var fl1 := fl.(precision := true);
      if IsDigit(At(format, pos + 1)) then
        var (i, p) := Atoi(format, pos + 1, 0);
        Field(fl1, i, p, arg)
      else if At(format, pos + 1) == '*' then Field(fl1, args[arg].bits, pos + 2, arg + 1)
      else Field(fl1, 0, pos + 1, arg)
  }

  function LengthEnd(format: string, pos: nat): (end: nat)
    ensures pos <= |format| ==> pos <= end <= |format|
  {
    var c := At(format, pos);
    if (c == 'l' || c == 'h') && At(format, pos + 1) == c then pos + 2
    else if c in "lhtzj" then pos + 1
    else pos
  }

  function WithLength(p: Platform, fl: Flags, c: char, twice: bool): Flags {
    if c == 'l' then fl.(l := true, ll := fl.ll || twice)
    else if c == 'h' then fl.(h := true, hh := fl.hh || twice)
    else if c == 't' || c == 'z' then fl.(l := true)
    else if c == 'j' then if p.wideLong then fl.(l := true) else fl.(ll := true)
    else fl
  }

  function ScanLength(p: Platform, format: string, pos: nat, fl: Flags): (r: (Flags, nat))
    ensures pos <= |format| ==> pos <= r.1 <= |format|
  {
    (WithLength(p, fl, At(format, pos), At(format, pos + 1) == At(format, pos)), LengthEnd(format, pos))
  }

  /** A conversion specification, and how far it reaches. */
  datatype Scanned = Scanned(spec: Spec, pos: nat, arg: nat)

  /** The specification after the `%` at `pos - 1`; none if a `*` lacks its argument or the format
      ends before the conversion. */
  function Scan(p: Platform, format: string, pos: nat, args: seq<Arg>, arg: nat): (r: Option<Scanned>)
    ensures r.Some? && pos <= |format| ==> pos < r.value.pos <= |format|
  {
    var (fl, p1) := ScanFlags(format, pos, NO_FLAGS);
    if !StarFits(format, p1, args, arg) then None
    else
      var w := ScanWidth(format, p1, fl, args, arg);
      if At(format, w.pos) == '.' && !StarFits(format, w.pos + 1, args, w.arg) then None
      else
        var q := ScanPrecision(format, w.pos, w.flags, args, w.arg);
        var (fl1, p2) := ScanLength(p, format, q.pos, q.flags);
        if p2 >= |format| then None
        else Some(Scanned(Spec(fl1, w.value, q.value, format[p2]), p2 + 1, q.arg))
  }

  // -------------------------------------------------------------------- numbers

  function Repeat(c: char, n: nat): (s: string)
    ensures |s| == n
    ensures forall i :: 0 <= i < n ==> s[i] == c
  {
    seq(n, _ => c)
  }

  /** As many `c` as bring a text of length `len` to `width`. */
  function Padding(c: char, len: nat, width: nat): (s: string)
    ensures |s| == if len < width then width - len else 0
  {
    Repeat(c, if len < width then width - len else 0)
  }

  function Min(a: nat, b: nat): nat {
    if a < b then a else b
  }

  function DigitChar(d: nat, upper: bool): char
    requires d < 16
  {
    if d < 10 then ('0' as int + d) as char
    else ((if upper then 'A' else 'a') as int + d - 10) as char
  }

  /** The digits of a number, least significant first, as far as there is room. */
  function Digits(value: nat, base: nat, upper: bool, room: nat): (s: string)
    requires 2 <= base <= 16 && room > 0
    ensures 1 <= |s| <= room
    decreases room
  {
    [DigitChar(value % base, upper)]
    + if value / base > 0 && room > 1 then Digits(value / base, base, upper, room - 1) else []
  }

  function Reverse(s: string): (r: string)
    ensures |r| == |s|
    ensures forall i :: 0 <= i < |s| ==> r[i] == s[|s| - 1 - i]
  {
    seq(|s|, i requires 0 <= i < |s| => s[|s| - 1 - i])
  }

  /** The digits with leading zeros, still reversed. */
  function Padded(rev: string, precision: nat, width: nat, fl: Flags): (r: string)
    ensures |rev| <= |r|
    ensures |rev| <= BUFFER_SIZE ==> |r| <= BUFFER_SIZE
  {
    if fl.left then rev
    else
      var r := rev + Padding('0', |rev|, Min(precision, BUFFER_SIZE));
      if fl.zeropad then r + Padding('0', |r|, Min(width, BUFFER_SIZE)) else r
  }

  /** The prefix of octal and hexadecimal numbers, which takes the place of zeros at full length. */
  function Hashed(rev: string, base: nat, precision: nat, width: nat, fl: Flags): (r: string)
    requires |rev| <= BUFFER_SIZE
    ensures |r| <= BUFFER_SIZE
  {
    if !fl.hash then rev
    else
      var full := (|rev| == precision || |rev| == width) && |rev| > 0;
      var cut := if !full then 0 else if base == 16 && |rev| > 1 then 2 else 1;
      var r := rev[..|rev| - cut];
      var r1 := if base == 16 && |r| < BUFFER_SIZE then r + [if fl.upper then 'X' else 'x'] else r;
      if |r1| < BUFFER_SIZE then r1 + ['0'] else r1
  }

  predicate Signs(negative: bool, fl: Flags) {
    negative || fl.plus || fl.space
  }

  function SignChar(negative: bool, fl: Flags): char {
    if negative then '-' else if fl.plus then '+' else ' '
  }

  /** Making room for a sign in no room at all: the length would wrap around. */
  predicate SignFits(rev: string, width: nat, negative: bool, fl: Flags) {
    |rev| == 0 && width == 0 ==> !Signs(negative, fl)
  }

  function WithSign(rev: string, width: nat, negative: bool, fl: Flags): (r: string)
    requires |rev| <= BUFFER_SIZE && SignFits(rev, width, negative, fl)
    ensures |r| <= BUFFER_SIZE
  {
    if !Signs(negative, fl) then rev
    else
      var r := if |rev| == width then rev[..|rev| - 1] else rev;
      if |r| < BUFFER_SIZE then r + [SignChar(negative, fl)] else r
  }

  function Spread(rev: string, width: nat, fl: Flags): string {
    (if !fl.left && !fl.zeropad then Padding(' ', |rev|, width) else [])
    + Reverse(rev)
    + (if fl.left then Padding(' ', |rev|, width) else [])
  }

  /** The digits as the number printer starts with: none for a zero with a precision. */
  function Plain(value: nat, base: nat, fl: Flags): (s: string)
    requires 2 <= base <= 16
    ensures |s| <= BUFFER_SIZE
  {
    if fl.precision && value == 0 then [] else Digits(value, base, fl.upper, BUFFER_SIZE)
  }

  function Prefixed(value: nat, base: nat, precision: nat, width: nat, fl: Flags): (s: string)
    requires 2 <= base <= 16
    ensures |s| <= BUFFER_SIZE
  {
    Hashed(Padded(Plain(value, base, fl), precision, width, fl), base, precision, width, fl)
  }

  /** _ntoa_long and _ntoa_long_long; none where the length wraps around. */
  function Number(value: nat, negative: bool, base: nat, precision: nat, width: nat, fl: Flags): Option<string>
    requires 2 <= base <= 16
  {
    var rev := Prefixed(value, base, precision, width, fl);
    if SignFits(rev, width, negative, fl) then Some(Spread(WithSign(rev, width, negative, fl), width, fl)) else None
  }

  // ---------------------------------------------------------------- conversions

  predicate IsInteger(c: char) {
    c == 'd' || c == 'i' || c == 'u' || c == 'x' || c == 'X' || c == 'o' || c == 'b'
  }

  predicate IsSigned(c: char) {
    c == 'd' || c == 'i'
  }

  function BaseOf(c: char): (b: nat)
    ensures 2 <= b <= 16
  {
    if c == 'x' || c == 'X' then 16 else if c == 'o' then 8 else if c == 'b' then 2 else 10
  }

  /** The flags that apply to a conversion: the prefix is for octal and hexadecimal, the sign for
      signed decimal. */
  function Effective(fl: Flags, c: char): Flags {
    var f1 := if BaseOf(c) == 16 || BaseOf(c) == 8 then fl else fl.(hash := false);
    var f2 := if c == 'X' then f1.(upper := true) else f1;
    if IsSigned(c) then f2 else f2.(plus := false, space := false)
  }

  /** Whether the argument of an integer conversion is passed in 64 bits. */
  predicate IsWide(p: Platform, fl: Flags) {
    fl.ll || (fl.l && p.wideLong)
  }

  /** The number an integer conversion prints. */
  function Value(p: Platform, fl: Flags, signed: bool, bits: nat): int {
    if IsWide(p, fl) then if signed then Signed(bits, HALF64) else bits
    else if fl.l then if signed then Signed(bits, HALF32) else bits
    else if fl.hh then if signed && p.charSigned then Signed(bits % 0x100, 0x80) else bits % 0x100
    else if fl.h then if signed then Signed(bits % 0x1_0000, 0x8000) else bits % 0x1_0000
    else if signed then Signed(bits, HALF32) else bits
  }

  function Abs(v: int): nat {
    if v > 0 then v else 0 - v
  }

  function Cut(s: string, fl: Flags, precision: nat): string {
    if fl.precision && precision < |s| then s[..precision] else s
  }

  function Aligned(s: string, fl: Flags, width: nat): string {
    if fl.left then s + Padding(' ', |s|, width) else Padding(' ', |s|, width) + s
  }

  /** The text of one conversion; none if it is a floating-point one or its argument does not match. */
  function Convert(p: Platform, sp: Spec, args: seq<Arg>, arg: nat): Option<(string, nat)> {
    var fl, c := sp.flags, sp.conversion;
    if IsInteger(c) then
      if !IsWord(args, arg, IsWide(p, fl)) then None
      else
        var v := Value(p, fl, IsSigned(c), Bits(args[arg]));
        match Number(Abs(v), v < 0, BaseOf(c), sp.precision, sp.width, Effective(fl, c))
        case None => None
        case Some(s) => Some((s, arg + 1))
    else if c == 'f' || c == 'F' then None
    else if c == 'c' then
      if !IsWord(args, arg, false) then None
      else Some((Aligned([(args[arg].bits % 0x100) as char], fl, sp.width), arg + 1))
    else if c == 's' then
      if !IsText(args, arg) then None
      else Some((Aligned(Cut(args[arg].s, fl, sp.precision), fl, sp.width), arg + 1))
    else if c == 'p' then
      if !IsWord(args, arg, p.wideLong) then None
      else
        match Number(Bits(args[arg]), false, 16, sp.precision, if p.wideLong then 16 else 8,
                     fl.(zeropad := true, upper := true))
        case None => None
        case Some(s) => Some((s, arg + 1))
    else Some(([c], arg))
  }

  /** The text of a format from `pos` on. */
  function Render(p: Platform, format: string, pos: nat, args: seq<Arg>, arg: nat): Option<string>
    requires pos <= |format|
    decreases |format| - pos
  {
    if pos == |format| then Some([])
    else if format[pos] != '%' then
      match Render(p, format, pos + 1, args, arg)
      case None => None
      case Some(rest) => Some([format[pos]] + rest)
    else
      match Scan(p, format, pos + 1, args, arg)
      case None => None
      case Some(sc) =>
        match Convert(p, sc.spec, args, sc.arg)
        case None => None
        case Some((s, next)) =>
          match Render(p, format, sc.pos, args, next)
          case None => None
          case Some(rest) => Some(s + rest)
  }
}
