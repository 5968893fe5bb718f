/** The formats of printf.cpp as they are written, and that they are read as they are written. */
module PrintfGrammar {
  import opened PrintfSpec
  import opened PrintfFacts

  datatype Length = NoLength | Hh | H | L | Ll | T | Z | J

  function LengthText(n: Length): string {
    match n
    case NoLength => ""
    case Hh => "hh"
    case H => "h"
    case L => "l"
    case Ll => "ll"
    case T => "t"
    case Z => "z"
    case J => "j"
  }

  /** A conversion specification: flags, then a width, a precision and a length, each of which may be missing, then the
      conversion. Width and precision are digits, or a star for an argument. */
  datatype Directive = Directive(marks: string, width: string, precision: Option<string>, length: Length,
                                 conversion: char)

  predicate IsMark(c: char) {
    c == '0' || c == '-' || c == '+' || c == ' ' || c == '#'
  }

  predicate IsCount(s: string) {
    s == "*" || (AllDigits(s) && NatOf(s) < UINT_LIMIT)
  }

  /** Any other character ends a specification, be it a conversion or not. */
  predicate Ends(c: char) {
    !IsMark(c) && !IsDigit(c) && c != '.' && c != '*' && c !in "lhtzj"
  }

  predicate WellFormed(d: Directive) {
    && (forall i :: 0 <= i < |d.marks| ==> IsMark(d.marks[i]))
    && IsCount(d.width) && (d.width != "" ==> d.width[0] != '0')
    && (d.precision.Some? ==> IsCount(d.precision.value))
    && Ends(d.conversion)
  }

  function PrecisionText(o: Option<string>): string {
    if o.Some? then "." + o.value else ""
  }

  /** The directive as it is written, from the part after its `%`. */
  function Tail(d: Directive): string {
    d.marks + (d.width + (PrecisionText(d.precision) + (LengthText(d.length) + [d.conversion])))
  }

  function Written(d: Directive): string {
    "%" + Tail(d)
  }

  /** The text `t` stands in `f` at `pos`. */
  predicate StandsAt(f: string, pos: nat, t: string) {
    pos + |t| <= |f| && f[pos..pos + |t|] == t
  }

  lemma StandsParts(f: string, pos: nat, s: string, t: string)
    requires StandsAt(f, pos, s + t)
    ensures StandsAt(f, pos, s) && StandsAt(f, pos + |s|, t)
    ensures s != "" ==> At(f, pos) == s[0]
    ensures t != "" ==> At(f, pos + |s|) == t[0]
  {
    var st := s + t;
    assert st[..|s|] == s && st[|s|..] == t;
    assert f[pos..pos + |s|] == f[pos..pos + |st|][..|s|];
    assert f[pos + |s|..pos + |s| + |t|] == f[pos..pos + |st|][|s|..];
    assert s != "" ==> f[pos] == f[pos..pos + |s|][0];
    assert t != "" ==> f[pos + |s|] == f[pos + |s|..pos + |s| + |t|][0];
  }

  // ---------------------------------------------------------------------- flags

  predicate Has(marks: string, c: char) {
    c in marks
  }

  /** `w` is `v` with the flags of the marks raised. */
  predicate Marked(v: Flags, w: Flags, marks: string) {
    && (w.zeropad <==> v.zeropad || Has(marks, '0')) && (w.left <==> v.left || Has(marks, '-'))
    && (w.plus <==> v.plus || Has(marks, '+')) && (w.space <==> v.space || Has(marks, ' '))
    && (w.hash <==> v.hash || Has(marks, '#'))
    && w.upper == v.upper && w.hh == v.hh && w.h == v.h && w.l == v.l && w.ll == v.ll && w.precision == v.precision
  }

  lemma MarkedOne(v: Flags, w: Flags, c: char, more: string)
    requires IsMark(c) && Marked(WithFlag(v, c), w, more)
    ensures Marked(v, w, [c] + more)
  {
    hide Has;
    HasOne(c, more, '0');
    HasOne(c, more, '-');
    HasOne(c, more, '+');
    HasOne(c, more, ' ');
    HasOne(c, more, '#');
  }

  lemma HasOne(c: char, more: string, m: char)
    ensures Has([c] + more, m) <==> c == m || Has(more, m)
  {
  }

  lemma {:induction false} FlagsRead(f: string, pos: nat, fl: Flags, marks: string, rest: string)
    requires StandsAt(f, pos, marks + rest) && forall i :: 0 <= i < |marks| ==> IsMark(marks[i])
    requires rest != "" && !IsMark(rest[0])
    ensures Marked(fl, ScanFlags(f, pos, fl).0, marks) && ScanFlags(f, pos, fl).1 == pos + |marks|
    decreases |marks|
  {
    hide Marked, WithFlag;
    StandsParts(f, pos, marks, rest);
    if marks != "" {
      var c, more := marks[0], marks[1..];
      assert marks == [c] + more && marks + rest == [c] + (more + rest);
      StandsParts(f, pos, [c], more + rest);
      FlagsRead(f, pos + 1, WithFlag(fl, c), more, rest);
      MarkedOne(fl, ScanFlags(f, pos, fl).0, c, more);
    } else {
      MarkedNone(fl);
    }
  }

  lemma MarkedNone(fl: Flags)
    ensures Marked(fl, fl, "")
  {
  }

  // ----------------------------------------------------------------- the others

  lemma {:induction false} DigitsRead(f: string, pos: nat, s: string, rest: string, k: nat)
    requires StandsAt(f, pos, s + rest) && AllDigits(s) && NatOf(s) < UINT_LIMIT && k <= |s|
    requires rest != "" && !IsDigit(rest[0])
    ensures Atoi(f, pos + k, NatOf(s[..k])) == (NatOf(s), pos + |s|)
    decreases |s| - k
  {
    StandsParts(f, pos, s, rest);
    if k < |s| {
      hide NatOf, Digit, Atoi;
      PrefixBelow(s, k + 1);
      DigitRead(f, pos, s, k);
      DigitsRead(f, pos, s, rest, k + 1);
    } else {
      hide NatOf, Digit;
      assert s[..k] == s;
    }
  }

  lemma DigitRead(f: string, pos: nat, s: string, k: nat)
    requires StandsAt(f, pos, s) && AllDigits(s) && k < |s| && NatOf(s[..k + 1]) < UINT_LIMIT
    ensures Atoi(f, pos + k, NatOf(s[..k])) == Atoi(f, pos + (k + 1), NatOf(s[..k + 1]))
  {
    assert s[..k + 1][..k] == s[..k];
    var i := NatOf(s[..k]) * 10 + Digit(s[k]);
    assert NatOf(s[..k + 1]) == i;
    assert i % UINT_LIMIT == i;
    assert f[pos + k] == f[pos..pos + |s|][k];
    hide NatOf, Digit;
  }

  lemma CountRead(f: string, pos: nat, s: string, rest: string)
    requires StandsAt(f, pos, s + rest) && AllDigits(s) && s != "" && NatOf(s) < UINT_LIMIT
    requires rest != "" && !IsDigit(rest[0])
    ensures IsDigit(At(f, pos)) && Atoi(f, pos, 0) == (NatOf(s), pos + |s|)
  {
    StandsParts(f, pos, s, rest);
    DigitsRead(f, pos, s, rest, 0);
    assert s[..0] == [];
    hide Atoi, Digit;
  }

  /** How many arguments a count takes. */
  function Stars(s: string): nat {
    if s == "*" then 1 else 0
  }

  function CountOf(s: string): nat {
    if s == "*" then 0 else if AllDigits(s) then NatOf(s) else 0
  }

  lemma WidthRead(f: string, pos: nat, fl: Flags, w: string, rest: string, args: seq<Arg>, arg: nat)
    requires StandsAt(f, pos, w + rest) && IsCount(w) && rest != "" && !IsDigit(rest[0]) && rest[0] != '*'
    requires w == "*" ==> IsWord(args, arg, false)
    ensures StarFits(f, pos, args, arg)
    ensures w != "*" ==> ScanWidth(f, pos, fl, args, arg) == Field(fl, CountOf(w), pos + |w|, arg)
    ensures w == "*" ==>
      var n := Signed(args[arg].bits, HALF32);
      ScanWidth(f, pos, fl, args, arg)
        == if n < 0 then Field(fl.(left := true), -n, pos + 1, arg + 1) else Field(fl, n, pos + 1, arg + 1)
  {
    hide Atoi, NatOf;
    StandsParts(f, pos, w, rest);
    if w == "" { NatOfNone(); }
    else if w != "*" { CountRead(f, pos, w, rest); }
  }

  lemma NatOfNone()
    ensures AllDigits("") && NatOf("") == 0
  {
  }

  lemma PrecisionRead(f: string, pos: nat, fl: Flags, o: Option<string>, rest: string, args: seq<Arg>, arg: nat)
    requires StandsAt(f, pos, PrecisionText(o) + rest) && (o.Some? ==> IsCount(o.value))
    requires rest != "" && !IsDigit(rest[0]) && rest[0] != '*' && rest[0] != '.'
    requires o == Some("*") ==> IsWord(args, arg, false)
    ensures At(f, pos) == '.' <==> o.Some?
    ensures At(f, pos) == '.' ==> StarFits(f, pos + 1, args, arg)
    ensures ScanPrecision(f, pos, fl, args, arg) ==
      if o.None? then Field(fl, 0, pos, arg)
      else if o.value == "*" then Field(fl.(precision := true), args[arg].bits, pos + 2, arg + 1)
      else Field(fl.(precision := true), CountOf(o.value), pos + 1 + |o.value|, arg)
  {
    hide Atoi, NatOf;
    StandsParts(f, pos, PrecisionText(o), rest);
    if o.Some? {
      assert PrecisionText(o) + rest == "." + (o.value + rest);
      StandsParts(f, pos, ".", o.value + rest);
      StandsParts(f, pos + 1, o.value, rest);
      if o.value == "" { NatOfNone(); }
      else if o.value != "*" { CountRead(f, pos + 1, o.value, rest); }
    }
  }

  /** The flags a length stands for. */
  function Lengthened(p: Platform, fl: Flags, n: Length): Flags {
    match n
    case NoLength => fl
    case Hh => fl.(h := true, hh := true)
    case H => fl.(h := true)
    case L => fl.(l := true)
    case Ll => fl.(l := true, ll := true)
    case T => fl.(l := true)
    case Z => fl.(l := true)
    case J => if p.wideLong then fl.(l := true) else fl.(ll := true)
  }

  lemma LengthRead(p: Platform, f: string, pos: nat, fl: Flags, n: Length, c: char)
    requires StandsAt(f, pos, LengthText(n) + [c]) && c !in "lhtzj" && !fl.ll && !fl.hh
    ensures ScanLength(p, f, pos, fl) == (Lengthened(p, fl, n), pos + |LengthText(n)|)
  {
    StandsParts(f, pos, LengthText(n), [c]);
    if n.Hh? {
      assert LengthText(n) + [c] == "h" + ("h" + [c]);
      StandsParts(f, pos, "h", "h" + [c]);
    } else if n.Ll? {
      assert LengthText(n) + [c] == "l" + ("l" + [c]);
      StandsParts(f, pos, "l", "l" + [c]);
    }
  }

  // ------------------------------------------------------------------- the whole

  predicate StarsFit(d: Directive, args: seq<Arg>, arg: nat) {
    && (d.width == "*" ==> IsWord(args, arg, false))
    && (d.precision == Some("*") ==> IsWord(args, arg + Stars(d.width), false))
  }

  /** The width of a star is its argument, and a negative one asks for padding on the right. */
  function WidthArg(d: Directive, args: seq<Arg>, arg: nat): int
    requires StarsFit(d, args, arg)
  {
    if d.width == "*" then Signed(args[arg].bits, HALF32) else CountOf(d.width)
  }

  function PrecisionArg(d: Directive, args: seq<Arg>, arg: nat): nat
    requires StarsFit(d, args, arg)
  {
    if d.precision == Some("*") then args[arg + Stars(d.width)].bits
    else if d.precision.Some? then CountOf(d.precision.value) else 0
  }

  function ArgAfterStars(d: Directive, arg: nat): nat {
    arg + Stars(d.width) + (if d.precision.Some? then Stars(d.precision.value) else 0)
  }

  /** The specification says what the directive says. */
  predicate Says(p: Platform, d: Directive, args: seq<Arg>, arg: nat, sp: Spec)
    requires StarsFit(d, args, arg)
  {
    var w, fl, n := WidthArg(d, args, arg), sp.flags, d.length;
    && SaysFlags(d, w, fl) && SaysLength(p, n, fl)
    && sp.width == (if w < 0 then -w else w) && sp.precision == PrecisionArg(d, args, arg)
    && sp.conversion == d.conversion
  }

  lemma HeadOf(d: Directive)
    requires WellFormed(d)
    ensures var after := LengthText(d.length) + [d.conversion];
      var behind := PrecisionText(d.precision) + after;
      && after[0] != '.' && after[0] != '*' && !IsDigit(after[0]) && !IsMark(after[0])
      && behind != "" && behind[0] != '*' && !IsDigit(behind[0]) && !IsMark(behind[0])
      && (d.width + behind)[0] == (if d.width != "" then d.width[0] else behind[0])
      && !IsMark((d.width + behind)[0])
  {
    if d.width != "" && d.width != "*" { assert IsDigit(d.width[0]); }
  }

  lemma WellParts(d: Directive)
    requires WellFormed(d)
    ensures forall i :: 0 <= i < |d.marks| ==> IsMark(d.marks[i])
    ensures IsCount(d.width) && (d.precision.Some? ==> IsCount(d.precision.value)) && d.conversion !in "lhtzj"
  {
  }

  function WidthFlags(fl: Flags, w: int): Flags {
    if w < 0 then fl.(left := true) else fl
  }

  function PrecisionFlags(fl: Flags, o: Option<string>): Flags {
    if o.Some? then fl.(precision := true) else fl
  }

  /** Flags and width are read ... */
  lemma WidthScanned(f: string, pos: nat, d: Directive, behind: string, args: seq<Arg>, arg: nat)
    requires WellFormed(d) && StarsFit(d, args, arg) && StandsAt(f, pos, d.marks + (d.width + behind))
    requires behind != "" && behind[0] != '*' && !IsDigit(behind[0]) && !IsMark((d.width + behind)[0])
    ensures var (fl, p1) := ScanFlags(f, pos, NO_FLAGS);
      && Marked(NO_FLAGS, fl, d.marks) && StarFits(f, p1, args, arg)
      && var w, n := ScanWidth(f, p1, fl, args, arg), WidthArg(d, args, arg);
         w == Field(WidthFlags(fl, n), if n < 0 then -n else n, pos + |d.marks| + |d.width|, arg + Stars(d.width))
    ensures StandsAt(f, pos + |d.marks| + |d.width|, behind)
  {
    hide ScanFlags, ScanWidth, Marked, CountOf, StandsAt, IsCount, IsMark, IsDigit;
    WellParts(d);
    StandsParts(f, pos, d.marks, d.width + behind);
    FlagsRead(f, pos, NO_FLAGS, d.marks, d.width + behind);
    var p1, fl := pos + |d.marks|, ScanFlags(f, pos, NO_FLAGS).0;
    WidthRead(f, p1, fl, d.width, behind, args, arg);
    StandsParts(f, p1, d.width, behind);
  }

  /** ... then precision, length and conversion. */
  lemma RestScanned(p: Platform, f: string, pos: nat, fl: Flags, d: Directive, args: seq<Arg>, arg: nat)
    requires WellFormed(d) && StarsFit(d, args, arg) && !fl.l && !fl.ll && !fl.h && !fl.hh
    requires StandsAt(f, pos, PrecisionText(d.precision) + (LengthText(d.length) + [d.conversion]))
    ensures At(f, pos) == '.' ==> StarFits(f, pos + 1, args, arg + Stars(d.width))
    ensures var q := ScanPrecision(f, pos, fl, args, arg + Stars(d.width));
      && q == Field(PrecisionFlags(fl, d.precision), PrecisionArg(d, args, arg), pos + |PrecisionText(d.precision)|,
                    ArgAfterStars(d, arg))
      && var (fl1, p2) := ScanLength(p, f, q.pos, q.flags);
         && fl1 == Lengthened(p, q.flags, d.length) && p2 == q.pos + |LengthText(d.length)|
         && p2 < |f| && f[p2] == d.conversion
  {
    hide ScanPrecision, ScanLength, Lengthened, LengthText, CountOf, StandsAt, IsCount, IsMark, IsDigit;
    var after := LengthText(d.length) + [d.conversion];
    HeadOf(d);
    WellParts(d);
    StandsParts(f, pos, PrecisionText(d.precision), after);
    PrecisionRead(f, pos, fl, d.precision, after, args, arg + Stars(d.width));
    var q := ScanPrecision(f, pos, fl, args, arg + Stars(d.width));
    LengthRead(p, f, q.pos, q.flags, d.length, d.conversion);
    StandsParts(f, q.pos, LengthText(d.length), [d.conversion]);
    Within(f, q.pos + |LengthText(d.length)|, [d.conversion]);
  }

  lemma Within(f: string, pos: nat, t: string)
    requires StandsAt(f, pos, t) && t != ""
    ensures pos < |f| && f[pos] == t[0]
  {
  }

  /** A directive is read as it is written, wherever it stands. */
  lemma ReadAsWritten(p: Platform, f: string, pos: nat, d: Directive, args: seq<Arg>, arg: nat)
    requires WellFormed(d) && StandsAt(f, pos, Tail(d)) && StarsFit(d, args, arg)
    ensures var s := Scan(p, f, pos, args, arg);
      && s.Some? && Says(p, d, args, arg, s.value.spec)
      && s.value.pos == pos + |Tail(d)| && s.value.arg == ArgAfterStars(d, arg)
  {
    hide ScanFlags, ScanWidth, ScanPrecision, ScanLength, Marked, Lengthened, LengthText, StandsAt, Says,
      IsDigit, IsMark, WellFormed, PrecisionText, WidthArg, PrecisionArg, StarsFit;
    var behind := PrecisionText(d.precision) + (LengthText(d.length) + [d.conversion]);
    HeadOf(d);
    WidthScanned(f, pos, d, behind, args, arg);
    var (fl, p1) := ScanFlags(f, pos, NO_FLAGS);
    PlainLengths(fl, d.marks);
    RestScanned(p, f, pos + |d.marks| + |d.width|, WidthFlags(fl, WidthArg(d, args, arg)), d, args, arg);
    SaysSo(p, d, args, arg, fl);
  }

  lemma PlainLengths(fl: Flags, marks: string)
    requires Marked(NO_FLAGS, fl, marks)
    ensures !fl.l && !fl.ll && !fl.h && !fl.hh
  {
  }

  /** The flags but for the length. */
  predicate SaysFlags(d: Directive, w: int, fl: Flags) {
    && (fl.zeropad <==> Has(d.marks, '0')) && (fl.left <==> Has(d.marks, '-') || w < 0)
    && (fl.plus <==> Has(d.marks, '+'))
    && (fl.space <==> Has(d.marks, ' ')) && (fl.hash <==> Has(d.marks, '#')) && !fl.upper
    && (fl.precision <==> d.precision.Some?)
  }

  predicate SaysLength(p: Platform, n: Length, fl: Flags) {
    && (fl.hh <==> n.Hh?) && (fl.h <==> n.H? || n.Hh?)
    && (fl.l <==> n.L? || n.Ll? || n.T? || n.Z? || (n.J? && p.wideLong)) && (fl.ll <==> n.Ll? || (n.J? && !p.wideLong))
  }

  lemma LengthSaid(p: Platform, fl: Flags, n: Length, d: Directive, w: int)
    requires !fl.l && !fl.ll && !fl.h && !fl.hh
    ensures SaysLength(p, n, Lengthened(p, fl, n)) && (SaysFlags(d, w, fl) ==> SaysFlags(d, w, Lengthened(p, fl, n)))
  {
    hide Has;
  }

  lemma FlagsSaid(d: Directive, fl: Flags, w: int)
    requires Marked(NO_FLAGS, fl, d.marks)
    ensures var fl1 := if w < 0 then fl.(left := true) else fl;
      var fl2 := if d.precision.Some? then fl1.(precision := true) else fl1;
      SaysFlags(d, w, fl2) && !fl2.l && !fl2.ll && !fl2.h && !fl2.hh
  {
    hide Has;
  }

  lemma SaysSo(p: Platform, d: Directive, args: seq<Arg>, arg: nat, fl: Flags)
    requires StarsFit(d, args, arg) && Marked(NO_FLAGS, fl, d.marks)
    ensures var w := WidthArg(d, args, arg);
      var fl2 := PrecisionFlags(WidthFlags(fl, w), d.precision);
      Says(p, d, args, arg, Spec(Lengthened(p, fl2, d.length), if w < 0 then -w else w, PrecisionArg(d, args, arg),
                              d.conversion))
  {
    hide Has, Lengthened, SaysFlags, SaysLength, Marked, WidthArg, PrecisionArg;
    var w := WidthArg(d, args, arg);
    var fl2 := PrecisionFlags(WidthFlags(fl, w), d.precision);
    FlagsSaid(d, fl, w);
    LengthSaid(p, fl2, d.length, d, w);
  }
}
