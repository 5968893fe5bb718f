/** printf.cpp, in place: every character goes through the output function with its index, and one past
    the limit is dropped. */
module PrintfCalls {
  import opened PrintfSpec

  /** A buffer that held `was` after `text` has been put out with limit `maxlen`. */
  function Filled(was: string, maxlen: nat, text: string): (r: string)
    requires maxlen <= |was|
    ensures |r| == |was|
  {
    var n := Min(|text|, maxlen);
    text[..n] + was[n..]
  }

  /** _out_buffer. No buffer at all is one of limit 0. */
  method Out(c: char, buffer: array<char>, idx: nat, maxlen: nat, ghost was: string, ghost text: string)
    requires maxlen <= buffer.Length == |was| && idx == |text| && buffer[..] == Filled(was, maxlen, text)
    modifies buffer
    ensures buffer[..] == Filled(was, maxlen, text + [c])
  {
    if idx < maxlen {
      buffer[idx] := c;
    }
    assert buffer[..] == Filled(was, maxlen, text + [c]);
  }

  /** Pad up to `width`, `len` characters being there. */
  method Pad(c: char, len: nat, width: nat, buffer: array<char>, idx: nat, maxlen: nat, ghost was: string,
             ghost text: string)
    returns (next: nat)
    requires maxlen <= buffer.Length == |was| && idx == |text| && buffer[..] == Filled(was, maxlen, text)
    modifies buffer
    ensures next == |text| + |Padding(c, len, width)|
    ensures buffer[..] == Filled(was, maxlen, text + Padding(c, len, width))
  {
    hide Filled;
    next := idx;
    var i := len;
    assert text + Repeat(c, 0) == text;
    while i < width
      invariant len <= i && (i <= width || i == len)
      invariant next == |text| + (i - len)
      invariant buffer[..] == Filled(was, maxlen, text + Repeat(c, i - len))
    {
      assert (text + Repeat(c, i - len)) + [c] == text + Repeat(c, i - len + 1);
      Out(c, buffer, next, maxlen, was, text + Repeat(c, i - len));
      next, i := next + 1, i + 1;
    }
  }

  /** Put out a string. */
  method PutText(s: string, buffer: array<char>, idx: nat, maxlen: nat, ghost was: string, ghost text: string)
    returns (next: nat)
    requires maxlen <= buffer.Length == |was| && idx == |text| && buffer[..] == Filled(was, maxlen, text)
    modifies buffer
    ensures next == |text| + |s| && buffer[..] == Filled(was, maxlen, text + s)
  {
    hide Filled;
    next := idx;
    var i := 0;
    assert text + s[..0] == text;
    while i < |s|
      invariant i <= |s| && next == |text| + i
      invariant buffer[..] == Filled(was, maxlen, text + s[..i])
    {
      assert (text + s[..i]) + [s[i]] == text + s[..i + 1];
      Out(s[i], buffer, next, maxlen, was, text + s[..i]);
      next, i := next + 1, i + 1;
    }
    assert s[..i] == s;
  }

  // -------------------------------------------------------------------- numbers

  /** Append to the conversion buffer up to a length. */
  method AppendZeros(buf: array<char>, len: nat, upTo: nat) returns (n: nat)
    requires buf.Length == BUFFER_SIZE && len <= BUFFER_SIZE
    modifies buf
    ensures n <= BUFFER_SIZE && buf[..n] == old(buf[..len]) + Padding('0', len, Min(upTo, BUFFER_SIZE))
  {
    n := len;
    while n < upTo && n < BUFFER_SIZE
      invariant len <= n <= BUFFER_SIZE
      invariant n > len ==> n <= upTo
      invariant buf[..n] == old(buf[..len]) + Repeat('0', n - len)
    {
      buf[n] := '0';
      assert buf[..n + 1] == buf[..n] + ['0'];
      n := n + 1;
    }
  }

  method Append(buf: array<char>, len: nat, c: char) returns (n: nat)
    requires buf.Length == BUFFER_SIZE && len < BUFFER_SIZE
    modifies buf
    ensures n == len + 1 && buf[..n] == old(buf[..len]) + [c]
  {
    buf[len] := c;
    n := len + 1;
  }

  /** The first part of _ntoa_format. */
  method PadZeros(buf: array<char>, length: nat, precision: nat, width: nat, fl: Flags) returns (len: nat)
    requires buf.Length == BUFFER_SIZE && length <= BUFFER_SIZE
    modifies buf
    ensures len <= BUFFER_SIZE && buf[..len] == Padded(old(buf[..length]), precision, width, fl)
  {
    len := length;
    if !fl.left {
      len := AppendZeros(buf, len, precision);
      if fl.zeropad {
        len := AppendZeros(buf, len, width);
      }
    }
  }

  /** ... the prefix, */
  method PutHash(buf: array<char>, length: nat, base: nat, precision: nat, width: nat, fl: Flags) returns (len: nat)
    requires buf.Length == BUFFER_SIZE && length <= BUFFER_SIZE
    modifies buf
    ensures len <= BUFFER_SIZE && buf[..len] == Hashed(old(buf[..length]), base, precision, width, fl)
  {
    len := length;
    if fl.hash {
      if (len == precision || len == width) && len > 0 {
        len := len - 1;
        if base == 16 && len > 0 {
          len := len - 1;
        }
      }
      assert buf[..len] == old(buf[..length])[..len];
      if base == 16 && !fl.upper && len < BUFFER_SIZE {
        len := Append(buf, len, 'x');
      }
      if base == 16 && fl.upper && len < BUFFER_SIZE {
        len := Append(buf, len, 'X');
      }
      if len < BUFFER_SIZE {
        len := Append(buf, len, '0');
      }
    }
  }

  /** ... the sign, */
  method PutSign(buf: array<char>, length: nat, negative: bool, width: nat, fl: Flags) returns (len: nat)
    requires buf.Length == BUFFER_SIZE && length <= BUFFER_SIZE && SignFits(buf[..length], width, negative, fl)
    modifies buf
    ensures len <= BUFFER_SIZE && buf[..len] == WithSign(old(buf[..length]), width, negative, fl)
  {
    len := length;
    if len == width && (negative || fl.plus || fl.space) {
      len := len - 1;
    }
    assert buf[..len] == old(buf[..length])[..len];
    if len < BUFFER_SIZE {
      if negative {
        len := Append(buf, len, '-');
      } else if fl.plus {
        len := Append(buf, len, '+');
      } else if fl.space {
        len := Append(buf, len, ' ');
      }
    }
  }

  /** ... and the output, turned round. */
  method PutReversed(buf: array<char>, len: nat, buffer: array<char>, idx: nat, maxlen: nat, ghost was: string,
                     ghost text: string)
    returns (next: nat)
    requires buf != buffer && len <= buf.Length
    requires maxlen <= buffer.Length == |was| && idx == |text| && buffer[..] == Filled(was, maxlen, text)
    modifies buffer
    ensures next == |text| + len && buffer[..] == Filled(was, maxlen, text + Reverse(buf[..len]))
  {
    hide Filled;
    ghost var r := Reverse(buf[..len]);
    next := idx;
    var i := 0;
    assert text + r[..0] == text;
    while i < len
      invariant i <= len && next == |text| + i
      invariant buffer[..] == Filled(was, maxlen, text + r[..i])
    {
      assert (text + r[..i]) + [buf[len - i - 1]] == text + r[..i + 1];
      Out(buf[len - i - 1], buffer, next, maxlen, was, text + r[..i]);
      next, i := next + 1, i + 1;
    }
    assert r[..i] == r;
  }

  method PutSpread(buf: array<char>, len: nat, width: nat, fl: Flags, buffer: array<char>, idx: nat, maxlen: nat,
                   ghost was: string, ghost text: string) returns (next: nat)
    requires buf != buffer && len <= buf.Length
    requires maxlen <= buffer.Length == |was| && idx == |text| && buffer[..] == Filled(was, maxlen, text)
    modifies buffer
    ensures next == |text| + |Spread(buf[..len], width, fl)|
    ensures buffer[..] == Filled(was, maxlen, text + Spread(buf[..len], width, fl))
  {
    hide Filled, Padding, Reverse;
    ghost var rev := buf[..len];
    next := idx;
    ghost var t := text;
    if !fl.left && !fl.zeropad {
      next := Pad(' ', len, width, buffer, next, maxlen, was, t);
      t := t + Padding(' ', len, width);
    }
    next := PutReversed(buf, len, buffer, next, maxlen, was, t);
    t := t + Reverse(rev);
    if fl.left {
      next := Pad(' ', len, width, buffer, next, maxlen, was, t);
      t := t + Padding(' ', len, width);
    }
    assert t == text + Spread(rev, width, fl);
  }

  /** What a turn of the digit loop leaves to do. */
  lemma DigitTurn(before: string, after: string, value: nat, base: nat, upper: bool, room: nat)
    requires 2 <= base <= 16 && room > 0 && after == before + [DigitChar(value % base, upper)]
    ensures value / base >= 0
    ensures value / base > 0 && room > 1 ==>
      before + Digits(value, base, upper, room) == after + Digits(value / base, base, upper, room - 1)
    ensures !(value / base > 0 && room > 1) ==> before + Digits(value, base, upper, room) == after
  {
    hide DigitChar;
    var rest := if value / base > 0 && room > 1 then Digits(value / base, base, upper, room - 1) else [];
    assert (before + [DigitChar(value % base, upper)]) + rest == before + ([DigitChar(value % base, upper)] + rest);
  }

  /** The digits, least significant first. */
  method PutDigits(buf: array<char>, value: nat, base: nat, upper: bool) returns (len: nat)
    requires buf.Length == BUFFER_SIZE && 2 <= base <= 16
    modifies buf
    ensures len <= BUFFER_SIZE && buf[..len] == Digits(value, base, upper, BUFFER_SIZE)
  {
    hide Digits, DigitChar;
    var left: nat := value;
    len := 0;
    ghost var all := Digits(value, base, upper, BUFFER_SIZE);
    var more := true;
    assert buf[..0] + all == all;
    while more
      invariant len <= BUFFER_SIZE
      invariant more ==> len < BUFFER_SIZE && buf[..len] + Digits(left, base, upper, BUFFER_SIZE - len) == all
      invariant !more ==> buf[..len] == all
      decreases BUFFER_SIZE - len, more
    {
      ghost var before := buf[..len];
      len := Append(buf, len, DigitChar(left % base, upper));
      DigitTurn(before, buf[..len], left, base, upper, BUFFER_SIZE - (len - 1));
      left := left / base;
      more := left > 0 && len < BUFFER_SIZE;
    }
  }

  /** _ntoa_long, and _ntoa_long_long, which is the same code on 64 bits. */
  method PutNumber(value: nat, negative: bool, base: nat, precision: nat, width: nat, fl: Flags,
                   buffer: array<char>, idx: nat, maxlen: nat, ghost was: string, ghost text: string)
    returns (next: nat)
    requires 2 <= base <= 16 && Number(value, negative, base, precision, width, fl).Some?
    requires maxlen <= buffer.Length == |was| && idx == |text| && buffer[..] == Filled(was, maxlen, text)
    modifies buffer
    ensures var s := Number(value, negative, base, precision, width, fl).value;
      next == |text| + |s| && buffer[..] == Filled(was, maxlen, text + s)
  {
    hide Filled, Digits, Padded, Hashed, WithSign, Spread;
    var buf := new char[BUFFER_SIZE];
    var len := 0;
    if !fl.precision || value > 0 {
      len := PutDigits(buf, value, base, fl.upper);
    }
    assert buf[..len] == Plain(value, base, fl);
    len := PadZeros(buf, len, precision, width, fl);
    len := PutHash(buf, len, base, precision, width, fl);
    len := PutSign(buf, len, negative, width, fl);
    next := PutSpread(buf, len, width, fl, buffer, idx, maxlen, was, text);
  }

  // ------------------------------------------------------------------- scanning

  /** _atoi */
  method ReadNumber(s: string, start: nat) returns (i: nat, pos: nat)
    requires start <= |s|
    ensures (i, pos) == Atoi(s, start, 0) && pos <= |s|
  {
    i, pos := 0, start;
    while IsDigit(At(s, pos))
      invariant pos <= |s| && Atoi(s, pos, i) == Atoi(s, start, 0)
      decreases |s| - pos
    {
      i := (i * 10 + Digit(At(s, pos))) % UINT_LIMIT;
      pos := pos + 1;
    }
  }

  /** The flag loop of _vsnprintf. */
  method ReadFlags(format: string, start: nat) returns (fl: Flags, pos: nat)
    requires start <= |format|
    ensures (fl, pos) == ScanFlags(format, start, NO_FLAGS) && pos <= |format|
  {
    fl, pos := NO_FLAGS, start;
    var n := true;
    while n
      invariant pos <= |format|
      invariant n ==> ScanFlags(format, pos, fl) == ScanFlags(format, start, NO_FLAGS)
      invariant !n ==> (fl, pos) == ScanFlags(format, start, NO_FLAGS)
      decreases |format| - pos, n
    {
      match At(format, pos)
      case '0' => fl := fl.(zeropad := true); pos := pos + 1;
      case '-' => fl := fl.(left := true); pos := pos + 1;
      case '+' => fl := fl.(plus := true); pos := pos + 1;
      case ' ' => fl := fl.(space := true); pos := pos + 1;
      case '#' => fl := fl.(hash := true); pos := pos + 1;
      case _ => n := false;
    }
  }

  method ReadWidth(format: string, start: nat, flags: Flags, args: seq<Arg>, first: nat) returns (f: Field)
    requires start <= |format| && StarFits(format, start, args, first)
    ensures f == ScanWidth(format, start, flags, args, first)
  {
    var fl, width, pos, arg := flags, 0, start, first;
    if IsDigit(At(format, pos)) {
      width, pos := ReadNumber(format, pos);
    } else if At(format, pos) == '*' {
      var w := Signed(args[arg].bits, HALF32);
      arg := arg + 1;
      if w < 0 {
        fl := fl.(left := true);
        width := -w;
      } else {
        width := w;
      }
      pos := pos + 1;
    }
    f := Field(fl, width, pos, arg);
  }

  method ReadPrecision(format: string, start: nat, flags: Flags, args: seq<Arg>, first: nat) returns (f: Field)
    requires start <= |format| && (At(format, start) == '.' ==> StarFits(format, start + 1, args, first))
    ensures f == ScanPrecision(format, start, flags, args, first)
  {
    var fl, precision, pos, arg := flags, 0, start, first;
    if At(format, pos) == '.' {
      fl := fl.(precision := true);
      pos := pos + 1;
      if IsDigit(At(format, pos)) {
        precision, pos := ReadNumber(format, pos);
      } else if At(format, pos) == '*' {
        precision := args[arg].bits;
        arg := arg + 1;
        pos := pos + 1;
      }
    }
    f := Field(fl, precision, pos, arg);
  }

  method ReadLength(p: Platform, format: string, start: nat, flags: Flags) returns (fl: Flags, pos: nat)
    requires start <= |format|
    ensures ScanLength(p, format, start, flags) == (fl, pos)
  {
    var c := At(format, start);
    if c == 'l' {
      if At(format, start + 1) == 'l' {
        return flags.(l := true, ll := true), start + 2;
      }
      return flags.(l := true), start + 1;
    } else if c == 'h' {
      if At(format, start + 1) == 'h' {
        return flags.(h := true, hh := true), start + 2;
      }
      return flags.(h := true), start + 1;
    } else if c == 't' || c == 'z' {
      return flags.(l := true), start + 1;
    } else if c == 'j' {
      return if p.wideLong then flags.(l := true) else flags.(ll := true), start + 1;
    }
    return flags, start;
  }

  /** A conversion specification, from behind its `%` up to and with the conversion character. */
  method ReadSpec(p: Platform, format: string, start: nat, args: seq<Arg>, first: nat) returns (sc: Scanned)
    requires start <= |format| && Scan(p, format, start, args, first).Some?
    ensures Some(sc) == Scan(p, format, start, args, first)
  {
    hide ScanFlags, ScanWidth, ScanPrecision, ScanLength;
    var fl, p1 := ReadFlags(format, start);
    var w := ReadWidth(format, p1, fl, args, first);
    var q := ReadPrecision(format, w.pos, w.flags, args, w.arg);
    var fl1, p2 := ReadLength(p, format, q.pos, q.flags);
    sc := Scanned(Spec(fl1, w.value, q.value, format[p2]), p2 + 1, q.arg);
  }

  // ---------------------------------------------------------------- conversions

  /** Base and flags of an integer conversion. */
  method ReadBase(c: char, fl: Flags) returns (base: nat, flags: Flags)
    requires IsInteger(c)
    ensures base == BaseOf(c) && flags == Effective(fl, c)
  {
    flags := fl;
    if c == 'x' || c == 'X' {
      base := 16;
    } else if c == 'o' {
      base := 8;
    } else if c == 'b' {
      base := 2;
      flags := flags.(hash := false);
    } else {
      base := 10;
      flags := flags.(hash := false);
    }
    if c == 'X' {
      flags := flags.(upper := true);
    }
    if c != 'i' && c != 'd' {
      flags := flags.(plus := false, space := false);
    }
  }

  /** An integer conversion. */
  method PutInteger(p: Platform, sp: Spec, args: seq<Arg>, arg: nat, buffer: array<char>, idx: nat, maxlen: nat,
                    ghost was: string, ghost text: string) returns (next: nat, nextArg: nat)
    requires IsInteger(sp.conversion) && Convert(p, sp, args, arg).Some?
    requires maxlen <= buffer.Length == |was| && idx == |text| && buffer[..] == Filled(was, maxlen, text)
    modifies buffer
    ensures var (s, after) := Convert(p, sp, args, arg).value;
      nextArg == after && next == |text| + |s| && buffer[..] == Filled(was, maxlen, text + s)
  {
    hide Filled, Number, BaseOf, Effective, Value, Abs;
    var base, flags := ReadBase(sp.conversion, sp.flags);
    var value := Value(p, sp.flags, IsSigned(sp.conversion), Bits(args[arg]));
    next := PutNumber(Abs(value), value < 0, base, sp.precision, sp.width, flags, buffer, idx, maxlen, was, text);
    nextArg := arg + 1;
  }

  /** A string, as far as the precision allows. */
  method PutString(s: string, sp: Spec, buffer: array<char>, idx: nat, maxlen: nat, ghost was: string,
                   ghost text: string)
    returns (next: nat)
    requires maxlen <= buffer.Length == |was| && idx == |text| && buffer[..] == Filled(was, maxlen, text)
    modifies buffer
    ensures var r := Aligned(Cut(s, sp.flags, sp.precision), sp.flags, sp.width);
      next == |text| + |r| && buffer[..] == Filled(was, maxlen, text + r)
  {
    hide Filled, Padding;
    var len := |s|;
    if sp.flags.precision {
      len := if len < sp.precision then len else sp.precision;
    }
    ghost var pad, cut := Padding(' ', len, sp.width), Cut(s, sp.flags, sp.precision);
    assert cut == s[..len];
    next := idx;
    if !sp.flags.left {
      next := Pad(' ', len, sp.width, buffer, next, maxlen, was, text);
      next := PutText(s[..len], buffer, next, maxlen, was, text + pad);
      assert (text + pad) + cut == text + (pad + cut);
    } else {
      next := PutText(s[..len], buffer, next, maxlen, was, text);
      next := Pad(' ', len, sp.width, buffer, next, maxlen, was, text + cut);
      assert (text + cut) + pad == text + (cut + pad);
    }
  }

  /** One conversion. */
  method PutConversion(p: Platform, sp: Spec, args: seq<Arg>, arg: nat, buffer: array<char>, idx: nat, maxlen: nat,
                       ghost was: string, ghost text: string) returns (next: nat, nextArg: nat)
    requires Convert(p, sp, args, arg).Some?
    requires maxlen <= buffer.Length == |was| && idx == |text| && buffer[..] == Filled(was, maxlen, text)
    modifies buffer
    ensures var (s, after) := Convert(p, sp, args, arg).value;
      nextArg == after && next == |text| + |s| && buffer[..] == Filled(was, maxlen, text + s)
  {
    hide Filled, Number, Aligned, Value;
    var c := sp.conversion;
    if IsInteger(c) {
      next, nextArg := PutInteger(p, sp, args, arg, buffer, idx, maxlen, was, text);
    } else if c == 'c' {
      next := PutString([(args[arg].bits % 0x100) as char], sp.(flags := sp.flags.(precision := false)), buffer, idx,
                        maxlen, was, text);
      CharAligned([(args[arg].bits % 0x100) as char], sp);
      nextArg := arg + 1;
    } else if c == 's' {
      next := PutString(args[arg].s, sp, buffer, idx, maxlen, was, text);
      nextArg := arg + 1;
    } else if c == 'p' {
      var width := if p.wideLong then 16 else 8;
      next := PutNumber(Bits(args[arg]), false, 16, sp.precision, width, sp.flags.(zeropad := true, upper := true),
                        buffer, idx, maxlen, was, text);
      nextArg := arg + 1;
    } else {
      Out(c, buffer, idx, maxlen, was, text);
      next, nextArg := idx + 1, arg;
    }
  }

  lemma CharAligned(s: string, sp: Spec)
    ensures var fl := sp.flags.(precision := false);
      Aligned(Cut(s, fl, sp.precision), fl, sp.width) == Aligned(s, sp.flags, sp.width)
  {
  }

  // ------------------------------------------------------------------ the whole

  lemma RenderStep(p: Platform, format: string, pos: nat, args: seq<Arg>, arg: nat)
    requires pos < |format| && Render(p, format, pos, args, arg).Some?
    ensures format[pos] != '%' ==>
      var rest := Render(p, format, pos + 1, args, arg);
      rest.Some? && Render(p, format, pos, args, arg).value == [format[pos]] + rest.value
    ensures format[pos] == '%' ==>
      var sc := Scan(p, format, pos + 1, args, arg);
      && sc.Some? && Convert(p, sc.value.spec, args, sc.value.arg).Some?
      && pos < sc.value.pos <= |format|
      && (var (s, next) := Convert(p, sc.value.spec, args, sc.value.arg).value;
          var rest := Render(p, format, sc.value.pos, args, next);
          rest.Some? && Render(p, format, pos, args, arg).value == s + rest.value)
  {
    hide Scan, Convert;
  }

  /** _vsnprintf behind os_snprintf and os_vsnprintf: for every format that is complete and whose
      arguments match, whatever the limit `count`, the result is the length of the whole text; the buffer
      gets the first `count - 1` characters of it and a NUL, and nothing past that. */
  method Vsnprintf(p: Platform, buffer: array<char>, count: nat, format: string, args: seq<Arg>) returns (n: nat)
    requires count <= buffer.Length && '\0' !in format && Render(p, format, 0, args, 0).Some?
    modifies buffer
    ensures var text := Render(p, format, 0, args, 0).value;
      && n == |text|
      && (count == 0 ==> buffer[..] == old(buffer[..]))
      && (count > 0 ==>
            var m := Min(n, count - 1);
            && buffer[..m] == text[..m] && buffer[m] == '\0'
            && buffer[count..] == old(buffer[count..])
            && (n < count ==> buffer[n + 1..] == old(buffer[n + 1..])))
  {
    hide Render, Scan, Convert, Filled;
    ghost var was, whole := buffer[..], Render(p, format, 0, args, 0).value;
    ghost var text := [];
    var idx, pos, arg := 0, 0, 0;
    NothingYet(was, count);
    while pos < |format|
      invariant pos <= |format| && idx == |text| && buffer[..] == Filled(was, count, text)
      invariant Render(p, format, pos, args, arg).Some? && whole == text + Render(p, format, pos, args, arg).value
      decreases |format| - pos
    {
      RenderStep(p, format, pos, args, arg);
      ghost var ahead := Render(p, format, pos, args, arg).value;
      if format[pos] != '%' {
        Out(format[pos], buffer, idx, count, was, text);
        assert text + ahead == (text + [format[pos]]) + ahead[1..];
        text := text + [format[pos]];
        idx, pos := idx + 1, pos + 1;
      } else {
        var sc := ReadSpec(p, format, pos + 1, args, arg);
        ghost var s := Convert(p, sc.spec, args, sc.arg).value.0;
        idx, arg := PutConversion(p, sc.spec, args, sc.arg, buffer, idx, count, was, text);
        assert text + ahead == (text + s) + ahead[|s|..];
        text := text + s;
        pos := sc.pos;
      }
    }
    assert whole == text by { RenderEnd(p, format, args, arg); }
    Terminate(buffer, idx, count, was, text);
    n := idx;
  }

  lemma RenderEnd(p: Platform, format: string, args: seq<Arg>, arg: nat)
    ensures Render(p, format, |format|, args, arg) == Some([])
  {
  }

  lemma NothingYet(was: string, maxlen: nat)
    requires maxlen <= |was|
    ensures Filled(was, maxlen, []) == was
  {
  }

  /** The terminating NUL: behind the text, or in the last place there is. With no room at all the index
      wraps around and nothing is written. */
  method Terminate(buffer: array<char>, idx: nat, maxlen: nat, ghost was: string, ghost text: string)
    requires maxlen <= buffer.Length == |was| && idx == |text| && buffer[..] == Filled(was, maxlen, text)
    modifies buffer
    ensures maxlen == 0 ==> buffer[..] == was
    ensures maxlen > 0 ==>
      var m := Min(idx, maxlen - 1);
      && buffer[..m] == text[..m] && buffer[m] == '\0' && buffer[maxlen..] == was[maxlen..]
      && (idx < maxlen ==> buffer[idx + 1..] == was[idx + 1..])
  {
    if maxlen > 0 {
      var at := if idx < maxlen then idx else maxlen - 1;
      buffer[at] := '\0';
    }
  }
}
