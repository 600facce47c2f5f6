/** The imperative routine: standard output as an append-only byte stream,
    the variadic argument list as a cursor that `va_arg` advances, the four
    renderers, the specifier dispatcher and the `_printf` scanner loop. */
module Printf {
  import opened CTypes
  import opened Decimal
  import opened FormatSpec

  /** File descriptor 1. `write(1, buf, n)` appends the n bytes of `buf`. */
  class Stdout {
    var written: seq<Byte>

    constructor ()
      ensures written == []
    {
      written := [];
    }

    method Write(buf: seq<Byte>)
      modifies this
      ensures written == old(written) + buf
    {
      written := written + buf;
    }
  }

  /** A `va_list`: the arguments the caller supplied and the position of
      the next one `va_arg` reads. */
  class VaList {
    const args: seq<Arg>
    var next: nat

    /** `va_start`. */
    constructor Start(args: seq<Arg>)
      ensures this.args == args && next == 0
    {
      this.args := args;
      next := 0;
    }

    /** `va_arg(ap, int)`. */
    method NextInt() returns (v: Int32)
      requires next < |args| && args[next].IntArg?
      modifies this
      ensures v == args[old(next)].v
      ensures next == old(next) + 1
    {
      v := args[next].v;
      next := next + 1;
    }

    /** `va_arg(ap, char *)`. */
    method NextString() returns (s: Option<seq<Byte>>)
      requires next < |args| && args[next].StrArg?
      modifies this
      ensures s == args[old(next)].s
      ensures next == old(next) + 1
    {
      s := args[next].s;
      next := next + 1;
    }
  }

  method PrintPercent(out: Stdout) returns (count: int)
    modifies out
    ensures out.written == old(out.written) + "%"
    ensures count == 1
  {
    out.Write("%");
    count := 1;
  }

  /** Writes the low byte of the next `int` argument. */
  method PrintCharacter(out: Stdout, ap: VaList) returns (count: int)
    requires ap.next < |ap.args| && Matches(ap.args[ap.next], IntKind)
    modifies out, ap
    ensures ap.next == old(ap.next) + 1
    ensures out.written == old(out.written) + [LowByte(ap.args[old(ap.next)].v as int)]
    ensures count == 1
  {
    var v := ap.NextInt();
    var c: Byte := LowByte(v as int);
    out.Write([c]);
    count := 1;
  }

  /** Writes the next `char *` argument byte by byte up to its terminator,
      or "(null)" for a NULL pointer; returns the number of bytes written. */
  method PrintString(out: Stdout, ap: VaList) returns (count: int)
    requires ap.next < |ap.args| && Matches(ap.args[ap.next], StrKind)
    modifies out, ap
    ensures ap.next == old(ap.next) + 1
    ensures out.written == old(out.written) + StringText(ap.args[old(ap.next)].s)
    ensures count == |StringText(ap.args[old(ap.next)].s)|
    ensures ap.args[old(ap.next)].s.None? ==> count == 6
  {
    var arg := ap.NextString();
    count := 0;
    var i := 0;
    var str := if arg.None? then NullText else arg.value;
    while At(str, i) != Nul
      invariant 0 <= i <= |str|
      invariant count == i
      invariant out.written == old(out.written) + str[..i]
      modifies out
      decreases |str| - i
    {
      out.Write([str[i]]);
      assert str[..i + 1] == str[..i] + [str[i]];
      count := count + 1;
      i := i + 1;
    }
    assert str[..i] == str;
  }

  /** The digit loop of `print_integer` (_printf.c:96-102): stores the
      digits of a positive magnitude in `digits`, least significant first,
      as character codes, and returns how many it stored. */
  method StoreDigits(digits: array<Int32>, num: Int32) returns (digitCount: int)
    requires digits.Length == 12 && num > 0
    modifies digits
    ensures digitCount == |LsdFirst(num as int)| <= 10
    ensures forall k :: 0 <= k < digitCount ==> digits[k] as int == LsdFirst(num as int)[k] as int
    ensures forall k :: 0 <= k < digitCount ==> '0' as Int32 <= digits[k] <= '9' as Int32
    ensures forall k :: digitCount <= k < digits.Length ==> digits[k] == old(digits[k])
  {
    digitCount := 0;
    var temp := num;
    ghost var stored: seq<Byte> := [];
    DigitLoopBound(num as int);
    while temp > 0
      invariant 0 <= temp <= num
      invariant digitCount == |stored|
      invariant stored + LsdFirst(temp as int) == LsdFirst(num as int)
      invariant forall k :: 0 <= k < digitCount ==> digits[k] as int == stored[k] as int
      invariant forall k :: digitCount <= k < digits.Length ==> digits[k] == old(digits[k])
      decreases temp
    {
      ghost var d := DigitChar((temp % 10) as int);
      ghost var rest := LsdFirst((temp / 10) as int);
      assert LsdFirst(temp as int) == [d] + rest;
      assert (stored + [d]) + rest == stored + ([d] + rest);
      digits[digitCount] := temp % 10 + '0' as Int32;
      stored := stored + [d];
      temp := temp / 10;
      digitCount := digitCount + 1;
    }
  }

  /** Writes the next `int` argument in base 10 and returns the number of
      bytes written. INT_MIN and 0 are written as literals; any other value
      has its magnitude's digits stored least significant first in a
      12-slot buffer and then written backwards after an optional '-'. */
  method PrintInteger(out: Stdout, ap: VaList) returns (count: int)
    requires ap.next < |ap.args| && Matches(ap.args[ap.next], IntKind)
    modifies out, ap
    ensures ap.next == old(ap.next) + 1
    ensures out.written == old(out.written) + DecimalText(ap.args[old(ap.next)].v as int)
    ensures count == |DecimalText(ap.args[old(ap.next)].v as int)|
  {
    var num := ap.NextInt();
    ghost var v := num as int;
    count := 0;
    var isNegative := false;
    var digits := new Int32[12];
    var digitCount := 0;

    if num < 0 {
      isNegative := true;
      if num == IntMin {
        out.Write("-2147483648");
        IntMinText();
        return 11;
      } else {
        // In range: INT_MIN has been handled above.
        num := -num;
      }
    }

    if num == 0 {
      out.Write("0");
      return 1;
    }

    digitCount := StoreDigits(digits, num);
    ghost var stored := LsdFirst(num as int);
    LsdFirstReversed(num as int);

    if isNegative {
      out.Write("-");
      count := count + 1;
    }
    var emitted := EmitDigits(out, digits, digitCount, stored);
    count := count + emitted;
    assert DecimalText(v) == (if isNegative then "-" else "") + Digits(num as int);
  }

  /** The output loop of `print_integer` (_printf.c:110-114): writes the
      stored digits from the last one stored back to the first, counting
      each byte written. */
  method EmitDigits(out: Stdout, digits: array<Int32>, digitCount: int, ghost stored: seq<Byte>)
    returns (count: int)
    requires 0 <= digitCount == |stored| <= digits.Length
    requires forall k :: 0 <= k < digitCount ==> digits[k] as int == stored[k] as int
    modifies out
    ensures out.written == old(out.written) + Reverse(stored)
    ensures count == digitCount
  {
    count := 0;
    var i := digitCount - 1;
    ghost var emitted: seq<Byte> := [];
    while i >= 0
      invariant -1 <= i < digitCount
      invariant |emitted| == digitCount - 1 - i == count
      invariant forall k :: 0 <= k < |emitted| ==> emitted[k] == stored[digitCount - 1 - k]
      invariant out.written == old(out.written) + emitted
      decreases i
    {
      var c := LowByte(digits[i] as int);
      assert c == stored[i];
      out.Write([c]);
      emitted := emitted + [c];
      count := count + 1;
      i := i - 1;
    }
    ReverseIndex(stored);
    assert emitted == Reverse(stored);
  }

  /** `handle_format_specifier`: renders one specifier with the renderer the
      first-match chain selects, or echoes an unknown one as '%' and itself. */
  method HandleFormatSpecifier(out: Stdout, ap: VaList, specifier: Byte) returns (count: int)
    requires FitsAt(specifier, ap.args, ap.next)
    modifies out, ap
    ensures ap.next == old(ap.next) + Uses(specifier)
    ensures out.written == old(out.written) + Field(specifier, ap.args, old(ap.next)).text
    ensures count == |Field(specifier, ap.args, old(ap.next)).text|
  {
    count := 0;
    if specifier == 'c' {
      count := PrintCharacter(out, ap);
    } else if specifier == 's' {
      count := PrintString(out, ap);
    } else if specifier == '%' {
      count := PrintPercent(out);
    } else if specifier == 'd' {
      count := PrintInteger(out, ap);
    } else if specifier == 'i' {
      count := PrintInteger(out, ap);
    } else {
      out.Write("%");
      out.Write([specifier]);
      count := 2;
    }
  }

  /** `_printf`: scans the format byte by byte, writing literal bytes and
      dispatching each '%' and the byte after it; returns the number of
      bytes written, or -1 for a NULL format. `used` is the number of
      arguments read. */
  method Printf(out: Stdout, format: Option<seq<Byte>>, args: seq<Arg>)
    returns (count: int, ghost used: nat)
    requires format.Some? ==> NoNul(format.value) && Fits(format.value, args, 0)
    modifies out
    ensures out.written == old(out.written) + Expected(format, args).text
    ensures count == Expected(format, args).ret
    ensures used == Expected(format, args).used
    ensures format.None? ==> count == -1 && out.written == old(out.written)
    ensures format.Some? ==> count == |out.written| - |old(out.written)|
  {
    used := 0;
    if format.None? {
      return -1, 0;
    }
    var fmt := format.value;
    if At(fmt, 0) == Nul {
      return 0, 0;
    }

    var ap := new VaList.Start(args);
    ghost var total := Run(fmt, args, 0);
    count := 0;
    var i := 0;
    while At(fmt, i) != Nul
      invariant 0 <= i <= |fmt|
      invariant ap.args == args
      invariant FitsFrom(fmt, i, args, ap.next)
      invariant out.written + RunFrom(fmt, i, args, ap.next).text
                == old(out.written) + total.text
      invariant RunFrom(fmt, i, args, ap.next).next == total.next
      invariant count == |out.written| - |old(out.written)|
      decreases |fmt| - i
    {
      ghost var before, p := out.written, ap.next;
      if fmt[i] == '%' {
        i := i + 1;
        if At(fmt, i) == Nul {
          break;
        }
        SpecifierScanned(fmt, i - 1, args, p, before, old(out.written) + total.text);
        var result := HandleFormatSpecifier(out, ap, fmt[i]);
        count := count + result;
      } else {
        LiteralScanned(fmt, i, args, p, before, old(out.written) + total.text);
        out.Write([fmt[i]]);
        count := count + 1;
      }
      i := i + 1;
    }
    assert out.written == old(out.written) + total.text;
    used := ap.next;
  }

  /** Nothing survives a call: the same call made twice writes the same
      bytes twice and returns the same value both times. */
  method PrintfTwice(out: Stdout, format: Option<seq<Byte>>, args: seq<Arg>)
    returns (first: int, second: int)
    requires format.Some? ==> NoNul(format.value) && Fits(format.value, args, 0)
    modifies out
    ensures first == second
    ensures out.written
            == old(out.written) + Expected(format, args).text + Expected(format, args).text
  {
    ghost var used;
    first, used := Printf(out, format, args);
    second, used := Printf(out, format, args);
  }
}
