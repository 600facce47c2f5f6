# A verified model of `_printf`

`_printf` is a small formatted-output routine. It walks a NUL-terminated
format string one byte at a time:

- it writes every byte that is neither `%` nor the specifier after it to standard output;
- it hands `%` and the byte after it to `handle_format_specifier`;
- it returns the number of bytes written, or -1 for a NULL format.

The dispatcher is a first-match chain:

- `c` calls `print_character`;
- `s` calls `print_string`, which writes `(null)` for a NULL pointer;
- `%` calls `print_percent`;
- `d` and `i` call `print_integer`, a signed 32-bit to decimal conversion through a 12-slot digit buffer;
- any other byte is echoed as `%` followed by the byte.

A `%` left without a specifier at the end of the format (one that does not complete a `%%`) is dropped.

The model has four modules:

- `CTypes` (ctypes.dfy) holds the C vocabulary:
  - NULL-able pointers as `Option`;
  - bytes;
  - the 32-bit `int` as the range-checked `Int32`;
  - `At`, which reads a NUL-terminated string whose contents are a sequence.
- `Decimal` (decimal.dfy) holds the reference base-10 text `DecimalText`, its inverse `ParseDecimal`, and the facts about the digit buffer:
  - digits are stored least significant first (`LsdFirst`);
  - writing them backwards gives the reference digits;
  - there are at most 10 of them.
- `FormatSpec` (format_spec.dfy) holds the whole call as pure functions:
  - `Field` is what one specifier writes and how many arguments it consumes;
  - `RunFrom`/`Run` is the scan;
  - `Expected` is the result of the call.

  It also holds the properties of the scan: literal bytes are verbatim, a `%` left without a specifier at the end is dropped, specifiers are rendered in place, the cursor only moves forward, and the text written for `%d`/`%i` parses back to its argument, both for one field and for a whole call whose format is that specifier.
- `Printf` (printf.dfy) holds the imperative routine:
  - standard output is a `Stdout` object whose `written` field every `write(1, …)` extends;
  - the `va_list` is a `VaList` object with a cursor that `va_arg` advances;
  - each renderer is a method with the C loops and their invariants;
  - `print_integer` keeps its `int digits[12]` array;
  - `Printf` is the scanner loop, proved against `Expected`.

## Model

| member | source | states |
|---|---|---|
| CTypes.At | _printf.c:188 | reading index `i` of a NUL-terminated string gives the terminator exactly at the end of its contents |
| CTypes.LowByte | _printf.c:54 | converting an `int` to `char` keeps a byte congruent to it modulo 256, and leaves a value in 0..255 as it is |
| Decimal.DigitChar | _printf.c:99 | `d + '0'` for a digit value `d` is one of '0'..'9' |
| Decimal.Digits | _printf.c:96-114 | the decimal digits of a magnitude are nonempty, all in '0'..'9', and begin with '0' only for 0 |
| Decimal.DecimalText | _printf.c:66-117 | the text of an integer is nonempty, starts with '-' if and only if the value is negative, and all its other bytes are digits |
| Decimal.DigitsRoundTrip | _printf.c:96-114 | reading the digits of `n` back gives `n` |
| Decimal.NumeralRoundTrip | _printf.c:96-114 | every canonical numeral is the digits of its value |
| Decimal.DecimalTextRoundTrip | _printf.c:66-117 | the text of every 32-bit value is well formed and parses back to the value |
| Decimal.ParseRoundTrip | _printf.c:66-117 | every well-formed decimal text is the text of the value it parses to |
| Decimal.DigitsBound | _printf.c:96-102 | a number below 10^k has at most k digits |
| Decimal.ReverseIndex | _printf.c:110-114 | element `i` of a reversed sequence is element `n-1-i` of the original |
| Decimal.LsdFirst | _printf.c:96-102 | the digits the loop stores are all in '0'..'9', and none are stored exactly when the magnitude is 0 |
| Decimal.LsdFirstReversed | _printf.c:96-114 | writing the stored digits from last to first gives the decimal digits, most significant first |
| Decimal.DigitLoopBound | _printf.c:96-102 | for a positive 32-bit magnitude the digit loop stores at most 10 digits, so `digits[12]` is indexed in bounds |
| Decimal.IntMinText | _printf.c:79-83 | the 11-byte literal written for -2147483648 is exactly its decimal text |
| FormatSpec.Field | _printf.c:127-159 | a specifier consumes one argument if and only if it is `c`, `s`, `d` or `i`; `%` writes "%", and any other byte writes '%' then itself |
| FormatSpec.StringText | _printf.c:26-42 | what `print_string` writes: "(null)" (6 bytes) for a NULL pointer, otherwise the string's contents; it holds no NUL when those contents hold none |
| FormatSpec.RunFrom | _printf.c:188-207 | the scan from index `i`: a literal byte is written as it is, '%' and the byte after it are replaced by `Field`, a '%' with nothing after it ends the scan; the argument cursor never moves backwards |
| FormatSpec.Run | _printf.c:188-207 | the scan of a whole format from cursor `p`, which never ends before `p` |
| FormatSpec.Expected | _printf.c:169-210 | a NULL format gives no output, -1 and no argument read; an empty one gives no output, 0 and no argument read; otherwise the scan's text, with its length as the result (so -1 comes only from NULL), and the final cursor |
| FormatSpec.LiteralScanned | _printf.c:201-205 | after a literal byte is written, the rest of the scan still completes the expected output and keeps the final cursor |
| FormatSpec.SpecifierScanned | _printf.c:190-200 | after '%' and its specifier, the dispatcher's field plus the rest of the scan completes the expected output, and the specifier has its argument |
| FormatSpec.RunShift | _printf.c:188-207 | scanning inside the suffix of a concatenation is scanning the suffix alone |
| FormatSpec.FitsAppendFrom | _printf.c:188-207 | a complete stretch followed by more format finds its arguments exactly when the rest does, from the cursor the stretch leaves |
| FormatSpec.RunAppendFrom | _printf.c:188-207 | scanning a complete stretch and then more format writes the stretch's output and then the rest's, with the cursor carried over |
| FormatSpec.RunAppendPercent | _printf.c:190-200 | the case of `RunAppendFrom` that starts at a specifier |
| FormatSpec.RunAppendLiteral | _printf.c:201-205 | the case of `RunAppendFrom` that starts at a literal byte |
| FormatSpec.RunAppend | _printf.c:188-207 | the scan of a concatenation whose first part is complete is the scan of the first part followed by the scan of the second, both in output and cursor |
| FormatSpec.NoPercentVerbatim | _printf.c:201-205 | a stretch without '%' is written byte for byte, in order, and reads no argument |
| FormatSpec.LiteralWritten | _printf.c:201-205 | a literal byte after a complete prefix appears in the output right after the prefix's output |
| FormatSpec.SpecifierRendered | _printf.c:190-200 | '%' and a specifier after a complete prefix are replaced by the dispatcher's output, and the cursor moves past the arguments that specifier consumes |
| FormatSpec.TrailingPercentDropped | _printf.c:190-196 | a '%' left without a specifier at the end, after a complete prefix, writes nothing and reads no argument |
| FormatSpec.CursorStaysInArgs | _printf.c:188-207 | the argument cursor only moves forward and never passes the supplied arguments |
| FormatSpec.ExpectedBounds | _printf.c:169-210 | the result is -1 exactly for a NULL format, and otherwise the number of bytes written; no more arguments are read than were supplied |
| FormatSpec.VerbatimFormat | _printf.c:188-209 | a format without '%' is written verbatim, its length is returned and no argument is read |
| FormatSpec.IntegerFieldRoundTrip | _printf.c:145-152 | what `%d` and `%i` write parses back to the argument's value |
| FormatSpec.IntegerCallRoundTrip | _printf.c:169-210 | a call whose format is `%d` or `%i` with one integer argument writes text that parses back to that argument, returns its length and reads one argument |
| Printf.Stdout.Write | _printf.c:203 | `write(1, buf, n)` appends exactly the bytes of `buf` |
| Printf.VaList.Start | _printf.c:186 | `va_start` sets the cursor at the first argument |
| Printf.VaList.NextInt | _printf.c:68 | `va_arg(args, int)` returns the argument at the cursor and advances it by one |
| Printf.VaList.NextString | _printf.c:26 | `va_arg(args, char*)` returns the argument at the cursor and advances it by one |
| Printf.PrintPercent | _printf.c:11-15 | writes "%" and returns 1 |
| Printf.PrintCharacter | _printf.c:52-57 | consumes one argument, writes its low byte and returns 1 |
| Printf.PrintString | _printf.c:24-43 | consumes one argument and writes the string's bytes before the terminator, in order, or "(null)" for NULL; returns the number written, 6 for NULL |
| Printf.StoreDigits | _printf.c:96-102 | fills `digits` with the magnitude's digits as '0'..'9', least significant first, stores at most 10 of them, and leaves the other slots unchanged |
| Printf.EmitDigits | _printf.c:110-114 | writes the stored digits from the last stored to the first, and counts one per byte |
| Printf.PrintInteger | _printf.c:66-117 | consumes one argument, writes exactly its decimal text (including -2147483648 and 0), and returns that text's length |
| Printf.HandleFormatSpecifier | _printf.c:127-159 | writes what `Field` renders for the specifier, returns its length, and advances the cursor by the arguments the specifier consumes |
| Printf.Printf | _printf.c:169-210 | a NULL format returns -1 and writes nothing; an empty one returns 0; otherwise the call writes the expected text and returns the number of bytes it appended; the final cursor is the one the scan predicts |
| Printf.PrintfTwice | _printf.c:169-210 | the routine keeps no state between calls: the same call twice writes the same bytes twice and returns the same value |

## Left out

- `write(2)` is modelled as appending to `Stdout.written`. The routine ignores the value `write` returns and any failure, and so does the model.
- Interleaving of standard output between threads is out of scope. The routine has no shared state besides the stream.
- The `va_list` is an explicit argument list with a shared cursor. On ABIs where a `va_list` passed by value to a helper does not advance the caller's copy (_printf.c:198), the C behaves differently. That ABI behaviour is not modelled.
- The precondition says every specifier finds an argument of the right type (`Fits`), because reading past the arguments or with the wrong type is undefined behaviour in C.
- `%c`, `%d` and `%i` all read `va_arg(args, int)`, so one `IntArg` kind serves all three. A `char` argument is promoted to `int` by the caller.
- `write(1, &digits[i], 1)` on an `int` array writes the first byte of the `int`. The model writes its low byte, which is the digit character on a little-endian target. Big-endian layouts are not modelled.
- Printf.Printf: counts are unbounded integers. A call that writes more than INT_MAX bytes would overflow `character_count` in C, and the model does not capture that wrap-around.
- The format and each string argument are given as their contents, which hold no NUL, plus the terminator that `At` reads at the end. Bytes after an embedded terminator are not modelled.
- The loops of `print_integer` are written as the helper methods `StoreDigits` and `EmitDigits`, which `PrintInteger` calls in the order of the C.
- `va_end` has no observable effect and is not modelled.
- main.h holds only include guards and prototypes, and is not part of this model.
