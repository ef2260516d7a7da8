# pysintegra in Dafny

A model of the core of pysintegra, a Python library that writes and reads
SINTEGRA magnetic files. These are the fixed-width text files that Brazilian
taxpayers hand to the state tax offices. Each line is one record. It starts
with a two-character type code (10, 11, 50 … 90), or a three-character one for
the 60 and 61 subtypes (60M, 60A, 60I, 61R). The rest of the line is columns
of fixed width: text padded with spaces, numbers padded with zeros, and dates
written YYYYMMDD.

The model covers:

- the three formatters of `BaseRecord` (`_format_numeric`, `_format_text`,
  `_format_date`) and the f-string renderings the other records use;
- the validation of each of the twenty record classes, as a constructor
  function `MakeXX` returning `Ok(record)` or `Err(field)`;
- every `to_sintegra_line`, as `EncodeXX`, with a `LayoutXX` lemma that reads
  each column back;
- the `SintegraProcessor` class: its record list, its per-class counts kept
  in insertion order, `add_record`, `get_record_counts`, `clear_records` and
  `generate_output`;
- `parse_from_file` over the text of the file, with `_parse_line`,
  `_parse_generic_registry`, `_parse_registro_60/61`, `_parse_date` and
  `_parse_decimal`.

Decimals are `Dec(units, scale)`, whose value is `units / 10^scale`.
Python's `Decimal` equality is `SameValue`. Strings are `seq<char>`, and the
Python string methods the code uses (`strip`, `ljust`, `rjust`, `zfill`,
`split`, `upper`, `int()`) are written out in `Text`, on the characters the
fields hold (see "Left out" for `upper` and `int()`).

On top of the per-record layouts, `RoundTrip.FileReadBack` connects writing
and reading. For a list of records, `generate_output` writes the text of a
file, and the line loop of `parse_from_file` reads that text back as the type
10 and 75 records of the list, in order. The
type 75 amounts come back rounded to two places. Every other record type is
skipped by the parser, because `_parse_generic_registry` only builds types 10
and 75.

Modules, in dependency order:

- `Text`: Python string operations and digit strings.
- `Fields`: `Dec`, dates, formatters and field validators.
- `Scan`: `_parse_date` and `_parse_decimal`.
- `HeaderRecords`: 10, 11 and 90.
- `InvoiceRecords`: 50, 51, 53, 54 and 55.
- `CouponRecords`: 60M, 60A, 60I, 61 and 61R.
- `TransportRecords`: 70, 71 and 76.
- `InventoryRecords`: 74 and 75.
- `ExportRecords`: 85 and 86.
- `Registry`: the union of all records, their class names and type codes.
- `Parser`: the registry map and the line parsers.
- `Output`: record counts, totals and the file text.
- `Processor`: the `SintegraProcessor` class.
- `RoundTrip`: writing, then reading back.

## Model

| member | source | states |
|---|---|---|
| Fields.FormatText | pysintegra/models.py:45-48 | the result has exactly `size` characters: the value padded with spaces when shorter, its first `size` characters otherwise |
| Fields.FormatTextBack | pysintegra/models.py:45-48 | a stripped value no longer than the column is given back by `strip` of the column |
| Fields.FormatTextExact | pysintegra/models.py:45-48 | a value of exactly the column width is written unchanged |
| Fields.RoundHalfEven | pysintegra/models.py:36-37 | the `:.Nf` rounding gives the quotient or the next integer: down below one half, up above one half, and to the even one of the two at exactly one half |
| Fields.FormatNumeric | pysintegra/models.py:30-43 | the result is never shorter than `size`, and has exactly `size` characters when the value fits |
| Fields.FormatNumericPadding | pysintegra/models.py:30-43 | the result is the number's text with '0' characters on the left up to `size`, and the text is never cut |
| Fields.FormatNumericValue | pysintegra/models.py:30-43 | for a non-negative value, the result is all digits and denotes the value rounded to `decimal_places`, as an integer count of 10^-p units; with places it has more than p digits |
| Fields.NumericTextValue | pysintegra/models.py:36-39 | the unpadded text of a non-negative value is all digits and denotes the same rounded value |
| Fields.WrittenExact | pysintegra/models.py:36-37 | a value with no more than p decimals is written without rounding |
| Fields.FormatNumericText | pysintegra/models.py:30-43 | `_format_numeric` on a digit string gives `str(int(s))` padded with zeros, whose digits denote the same number |
| Fields.FormatNumericInt | pysintegra/models.py:38-43 | with no places, an integer is written as its decimal digits padded with zeros |
| Fields.FormatDigitCode | pysintegra/models.py:30-43 | a digit string of exactly the column width is written unchanged |
| Fields.FormatDigitCodeAgrees | pysintegra/models.py:30-43 | on a digit string, the digit-code rendering agrees with `_format_numeric` |
| Fields.FormatDate | pysintegra/models.py:50-53 | the date is written in 8 characters |
| Fields.FormatDateFields | pysintegra/models.py:50-53 | the 8 characters are digits, and characters 0-4, 4-6 and 6-8 denote the year, month and day |
| Fields.FormatIntField | pysintegra/models.py:391-392 | `f"{x:0wd}"` has w characters when x fits, and starts with '-' for a negative x |
| Fields.FormatIntFieldValue | pysintegra/models.py:391-392 | for x >= 0 the rendering is all digits and denotes x |
| Fields.TruncScaled | pysintegra/models.py:393 | `int(v * 100)` truncates toward zero and keeps the sign of v |
| Fields.TruncScaledBounds | pysintegra/models.py:393 | for v >= 0 the result is the largest integer not above v·10^k |
| Fields.FormatScaled | pysintegra/models.py:393-396 | `f"{int(v*100):013d}"` has w characters for a non-negative value that fits |
| Fields.PadText | pysintegra/models.py:387 | `f"{v:<n}"` has n characters when v is no longer than n |
| Fields.PadTextBack | pysintegra/models.py:387 | a stripped value no longer than n is given back by `strip` |
| Fields.IntColumn | pysintegra/models.py:391-392 | the column written for x >= 0 denotes x |
| Fields.ScaledColumn | pysintegra/models.py:393-396 | the column written for v >= 0 denotes `int(v * 10^k)` |
| Fields.NumericIntColumn | pysintegra/models.py:30-43 | an integer below 10^size is written in exactly `size` digits that denote it |
| Fields.NumericColumn | pysintegra/models.py:30-43 | the column written for a non-negative value denotes the rounded value |
| Fields.UfCodes | pysintegra/models.py:103-138 | the state-code check accepts exactly the 27 state codes |
| Fields.CheckText | pysintegra/models.py:17-21 | a text field is accepted exactly when its stripped value has an allowed length; the stripped value is stored, and a value already in range and stripped is kept |
| Fields.CheckDigitCode | pysintegra/models.py:95-101 | a CNPJ or CEP is accepted exactly when, once stripped, it is all digits of the required length; the stripped value is stored |
| Fields.DigitsStripped | pysintegra/models.py:95-101 | an accepted digit code is its own strip |
| Fields.CheckUf | pysintegra/models.py:103-138 | a state code is accepted exactly when its stripped, upper-cased value is one of the 27 codes, and is stored upper-cased |
| Fields.UfCaps | pysintegra/models.py:103-138 | an accepted state code is two capital letters |
| Fields.CapsFixed | pysintegra/models.py:103-138 | two capital letters are unchanged by strip and upper, so a stored code validates to itself |
| Fields.CheckIntRange | pysintegra/models.py:165 | an integer field with `ge`/`le` bounds is accepted exactly inside the bounds and kept unchanged |
| Fields.CheckAmount | pysintegra/models.py:220 | a decimal with `ge=0` is accepted exactly when it is not negative |
| Fields.CheckAmountAtMost | pysintegra/models.py:227 | a decimal with `ge=0, le=100` is accepted exactly when it is between 0 and 100 |
| Fields.CheckIssuer | pysintegra/models.py:219 | `Literal["P", "T"]` accepts exactly "P" and "T" |
| Scan.ParseDate | pysintegra/processor.py:523-533 | a date is read only from a column that is 8 characters once stripped, and it is a calendar date |
| Scan.DecimalBody | pysintegra/processor.py:551 | an unsigned `Decimal` text is read only when every character after the point is a digit; its scale is the number of them, and a negative value only comes with the sign |
| Scan.PyDecimal | pysintegra/processor.py:551 | `Decimal(s)` has fewer decimal places than s has characters once stripped, and is negative only when the text starts with '-' |
| Scan.PointScale | pysintegra/processor.py:546-549 | a `Decimal` read from a text with a point before c has exactly len(c) places |
| Scan.PyDecimalScale | pysintegra/processor.py:543-551 | the text built as "a.c", with no blank at either end, is read with len(c) places |
| Scan.ParseDecimal | pysintegra/processor.py:535-551 | a non-blank column read with p > 0 places gives a value with exactly p places |
| Scan.ParseDecimalLong | pysintegra/processor.py:546-549 | a column longer than p is read with the point put before its last p characters |
| Scan.MakeDate | pysintegra/processor.py:532 | `date(y, m, d)` succeeds exactly for a calendar date |
| Scan.ParseFormatDate | pysintegra/processor.py:523-533 | `_parse_date` of a date written by `_format_date` gives the same date back |
| Scan.DateColumn | pysintegra/processor.py:523-533 | any column written by `_format_date` is parsed back to its date |
| Scan.ParseDateDigits | pysintegra/processor.py:523-533 | on 8 digits, `_parse_date` succeeds exactly when they denote a calendar date, and gives that date |
| Scan.IndexOf | pysintegra/processor.py:535-551 | the position found is that of the first occurrence, or the length when there is none |
| Scan.PyDecimalPoint | pysintegra/processor.py:551 | `Decimal("a.b")` of digit strings denotes the digits of a and b over 10^len(b) |
| Scan.ParseDecimalDigits | pysintegra/processor.py:535-551 | with p > 0 places, a digit column is read as its digits over 10^p |
| Scan.ParseDecimalShort | pysintegra/processor.py:543-545 | a column of at most p digits is zero-filled and read with the same value |
| Scan.ParseDecimalInteger | pysintegra/processor.py:535-551 | with no places, a digit column is read as its integer |
| Scan.ParseDecimalBlank | pysintegra/processor.py:539-540 | an all-blank column is read as 0 |
| Scan.ZFillDigits | pysintegra/processor.py:545 | `zfill(p)` of a shorter digit string is p digits with the same value |
| Scan.WrittenAtMost | pysintegra/models.py:36-37 | an amount of at most `hi` is written as at most hi·10^p units |
| Scan.WrittenSameValue | pysintegra/models.py:36-37 | a value with no more than p decimals is written exactly: the written units over 10^p equal it |
| Scan.NumericColumnBack | pysintegra/processor.py:535-551 | `_parse_decimal` of a column written by `_format_numeric` gives the written value at p places |
| Text.Strip | pysintegra/models.py:17-21 | the result has no blank at either end and is never longer than the input |
| Text.RJust | pysintegra/models.py:43 | the result has the width asked for, or the input's when that is longer, and ends with the input's last character (the fill character when the input is empty) |
| Text.ZFill | pysintegra/processor.py:545 | the result has the width asked for, or the input's when that is longer; an unsigned text is padded with '0' on the left, a text as wide as asked is unchanged, and a last non-blank character stays last |
| Text.Split | pysintegra/processor.py:337 | `str.split` gives at least one piece, and no piece holds the separator |
| Text.Upper | pysintegra/models.py:103-138 | the result has the same length, with the ASCII letters and the dotless i and long s upper-cased and every other character kept |
| Text.PyInt | pysintegra/models.py:144 | `int()` of an ASCII digit string is the number the digits denote |
| Text.SplitAround | pysintegra/processor.py:337 | `str.split` at one separator splits each side apart: the pieces of the whole are the pieces before it followed by the pieces after it |
| Text.StripLineEnd | pysintegra/processor.py:337 | stripping a text that ends in CR-LF, and has no blanks at either end otherwise, removes exactly the CR-LF |
| Registry.EncodeRecord | pysintegra/models.py:1412-1420 | `to_sintegra_line` raises exactly for a type 90 record whose cnpj `int()` refuses, where `int()` is modelled on ASCII digits |
| Registry.TypeCodeOfName | pysintegra/processor.py:276 | removing "Registro" from a class name gives that class's type code |
| Registry.RemoveAll | pysintegra/processor.py:276 | `str.replace(pat, "")` never makes a string longer |
| Parser.RegistryMap | pysintegra/processor.py:317-335 | the map sends each record class to its own two-character code |
| Parser.RegistryMapCodes | pysintegra/processor.py:317-335 | each two-character code but 61 reaches its class; 60 and 61 reach the subtype handlers; three-character codes are not keys |
| Parser.Built | pysintegra/processor.py:365-406 | building a record keeps it exactly when its validators accept it; a raised error drops the line |
| Parser.Parse10 | pysintegra/processor.py:371-386 | a type 10 line that parses gives a record its validators accept |
| Parser.Parse75 | pysintegra/processor.py:387-401 | a type 75 line that parses gives a record its validators accept |
| Parser.ParseGeneric | pysintegra/processor.py:365-406 | only Registro10 and Registro75 records are built; any other class gives nothing |
| Parser.Read10 | pysintegra/processor.py:371-386 | a type 10 line is read as a valid union record of type 10 |
| Parser.Read75 | pysintegra/processor.py:387-401 | a type 75 line is read as a valid union record of type 75 |
| Parser.ParseRegistro60 | pysintegra/processor.py:500-511 | no 60 subtype line ever gives a record, since the generic parser builds none of them |
| Parser.ParseRegistro61 | pysintegra/processor.py:513-521 | no 61 or 61R line ever gives a record |
| Parser.ParseLine | pysintegra/processor.py:347-363 | a record is produced only for code "10" (type 10) or code "75" (type 75), and is valid |
| Parser.LineRecord | pysintegra/processor.py:337-343 | a line gives a record only when it starts with "10" or "75" after dropping the trailing '\r' characters |
| Parser.ContentLines | pysintegra/processor.py:337 | splitting the stripped content on '\n' gives at least one piece, and no piece holds '\n' |
| Parser.ParsedStep | pysintegra/processor.py:337-343 | one more line adds its own record, if it reads as one, after those of the lines before it |
| Parser.ParsedRecords | pysintegra/processor.py:337-343 | the parse loop keeps at most one valid record per line |
| Parser.Parse10Columns | pysintegra/processor.py:371-386 | a 126-character line whose columns hold a valid record's fields parses to that record |
| Parser.Parse10Line | pysintegra/processor.py:371-386 | the type 10 parser reads back what `Registro10.to_sintegra_line` wrote |
| Parser.Rounded75Valid | pysintegra/processor.py:387-401 | the type 75 record read back with rounded amounts is still valid |
| Parser.Parse75Columns | pysintegra/processor.py:387-401 | a 126-character line whose columns hold a valid record's fields parses to that record |
| Parser.Amounts75Back | pysintegra/processor.py:395-398 | the four amount columns of a type 75 line are read back as their digits at 2 places |
| Parser.Parse75Line | pysintegra/processor.py:387-401 | the type 75 parser reads back what `Registro75.to_sintegra_line` wrote, with amounts rounded to 2 places |
| Parser.Rounded75Value | pysintegra/processor.py:387-401 | amounts with at most 2 decimals come back with the same value, and every other field is unchanged |
| Parser.LineRecordOf | pysintegra/processor.py:337-343 | a line without a trailing '\r' is dispatched on its first two characters |
| Parser.LineRecord10 | pysintegra/processor.py:337-386 | the parse loop turns a written type 10 line back into the same record |
| Parser.LineDispatch75 | pysintegra/processor.py:337-363 | a line starting with "75", with no trailing '\r', goes to the type 75 branch of `_parse_generic_registry` |
| Parser.LineRecord75 | pysintegra/processor.py:337-401 | the parse loop turns a written type 75 line back into the record with rounded amounts |
| Output.Names | pysintegra/processor.py:50-59 | the class name of each record, in order |
| Output.CountsOccurrences | pysintegra/processor.py:50-59 | a class is counted exactly when a record of it was added, and its count is the number of such records |
| Output.FirstSeenKeys | pysintegra/processor.py:50-59 | the key order holds each added class once, and nothing else |
| Output.FirstSeenOrder | pysintegra/processor.py:50-59 | the keys are ordered by the first record of each class |
| Output.Counts | pysintegra/processor.py:50-59 | every class counted has a count between 1 and the number of records |
| Output.FirstSeen | pysintegra/processor.py:50-59 | there are no more keys than records, and the first key is the first record's class |
| Output.FirstIndex | pysintegra/processor.py:59 | the index found is that of the first occurrence |
| Output.EncodeAll | pysintegra/processor.py:263-265 | when no record raises there is one line per record; otherwise the index given is of a record whose line raises |
| Output.HeaderOf | pysintegra/processor.py:268 | the header found is a type 10 record of the list |
| Output.EncodeAllLines | pysintegra/processor.py:263-265 | when no record raises, there is one line per record, and line i is record i's `to_sintegra_line` |
| Output.EncodeAllBad | pysintegra/processor.py:263-265 | when a record raises, it is the first one that does |
| Output.EncodeAllStops | pysintegra/processor.py:263-265 | a record that raises ends the loop: later records do not matter |
| Output.HeaderOfFirst | pysintegra/processor.py:268-270 | there is no header exactly when there is no type 10 record; otherwise it is the first type 10 record |
| Output.TotalPart | pysintegra/processor.py:276-277 | `f"{type_code}{count:08d}"` has at least 8 characters, and a count below 10^8 is written in its last 8 as digits that denote it |
| Output.Totals | pysintegra/processor.py:273-277 | the totals take at least 8 characters per counted key |
| Output.TotalsStep | pysintegra/processor.py:274-277 | each further key adds its own part, except "Registro90", which adds nothing |
| Output.TotalPartShape | pysintegra/processor.py:273-277 | each totals part starts and ends with a digit, has at least 10 characters, and at most 11 when the count has at most 8 digits |
| Output.TotalsBounds | pysintegra/processor.py:273-277 | the totals take at least 10 characters per counted class, at most 11 when every count has at most 8 digits, and have no blanks at either end |
| Output.FirstSeenClassNames | pysintegra/processor.py:273-277 | every key of the counts is a record class name |
| Output.Join | pysintegra/processor.py:291 | joining no lines gives ""; otherwise the text starts with the first line and ends with the last |
| Output.Trailer | pysintegra/processor.py:280-289 | a type 90 record built is valid, numbered 1, and holds the header's stripped CNPJ and IE |
| Output.TrailerFor | pysintegra/processor.py:280-289 | the type 90 record is refused exactly when the totals exceed 95 characters, with field "totalizacoes"; otherwise it holds the header's CNPJ and IE, the totals and number 1 |
| Output.TrailerLayout | pysintegra/processor.py:283-289 | the type 90 line is 126 characters long, starts with "90" and ends with "1" |
| Output.FileOutput | pysintegra/processor.py:259-291 | generating fails with no records exactly when there are none; text is written only when a type 10 record is present, and then ends with CR-LF |
| Output.OutputWritten | pysintegra/processor.py:252-291 | with a valid header and lines for every record, output is written exactly when the totals fit in 95 characters, and otherwise fails on "totalizacoes" |
| Output.TotalsCapacity | pysintegra/processor.py:273-289 | ten or more counted classes always overflow the 95-character totals; nine or fewer, with counts of at most 8 digits, always fit |
| Output.PartLength | pysintegra/processor.py:276-277 | a part with a count below 10^8 takes as many characters as the class name |
| Output.LongCode | pysintegra/processor.py:276 | a class name has 10 characters, or 11 for Registro60M, 60A, 60I and 61R |
| Output.TotalsLength | pysintegra/processor.py:273-277 | with counts below 10^8 the totals take exactly 10 characters per counted class, plus one per class of a three-character code |
| Output.LongKeysCount | pysintegra/processor.py:50-59 | in a key order without repeats, the classes of a three-character code are counted once each |
| Output.LongKeysDistinct | pysintegra/processor.py:50-59 | distinct class-name keys include at most four of a three-character code |
| Processor.SintegraProcessor.constructor | pysintegra/processor.py:45-48 | a new processor has no records and no counts |
| Processor.SintegraProcessor.AddRecord | pysintegra/processor.py:50-59 | the record is appended and its class counted once more; a new class goes last in the key order; the counts stay those of the records |
| Processor.SintegraProcessor.GetRecordCounts | pysintegra/processor.py:553-555 | the counts returned are those of the records, in first-seen order |
| Processor.SintegraProcessor.ClearRecords | pysintegra/processor.py:557-560 | no records and no counts are left |
| Processor.SintegraProcessor.RecordLines | pysintegra/processor.py:263-265 | the loop gives the lines of all records, or the first record that raises |
| Processor.SintegraProcessor.FindHeader | pysintegra/processor.py:268 | the search finds the first type 10 record, if any |
| Processor.SintegraProcessor.Totalization | pysintegra/processor.py:273-277 | the loop builds the totals of every class but type 90, in key order |
| Processor.SintegraProcessor.GenerateOutput | pysintegra/processor.py:252-291 | the result is the file text, or the first error in source order: no records, a record that raises, no type 10 record, the type 90 record refused, or its line raising |
| Processor.SintegraProcessor.AddLine | pysintegra/processor.py:337-345 | the line's record, when it reads as one, is added; nothing else changes the records |
| Processor.SintegraProcessor.ParseContent | pysintegra/processor.py:303-345 | a new processor whose records are those parsed from the lines of the content, in order, with consistent counts |
| HeaderRecords.Make10 | pysintegra/models.py:56-139 | construction succeeds exactly when the record holding its validated text fields stripped, the state codes also upper-cased, and the other values unchanged is valid, and it then holds that record; a record already valid comes back unchanged |
| HeaderRecords.Encode10 | pysintegra/models.py:140-155 | the line starts with the record's type code "10" |
| HeaderRecords.Layout10 | pysintegra/models.py:140-155 | for a valid record, the line has 126 characters and each column gives back its field: text after strip, dates through `_parse_date`, numbers as the digits of the written value |
| HeaderRecords.Make11 | pysintegra/models.py:158-179 | construction succeeds exactly when the record holding its validated text fields stripped and the other values unchanged is valid, and it then holds that record; a record already valid comes back unchanged |
| HeaderRecords.Encode11 | pysintegra/models.py:180-191 | the line starts with the record's type code "11" |
| HeaderRecords.Layout11 | pysintegra/models.py:180-191 | for a valid record, the line has 126 characters and each column gives back its field: text after strip, dates through `_parse_date`, numbers as the digits of the written value |
| InvoiceRecords.Make50 | pysintegra/models.py:194-274 | construction succeeds exactly when the record holding its validated text fields stripped, the state codes also upper-cased, and the other values unchanged is valid, and it then holds that record; a record already valid comes back unchanged |
| InvoiceRecords.Encode50 | pysintegra/models.py:275-295 | the line starts with the record's type code "50" |
| InvoiceRecords.Layout50 | pysintegra/models.py:275-295 | for a valid record whose numbers fit their columns, the line has 126 characters and each column gives back its field: text after strip, dates through `_parse_date`, numbers as the digits of the written value |
| InvoiceRecords.Make51 | pysintegra/models.py:298-382 | construction succeeds exactly when the record holding its validated text fields stripped, the state codes also upper-cased, and the other values unchanged is valid, and it then holds that record; a record already valid comes back unchanged |
| InvoiceRecords.Encode51 | pysintegra/models.py:383-399 | the line starts with the record's type code "51" |
| InvoiceRecords.Layout51 | pysintegra/models.py:383-399 | for a valid record whose numbers fit their columns, the line has 126 characters and each column gives back its field: text after strip, dates through `_parse_date`, numbers as the digits of the written value |
| InvoiceRecords.Make53 | pysintegra/models.py:402-491 | construction succeeds exactly when the record holding its validated text fields stripped, the state codes also upper-cased, and the other values unchanged is valid, and it then holds that record; a record already valid comes back unchanged |
| InvoiceRecords.Encode53 | pysintegra/models.py:492-509 | the line starts with the record's type code "53" |
| InvoiceRecords.Layout53 | pysintegra/models.py:492-509 | for a valid record whose numbers fit their columns, the line has 126 characters and each column gives back its field: text after strip, dates through `_parse_date`, numbers as the digits of the written value |
| InvoiceRecords.Make54 | pysintegra/models.py:512-562 | construction succeeds exactly when the record holding its validated text fields stripped and the other values unchanged is valid, and it then holds that record; a record already valid comes back unchanged |
| InvoiceRecords.Encode54 | pysintegra/models.py:563-581 | the line starts with the record's type code "54" |
| InvoiceRecords.Layout54 | pysintegra/models.py:563-581 | for a valid record whose numbers fit their columns, the line has 126 characters and each column gives back its field: text after strip, dates through `_parse_date`, numbers as the digits of the written value |
| InvoiceRecords.Make55 | pysintegra/models.py:584-673 | construction succeeds exactly when the record holding its validated text fields stripped, the state codes also upper-cased, and the other values unchanged is valid, and it then holds that record; a record already valid comes back unchanged |
| InvoiceRecords.Encode55 | pysintegra/models.py:674-689 | the line starts with the record's type code "55" |
| InvoiceRecords.Layout55 | pysintegra/models.py:674-689 | for a valid record whose numbers fit their columns, the line has 125 characters and each column gives back its field: text after strip, dates through `_parse_date`, numbers as the digits of the written value |
| CouponRecords.Make60M | pysintegra/models.py:692-718 | construction succeeds exactly when the record holding its validated text fields stripped and the other values unchanged is valid, and it then holds that record; a record already valid comes back unchanged |
| CouponRecords.Encode60M | pysintegra/models.py:719-734 | the line starts with the record's type code "60M" |
| CouponRecords.Layout60M | pysintegra/models.py:719-734 | for a valid record whose numbers fit their columns, the line has 126 characters and each column gives back its field: text after strip, dates through `_parse_date`, numbers as the digits of the written value |
| CouponRecords.Make60A | pysintegra/models.py:737-757 | construction succeeds exactly when the record holding its validated text fields stripped and the other values unchanged is valid, and it then holds that record; a record already valid comes back unchanged |
| CouponRecords.Encode60A | pysintegra/models.py:758-767 | the line starts with the record's type code "60A" |
| CouponRecords.Layout60A | pysintegra/models.py:758-767 | for a valid record whose numbers fit their columns, the line has 126 characters and each column gives back its field: text after strip, dates through `_parse_date`, numbers as the digits of the written value |
| CouponRecords.Make60I | pysintegra/models.py:770-800 | construction succeeds exactly when the record holding its validated text fields stripped and the other values unchanged is valid, and it then holds that record; a record already valid comes back unchanged |
| CouponRecords.Encode60I | pysintegra/models.py:801-816 | the line starts with the record's type code "60I" |
| CouponRecords.Layout60I | pysintegra/models.py:801-816 | for a valid record whose numbers fit their columns, the line has 106 characters and each column gives back its field: text after strip, dates through `_parse_date`, numbers as the digits of the written value |
| CouponRecords.Make61 | pysintegra/models.py:819-845 | construction succeeds exactly when the record holding its validated text fields stripped and the other values unchanged is valid, and it then holds that record; a record already valid comes back unchanged |
| CouponRecords.Encode61 | pysintegra/models.py:846-864 | the line starts with the record's type code "61" |
| CouponRecords.Layout61 | pysintegra/models.py:846-864 | for a valid record whose numbers fit their columns, the line has 126 characters and each column gives back its field: text after strip, dates through `_parse_date`, numbers as the digits of the written value |
| CouponRecords.Make61R | pysintegra/models.py:867-890 | construction succeeds exactly when the record holding its validated text fields stripped and the other values unchanged is valid, and it then holds that record; a record already valid comes back unchanged |
| CouponRecords.Encode61R | pysintegra/models.py:891-902 | the line starts with the record's type code "61R" |
| CouponRecords.Layout61R | pysintegra/models.py:891-902 | for a valid record whose numbers fit their columns, the line has 126 characters and each column gives back its field: text after strip, dates through `_parse_date`, numbers as the digits of the written value |
| TransportRecords.Make70 | pysintegra/models.py:905-998 | construction succeeds exactly when the record holding its validated text fields stripped, the state codes also upper-cased, and the other values unchanged is valid, and it then holds that record; a record already valid comes back unchanged |
| TransportRecords.Encode70 | pysintegra/models.py:999-1018 | the line starts with the record's type code "70" |
| TransportRecords.Layout70 | pysintegra/models.py:999-1018 | for a valid record whose numbers fit their columns, the line has 128 characters and each column gives back its field: text after strip, dates through `_parse_date`, numbers as the digits of the written value |
| TransportRecords.Make71 | pysintegra/models.py:1021-1108 | construction succeeds exactly when the record holding its validated text fields stripped, the state codes also upper-cased, and the other values unchanged is valid, and it then holds that record; a record already valid comes back unchanged |
| TransportRecords.Encode71 | pysintegra/models.py:1109-1129 | the line starts with the record's type code "71" |
| TransportRecords.Layout71 | pysintegra/models.py:1109-1129 | for a valid record whose numbers fit their columns, the line has 128 characters and each column gives back its field: text after strip, dates through `_parse_date`, numbers as the digits of the written value |
| TransportRecords.Make76 | pysintegra/models.py:1132-1219 | construction succeeds exactly when the record holding its validated text fields stripped, the state codes also upper-cased, and the other values unchanged is valid, and it then holds that record; a record already valid comes back unchanged |
| TransportRecords.Encode76 | pysintegra/models.py:1220-1240 | the line starts with the record's type code "76" |
| TransportRecords.Layout76 | pysintegra/models.py:1220-1240 | for a valid record whose numbers fit their columns, the line has 123 characters and each column gives back its field: text after strip, dates through `_parse_date`, numbers as the digits of the written value |
| ExportRecords.Make85 | pysintegra/models.py:1243-1272 | construction succeeds exactly when the record holding its validated text fields stripped and the other values unchanged is valid, and it then holds that record; a record already valid comes back unchanged |
| ExportRecords.Encode85 | pysintegra/models.py:1273-1292 | the line starts with the record's type code "85" |
| ExportRecords.Layout85 | pysintegra/models.py:1273-1292 | for a valid record whose numbers fit their columns, the line has 122 characters and each column gives back its field: text after strip, dates through `_parse_date`, numbers as the digits of the written value |
| ExportRecords.Make86 | pysintegra/models.py:1295-1375 | construction succeeds exactly when the record holding its validated text fields stripped, the state codes also upper-cased, and the other values unchanged is valid, and it then holds that record; a record already valid comes back unchanged |
| ExportRecords.Encode86 | pysintegra/models.py:1376-1393 | the line starts with the record's type code "86" |
| ExportRecords.Layout86 | pysintegra/models.py:1376-1393 | for a valid record whose numbers fit their columns, the line has 117 characters and each column gives back its field: text after strip, dates through `_parse_date`, numbers as the digits of the written value |
| HeaderRecords.Make90 | pysintegra/models.py:1396-1411 | construction succeeds exactly when the stripped cnpj has 14 characters, the stripped ie at most 14, the stripped totalizacoes at most 95 and numero is 1..9; the record then holds the stripped values, and valid values are kept unchanged |
| HeaderRecords.Encode90 | pysintegra/models.py:1412-1420 | the line exists exactly when `int(cnpj)` succeeds, and then starts with "90" |
| HeaderRecords.Layout90 | pysintegra/models.py:1412-1420 | for a valid record with a digit-only cnpj the line exists, has 126 characters, and its columns give back cnpj, ie, totalizacoes and numero |
| InventoryRecords.Make74 | pysintegra/models.py:1423-1484 | construction succeeds exactly when the record holding its validated text fields stripped, the state codes also upper-cased, and the other values unchanged is valid, and it then holds that record; a record already valid comes back unchanged |
| InventoryRecords.Encode74 | pysintegra/models.py:1485-1498 | the line starts with the record's type code "74" |
| InventoryRecords.Layout74 | pysintegra/models.py:1485-1498 | for a valid record whose numbers fit their columns, the line has 126 characters and each column gives back its field: text after strip, dates through `_parse_date`, numbers as the digits of the written value |
| InventoryRecords.Make75 | pysintegra/models.py:1501-1531 | construction succeeds exactly when the record holding its validated text fields stripped and the other values unchanged is valid, and it then holds that record; a record already valid comes back unchanged |
| InventoryRecords.Encode75 | pysintegra/models.py:1532-1546 | the line starts with the record's type code "75" |
| InventoryRecords.Layout75 | pysintegra/models.py:1532-1546 | for a valid record whose numbers fit their columns, the line has 126 characters and each column gives back its field: text after strip, dates through `_parse_date`, numbers as the digits of the written value |
| RoundTrip.EncodedLineHead | pysintegra/models.py:140-1546 | a written line starts with a digit; a type 10 or 75 line is that record's line, and no other type's line starts with "10" or "75" |
| RoundTrip.RecordLineRead | pysintegra/processor.py:337-406 | reading a written line gives back a type 10 record unchanged, a type 75 record with rounded amounts, and nothing for other types |
| RoundTrip.CrLineRecord | pysintegra/processor.py:338 | a trailing '\r' does not change what a line is read as |
| RoundTrip.ParsedCrLines | pysintegra/processor.py:337-343 | lines that each read back as their record make the parse loop give back the records |
| RoundTrip.EncodedHeads | pysintegra/processor.py:263-265 | the written lines match the records one for one |
| RoundTrip.JoinFirst | pysintegra/processor.py:291 | the joined text starts with the first line's first character |
| RoundTrip.SplitJoined | pysintegra/processor.py:337 | splitting the CR-LF joined text on '\n' gives each line with its '\r', then the last line |
| RoundTrip.ContentOfLines | pysintegra/processor.py:337 | stripping and splitting the written text gives the lines back, each with its '\r' except the last |
| RoundTrip.TrailerLine | pysintegra/processor.py:252-291 | the type 90 line is 126 characters long, starts with "90" and ends with "1", and the file is the record lines and it, CR-LF joined and terminated |
| RoundTrip.RecordLinesReadBack | pysintegra/processor.py:337-406 | the parse loop over the written record lines gives back the records |
| RoundTrip.TrailerSkipped | pysintegra/processor.py:337-343 | the type 90 line adds no record |
| RoundTrip.TextLines | pysintegra/processor.py:337 | the written text is split back into the record lines and the type 90 line |
| RoundTrip.FileReadBack | pysintegra/processor.py:252-345 | when the output is written, its text is the record lines and the type 90 line joined by CR-LF, splitting it gives those lines back, and parsing it gives back, in order, each type 10 record unchanged and each type 75 record with amounts rounded to 2 places, while records of other types are skipped |

## Behaviour that follows the code

A general description of the SINTEGRA layout says several things that
pysintegra's code does not do. The model follows the code in each case:

- A number too wide for its column is not an error. `rjust` never cuts, so
  the line grows longer than its layout. `FormatNumeric` states this, and
  the `LayoutXX` lemmas require `FitsXX` (each number fits its column).
- `_format_numeric` with decimal places rounds half to even, through the
  default `Decimal` context of `f"{value:.Nf}"`; it does not round half up.
  The f-string records (51, 53, 54, 55, 60M …) write `int(v * 100)`, which
  truncates toward zero (`TruncScaled`).
- Reading a file gives back only records of types 10 and 75.
  `_parse_generic_registry` builds no other class. A line that fails
  validation, and every line of another type, is dropped with a printed
  warning (`Parser.ParseGeneric`, `RoundTrip.FileReadBack`).
- `generate_output` always fails for ten or more record classes other than
  type 90: their parts take at least 100 characters, and the type 90
  `totalizacoes` field holds at most 95. Nine classes always fit while every
  count has at most 8 digits, because at most four classes (60M, 60A, 60I,
  61R) have three-character codes (`Output.TotalsCapacity`).
- `_parse_date` strips its column first. It accepts any text that is 8
  characters once stripped and that `int()` reads as a calendar date
  (`Scan.ParseDate`).

## Left out

- File I/O: `save_to_file` and the `read_text` of `parse_from_file` are not modelled. `ParseContent` takes the file's text as a parameter.
- The printed warnings of `_parse_line` and `_parse_generic_registry` are not modelled, because they change no state. The line is simply dropped.
- `_parse_registro_10/11/50/74/75/90` are not modelled, because nothing in `parse_from_file` calls them.
- The `add_registro_*` convenience methods are not modelled. Each one builds a record and calls `add_record`, and `AddRecord` takes the built record.
- `int` and `float` arguments to `_format_numeric` (`Decimal(str(value))`) are not modelled: floats are not represented, and numeric fields are `int` or `Dec`.
- The sign of a negative zero `Decimal` is not modelled, because `Dec` has a single zero.
- Years below 1000 are not modelled faithfully. `strftime("%Y")` renders them differently on different platforms, and the model always writes four zero-padded digits.
- Whitespace is Python's `str.isspace`. Pydantic's own strip may treat U+001C..U+001F differently, and that difference is left out.
- Validation error messages are reduced to the name of the failing field.
- `int()` and `Decimal()` are modelled on ASCII digits, one optional sign and one decimal point. Underscores, non-ASCII digits, exponents, `inf` and `nan` are not modelled.
- Python's insertion-ordered `dict` `_record_counts` is modelled as a `map` together with the sequence of its keys in insertion order.
- The legacy API (`registros.py`, `classes.py`, `processamento.py`, `test.py`), the examples, `setup.py` and the package `__init__.py` are not part of this model.
- Parser.Parse75Line: the amounts come back rounded to two places (`Rounded75`), not equal to the record, because the layout keeps only two decimals. `Parser.Rounded75Value` shows the value is unchanged when the record had at most two.
- RoundTrip.FileReadBack: connects the text `generate_output` returns with the text `parse_from_file` parses, leaving out the file between them. `write_text(..., encoding="latin-1")` raises for a character above U+00FF, and the universal newlines of `read_text` turn a lone '\r' inside a field into a line break; neither is modelled.
- RoundTrip.FileReadBack: requires that no written line contain '\n'. A text field with an inner newline passes validation (strip only trims the ends), and its line would be split in two when read back.
- RoundTrip.FileReadBack: requires that the output is written, and that type 75 numbers fit their columns (`Writable`).
- Fields.FormatDigitCode: states only what it gives for a digit string of its column's width, because the CNPJ and CEP validators admit nothing else.
- Fields.CheckDigitCode: `str.isdigit` also accepts non-ASCII digits, such as '²' and the Arabic-Indic digits, while `IsDigitString` accepts only '0'..'9'. A CNPJ of such digits passes Python's validation (models.py:63-68, 95-101, 168-178, 1525-1530), after which `int()` in `Registro10.to_sintegra_line` raises (models.py:144); the model refuses it at validation.
- Fields.TruncScaled: computes `int(v * 10^k)` exactly, while Python multiplies in the 28-digit default `Decimal` context. For v = 0.99999999999999999999999999999, Python's `v * 100` rounds to 100 and writes 100, where the model writes 99.
- Text.Upper: upper-cases only 'a'..'z', the dotless i and the long s, and keeps every other character, while `str.upper` upper-cases every cased letter ('é' to 'É', 'ß' to "SS", which changes the length). The only caller, the state-code validator (models.py:135-138), accepts a value only when its upper case is one of the 27 two-letter codes, no other character upper-cases to a single ASCII capital, and one that upper-cases to several (such as the ligature 'ﬀ') makes a two-character value longer than two; so acceptance and the stored value are the same.
- `validate_assignment=True` (models.py:19) is not modelled: records are immutable values, so a field is only ever set through `MakeXX`.
- The `tipo` and `subtipo` fields (`Literal["51"]`, `Literal["M"]` … with that single value as default, models.py:305, 698-699 and the other record classes) are not fields of the model: each record type writes its fixed code.
- The list `records` is modelled as a value (a `seq` field of the processor). `add_record` and `clear_records` change the Python list in place (processor.py:57, 559), so a caller holding the list from `processor.records` sees the change; the model has no such alias.
