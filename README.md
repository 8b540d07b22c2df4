# Schedule-entry formatter

A Dafny model of the schedule-data helper script of the MTR maintenance-completion
project. The script's one piece of logic is `format_schedule_entry`. It turns one
schedule record into one line of TypeScript text: an indented object literal followed
by a comma, ready to be pasted into the `seed.ts` array by hand.

The record has eight fields: zone code, week, batch, date, time slot, equipment
number, order number and deadline. Seven are text and the week is an integer. The line
always has the same shape:

- it opens with four spaces and `{ zoneCode: '`;
- the keys are fixed and always come in the order `zoneCode`, `week`, `batch`,
  `date`, `timeSlot`, `equipmentNumber`, `orNumber`, `deadline`;
- text fields go between single quotes exactly as given, with no escaping;
- the week is written bare, in decimal, the way Python's `str` writes an int;
- it closes with `' },`.

The model validates nothing and has no error path.

The project has five modules:

- `Wrappers` (wrappers.dfy): an `Option` type for the parsers.
- `Decimal` (decimal.dfy): `IntToDecimal`, Python's `str` for ints of any size the model
  accepts (see "Left out" for Python's digit limit). It writes
  canonical digits, `0` for zero and a leading `-` for negatives. `ParseInt` is its
  exact inverse.
- `Text` (text.dfy): string helpers used to take a line apart from its end.
- `Schedule` (schedule.dfy): the record, `FormatScheduleEntry` (the f-string, piece
  by piece), and an independent reference rendering `ObjectLiteralLine`. The reference
  is the list of `key: value` properties, joined with `, ` and wrapped in
  `    { ` … ` },`. The module also proves that the two renderings agree for every
  input, proves the script's own example call, and shows that quotes are not escaped.
- `ScheduleParse` (schedule_parse.dfy): `ParseScheduleEntry`, the inverse of the
  formatter. It accepts a line exactly when the line is the rendering of a record
  whose text fields contain no single quote, and in that case it returns that record.

`FormatScheduleEntry`, `Render`, `IntToDecimal` and `NatToDecimal` have no
preconditions, so the formatter is total, and the same inputs always give the same
line. That needs no lemma of its own. String lengths count Unicode code points, as Python's `len` does.

## Model

| member | source | states |
|---|---|---|
| `Schedule.FormatScheduleEntry` | scripts/extract-schedule-data.py:10-12 | The line's length is the template's fixed 113 characters, plus the lengths of the seven text fields, plus the length of the week's decimal form. The line starts with four spaces and `{ zoneCode: '` and ends with `' },`, for every input. |
| `Schedule.FormatIsObjectLiteral` | scripts/extract-schedule-data.py:12 | For every record, the line equals the independent object-literal rendering. That rendering has the keys zoneCode, week, batch, date, timeSlot, equipmentNumber, orNumber, deadline in that order, each text value between single quotes and unescaped, and the week bare. |
| `Schedule.FormatExample` | scripts/extract-schedule-data.py:27 | The script's example call `('MTR-01', 45, 'A', '2024-11-02', 'SLOT_2300', 'HOK-E25', '5000355448', '16-Nov')` yields exactly `    { zoneCode: 'MTR-01', week: 45, batch: 'A', date: '2024-11-02', timeSlot: 'SLOT_2300', equipmentNumber: 'HOK-E25', orNumber: '5000355448', deadline: '16-Nov' },`. |
| `Schedule.BatchDateOnlyThroughJoin` | scripts/extract-schedule-data.py:12 | Quotes in fields are copied, not escaped. So batch and date affect the line only through the text batch + `', date: '` + date, and any two batch/date pairs that give the same such text give the same line. |
| `Schedule.UnescapedQuotesAreAmbiguous` | scripts/extract-schedule-data.py:12 | Two different records render to the same line: batch `x', date: 'y` with date `z`, and batch `x` with date `y', date: 'z`. |
| `ScheduleParse.ParseIsInverse` | scripts/extract-schedule-data.py:12 | For every line and record: the parser returns the record exactly when no text field of the record contains a single quote and the line is the record's rendering. So every field is copied verbatim and the keys stand in their fixed order. |
| `ScheduleParse.ParseRender` | scripts/extract-schedule-data.py:12 | Rendering a quote-free record and parsing the line gives back the same record, including empty fields and any week, negative or zero. |
| `ScheduleParse.RenderParse` | scripts/extract-schedule-data.py:12 | Any line the parser accepts is exactly the rendering of the record it returns, and that record is quote-free. |
| `ScheduleParse.RenderInjective` | scripts/extract-schedule-data.py:12 | Distinct quote-free records never render to the same line. |
| `Decimal.NatToDecimal` | scripts/extract-schedule-data.py:12 | A natural number is written as a non-empty string of decimal digits with no leading zero. It starts with `0` exactly when the number is zero. |
| `Decimal.IntToDecimal` | scripts/extract-schedule-data.py:12 | The week is written as a numeral in the form `str(int)` produces for ints within Python's default digit limit. It starts with `-` exactly when the week is negative, and it holds only digits and that sign, so it never contains a quote, comma or space. |
| `Decimal.ParseIntOfIntToDecimal` | scripts/extract-schedule-data.py:12 | Reading back the decimal form of any integer gives that integer. |
| `Decimal.IntToDecimalOfParseInt` | scripts/extract-schedule-data.py:12 | Every numeral the reader accepts is the decimal form of its value, so the decimal form is canonical. |
| `Decimal.IntToDecimalInjective` | scripts/extract-schedule-data.py:12 | Distinct weeks are written differently. |
| `Decimal.IntToDecimalExamples` | scripts/extract-schedule-data.py:12 | Zero is written `0`, 45 as `45`, -3 as `-3` and 2024 as `2024`. The week is never range-checked. |

## Left out

- The `__main__` block (scripts/extract-schedule-data.py:22-27) only prints a banner, a separator, a note and the example line. That is output to the console. Its one call into the formatter is covered by `Schedule.FormatExample`.
- Extracting data from images and pasting the output into `seed.ts` are manual steps described in comments. They have no code.
- Python's f-string accepts any object and calls `str` on it. The model types the seven text fields as strings and the week as an unbounded integer. The rendering of other types (floats, `None`, objects) is not modelled.
- The source escapes nothing, so the model escapes nothing either. That a quote in a field can imitate a field boundary is stated as a property (`Schedule.UnescapedQuotesAreAmbiguous`). It is not corrected.
- Decimal.IntToDecimal: does not model Python's limit on converting ints to text. With the default of `sys.set_int_max_str_digits`, an int with more than 4300 decimal digits cannot be converted, so `f"{week}"` raises `ValueError` for such a week. The model renders every int and has no such error.
- Python strings may hold lone surrogate code points; a Dafny `char` holds only Unicode scalar values, so text fields containing lone surrogates cannot be represented in the model.
