/** The schedule-entry formatter: one schedule record rendered as one line
    of TypeScript object-literal text, ready to paste into an array
    literal. The keys and their order are fixed; string fields are put
    between single quotes exactly as they are (nothing is escaped); the
    week is written bare, as `str` writes an int. */
module Schedule {
  import opened Decimal
  import opened Text

  /** One schedule record: the formatter's eight parameters, in order. */
  datatype Entry = Entry(
    zoneCode: string,
    week: int,
    batch: string,
    date: string,
    timeSlot: string,
    equipmentNumber: string,
    orNumber: string,
    deadline: string)

  /** Number of characters the template adds around the fields. */
  const TemplateLength: nat := 113

  /** Every rendered line starts with this text, ahead of the zone code. */
  const Opening: string := "    { zoneCode: '"

  /** Every rendered line ends with this text, after the deadline. */
  const Closing: string := "' },"

  function FormatScheduleEntry(
    zoneCode: string, week: int, batch: string, date: string,
    timeSlot: string, equipment: string, orNumber: string, deadline: string): (r: string)
    ensures |r| == TemplateLength + |zoneCode| + |batch| + |date| + |timeSlot|
                   + |equipment| + |orNumber| + |deadline| + |IntToDecimal(week)|
    ensures |r| >= |Opening| && r[..|Opening|] == Opening
    ensures r[|r| - |Closing|..] == Closing
  {
    "    { zoneCode: '" + zoneCode + "', week: " + IntToDecimal(week)
    + ", batch: '" + batch + "', date: '" + date + "', timeSlot: '" + timeSlot
    + "', equipmentNumber: '" + equipment + "', orNumber: '" + orNumber
    + "', deadline: '" + deadline + "' },"
  }

  /** The formatter applied to a record's fields. */
  function Render(e: Entry): string {
    FormatScheduleEntry(e.zoneCode, e.week, e.batch, e.date, e.timeSlot,
                        e.equipmentNumber, e.orNumber, e.deadline)
  }

  // An independent description of the same line: an element of a
  // TypeScript array literal holding one object literal, whose properties
  // are "key: value" pairs separated by ", ".

  /** The object-literal keys, in the order they are written. */
  const Keys: seq<string> :=
    ["zoneCode", "week", "batch", "date", "timeSlot", "equipmentNumber", "orNumber", "deadline"]

  /** A TypeScript single-quoted string literal, without escaping. */
  function Quote(s: string): string {
    "'" + s + "'"
  }

  /** The property values in key order: text fields quoted, the week bare. */
  function Values(e: Entry): (vs: seq<string>)
    ensures |vs| == |Keys|
  {
    [Quote(e.zoneCode), IntToDecimal(e.week), Quote(e.batch), Quote(e.date),
     Quote(e.timeSlot), Quote(e.equipmentNumber), Quote(e.orNumber), Quote(e.deadline)]
  }

  function Properties(keys: seq<string>, values: seq<string>): (ps: seq<string>)
    requires |keys| == |values|
    ensures |ps| == |keys|
  {
    seq(|keys|, i requires 0 <= i < |keys| => keys[i] + ": " + values[i])
  }

  /** `items` separated by `sep`. */
  function Join(items: seq<string>, sep: string): string {
    if |items| == 0 then ""
    else if |items| == 1 then items[0]
    else Join(items[..|items| - 1], sep) + sep + items[|items| - 1]
  }

  /** One array-literal element: an indented object literal and a comma. */
  function ObjectLiteralLine(keys: seq<string>, values: seq<string>): string
    requires |keys| == |values|
  {
    "    { " + Join(Properties(keys, values), ", ") + " },"
  }

  /** Joining one more item onto a prefix of `items`. */
  lemma JoinStep(open: string, items: seq<string>, sep: string, k: nat)
    requires 1 <= k < |items|
    ensures open + Join(items[..k + 1], sep) == open + Join(items[..k], sep) + sep + items[k]
  {
    assert items[..k + 1][..k] == items[..k];
    Assoc(open, Join(items[..k], sep) + sep, items[k]);
    Assoc(open, Join(items[..k], sep), sep);
  }

  /** Joining one more quoted property after a quoted one appends the
      template's literal between them and the field. */
  lemma JoinQuotedStep(items: seq<string>, k: nat, acc: string, key: string, field: string, lit: string)
    requires 1 <= k < |items|
    requires "    { " + Join(items[..k], ", ") == acc + "'"
    requires items[k] == key + ": " + Quote(field)
    requires lit == "'" + ", " + key + ": " + "'"
    ensures "    { " + Join(items[..k + 1], ", ") == acc + lit + field + "'"
  {
    JoinStep("    { ", items, ", ", k);
  }

  /** The properties of a record, one by one. */
  lemma PropertiesOf(e: Entry)
    ensures var ps := Properties(Keys, Values(e));
      && ps[0] == "zoneCode: " + Quote(e.zoneCode)
      && ps[1] == "week: " + IntToDecimal(e.week)
      && ps[2] == "batch: " + Quote(e.batch)
      && ps[3] == "date: " + Quote(e.date)
      && ps[4] == "timeSlot: " + Quote(e.timeSlot)
      && ps[5] == "equipmentNumber: " + Quote(e.equipmentNumber)
      && ps[6] == "orNumber: " + Quote(e.orNumber)
      && ps[7] == "deadline: " + Quote(e.deadline)
  {
  }

  /** The template's literal text between two quoted properties is the
      closing quote, the separator, the next key and the opening quote. */
  lemma TemplateLiterals()
    ensures "', date: '" == "'" + ", " + "date" + ": " + "'"
    ensures "', timeSlot: '" == "'" + ", " + "timeSlot" + ": " + "'"
    ensures "', equipmentNumber: '" == "'" + ", " + "equipmentNumber" + ": " + "'"
    ensures "', orNumber: '" == "'" + ", " + "orNumber" + ": " + "'"
    ensures "', deadline: '" == "'" + ", " + "deadline" + ": " + "'"
  {
  }

  /** The first three properties: the quoted zone code, the bare week and
      the quoted batch. */
  lemma ObjectLiteralHead(e: Entry)
    ensures "    { " + Join(Properties(Keys, Values(e))[..3], ", ")
         == "    { zoneCode: '" + e.zoneCode + "', week: " + IntToDecimal(e.week) + ", batch: '" + e.batch + "'"
  {
    var ps := Properties(Keys, Values(e));
    PropertiesOf(e);
    var open, sep := "    { ", ", ";
    var b0 := "    { zoneCode: '" + e.zoneCode;
    var b1 := b0 + "', week: " + IntToDecimal(e.week);
    assert open + Join(ps[..1], sep) == b0 + "'";
    JoinStep(open, ps, sep, 1);
    assert open + Join(ps[..2], sep) == b1 by {
      Assoc(b0 + "'" + sep, "week: ", IntToDecimal(e.week));
      Assoc(b0, "'", sep);
      Assoc(b0, "'" + sep, "week: ");
    }
    JoinStep(open, ps, sep, 2);
  }

  /** The formatter writes exactly the object literal whose keys are `Keys`,
      in that order, and whose values are the quoted text fields and the
      bare week. */
  lemma FormatIsObjectLiteral(e: Entry)
    ensures Render(e) == ObjectLiteralLine(Keys, Values(e))
  {
    var ps := Properties(Keys, Values(e));
    PropertiesOf(e);
    TemplateLiterals();
    ObjectLiteralHead(e);
    var open, sep := "    { ", ", ";
    var b2 := "    { zoneCode: '" + e.zoneCode + "', week: " + IntToDecimal(e.week) + ", batch: '" + e.batch;
    var b3 := b2 + "', date: '" + e.date;
    var b4 := b3 + "', timeSlot: '" + e.timeSlot;
    var b5 := b4 + "', equipmentNumber: '" + e.equipmentNumber;
    var b6 := b5 + "', orNumber: '" + e.orNumber;
    var b7 := b6 + "', deadline: '" + e.deadline;
    JoinQuotedStep(ps, 3, b2, "date", e.date, "', date: '");
    JoinQuotedStep(ps, 4, b3, "timeSlot", e.timeSlot, "', timeSlot: '");
    JoinQuotedStep(ps, 5, b4, "equipmentNumber", e.equipmentNumber, "', equipmentNumber: '");
    JoinQuotedStep(ps, 6, b5, "orNumber", e.orNumber, "', orNumber: '");
    JoinQuotedStep(ps, 7, b6, "deadline", e.deadline, "', deadline: '");
    assert ps[..8] == ps;
    Assoc(open, Join(ps, sep), " },");
    Assoc(b7, "'", " },");
  }

  /** Regroups the template's left-to-right concatenation into
      (literal, field) pairs. */
  lemma RegroupPairs(
    p0: string, f0: string, p1: string, f1: string, p2: string, f2: string,
    p3: string, f3: string, p4: string, f4: string, p5: string, f5: string,
    p6: string, f6: string, p7: string, f7: string, p8: string)
    ensures p0 + f0 + p1 + f1 + p2 + f2 + p3 + f3 + p4 + f4 + p5 + f5 + p6 + f6 + p7 + f7 + p8
         == (p0 + f0) + (p1 + f1) + (p2 + f2) + (p3 + f3) + (p4 + f4) + (p5 + f5) + (p6 + f6) + (p7 + f7) + p8
  {
  }

  lemma ExamplePieces()
    ensures "    { zoneCode: '" + "MTR-01" == "    { zoneCode: 'MTR-01"
    ensures "', week: " + "45" == "', week: 45"
    ensures ", batch: '" + "A" == ", batch: 'A"
    ensures "', date: '" + "2024-11-02" == "', date: '2024-11-02"
    ensures "', timeSlot: '" + "SLOT_2300" == "', timeSlot: 'SLOT_2300"
    ensures "', equipmentNumber: '" + "HOK-E25" == "', equipmentNumber: 'HOK-E25"
    ensures "', orNumber: '" + "5000355448" == "', orNumber: '5000355448"
    ensures "', deadline: '" + "16-Nov" == "', deadline: '16-Nov"
  {
  }

  /** The call shown in the script's usage note and run by its main block.
      The expected line is written in pieces that split at its quotes;
      joined, they are the single line
      `    { zoneCode: 'MTR-01', week: 45, batch: 'A', date: '2024-11-02', timeSlot: 'SLOT_2300', equipmentNumber: 'HOK-E25', orNumber: '5000355448', deadline: '16-Nov' },` */
  lemma FormatExample()
    ensures FormatScheduleEntry("MTR-01", 45, "A", "2024-11-02", "SLOT_2300", "HOK-E25", "5000355448", "16-Nov")
         == "    { zoneCode: 'MTR-01" + "', week: 45" + ", batch: 'A" + "', date: '2024-11-02"
          + "', timeSlot: 'SLOT_2300" + "', equipmentNumber: 'HOK-E25" + "', orNumber: '5000355448"
          + "', deadline: '16-Nov" + "' },"
  {
    assert IntToDecimal(45) == "45";
    RegroupPairs("    { zoneCode: '", "MTR-01", "', week: ", "45", ", batch: '", "A",
                 "', date: '", "2024-11-02", "', timeSlot: '", "SLOT_2300",
                 "', equipmentNumber: '", "HOK-E25", "', orNumber: '", "5000355448",
                 "', deadline: '", "16-Nov", "' },");
    ExamplePieces();
  }

  /** `batch` and `date` reach the line only through the text
      batch + "', date: '" + date: the template puts no boundary between
      fields that a quote inside a field cannot imitate. */
  lemma BatchDateOnlyThroughJoin(
    zoneCode: string, week: int, timeSlot: string, equipment: string, orNumber: string, deadline: string,
    batch1: string, date1: string, batch2: string, date2: string)
    requires batch1 + "', date: '" + date1 == batch2 + "', date: '" + date2
    ensures FormatScheduleEntry(zoneCode, week, batch1, date1, timeSlot, equipment, orNumber, deadline)
         == FormatScheduleEntry(zoneCode, week, batch2, date2, timeSlot, equipment, orNumber, deadline)
  {
    var x := "    { zoneCode: '" + zoneCode + "', week: " + IntToDecimal(week) + ", batch: '";
    Assoc(x, batch1, "', date: '");
    Assoc(x, batch1 + "', date: '", date1);
    Assoc(x, batch2, "', date: '");
    Assoc(x, batch2 + "', date: '", date2);
  }

  /** Quotes are not escaped, so two different records can render to the
      same line: a quote in `batch` can pose as the start of `date`. */
  lemma UnescapedQuotesAreAmbiguous()
    ensures var e1 := Entry("Z", 1, "x', date: 'y", "z", "S", "E", "O", "D");
            var e2 := Entry("Z", 1, "x", "y', date: 'z", "S", "E", "O", "D");
            e1 != e2 && Render(e1) == Render(e2)
  {
    var b1, d1, b2, d2 := "x', date: 'y", "z", "x", "y', date: 'z";
    assert |b1| != |b2|;
    assert b1 + "', date: '" + d1 == b2 + "', date: '" + d2;
    BatchDateOnlyThroughJoin("Z", 1, "S", "E", "O", "D", b1, d1, b2, d2);
  }
}
