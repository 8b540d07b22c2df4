/** The inverse of the formatter: reads a rendered line back into a record.
    It works from the end of the line towards its start, stripping the
    template's literal text and taking each field as the text after the
    last quote (after the last space for the week). It succeeds exactly
    on the lines the formatter writes for records whose text fields hold
    no single quote. */
module ScheduleParse {
  import opened Wrappers
  import opened Decimal
  import opened Text
  import opened Schedule

  /** No text field contains a single quote, the one character the template
      uses to delimit them. */
  predicate QuoteFree(e: Entry) {
    && '\'' !in e.zoneCode && '\'' !in e.batch && '\'' !in e.date && '\'' !in e.timeSlot
    && '\'' !in e.equipmentNumber && '\'' !in e.orNumber && '\'' !in e.deadline
  }

  /** Takes a quoted text field off the end of `s`: the text after the last
      quote, then the literal `lit` that introduces it; returns what is left
      in front and the field. */
  function TakeQuoted(s: string, lit: string): (r: Option<(string, string)>)
    ensures r.Some? ==> r.value.0 + lit + r.value.1 == s && '\'' !in r.value.1
  {
    var (init, field) := SplitAfterLast(s, '\'');
    var rest :- StripSuffix(init, lit);
    Some((rest, field))
  }

  /** Takes the bare week numeral off the end of `s` (the text after the
      last space), then the literal that introduces it. */
  function TakeWeek(s: string): (r: Option<(string, int)>)
    ensures r.Some? ==> r.value.0 + "', week: " + IntToDecimal(r.value.1) == s
  {
    var (init, text) := SplitAfterLast(s, ' ');
    var week :- ParseInt(text);
    IntToDecimalOfParseInt(text, week);
    var rest :- StripSuffix(init, "', week: ");
    Some((rest, week))
  }

  function ParseScheduleEntry(line: string): Option<Entry> {
    var s0 :- StripSuffix(line, "' },");
    var (s1, deadline) :- TakeQuoted(s0, "', deadline: '");
    var (s2, orNumber) :- TakeQuoted(s1, "', orNumber: '");
    var (s3, equipment) :- TakeQuoted(s2, "', equipmentNumber: '");
    var (s4, timeSlot) :- TakeQuoted(s3, "', timeSlot: '");
    var (s5, date) :- TakeQuoted(s4, "', date: '");
    var (s6, batch) :- TakeQuoted(s5, ", batch: '");
    var (s7, week) :- TakeWeek(s6);
    var (s8, zoneCode) :- TakeQuoted(s7, "    { zoneCode: '");
    if s8 == [] then
      Some(Entry(zoneCode, week, batch, date, timeSlot, equipment, orNumber, deadline))
    else
      None
  }

  lemma TakeQuotedAppend(prefix: string, lit: string, field: string)
    requires |lit| > 0 && lit[|lit| - 1] == '\'' && '\'' !in field
    ensures TakeQuoted(prefix + lit + field, lit) == Some((prefix, field))
  {
    SplitAfterLastAppend(prefix + lit, field, '\'');
    StripSuffixAppend(prefix, lit);
  }

  lemma TakeWeekAppend(prefix: string, week: int)
    ensures TakeWeek(prefix + "', week: " + IntToDecimal(week)) == Some((prefix, week))
  {
    var w := IntToDecimal(week);
    assert ' ' !in w;
    SplitAfterLastAppend(prefix + "', week: ", w, ' ');
    ParseIntOfIntToDecimal(week);
    StripSuffixAppend(prefix, "', week: ");
  }

  /** Every quote-free record is read back from its rendering. */
  lemma ParseRender(e: Entry)
    requires QuoteFree(e)
    ensures ParseScheduleEntry(Render(e)) == Some(e)
  {
    var x1 := "" + "    { zoneCode: '" + e.zoneCode;
    var x2 := x1 + "', week: " + IntToDecimal(e.week);
    var x3 := x2 + ", batch: '" + e.batch;
    var x4 := x3 + "', date: '" + e.date;
    var x5 := x4 + "', timeSlot: '" + e.timeSlot;
    var x6 := x5 + "', equipmentNumber: '" + e.equipmentNumber;
    var x7 := x6 + "', orNumber: '" + e.orNumber;
    var x8 := x7 + "', deadline: '" + e.deadline;
    assert x1 == "    { zoneCode: '" + e.zoneCode;
    assert x8 + "' }," == Render(e);
    StripSuffixAppend(x8, "' },");
    TakeQuotedAppend(x7, "', deadline: '", e.deadline);
    TakeQuotedAppend(x6, "', orNumber: '", e.orNumber);
    TakeQuotedAppend(x5, "', equipmentNumber: '", e.equipmentNumber);
    TakeQuotedAppend(x4, "', timeSlot: '", e.timeSlot);
    TakeQuotedAppend(x3, "', date: '", e.date);
    TakeQuotedAppend(x2, ", batch: '", e.batch);
    TakeWeekAppend(x1, e.week);
    TakeQuotedAppend("", "    { zoneCode: '", e.zoneCode);
  }

  /** Every line the parser accepts is the rendering of the record it
      returns, and that record is quote-free. */
  lemma RenderParse(line: string, e: Entry)
    requires ParseScheduleEntry(line) == Some(e)
    ensures QuoteFree(e)
    ensures Render(e) == line
  {
    var s0 := StripSuffix(line, "' },").value;
    var (s1, deadline) := TakeQuoted(s0, "', deadline: '").value;
    var (s2, orNumber) := TakeQuoted(s1, "', orNumber: '").value;
    var (s3, equipment) := TakeQuoted(s2, "', equipmentNumber: '").value;
    var (s4, timeSlot) := TakeQuoted(s3, "', timeSlot: '").value;
    var (s5, date) := TakeQuoted(s4, "', date: '").value;
    var (s6, batch) := TakeQuoted(s5, ", batch: '").value;
    var (s7, week) := TakeWeek(s6).value;
    var (s8, zoneCode) := TakeQuoted(s7, "    { zoneCode: '").value;
    assert s8 == [] && e == Entry(zoneCode, week, batch, date, timeSlot, equipment, orNumber, deadline);
    assert s7 == "    { zoneCode: '" + zoneCode;
  }

  /** The parser accepts exactly the renderings of quote-free records. */
  lemma ParseIsInverse(line: string, e: Entry)
    ensures ParseScheduleEntry(line) == Some(e) <==> QuoteFree(e) && line == Render(e)
  {
    if ParseScheduleEntry(line) == Some(e) {
      RenderParse(line, e);
    }
    if QuoteFree(e) && line == Render(e) {
      ParseRender(e);
    }
  }

  /** Hence distinct quote-free records never render to the same line. */
  lemma RenderInjective(e1: Entry, e2: Entry)
    requires QuoteFree(e1) && QuoteFree(e2)
    requires Render(e1) == Render(e2)
    ensures e1 == e2
  {
    ParseRender(e1);
    ParseRender(e2);
  }
}
