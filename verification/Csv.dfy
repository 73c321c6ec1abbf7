/** Comma-separated lines as Python's csv module writes and reads them (quoting per section 2 of
    RFC 4180), used by quant-worker/dataset_sync/codec.py. */
module Csv {

  /** Whether the writer quotes a field because of a carriage return; releases of the csv module
      differ when lines end in a bare line feed. */
  datatype Dialect = Dialect(quotesReturns: bool)

  predicate Special(d: Dialect, c: char) {
    c == ',' || c == '"' || c == '\n' || (d.quotesReturns && c == '\r')
  }

  predicate NeedsQuotes(d: Dialect, field: string) {
    exists i | 0 <= i < |field| :: Special(d, field[i])
  }

  function Doubled(field: string): string {
    if field == "" then ""
    else Doubled(field[..|field| - 1]) + (if field[|field| - 1] == '"' then "\"\"" else [field[|field| - 1]])
  }

  function Quoted(d: Dialect, field: string): string {
    if NeedsQuotes(d, field) then "\"" + Doubled(field) + "\"" else field
  }

  function Joined(d: Dialect, fields: seq<string>): string {
    if fields == [] then ""
    else if |fields| == 1 then Quoted(d, fields[0])
    else Joined(d, fields[..|fields| - 1]) + "," + Quoted(d, fields[|fields| - 1])
  }

  function Line(d: Dialect, fields: seq<string>): string {
    Joined(d, fields) + "\n"
  }

  // ---------------------------------------------------------------- reading

  datatype Mode = LineStart | AfterReturn | FieldStart | InField | InQuotes | QuoteSeen

  /** The reader's state: the field and record under construction and the records read. */
  datatype Scan = Scan(mode: Mode, field: string, record: seq<string>, records: seq<seq<string>>) {
    function Save(): Scan {
      this.(mode := FieldStart, field := "", record := record + [field])
    }

    /** Ends the record; a carriage return may be followed by its line feed. */
    function Emit(c: char): Scan {
      Scan(if c == '\r' then AfterReturn else LineStart, "", [], records + [record + [field]])
    }

    function Grow(c: char, next: Mode): Scan {
      this.(mode := next, field := field + [c])
    }
  }

  predicate Newline(c: char) {
    c == '\n' || c == '\r'
  }

  function StartField(s: Scan, c: char): Scan {
    if Newline(c) then s.Emit(c)
    else if c == '"' then s.(mode := InQuotes)
    else if c == ',' then s.Save()
    else s.Grow(c, InField)
  }

  function Next(s: Scan, c: char): Scan {
    match s.mode
    case LineStart => if Newline(c) then s.(mode := if c == '\r' then AfterReturn else LineStart, records := s.records + [[]]) else StartField(s, c)
    case AfterReturn =>
      if c == '\n' then s.(mode := LineStart)
      else if c == '\r' then s.(records := s.records + [[]])
      else StartField(s, c)
    case FieldStart => StartField(s, c)
    case InField => if Newline(c) then s.Emit(c) else if c == ',' then s.Save() else s.Grow(c, InField)
    case InQuotes => if c == '"' then s.(mode := QuoteSeen) else s.Grow(c, InQuotes)
    case QuoteSeen =>
      if c == '"' then s.Grow(c, InQuotes)
      else if c == ',' then s.Save()
      else if Newline(c) then s.Emit(c)
      else s.Grow(c, InField)
  }

  function Feed(s: Scan, text: string): Scan {
    if text == "" then s else Next(Feed(s, text[..|text| - 1]), text[|text| - 1])
  }

  function Finish(s: Scan): seq<seq<string>> {
    if s.mode.LineStart? || s.mode.AfterReturn? then s.records else s.records + [s.record + [s.field]]
  }

  const Blank := Scan(LineStart, "", [], [])

  /** The records of a text, blank lines as empty records. */
  function Records(text: string): seq<seq<string>> {
    Finish(Feed(Blank, text))
  }

  /** The reader, one character at a time. */
  method ReadRecords(text: string) returns (records: seq<seq<string>>)
    ensures records == Records(text)
  {
    hide Next;
    var s := Blank;
    for i := 0 to |text|
      invariant s == Feed(Blank, text[..i])
    {
      assert text[..i + 1][..i] == text[..i];
      s := Next(s, text[i]);
    }
    assert text[..|text|] == text;
    records := Finish(s);
  }

  // ---------------------------------------------------------------- round trip

  lemma {:induction false} FeedConcat(s: Scan, a: string, b: string)
    ensures Feed(s, a + b) == Feed(Feed(s, a), b)
  {
    hide Next;
    if b == "" {
      assert a + b == a;
    } else {
      assert (a + b)[..|a + b| - 1] == a + b[..|b| - 1];
      FeedConcat(s, a, b[..|b| - 1]);
    }
  }

  lemma FeedOne(s: Scan, c: char)
    ensures Feed(s, [c]) == Next(s, c)
  {
    assert [c][..0] == "";
    assert Feed(s, "") == s;
  }

  /** Ready for the first character of a field. */
  predicate Ready(s: Scan) {
    (s.mode.LineStart? || s.mode.FieldStart?) && s.field == "" && (s.mode.LineStart? ==> s.record == [])
  }

  lemma {:induction false} FeedDoubled(s: Scan, field: string)
    requires s.mode.InQuotes?
    ensures Feed(s, Doubled(field)) == s.(field := s.field + field)
  {
    if field == "" {
      assert s.field + field == s.field;
    } else {
      var (init, c) := (field[..|field| - 1], field[|field| - 1]);
      FeedDoubled(s, init);
      assert s.field + field == s.field + init + [c];
      if c == '"' {
        FeedConcat(s, Doubled(init), "\"\"");
        assert "\"\"" == ['"'] + ['"'];
        var t := Feed(s, Doubled(init));
        FeedConcat(t, ['"'], ['"']);
        FeedOne(t, '"');
        FeedOne(Next(t, '"'), '"');
      } else {
        FeedConcat(s, Doubled(init), [c]);
        FeedOne(Feed(s, Doubled(init)), c);
      }
    }
  }

  predicate PlainChar(c: char) {
    c != ',' && c != '"' && !Newline(c)
  }

  lemma PlainStep(s: Scan, c: char)
    requires PlainChar(c)
    ensures Ready(s) ==> Next(s, c) == s.(mode := InField, field := [c])
    ensures s.mode.InField? ==> Next(s, c) == s.(field := s.field + [c])
  {
    assert "" + [c] == [c];
  }

  lemma {:induction false} FeedPlain(s: Scan, field: string)
    requires Ready(s) && field != "" && forall i :: 0 <= i < |field| ==> PlainChar(field[i])
    ensures Feed(s, field) == s.(mode := InField, field := field)
  {
    hide Next, Ready, PlainChar;
    var (init, c) := (field[..|field| - 1], field[|field| - 1]);
    assert field == init + [c];
    if init == "" {
      FeedOne(s, c);
      PlainStep(s, c);
    } else {
      FeedPlain(s, init);
      PlainStep(Feed(s, init), c);
    }
  }

  /** A field the reader gets back: quoted, or free of carriage returns. */
  predicate Safe(d: Dialect, field: string) {
    NeedsQuotes(d, field) || '\r' !in field
  }

  /** After a written field, a comma saves it and a line feed ends the record with it. */
  lemma FeedQuoted(s: Scan, d: Dialect, field: string)
    requires Ready(s) && Safe(d, field)
    ensures Next(Feed(s, Quoted(d, field)), ',') == s.(mode := FieldStart, record := s.record + [field])
    ensures s.mode.FieldStart? || field != "" ==>
        Next(Feed(s, Quoted(d, field)), '\n') == Scan(LineStart, "", [], s.records + [s.record + [field]])
  {
    if NeedsQuotes(d, field) {
      var t := s.(mode := InQuotes);
      FeedOne(s, '"');
      FeedConcat(s, "\"", Doubled(field));
      FeedDoubled(t, field);
      FeedConcat(s, "\"" + Doubled(field), "\"");
      FeedOne(Feed(t, Doubled(field)), '"');
      assert "" + field == field;
    } else if field == "" {
      assert Feed(s, "") == s;
    } else {
      forall i | 0 <= i < |field|
        ensures PlainChar(field[i])
      {
        assert !Special(d, field[i]) && field[i] in field;
      }
      FeedPlain(s, field);
    }
  }

  /** A record the reader does not take for a blank line. */
  predicate Visible(fields: seq<string>) {
    |fields| > 1 || (|fields| == 1 && fields[0] != "")
  }

  predicate AllSafe(d: Dialect, fields: seq<string>) {
    forall i | 0 <= i < |fields| :: Safe(d, fields[i])
  }

  lemma {:induction false} FeedJoined(records: seq<seq<string>>, d: Dialect, fields: seq<string>)
    requires fields != [] && AllSafe(d, fields)
    ensures var s := Feed(Scan(LineStart, "", [], records), Joined(d, fields));
      && Next(s, ',') == Scan(FieldStart, "", fields, records)
      && (Visible(fields) ==> Next(s, '\n') == Scan(LineStart, "", [], records + [fields]))
  {
    var start := Scan(LineStart, "", [], records);
    var (init, last) := (fields[..|fields| - 1], fields[|fields| - 1]);
    assert init + [last] == fields;
    hide NeedsQuotes, Next, Safe, Quoted;
    if init == [] {
      FeedQuoted(start, d, last);
    } else {
      FeedJoined(records, d, init);
      FeedConcat(start, Joined(d, init), ",");
      FeedOne(Feed(start, Joined(d, init)), ',');
      FeedConcat(start, Joined(d, init) + ",", Quoted(d, last));
      FeedQuoted(Scan(FieldStart, "", init, records), d, last);
    }
  }

  function Lines(d: Dialect, rows: seq<seq<string>>): string {
    if rows == [] then "" else Lines(d, rows[..|rows| - 1]) + Line(d, rows[|rows| - 1])
  }

  predicate Writable(d: Dialect, rows: seq<seq<string>>) {
    forall i | 0 <= i < |rows| :: Visible(rows[i]) && AllSafe(d, rows[i])
  }

  lemma FeedLine(records: seq<seq<string>>, d: Dialect, fields: seq<string>)
    requires Visible(fields) && AllSafe(d, fields)
    ensures Feed(Scan(LineStart, "", [], records), Line(d, fields)) == Scan(LineStart, "", [], records + [fields])
  {
    var start := Scan(LineStart, "", [], records);
    hide Next, Feed, AllSafe, Joined;
    FeedJoined(records, d, fields);
    FeedConcat(start, Joined(d, fields), "\n");
    FeedOne(Feed(start, Joined(d, fields)), '\n');
  }

  /** Reading back written rows gives the rows: every field survives quoting. */
  lemma {:induction false} RecordsOfLines(d: Dialect, rows: seq<seq<string>>)
    requires Writable(d, rows)
    ensures Feed(Blank, Lines(d, rows)) == Scan(LineStart, "", [], rows)
    ensures Records(Lines(d, rows)) == rows
  {
    if rows == [] {
      assert Feed(Blank, "") == Blank;
    } else {
      var (init, last) := (rows[..|rows| - 1], rows[|rows| - 1]);
      assert init + [last] == rows;
      RecordsOfLines(d, init);
      hide Next, AllSafe, Visible, Line;
      FeedConcat(Blank, Lines(d, init), Line(d, last));
      FeedLine(init, d, last);
    }
  }

  // ---------------------------------------------------------------- unquoted carriage returns

  lemma RecordsGrowOne(s: Scan, c: char)
    ensures |s.records| <= |Next(s, c).records| && Next(s, c).records[..|s.records|] == s.records
  {
  }

  lemma {:induction false} RecordsGrow(s: Scan, text: string)
    ensures |s.records| <= |Feed(s, text).records| && Feed(s, text).records[..|s.records|] == s.records
  {
    hide Next;
    if text != "" {
      RecordsGrow(s, text[..|text| - 1]);
      RecordsGrowOne(Feed(s, text[..|text| - 1]), text[|text| - 1]);
    }
  }

  /** The part of a field before its first carriage return. */
  function BeforeReturn(field: string): (r: string)
    requires '\r' in field
    ensures |r| < |field| && field[..|r|] == r && field[|r|] == '\r' && '\r' !in r
  {
    if field[0] == '\r' then "" else [field[0]] + BeforeReturn(field[1..])
  }

  /** Records once read stay first, whatever follows. */
  lemma RecordsStay(text: string, rest: string)
    ensures var (s, all) := (Feed(Blank, text), Records(text + rest));
      |s.records| <= |all| && all[..|s.records|] == s.records
  {
    hide Next, Feed;
    FeedConcat(Blank, text, rest);
    RecordsGrow(Feed(Blank, text), rest);
  }

  lemma Assoc(a: string, b: string, c: string)
    ensures (a + b) + c == a + (b + c)
  {
  }

  lemma Regroup(rows: string, fields: string, head: string, tail: string, rest: string)
    ensures rows + (fields + "," + (head + "\r" + tail) + "\n") + rest == rows + (fields + ",") + head + "\r" + (tail + "\n" + rest)
  {
    var start := rows + (fields + ",");
    var r := "\r";
    Assoc(fields + ",", head + r + tail, "\n");
    Assoc(rows, fields + ",", head + r + tail + "\n");
    Assoc(start, head + r + tail + "\n", rest);
    Assoc(head + r + tail, "\n", rest);
    Assoc(head + r, tail, "\n" + rest);
    Assoc(head, r, tail + ("\n" + rest));
    Assoc(start, head, r + (tail + ("\n" + rest)));
    Assoc(start + head, r, tail + ("\n" + rest));
    Assoc(tail, "\n", rest);
  }

  lemma LineSnoc(d: Dialect, fields: seq<string>, last: string)
    requires fields != [] && !NeedsQuotes(d, last)
    ensures Line(d, fields + [last]) == Joined(d, fields) + "," + last + "\n"
  {
    assert (fields + [last])[..|fields|] == fields;
  }

  lemma BeforeReturnSplits(field: string) returns (tail: string)
    requires '\r' in field
    ensures field == BeforeReturn(field) + "\r" + tail
  {
    tail := field[|BeforeReturn(field)| + 1..];
  }

  /** An unsafe last field ends its record at the carriage return: the reader gets only the part
      before it, whatever follows. */
  lemma UnsafeFieldIsCut(d: Dialect, rows: seq<seq<string>>, fields: seq<string>, last: string, rest: string)
    requires Writable(d, rows) && fields != [] && AllSafe(d, fields) && !Safe(d, last)
    ensures var records := Records(Lines(d, rows) + Line(d, fields + [last]) + rest);
      |records| > |rows| && records[..|rows|] == rows && records[|rows|] == fields + [BeforeReturn(last)]
  {
    assert !NeedsQuotes(d, last);
    hide *;
    var tail := BeforeReturnSplits(last);
    LineSnoc(d, fields, last);
    Regroup(Lines(d, rows), Joined(d, fields), BeforeReturn(last), tail, rest);
    CutState(d, rows, fields, last);
    RecordsStay(Lines(d, rows) + (Joined(d, fields) + ",") + BeforeReturn(last) + "\r", tail + "\n" + rest);
    PrefixOf(Records(Lines(d, rows) + Line(d, fields + [last]) + rest), rows, fields + [BeforeReturn(last)]);
  }

  lemma PrefixOf(all: seq<seq<string>>, rows: seq<seq<string>>, next: seq<string>)
    requires |all| > |rows| && all[..|rows + [next]|] == rows + [next]
    ensures all[..|rows|] == rows && all[|rows|] == next
  {
    assert all[..|rows|] == all[..|rows| + 1][..|rows|];
    assert all[|rows|] == all[..|rows| + 1][|rows|];
  }

  lemma CutState(d: Dialect, rows: seq<seq<string>>, fields: seq<string>, last: string)
    requires Writable(d, rows) && fields != [] && AllSafe(d, fields) && !Safe(d, last)
    ensures var prefix := Lines(d, rows) + (Joined(d, fields) + ",");
      Feed(Blank, prefix + BeforeReturn(last) + "\r") == Scan(AfterReturn, "", [], rows + [fields + [BeforeReturn(last)]])
  {
    var prefix := Lines(d, rows) + (Joined(d, fields) + ",");
    var head := BeforeReturn(last);
    var t := Scan(FieldStart, "", fields, rows);
    assert Feed(Blank, prefix) == t by {
      RecordsOfLines(d, rows);
      FeedJoined(rows, d, fields);
      FeedConcat(Blank, Lines(d, rows), Joined(d, fields) + ",");
      FeedConcat(Scan(LineStart, "", [], rows), Joined(d, fields), ",");
      FeedOne(Feed(Scan(LineStart, "", [], rows), Joined(d, fields)), ',');
    }
    FeedConcat(Blank, prefix, head);
    forall i | 0 <= i < |head|
      ensures PlainChar(head[i])
    {
      assert head[i] == last[i] && !Special(d, last[i]) && head[i] in head;
    }
    if head == "" {
      assert Feed(t, head) == t;
    } else {
      FeedPlain(t, head);
    }
    FeedConcat(Blank, prefix + head, "\r");
    FeedOne(Feed(t, head), '\r');
  }

  /** Exactly the fields holding a comma, a quote, a line feed or, where the writer quotes returns, a
      carriage return are wrapped in quotes; every other field is written as it is. */
  lemma QuotingIsMinimal(d: Dialect, field: string)
    ensures var special := ',' in field || '"' in field || '\n' in field || (d.quotesReturns && '\r' in field);
      && (special ==> |Quoted(d, field)| >= |field| + 2 && Quoted(d, field)[0] == '"' && Quoted(d, field)[|Quoted(d, field)| - 1] == '"')
      && (!special ==> Quoted(d, field) == field)
  {
    assert forall i :: 0 <= i < |field| ==> field[i] in field;
    DoublingGrows(field);
  }

  lemma {:induction false} DoublingGrows(field: string)
    ensures |Doubled(field)| >= |field|
  {
    if field != "" {
      DoublingGrows(field[..|field| - 1]);
    }
  }

  /** Outside quotes a carriage return ends a line, a line feed right behind it belongs to it, and another
      carriage return makes a blank line. */
  lemma LineEnds(s: Scan)
    requires !s.mode.InQuotes?
    ensures !s.mode.AfterReturn? ==> Next(Next(s, '\r'), '\n') == Next(s, '\n')
    ensures Next(Next(s, '\r'), '\r').records == Next(s, '\r').records + [[]]
  {
  }
}
