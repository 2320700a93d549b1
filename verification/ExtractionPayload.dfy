// The extraction result as the child writes it and the parent validates it.
// JSON text itself is taken to read back as the tree that was written.

module ExtractionPayload {
  import opened Basics
  import opened Extraction

  datatype Field =
    | SchemaField | PageCountField | ParserField | EngineField | LanguagesField | ConfigField | PagesField
    | NumberField | TextField | MethodField | ConfidenceField | TruncatedField | CodeField | DetailField
    | OtherField(name: string)

  datatype Json =
    | JNull | JBool(b: bool) | JInt(n: int) | JFloat(x: real) | JNotFinite | JText(text: Text)
    | JList(items: seq<Json>) | JObject(fields: map<Field, Json>)

  datatype Extracted = Extracted(pageCount: int, pages: seq<PageRow>, parser: Text, engine: Text, languages: Text,
                                 config: map<Field, Json>)

  const SCHEMA: Text := CodePoints("atlas_argus.extraction_result.v1")
  const MAX_VERSION := 100
  const MAX_LANGUAGES := 50

  // ---- Writing ----

  function NameOf(m: Method): Text
  {
    match m case Native => CodePoints("native") case Ocr => CodePoints("ocr") case Failed => CodePoints("failed")
  }

  function OrNull(text: Option<Text>): Json { if text.Some? then JText(text.value) else JNull }

  function EntryPayload(row: PageRow): Json
  {
    JObject(map[NumberField := JInt(row.number), TextField := JText(row.text), MethodField := JText(NameOf(row.extraction)),
                ConfidenceField := if row.confidenceBps.Some? then JInt(row.confidenceBps.value) else JNull,
                TruncatedField := JBool(row.truncated), CodeField := OrNull(row.failure), DetailField := OrNull(row.detail)])
  }

  function EntryPayloads(rows: seq<PageRow>): (r: seq<Json>)
    ensures |r| == |rows| && forall i :: 0 <= i < |r| ==> r[i] == EntryPayload(rows[i])
  {
    seq(|rows|, i requires 0 <= i < |rows| => EntryPayload(rows[i]))
  }

  function Payload(r: Extracted): Json
  {
    JObject(map[SchemaField := JText(SCHEMA), PageCountField := JInt(r.pageCount), ParserField := JText(r.parser),
                EngineField := JText(r.engine), LanguagesField := JText(r.languages), ConfigField := JObject(r.config),
                PagesField := JList(EntryPayloads(r.pages))])
  }

  // ---- Reading ----

  function Get(fields: map<Field, Json>, f: Field): Json { if f in fields then fields[f] else JNull }

  function MethodOf(json: Json): Option<Method>
  {
    if json == JText(NameOf(Native)) then Some(Native)
    else if json == JText(NameOf(Ocr)) then Some(Ocr)
    else if json == JText(NameOf(Failed)) then Some(Failed)
    else None
  }

  function Truthy(json: Json): bool
  {
    match json
    case JNull => false
    case JBool(b) => b
    case JInt(n) => n != 0
    case JFloat(x) => x != 0.0
    case JNotFinite => true
    case JText(text) => text != []
    case JList(items) => items != []
    case JObject(fields) => fields != map[]
  }

  function Front(text: Text, n: nat): (r: Text)
    ensures r == text <==> |text| <= n
    ensures |r| <= n && r <= text
  {
    if |text| <= n then text else text[..n]
  }

  // The whole number a value equals; a boolean counts as zero or one.
  function Whole(json: Json): Option<int>
  {
    match json
    case JInt(n) => Some(n)
    case JBool(b) => Some(if b then 1 else 0)
    case JFloat(x) => if x == x.Floor as real then Some(x.Floor) else None
    case _ => None
  }

  // One entry, apart from the running total.
  predicate EntryOk(entry: Json, index: int, limits: Limits)
  {
    && entry.JObject?
    && MethodOf(Get(entry.fields, MethodField)).Some?
    && Get(entry.fields, TextField).JText? && Encodable(Get(entry.fields, TextField).text)
    && |Encode(Get(entry.fields, TextField).text)| <= limits.perPage
    && ConfidenceOk(Get(entry.fields, ConfidenceField))
    && Whole(Get(entry.fields, NumberField)) == Some(index)
    && (Get(entry.fields, CodeField).JNull? || Get(entry.fields, CodeField).JText?)
  }

  // A boolean is an integer here, a float is not.
  predicate ConfidenceOk(json: Json)
  {
    json.JNull? || ((json.JInt? || json.JBool?) && 0 <= Whole(json).value <= MAX_CONFIDENCE)
  }

  // An entry on which the validator itself breaks instead of refusing: its
  // method cannot be looked up, or its text has no encoding.
  predicate EntryBreaks(entry: Json)
  {
    && entry.JObject?
    && var named, text := Get(entry.fields, MethodField), Get(entry.fields, TextField);
       named.JList? || named.JObject? || (MethodOf(named).Some? && text.JText? && !Encodable(text.text))
  }

  function TextOrNone(json: Json): Option<Text> { if json.JText? then Some(json.text) else None }

  function RowFrom(entry: Json): PageRow
    requires entry.JObject?
    requires MethodOf(Get(entry.fields, MethodField)).Some?
  {
    var fields := entry.fields;
    var number, text, confidence := Get(fields, NumberField), Get(fields, TextField), Get(fields, ConfidenceField);
    PageRow(Whole(number).GetOr(0), if text.JText? then text.text else [], MethodOf(Get(fields, MethodField)).value,
            Whole(confidence), Truthy(Get(fields, TruncatedField)),
            TextOrNone(Get(fields, CodeField)),
            if Get(fields, DetailField).JText? then Some(Front(Get(fields, DetailField).text, MAX_DETAIL)) else None)
  }

  ghost predicate EntriesOk(entries: seq<Json>, limits: Limits)
  {
    forall i :: 0 <= i < |entries| ==> EntryOk(entries[i], i + 1, limits)
  }

  function RowsFrom(entries: seq<Json>, limits: Limits): (r: seq<PageRow>)
    requires EntriesOk(entries, limits)
    ensures |r| == |entries| && forall i :: 0 <= i < |r| ==> EntryOk(entries[i], i + 1, limits) && r[i] == RowFrom(entries[i])
  {
    seq(|entries|, i requires 0 <= i < |entries| && EntryOk(entries[i], i + 1, limits) => RowFrom(entries[i]))
  }

  ghost predicate Accepted(payload: Json, limits: Limits)
  {
    && payload.JObject? && Get(payload.fields, SchemaField) == JText(SCHEMA)
    && Get(payload.fields, PagesField).JList?
    && var entries := Get(payload.fields, PagesField).items;
       && 1 <= |entries| <= limits.maxPages && EntriesOk(entries, limits)
       && TotalBytes(RowsFrom(entries, limits)) <= limits.total
  }

  // The entries before this one are all in order and within the budget.
  ghost predicate ReachedAt(entries: seq<Json>, limits: Limits, n: nat)
    requires n < |entries|
  {
    EntriesOk(entries[..n], limits) && TotalBytes(RowsFrom(entries[..n], limits)) <= limits.total
  }

  ghost predicate SomeEntryBreaks(entries: seq<Json>, limits: Limits)
  {
    exists n :: 0 <= n < |entries| && ReachedAt(entries, limits, n) && EntryBreaks(entries[n])
  }

  ghost predicate Breaks(payload: Json, limits: Limits)
  {
    && payload.JObject? && Get(payload.fields, SchemaField) == JText(SCHEMA)
    && Get(payload.fields, PagesField).JList?
    && var entries := Get(payload.fields, PagesField).items;
       |entries| <= limits.maxPages && SomeEntryBreaks(entries, limits)
  }

  // What a value prints as, where the source calls str() on it.
  type Printer = Json -> Text

  function Printed(fields: map<Field, Json>, f: Field, default: Text, n: nat, printer: Printer): Text
  {
    Front(if f !in fields then default else if fields[f].JText? then fields[f].text else printer(fields[f]), n)
  }

  const UNKNOWN: Text := CodePoints("unknown")
  const OCR_LANGUAGES: Text := CodePoints("eng")

  ghost function ResultOf(payload: Json, limits: Limits, printer: Printer): Extracted
    requires Accepted(payload, limits)
  {
    var rows := RowsFrom(Get(payload.fields, PagesField).items, limits);
    var config := Get(payload.fields, ConfigField);
    Extracted(|rows|, rows, Printed(payload.fields, ParserField, UNKNOWN, MAX_VERSION, printer),
              Printed(payload.fields, EngineField, UNKNOWN, MAX_VERSION, printer),
              Printed(payload.fields, LanguagesField, OCR_LANGUAGES, MAX_LANGUAGES, printer),
              if config.JObject? then config.fields else map[])
  }

  // A result, the refusal, or an exception the validator does not foresee.
  datatype Reading<T> = Read(value: T) | Refused | Broken

  method ParseResultPayload(payload: Json, limits: Limits, printer: Printer) returns (result: Reading<Extracted>)
    ensures result.Read? <==> Accepted(payload, limits)
    ensures result.Read? ==> result.value == ResultOf(payload, limits, printer)
    ensures result.Broken? <==> Breaks(payload, limits)
  {
    hide EntryOk, RowFrom, Printed, TotalBytes, SomeEntryBreaks, EntryBreaks;
    if !payload.JObject? || Get(payload.fields, SchemaField) != JText(SCHEMA) {
      return Refused;
    }
    var listed := Get(payload.fields, PagesField);
    if !listed.JList? || listed.items == [] || |listed.items| > limits.maxPages {
      assert listed.JList? && listed.items == [] ==> !SomeEntryBreaks(listed.items, limits) by { NothingBreaks(limits); }
      return Refused;
    }
    var pages := ParsePages(listed.items, limits);
    if !pages.Read? {
      return if pages.Broken? then Broken else Refused;
    }
    var config := Get(payload.fields, ConfigField);
    result := Read(Extracted(|pages.value|, pages.value, Printed(payload.fields, ParserField, UNKNOWN, MAX_VERSION, printer),
                             Printed(payload.fields, EngineField, UNKNOWN, MAX_VERSION, printer),
                             Printed(payload.fields, LanguagesField, OCR_LANGUAGES, MAX_LANGUAGES, printer),
                             if config.JObject? then config.fields else map[]));
  }

  lemma NothingBreaks(limits: Limits)
    ensures !SomeEntryBreaks([], limits)
  {
  }

  method ParsePages(entries: seq<Json>, limits: Limits) returns (pages: Reading<seq<PageRow>>)
    ensures pages.Read? <==> EntriesOk(entries, limits) && TotalBytes(RowsFrom(entries, limits)) <= limits.total
    ensures pages.Read? ==> pages.value == RowsFrom(entries, limits)
    ensures pages.Broken? <==> SomeEntryBreaks(entries, limits)
  {
    hide RowFrom, TotalBytes, Encode, Encodable, MethodOf, ConfidenceOk, TextOrNone, EntryOk, EntryBreaks, Whole;
    var rows: seq<PageRow> := [];
    var total := 0;
    assert entries[..0] == [];
    NoBytes();
    for index := 0 to |entries|
      invariant EntriesOk(entries[..index], limits) && rows == RowsFrom(entries[..index], limits)
      invariant total == TotalBytes(rows) <= limits.total
    {
      var entry := entries[index];
      if EntryBreaks(entry) {
        BrokenIsNotOk(entry, index + 1, limits);
        assert ReachedAt(entries, limits, index);
        return Broken;
      }
      if !EntryOk(entry, index + 1, limits) {
        RefusedFirst(entries, limits, index);
        return Refused;
      }
      OkIsObject(entry, index + 1, limits);
      EntriesSnoc(entries, limits, index);
      total := total + |Encode(Get(entry.fields, TextField).text)|;
      rows := rows + [RowFrom(entry)];
      if total > limits.total {
        TotalOnlyGrows(entries, limits, index + 1);
        OverBudgetFirst(entries, limits, index);
        return Refused;
      }
    }
    assert entries[..|entries|] == entries;
    pages := Read(rows);
    forall n | 0 <= n < |entries| ensures !EntryBreaks(entries[n]) { OkDoesNotBreak(entries[n], n + 1, limits); }
  }

  lemma BrokenIsNotOk(entry: Json, index: int, limits: Limits)
    requires EntryBreaks(entry)
    ensures !EntryOk(entry, index, limits)
  {
    hide Encode, Encodable;
  }

  lemma OkDoesNotBreak(entry: Json, index: int, limits: Limits)
    requires EntryOk(entry, index, limits)
    ensures !EntryBreaks(entry)
  {
    hide Encode, Encodable;
  }

  lemma OkIsObject(entry: Json, index: int, limits: Limits)
    requires EntryOk(entry, index, limits)
    ensures entry.JObject? && MethodOf(Get(entry.fields, MethodField)).Some? && Get(entry.fields, TextField).JText?
  {
  }

  lemma ReachedPast(entries: seq<Json>, limits: Limits, n: nat, i: nat)
    requires n < |entries| && ReachedAt(entries, limits, n) && i < n
    ensures EntryOk(entries[i], i + 1, limits)
  {
    hide EntryOk;
    assert entries[..n][i] == entries[i];
  }

  // Neither the entries before a refused one break, nor are those after it reached.
  lemma RefusedFirst(entries: seq<Json>, limits: Limits, index: nat)
    requires index < |entries| && EntriesOk(entries[..index], limits)
    requires !EntryOk(entries[index], index + 1, limits) && !EntryBreaks(entries[index])
    ensures !SomeEntryBreaks(entries, limits)
  {
    hide EntryOk, EntryBreaks, RowFrom, TotalBytes;
    forall n | 0 <= n < |entries| && ReachedAt(entries, limits, n) ensures !EntryBreaks(entries[n]) {
      if n < index {
        assert EntryOk(entries[..index][n], n + 1, limits);
        OkDoesNotBreak(entries[n], n + 1, limits);
      } else if n > index {
        ReachedPast(entries, limits, n, index);
      }
    }
  }

  lemma OverBudgetFirst(entries: seq<Json>, limits: Limits, index: nat)
    requires index < |entries| && EntriesOk(entries[..index + 1], limits)
    requires TotalBytes(RowsFrom(entries[..index + 1], limits)) > limits.total
    ensures !SomeEntryBreaks(entries, limits)
  {
    hide EntryOk, EntryBreaks, RowFrom, TotalBytes;
    forall n | 0 <= n < |entries| && ReachedAt(entries, limits, n) ensures !EntryBreaks(entries[n]) {
      if n <= index {
        assert EntryOk(entries[..index + 1][n], n + 1, limits);
        OkDoesNotBreak(entries[n], n + 1, limits);
      } else {
        assert entries[..n][..index + 1] == entries[..index + 1];
        TotalOnlyGrows(entries[..n], limits, index + 1);
      }
    }
  }

  lemma NoBytes()
    ensures TotalBytes([]) == 0
  {
  }

  lemma EntriesSnoc(entries: seq<Json>, limits: Limits, n: nat)
    requires n < |entries| && EntriesOk(entries[..n], limits) && EntryOk(entries[n], n + 1, limits)
    ensures EntriesOk(entries[..n + 1], limits)
    ensures RowsFrom(entries[..n + 1], limits) == RowsFrom(entries[..n], limits) + [RowFrom(entries[n])]
    ensures TotalBytes(RowsFrom(entries[..n], limits) + [RowFrom(entries[n])])
            == TotalBytes(RowsFrom(entries[..n], limits)) + |Encode(Get(entries[n].fields, TextField).text)|
  {
    hide Encode, Encodable, MethodOf, ConfidenceOk, TextOrNone;
    var front, longer := entries[..n], entries[..n + 1];
    forall i | 0 <= i < |longer| ensures EntryOk(longer[i], i + 1, limits) {
      assert i < n ==> longer[i] == front[i];
    }
    var rows := RowsFrom(front, limits);
    assert RowsFrom(longer, limits) == rows + [RowFrom(entries[n])];
    assert (rows + [RowFrom(entries[n])])[..n] == rows;
  }

  lemma TotalOnlyGrows(entries: seq<Json>, limits: Limits, n: nat)
    requires n <= |entries| && EntriesOk(entries[..n], limits)
    requires TotalBytes(RowsFrom(entries[..n], limits)) > limits.total
    ensures EntriesOk(entries, limits) ==> TotalBytes(RowsFrom(entries, limits)) > limits.total
  {
    hide EntryOk, RowFrom, TotalBytes;
    if EntriesOk(entries, limits) {
      var rows := RowsFrom(entries, limits);
      assert RowsFrom(entries[..n], limits) == rows[..n];
      TotalGrows(rows, n);
    }
  }

  // ---- Whatever is accepted is bounded ----

  ghost predicate RowInOrder(row: PageRow, number: int, limits: Limits)
  {
    && row.number == number && Encodable(row.text) && |Encode(row.text)| <= limits.perPage
    && (row.confidenceBps.Some? ==> 0 <= row.confidenceBps.value <= MAX_CONFIDENCE)
  }

  ghost predicate InOrder(r: Extracted, limits: Limits)
  {
    && r.pageCount == |r.pages| && 1 <= |r.pages| <= limits.maxPages && TotalBytes(r.pages) <= limits.total
    && forall i :: 0 <= i < |r.pages| ==> RowInOrder(r.pages[i], i + 1, limits)
  }

  ghost predicate WithinLengths(r: Extracted)
  {
    && |r.parser| <= MAX_VERSION && |r.engine| <= MAX_VERSION && |r.languages| <= MAX_LANGUAGES
    && forall i :: 0 <= i < |r.pages| ==> DetailFits(r.pages[i])
  }

  predicate DetailFits(row: PageRow) { row.detail.Some? ==> |row.detail.value| <= MAX_DETAIL }

  lemma RowFromIsBounded(entry: Json, index: int, limits: Limits)
    requires EntryOk(entry, index, limits)
    ensures RowInOrder(RowFrom(entry), index, limits) && DetailFits(RowFrom(entry))
  {
    hide Encode, Encodable, MethodOf;
  }

  // Nothing the child writes can get more than this past the parent.
  lemma AcceptedIsBounded(payload: Json, limits: Limits, printer: Printer)
    requires Accepted(payload, limits)
    ensures InOrder(ResultOf(payload, limits, printer), limits) && WithinLengths(ResultOf(payload, limits, printer))
  {
    hide EntryOk, RowFrom, RowInOrder, DetailFits, TotalBytes;
    var entries := Get(payload.fields, PagesField).items;
    forall i | 0 <= i < |entries|
      ensures EntryOk(entries[i], i + 1, limits)
      ensures RowInOrder(RowsFrom(entries, limits)[i], i + 1, limits) && DetailFits(RowsFrom(entries, limits)[i])
    {
      assert EntryOk(entries[i], i + 1, limits);
      RowFromIsBounded(entries[i], i + 1, limits);
    }
  }

  // ---- The round trip ----

  lemma MethodReadsBack(m: Method)
    ensures MethodOf(JText(NameOf(m))) == Some(m)
  {
    assert |NameOf(Native)| == 6 && |NameOf(Ocr)| == 3 && |NameOf(Failed)| == 6;
    assert NameOf(Native)[0] != NameOf(Failed)[0];
  }

  lemma EntryReadsBack(row: PageRow, index: int, limits: Limits)
    requires RowInOrder(row, index, limits)
    ensures EntryOk(EntryPayload(row), index, limits)
    ensures RowFrom(EntryPayload(row)) == row <==> DetailFits(row)
    ensures RowFrom(EntryPayload(row)).text == row.text
  {
    hide Encode, Encodable, MethodOf, NameOf;
    MethodReadsBack(row.extraction);
  }

  lemma EntriesReadBack(r: Extracted, limits: Limits)
    requires InOrder(r, limits)
    ensures EntriesOk(EntryPayloads(r.pages), limits)
    ensures var rows := RowsFrom(EntryPayloads(r.pages), limits);
      && (rows == r.pages <==> forall i :: 0 <= i < |r.pages| ==> DetailFits(r.pages[i]))
      && forall i :: 0 <= i < |rows| ==> rows[i].text == r.pages[i].text
  {
    hide RowFrom, RowInOrder, DetailFits, EntryPayload, TotalBytes, Encode, Encodable, MethodOf;
    var entries := EntryPayloads(r.pages);
    forall i | 0 <= i < |entries|
      ensures EntryOk(entries[i], i + 1, limits)
      ensures RowFrom(entries[i]) == r.pages[i] <==> DetailFits(r.pages[i])
      ensures RowFrom(entries[i]).text == r.pages[i].text
    {
      EntryReadsBack(r.pages[i], i + 1, limits);
    }
    var rows := RowsFrom(entries, limits);
    assert rows == r.pages <==> forall i :: 0 <= i < |rows| ==> rows[i] == r.pages[i];
  }

  lemma {:induction false} SameTextsSameTotal(a: seq<PageRow>, b: seq<PageRow>)
    requires |a| == |b| && forall i :: 0 <= i < |a| ==> a[i].text == b[i].text
    ensures TotalBytes(a) == TotalBytes(b)
  {
    if a != [] { SameTextsSameTotal(a[..|a| - 1], b[..|b| - 1]); }
  }

  // The validator maps the child's payload back to the very result the child
  // had, exactly when no version, language list or failure detail is over-long.
  lemma PayloadRoundTrip(r: Extracted, limits: Limits, printer: Printer)
    requires InOrder(r, limits)
    ensures Accepted(Payload(r), limits)
    ensures ResultOf(Payload(r), limits, printer) == r <==> WithinLengths(r)
  {
    hide EntryOk, RowFrom, RowInOrder, DetailFits, EntryPayload, TotalBytes, EntriesOk;
    EntriesReadBack(r, limits);
    var rows := RowsFrom(EntryPayloads(r.pages), limits);
    SameTextsSameTotal(rows, r.pages);
  }

  // Reading is therefore stable: what was accepted once is written and accepted unchanged.
  lemma AcceptedReadsBack(payload: Json, limits: Limits, printer: Printer)
    requires Accepted(payload, limits)
    ensures var r := ResultOf(payload, limits, printer);
            Accepted(Payload(r), limits) && ResultOf(Payload(r), limits, printer) == r
  {
    hide Accepted, ResultOf, InOrder, WithinLengths, Payload;
    AcceptedIsBounded(payload, limits, printer);
    PayloadRoundTrip(ResultOf(payload, limits, printer), limits, printer);
  }

  // ---- The child's own results ----

  lemma {:induction false} PrefixEncodable(text: Text, kept: Text)
    requires Encodable(text) && kept <= text
    ensures Encodable(kept)
  {
    forall i | 0 <= i < |kept| ensures !Surrogate(kept[i]) {
      assert kept[i] == text[i];
    }
  }

  lemma ExtractedRowInOrder(inputs: seq<PageInput>, limits: Limits, i: nat)
    requires PagesOf(inputs, limits).Some? && i < |inputs|
    ensures RowInOrder(PagesOf(inputs, limits).value[i], i + 1, limits)
  {
    hide PagesOf, TotalBytes, Encode, Encodable, BoundedPageText, Offered;
    PageAt(inputs, limits, i);
    PagesAreKept(inputs, limits, i + 1);
    var rows := PagesOf(inputs, limits).value;
    assert PageKept(inputs[i], rows[i], i + 1, limits, TotalBytes(rows[..i]));
    if rows[i] == Exhausted(i + 1) {
      NothingEncodes();
    } else {
      assert rows[i] == RowFor(inputs[i], i + 1, limits, TotalBytes(rows[..i]));
      RowTextEncodable(inputs[i], i + 1, limits, TotalBytes(rows[..i]));
    }
  }

  lemma NothingEncodes()
    ensures Encodable([]) && |Encode([])| == 0
  {
  }

  lemma RowTextEncodable(input: PageInput, number: int, limits: Limits, used: nat)
    requires Encodable(Offered(input))
    ensures Encodable(RowFor(input, number, limits, used).text)
  {
    hide Encode, Encodable, BoundedPageText, Offered;
    NothingEncodes();
    BoundedIsTight(Offered(input), limits, used);
    PrefixEncodable(Offered(input), BoundedPageText(Offered(input), limits, used).0);
  }

  lemma ExtractedDetailFits(inputs: seq<PageInput>, limits: Limits, i: nat)
    requires PagesOf(inputs, limits).Some? && i < |inputs|
    ensures DetailFits(PagesOf(inputs, limits).value[i])
  {
    hide PagesOf, TotalBytes, Encode, Encodable, BoundedPageText, Offered, OcrCode, PrecheckCode;
    PageAt(inputs, limits, i);
    var rows := PagesOf(inputs, limits).value;
    if rows[i] == Exhausted(i + 1) {
      assert |BUDGET_DETAIL| <= MAX_DETAIL;
    } else {
      assert rows[i] == RowFor(inputs[i], i + 1, limits, TotalBytes(rows[..i]));
    }
  }

  function ChildResult(inputs: seq<PageInput>, limits: Limits, parser: Text, engine: Text, config: map<Field, Json>): Extracted
    requires PagesOf(inputs, limits).Some?
  {
    Extracted(|inputs|, PagesOf(inputs, limits).value, parser, engine, OCR_LANGUAGES, config)
  }

  // Every document the child extracts is accepted, and reads back as itself
  // exactly when the versions of the parser and of the OCR engine are short
  // enough: nothing on a page can be cut.
  lemma ChildResultRoundTrips(inputs: seq<PageInput>, limits: Limits, parser: Text, engine: Text,
                              config: map<Field, Json>, printer: Printer)
    requires PagesOf(inputs, limits).Some? && 1 <= |inputs| <= limits.maxPages
    ensures var r := ChildResult(inputs, limits, parser, engine, config);
      && Accepted(Payload(r), limits)
      && (ResultOf(Payload(r), limits, printer) == r <==> |parser| <= MAX_VERSION && |engine| <= MAX_VERSION)
  {
    hide PagesOf, TotalBytes, RowInOrder, Payload, ResultOf, Accepted, DetailFits, PageKept;
    var r := ChildResult(inputs, limits, parser, engine, config);
    ExtractionWithinBudgets(inputs, limits);
    forall i | 0 <= i < |r.pages| ensures RowInOrder(r.pages[i], i + 1, limits) && DetailFits(r.pages[i]) {
      ExtractedRowInOrder(inputs, limits, i);
      ExtractedDetailFits(inputs, limits, i);
    }
    assert |OCR_LANGUAGES| == 3;
    PayloadRoundTrip(r, limits, printer);
  }

  // For instance: one empty page, and a parser whose version takes one character
  // too many.
  lemma LongVersionIsCut(limits: Limits, config: map<Field, Json>, printer: Printer)
    requires limits.maxPages >= 1
    ensures var inputs, parser := [Parsed(Some([]), false, None, Recognized([], None))], seq(MAX_VERSION + 1, _ => 0x31);
      && PagesOf(inputs, limits).Some?
      && var r := ChildResult(inputs, limits, parser, [], config);
         Accepted(Payload(r), limits) && ResultOf(Payload(r), limits, printer) != r
  {
    hide RowFor, ChildResult, Payload, ResultOf, Accepted, Encode;
    var inputs, parser := [Parsed(Some([]), false, None, Recognized([], None))], seq(MAX_VERSION + 1, _ => 0x31);
    assert inputs[..0] == [] && PagesOf([], limits) == Some([]);
    NothingEncodes();
    assert PagesOf(inputs, limits).Some?;
    ChildResultRoundTrips(inputs, limits, parser, [], config, printer);
  }
}
