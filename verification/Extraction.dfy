// Bounded text extraction: two byte budgets threaded through a loop, cuts at
// code-point boundaries, and a validator that reads the result back.

module Extraction {
  import opened Basics

  // ---- UTF-8 (section 3 of RFC 3629) ----

  type CodePoint = c: int | 0 <= c <= 0x10FFFF
  type Text = seq<CodePoint>
  type Byte = b: int | 0 <= b <= 255

  predicate Surrogate(c: CodePoint) { 0xD800 <= c <= 0xDFFF }

  // A text with a lone surrogate has no encoding; the encoder raises on it.
  predicate Encodable(text: Text)
  {
    forall i :: 0 <= i < |text| ==> !Surrogate(text[i])
  }

  function EncodeOne(c: CodePoint): (r: seq<Byte>)
    ensures 1 <= |r| <= 4
  {
    if c < 0x80 then [c]
    else if c < 0x800 then [0xC0 + c / 64, 0x80 + c % 64]
    else if c < 0x10000 then [0xE0 + c / 4096, 0x80 + c / 64 % 64, 0x80 + c % 64]
    else [0xF0 + c / 262144, 0x80 + c / 4096 % 64, 0x80 + c / 64 % 64, 0x80 + c % 64]
  }

  function Encode(text: Text): seq<Byte>
  {
    if text == [] then [] else EncodeOne(text[0]) + Encode(text[1..])
  }

  predicate Continuation(b: Byte) { 0x80 <= b < 0xC0 }

  // How many bytes a lead byte announces; zero for no lead byte.
  function Announced(b: Byte): nat
  {
    if b < 0x80 then 1 else if 0xC2 <= b < 0xE0 then 2 else if 0xE0 <= b < 0xF0 then 3 else if 0xF0 <= b < 0xF5 then 4 else 0
  }

  // The six bits a continuation byte carries.
  function Low(b: int): int { b - 0x80 }

  function Value(bytes: seq<Byte>, k: nat): int
    requires 1 <= k <= 4 && k <= |bytes|
  {
    var lead: int := bytes[0];
    if k == 1 then lead
    else if k == 2 then (lead - 0xC0) * 64 + Low(bytes[1])
    else if k == 3 then (lead - 0xE0) * 4096 + Low(bytes[1]) * 64 + Low(bytes[2])
    else (lead - 0xF0) * 262144 + Low(bytes[1]) * 4096 + Low(bytes[2]) * 64 + Low(bytes[3])
  }

  function Least(k: nat): int { if k <= 1 then 0 else if k == 2 then 0x80 else if k == 3 then 0x800 else 0x10000 }

  // The code point at the front, when a whole, shortest and legal one is there.
  predicate DecodesAt(bytes: seq<Byte>)
  {
    && bytes != []
    && var k := Announced(bytes[0]);
       && 1 <= k <= |bytes| && (forall i :: 1 <= i < k ==> Continuation(bytes[i]))
       && Least(k) <= Value(bytes, k) <= 0x10FFFF && !(0xD800 <= Value(bytes, k) <= 0xDFFF)
  }

  // Decoding with errors ignored: whatever does not decode is skipped.
  function DecodeIgnore(bytes: seq<Byte>): Text
  {
    if bytes == [] then []
    else if DecodesAt(bytes) then
      var k := Announced(bytes[0]);
      [Value(bytes, k)] + DecodeIgnore(bytes[k..])
    else DecodeIgnore(bytes[1..])
  }

  lemma TwoBytes(c: CodePoint)
    requires 0x80 <= c < 0x800
    ensures 0xC2 <= 0xC0 + c / 64 < 0xE0 && (c / 64) * 64 + c % 64 == c
  {
  }

  lemma ThreeBytes(c: CodePoint)
    requires 0x800 <= c < 0x10000
    ensures 0xE0 <= 0xE0 + c / 4096 < 0xF0 && (c / 4096) * 4096 + (c / 64 % 64) * 64 + c % 64 == c
  {
    var q := c / 64;
    assert c == q * 64 + c % 64;
    assert q == (q / 64) * 64 + q % 64;
    assert q / 64 == c / 4096;
  }

  lemma FourBytes(c: CodePoint)
    requires 0x10000 <= c
    ensures 0xF0 <= 0xF0 + c / 262144 < 0xF5
    ensures (c / 262144) * 262144 + (c / 4096 % 64) * 4096 + (c / 64 % 64) * 64 + c % 64 == c
  {
    var q := c / 64;
    var r := q / 64;
    assert c == q * 64 + c % 64;
    assert q == r * 64 + q % 64;
    assert r == (r / 64) * 64 + r % 64;
    assert r == c / 4096 && r / 64 == c / 262144;
  }

  // The announced length and the value depend on the front bytes alone.
  lemma FrontDecides(front: seq<Byte>, rest: seq<Byte>)
    requires front != [] && Announced(front[0]) == |front|
    ensures Value(front + rest, |front|) == Value(front, |front|)
    ensures DecodesAt(front) ==> DecodesAt(front + rest)
  {
    var bytes := front + rest;
    assert forall i :: 0 <= i < |front| ==> bytes[i] == front[i];
  }

  lemma EncodedAlone(c: CodePoint)
    requires !Surrogate(c)
    ensures var bytes := EncodeOne(c);
            Announced(bytes[0]) == |bytes| && Value(bytes, |bytes|) == c && DecodesAt(bytes)
  {
    if 0x80 <= c < 0x800 { TwoBytes(c); }
    else if 0x800 <= c < 0x10000 { ThreeBytes(c); }
    else if c >= 0x10000 { FourBytes(c); }
  }

  lemma EncodedDecodes(c: CodePoint, rest: seq<Byte>)
    requires !Surrogate(c)
    ensures var bytes := EncodeOne(c) + rest;
            DecodesAt(bytes) && Announced(bytes[0]) == |EncodeOne(c)| && Value(bytes, Announced(bytes[0])) == c
  {
    hide EncodeOne, DecodesAt, Value;
    EncodedAlone(c);
    FrontDecides(EncodeOne(c), rest);
  }

  lemma DecodeStep(c: CodePoint, rest: seq<Byte>)
    requires !Surrogate(c)
    ensures DecodeIgnore(EncodeOne(c) + rest) == [c] + DecodeIgnore(rest)
  {
    EncodedDecodes(c, rest);
    var bytes := EncodeOne(c) + rest;
    assert bytes[|EncodeOne(c)|..] == rest;
  }

  // A code point cut short leaves nothing behind.
  lemma CutCodePointVanishes(c: CodePoint, n: nat)
    requires n < |EncodeOne(c)|
    ensures DecodeIgnore(EncodeOne(c)[..n]) == []
  {
    var bytes := EncodeOne(c)[..n];
    if n > 0 {
      assert !DecodesAt(bytes);
      TailVanishes(bytes[1..]);
    }
  }

  lemma {:induction false} TailVanishes(bytes: seq<Byte>)
    requires forall i :: 0 <= i < |bytes| ==> Continuation(bytes[i])
    ensures DecodeIgnore(bytes) == []
  {
    if bytes != [] {
      assert !DecodesAt(bytes);
      TailVanishes(bytes[1..]);
    }
  }

  // ---- Cutting at a boundary ----

  function TruncateText(text: Text, limit: nat): (Text, bool)
  {
    var encoded := Encode(text);
    if |encoded| <= limit then (text, false) else (DecodeIgnore(encoded[..limit]), true)
  }

  // How many whole code points fit.
  ghost function Fitting(text: Text, limit: nat): (n: nat)
    ensures n <= |text|
  {
    if text == [] || |EncodeOne(text[0])| > limit then 0 else 1 + Fitting(text[1..], limit - |EncodeOne(text[0])|)
  }

  lemma {:induction false} CutKeepsFitting(text: Text, limit: nat)
    requires Encodable(text) && limit < |Encode(text)|
    ensures DecodeIgnore(Encode(text)[..limit]) == text[..Fitting(text, limit)]
  {
    hide DecodeIgnore, EncodeOne;
    var first := EncodeOne(text[0]);
    var rest := text[1..];
    assert !Surrogate(text[0]);
    if |first| > limit {
      assert Encode(text)[..limit] == first[..limit];
      CutCodePointVanishes(text[0], limit);
    } else {
      assert Encode(text)[..limit] == first + Encode(rest)[..limit - |first|];
      assert forall i :: 0 <= i < |rest| ==> rest[i] == text[i + 1];
      CutKeepsFitting(rest, limit - |first|);
      DecodeStep(text[0], Encode(rest)[..limit - |first|]);
      assert text[..Fitting(text, limit)] == [text[0]] + rest[..Fitting(rest, limit - |first|)];
    }
  }

  lemma {:induction false} FittingIsLongest(text: Text, limit: nat)
    ensures var n := Fitting(text, limit);
            |Encode(text[..n])| <= limit && (n < |text| ==> |Encode(text[..n + 1])| > limit)
  {
    if text != [] && |EncodeOne(text[0])| <= limit {
      var rest := text[1..];
      var m := Fitting(rest, limit - |EncodeOne(text[0])|);
      FittingIsLongest(rest, limit - |EncodeOne(text[0])|);
      assert text[..m + 1][1..] == rest[..m];
      if m < |rest| { assert text[..m + 2][1..] == rest[..m + 1]; }
    } else if text != [] {
      assert text[..1][1..] == [];
    }
  }

  lemma {:induction false} OneMoreCodePoint(text: Text, n: nat)
    requires n < |text|
    ensures |Encode(text[..n + 1])| == |Encode(text[..n])| + |EncodeOne(text[n])|
  {
    if n == 0 {
      assert text[..1][1..] == [];
    } else {
      OneMoreCodePoint(text[1..], n - 1);
      assert text[..n][1..] == text[1..][..n - 1] && text[..n + 1][1..] == text[1..][..n];
    }
  }

  // The kept text is a code-point prefix that fits; when something was cut, the
  // next code point would not have fitted and fewer than four bytes are wasted.
  ghost predicate CutOf(text: Text, kept: Text, truncated: bool, limit: nat)
  {
    && kept <= text && |Encode(kept)| <= limit
    && (truncated <==> kept != text)
    && (truncated ==> |Encode(text[..|kept| + 1])| > limit && limit - |Encode(kept)| < 4)
  }

  lemma TruncationIsTight(text: Text, limit: nat)
    requires Encodable(text)
    ensures CutOf(text, TruncateText(text, limit).0, TruncateText(text, limit).1, limit)
  {
    if |Encode(text)| > limit {
      CutKeepsFitting(text, limit);
      FittingIsLongest(text, limit);
      var n := Fitting(text, limit);
      assert text[..|text|] == text;
      assert n < |text|;
      OneMoreCodePoint(text, n);
    }
  }

  // ---- Pages ----

  function CodePoints(s: string): Text
  {
    seq(|s|, i requires 0 <= i < |s| => s[i] as int)
  }

  const BUDGET_CODE: Text := CodePoints("total_text_budget_exhausted")

  const PARSE_CODE: Text := CodePoints("page_parse_error")

  const BUDGET_DETAIL: Text := CodePoints("document text limit reached before this page")

  datatype Limits = Limits(maxPages: nat, perPage: nat, total: nat)

  datatype Method = Native | Ocr | Failed

  datatype PageRow = PageRow(number: int, text: Text, extraction: Method, confidenceBps: Option<int>, truncated: bool,
                             failure: Option<Text>, detail: Option<Text>)

  // An exception of a library: the name of its class, and its message.
  datatype Raised = Raised(name: Text, message: Text)

  // The words an image yields, with the mean of their confidences if any had one.
  datatype Recognition = Recognized(text: Text, mean: Option<real>) | Unrecognized(error: Raised)

  datatype Precheck = BadMediaBox | TooManyPixels | NoEngine

  // What the PDF and OCR libraries answer for one page; without native text, its
  // extraction raised.
  datatype PageInput =
    | Unparsable(error: Raised)
    | Parsed(native: Option<Text>, scan: bool, precheck: Option<Precheck>, ocr: Recognition)

  const MAX_DETAIL := 200

  // Of an exception only the name of its class is kept, cut to a fixed length.
  function SafeDetail(error: Raised): (r: Text)
    ensures |r| <= MAX_DETAIL
  {
    if |error.name| <= MAX_DETAIL then error.name else error.name[..MAX_DETAIL]
  }

  function PrecheckCode(p: Precheck): Text
  {
    match p
    case BadMediaBox => CodePoints("invalid_media_box")
    case TooManyPixels => CodePoints("pixel_limit")
    case NoEngine => CodePoints("ocr_unavailable")
  }

  function PrecheckDetail(p: Precheck): (r: Text)
    ensures |r| <= MAX_DETAIL
  {
    match p
    case BadMediaBox => CodePoints("page size is missing or implausibly large")
    case TooManyPixels => CodePoints("page would exceed the rendering pixel limit")
    case NoEngine => CodePoints("OCR engine is not installed on this server")
  }

  // ASCII letters alone can lower to those of the words looked for.
  function Lower(text: Text): (r: Text)
    ensures |r| == |text| && forall i :: 0 <= i < |r| ==> r[i] == if 65 <= text[i] <= 90 then text[i] + 32 else text[i]
  {
    seq(|text|, i requires 0 <= i < |text| => if 65 <= text[i] <= 90 then text[i] + 32 else text[i])
  }

  predicate At(text: Text, word: Text, i: nat) { i + |word| <= |text| && text[i..i + |word|] == word }

  predicate Contains(text: Text, word: Text) { exists i :: 0 <= i <= |text| && At(text, word, i) }

  const MESSAGE_READ := 80

  predicate TimedOut(error: Raised)
  {
    || Contains(Lower(error.name), CodePoints("timeout"))
    || Contains(Lower(if |error.message| <= MESSAGE_READ then error.message else error.message[..MESSAGE_READ]), CodePoints("timeout"))
  }

  function OcrCode(error: Raised, native: Option<Text>): Text
  {
    if TimedOut(error) then CodePoints("ocr_timeout")
    else if Contains(error.name, CodePoints("PDFPopplerTimeoutError")) then CodePoints("raster_timeout")
    else if native.None? then CodePoints("native_extract_error")
    else PARSE_CODE
  }

  lemma InnerWord(text: Text, word: Text, inner: Text, i: nat, j: nat)
    requires At(text, word, i) && At(word, inner, j)
    ensures At(text, inner, i + j)
  {
    forall k | 0 <= k < |inner| ensures text[i + j..i + j + |inner|][k] == inner[k] {
      assert word[j..j + |inner|][k] == word[j + k];
      assert text[i..i + |word|][j + k] == text[i + (j + k)];
    }
  }

  lemma LoweredWord(text: Text, word: Text, i: nat)
    requires At(text, word, i)
    ensures At(Lower(text), Lower(word), i)
  {
    forall k | 0 <= k < |word| ensures Lower(text)[i..i + |word|][k] == Lower(word)[k] {
      assert text[i..i + |word|][k] == text[i + k];
    }
  }

  lemma TimeoutInside()
    ensures At(Lower(CodePoints("PDFPopplerTimeoutError")), CodePoints("timeout"), 10)
  {
    var word := CodePoints("PDFPopplerTimeoutError");
    assert |word| == 22 && word[10..17] == [84, 105, 109, 101, 111, 117, 116];
    assert Lower(word)[10..17] == [116, 105, 109, 101, 111, 117, 116];
  }

  // The name that would mean a raster timeout already means an OCR timeout.
  lemma RasterTimeoutNeverTold(error: Raised, native: Option<Text>)
    ensures OcrCode(error, native) != CodePoints("raster_timeout")
  {
    hide At, Lower;
    var word := CodePoints("PDFPopplerTimeoutError");
    if Contains(error.name, word) {
      var i :| 0 <= i <= |error.name| && At(error.name, word, i);
      LoweredWord(error.name, word, i);
      TimeoutInside();
      InnerWord(Lower(error.name), Lower(word), CodePoints("timeout"), i, 10);
      assert TimedOut(error);
    }
    assert |CodePoints("raster_timeout")| == 14 && |CodePoints("ocr_timeout")| == 11;
    assert |CodePoints("native_extract_error")| == 20 && |PARSE_CODE| == 16;
  }

  // To the nearest integer, halves to the even one.
  function Rounded(x: real): int
  {
    var below := x.Floor;
    var rest := x - below as real;
    if rest < 0.5 || (rest == 0.5 && below % 2 == 0) then below else below + 1
  }

  const MAX_CONFIDENCE := 10000

  function Confidence(mean: Option<real>): (r: int)
    ensures 0 <= r <= MAX_CONFIDENCE
  {
    match mean
    case None => 0
    case Some(x) => Rounded((if x < 0.0 then 0.0 else if x > 100.0 then 100.0 else x) * 100.0)
  }

  // A page without native text has none of the words that would spare it OCR.
  predicate Scanned(input: PageInput)
    requires input.Parsed?
  {
    input.scan || input.native.None?
  }

  predicate Space(c: CodePoint)
  {
    9 <= c <= 13 || 28 <= c <= 32 || c == 0x85 || c == 0xA0 || c == 0x1680 || 0x2000 <= c <= 0x200A
    || c == 0x2028 || c == 0x2029 || c == 0x202F || c == 0x205F || c == 0x3000
  }

  function StripLeft(text: Text): Text { if text != [] && Space(text[0]) then StripLeft(text[1..]) else text }

  function StripRight(text: Text): Text { if text != [] && Space(text[|text| - 1]) then StripRight(text[..|text| - 1]) else text }

  function Strip(text: Text): Text { StripRight(StripLeft(text)) }

  // The text a page offers to the budgets.
  function Offered(input: PageInput): Text
  {
    match input
    case Unparsable(_) => []
    case Parsed(native, _, precheck, ocr) =>
      if !Scanned(input) then native.value
      else if precheck.Some? || ocr.Unrecognized? then Strip(native.GetOr([]))
      else ocr.text
  }

  function Remaining(limits: Limits, used: nat): nat { if used < limits.total then limits.total - used else 0 }

  function Allowance(limits: Limits, used: nat): nat
  {
    if limits.perPage < Remaining(limits, used) then limits.perPage else Remaining(limits, used)
  }

  function BoundedPageText(text: Text, limits: Limits, used: nat): (Text, bool, nat)
  {
    var cut := TruncateText(text, Allowance(limits, used));
    (cut.0, cut.1, |Encode(cut.0)|)
  }

  function Exhausted(number: int): PageRow
  {
    PageRow(number, [], Failed, None, false, Some(BUDGET_CODE),
            Some(BUDGET_DETAIL))
  }

  function RowFor(input: PageInput, number: int, limits: Limits, used: nat): PageRow
  {
    match input
    case Unparsable(error) => PageRow(number, [], Failed, None, false, Some(PARSE_CODE), Some(SafeDetail(error)))
    case Parsed(native, _, precheck, ocr) =>
      var bounded := BoundedPageText(Offered(input), limits, used);
      if !Scanned(input) then PageRow(number, bounded.0, Native, None, bounded.1, None, None)
      else if precheck.Some? then
        PageRow(number, bounded.0, Failed, None, bounded.1, Some(PrecheckCode(precheck.value)), Some(PrecheckDetail(precheck.value)))
      else match ocr
        case Unrecognized(error) =>
          PageRow(number, bounded.0, Failed, None, bounded.1, Some(OcrCode(error, native)), Some(SafeDetail(error)))
        case Recognized(_, mean) => PageRow(number, bounded.0, Ocr, Some(Confidence(mean)), bounded.1, None, None)
  }

  function TotalBytes(rows: seq<PageRow>): nat
  {
    if rows == [] then 0 else TotalBytes(rows[..|rows| - 1]) + |Encode(rows[|rows| - 1].text)|
  }

  // `None` is the encoder's error, which aborts the document.
  function PagesOf(inputs: seq<PageInput>, limits: Limits): (r: Option<seq<PageRow>>)
    ensures r.Some? ==> |r.value| == |inputs|
  {
    if inputs == [] then Some([])
    else
      var front, last := inputs[..|inputs| - 1], inputs[|inputs| - 1];
      match PagesOf(front, limits)
      case None => None
      case Some(rows) =>
        if TotalBytes(rows) >= limits.total then Some(rows + [Exhausted(|inputs|)])
        else if !Encodable(Offered(last)) then None
        else Some(rows + [RowFor(last, |inputs|, limits, TotalBytes(rows))])
  }

  method ExtractPages(inputs: seq<PageInput>, limits: Limits) returns (pages: Option<seq<PageRow>>)
    ensures pages == PagesOf(inputs, limits)
  {
    hide RowFor, Encode, Encodable, Offered, CodePoints, PagesOf, TotalBytes;
    var rows: seq<PageRow> := [];
    assert inputs[..0] == [];
    NoPages(limits);
    var total := 0;
    for index := 0 to |inputs|
      invariant PagesOf(inputs[..index], limits) == Some(rows)
      invariant total == TotalBytes(rows)
    {
      var number := index + 1;
      PagesSnoc(inputs, limits, index, rows);
      if total >= limits.total {
        rows := AppendRow(rows, Exhausted(number));
        assert |Encode([])| == 0 by { EmptyEncodes(); }
        continue;
      }
      if !Encodable(Offered(inputs[index])) {
        NoneForEver(inputs, limits, index + 1);
        return None;
      }
      var row, used := ExtractPage(inputs[index], number, limits, total);
      total := total + used;
      rows := AppendRow(rows, row);
    }
    assert inputs[..|inputs|] == inputs;
    pages := Some(rows);
  }

  lemma NoPages(limits: Limits)
    ensures PagesOf([], limits) == Some([]) && TotalBytes([]) == 0
  {
  }

  lemma PagesSnoc(inputs: seq<PageInput>, limits: Limits, n: nat, rows: seq<PageRow>)
    requires n < |inputs| && PagesOf(inputs[..n], limits) == Some(rows)
    ensures PagesOf(inputs[..n + 1], limits) ==
            if TotalBytes(rows) >= limits.total then Some(rows + [Exhausted(n + 1)])
            else if !Encodable(Offered(inputs[n])) then None
            else Some(rows + [RowFor(inputs[n], n + 1, limits, TotalBytes(rows))])
  {
    hide RowFor, TotalBytes, Encodable, Offered;
    assert inputs[..n + 1][..n] == inputs[..n];
  }

  method AppendRow(rows: seq<PageRow>, row: PageRow) returns (longer: seq<PageRow>)
    ensures longer == rows + [row] && TotalBytes(longer) == TotalBytes(rows) + |Encode(row.text)|
  {
    longer := rows + [row];
    assert longer[..|rows|] == rows;
  }

  lemma EmptyEncodes()
    ensures |Encode([])| == 0
  {
  }

  method ExtractPage(input: PageInput, number: int, limits: Limits, total: nat) returns (row: PageRow, used: nat)
    ensures row == RowFor(input, number, limits, total) && used == |Encode(row.text)|
  {
    hide Encode, DecodeIgnore, Strip;
    match input
    case Unparsable(error) =>
      row, used := PageRow(number, [], Failed, None, false, Some(PARSE_CODE), Some(SafeDetail(error))), 0;
      EmptyEncodes();
    case Parsed(native, _, precheck, ocr) =>
      var bounded := BoundedPageText(Offered(input), limits, total);
      used := bounded.2;
      if !Scanned(input) {
        row := PageRow(number, bounded.0, Native, None, bounded.1, None, None);
      } else if precheck.Some? {
        row := PageRow(number, bounded.0, Failed, None, bounded.1, Some(PrecheckCode(precheck.value)),
                       Some(PrecheckDetail(precheck.value)));
      } else if ocr.Unrecognized? {
        row := PageRow(number, bounded.0, Failed, None, bounded.1, Some(OcrCode(ocr.error, native)),
                       Some(SafeDetail(ocr.error)));
      } else {
        row := PageRow(number, bounded.0, Ocr, Some(Confidence(ocr.mean)), bounded.1, None, None);
      }
  }

  lemma {:induction false} NoneForEver(inputs: seq<PageInput>, limits: Limits, n: nat)
    requires n <= |inputs| && PagesOf(inputs[..n], limits).None?
    ensures PagesOf(inputs, limits).None?
    decreases |inputs|
  {
    if n < |inputs| {
      assert inputs[..|inputs| - 1][..n] == inputs[..n];
      NoneForEver(inputs[..|inputs| - 1], limits, n);
    } else {
      assert inputs[..n] == inputs;
    }
  }

  // ---- What extraction promises ----

  lemma {:induction false} PagesPrefix(inputs: seq<PageInput>, limits: Limits, n: nat)
    requires PagesOf(inputs, limits).Some? && n <= |inputs|
    ensures PagesOf(inputs[..n], limits) == Some(PagesOf(inputs, limits).value[..n])
    decreases |inputs|
  {
    hide RowFor, TotalBytes;
    if n == |inputs| {
      assert inputs[..n] == inputs && PagesOf(inputs, limits).value[..n] == PagesOf(inputs, limits).value;
    } else {
      var front := inputs[..|inputs| - 1];
      PagesPrefix(front, limits, n);
      assert front[..n] == inputs[..n];
      assert PagesOf(inputs, limits).value[..|front|] == PagesOf(front, limits).value;
      assert PagesOf(inputs, limits).value[..n] == PagesOf(front, limits).value[..n];
    }
  }

  // Page n + 1, given the pages before it.
  lemma PageAt(inputs: seq<PageInput>, limits: Limits, n: nat)
    requires PagesOf(inputs, limits).Some? && n < |inputs|
    ensures var rows := PagesOf(inputs, limits).value;
            var used := TotalBytes(rows[..n]);
      && rows[n] == (if used >= limits.total then Exhausted(n + 1) else RowFor(inputs[n], n + 1, limits, used))
      && (used < limits.total ==> Encodable(Offered(inputs[n])))
  {
    hide RowFor, TotalBytes;
    PagesPrefix(inputs, limits, n);
    PagesPrefix(inputs, limits, n + 1);
    assert inputs[..n + 1][..n] == inputs[..n];
    var rows := PagesOf(inputs, limits).value;
    assert rows[..n + 1][n] == rows[n];
  }

  lemma BoundedIsTight(text: Text, limits: Limits, used: nat)
    requires Encodable(text)
    ensures var b := BoundedPageText(text, limits, used); CutOf(text, b.0, b.1, Allowance(limits, used))
  {
    TruncationIsTight(text, Allowance(limits, used));
  }

  lemma {:induction false} TotalGrows(rows: seq<PageRow>, n: nat)
    requires n <= |rows|
    ensures TotalBytes(rows[..n]) <= TotalBytes(rows)
    decreases |rows|
  {
    if n < |rows| {
      assert rows[..|rows| - 1][..n] == rows[..n];
      TotalGrows(rows[..|rows| - 1], n);
    } else {
      assert rows[..n] == rows;
    }
  }

  // Rows are numbered from 1; each text is a tight prefix of what its page
  // offered, under both budgets.
  ghost predicate PageKept(input: PageInput, row: PageRow, number: int, limits: Limits, used: nat)
  {
    && row.number == number
    && |Encode(row.text)| <= limits.perPage && used + |Encode(row.text)| <= limits.total
    && (row.extraction == Failed <==> row.failure.Some?) && (row.extraction == Ocr <==> row.confidenceBps.Some?)
    && (row.failure == Some(BUDGET_CODE) || CutOf(Offered(input), row.text, row.truncated, Allowance(limits, used)))
  }

  lemma RowIsKept(input: PageInput, number: int, limits: Limits, used: nat)
    requires used < limits.total && Encodable(Offered(input))
    ensures PageKept(input, RowFor(input, number, limits, used), number, limits, used)
  {
    hide Encode, DecodeIgnore, Strip, CutOf;
    BoundedIsTight(Offered(input), limits, used);
    assert CutOf(Offered(input), BoundedPageText(Offered(input), limits, used).0, BoundedPageText(Offered(input), limits, used).1,
                 Allowance(limits, used));
    CutFits(Offered(input), BoundedPageText(Offered(input), limits, used).0, BoundedPageText(Offered(input), limits, used).1,
            Allowance(limits, used));
    EmptyCut(Allowance(limits, used));
    EmptyEncodes();
  }

  lemma CutFits(text: Text, kept: Text, truncated: bool, limit: nat)
    requires CutOf(text, kept, truncated, limit)
    ensures |Encode(kept)| <= limit
  {
  }

  lemma EmptyCut(limit: nat)
    ensures CutOf([], [], false, limit)
  {
    EmptyEncodes();
  }

  lemma {:induction false} PagesAreKept(inputs: seq<PageInput>, limits: Limits, n: nat)
    requires PagesOf(inputs, limits).Some? && n <= |inputs|
    ensures var rows := PagesOf(inputs, limits).value;
      && TotalBytes(rows[..n]) <= limits.total
      && forall i :: 0 <= i < n ==> PageKept(inputs[i], rows[i], i + 1, limits, TotalBytes(rows[..i]))
  {
    hide RowFor, Encode, PageKept, PagesOf, TotalBytes, Offered, Encodable, Exhausted;
    if n == 0 {
      NoPages(limits);
      assert PagesOf(inputs, limits).value[..0] == [];
    } else {
      PagesAreKept(inputs, limits, n - 1);
      PageAt(inputs, limits, n - 1);
      var rows := PagesOf(inputs, limits).value;
      var used := TotalBytes(rows[..n - 1]);
      TotalSnoc(rows, n - 1);
      if used < limits.total {
        RowIsKept(inputs[n - 1], n, limits, used);
      } else {
        ExhaustedIsKept(inputs[n - 1], n, limits, used);
      }
      KeptFits(inputs[n - 1], rows[n - 1], n, limits, used);
    }
  }

  lemma TotalSnoc(rows: seq<PageRow>, n: nat)
    requires n < |rows|
    ensures TotalBytes(rows[..n + 1]) == TotalBytes(rows[..n]) + |Encode(rows[n].text)|
  {
    assert rows[..n + 1][..n] == rows[..n];
  }

  lemma ExhaustedIsKept(input: PageInput, number: int, limits: Limits, used: nat)
    requires used == limits.total
    ensures PageKept(input, Exhausted(number), number, limits, used)
  {
    EmptyEncodes();
  }

  lemma KeptFits(input: PageInput, row: PageRow, number: int, limits: Limits, used: nat)
    requires PageKept(input, row, number, limits, used)
    ensures used + |Encode(row.text)| <= limits.total
  {
  }

  // Extraction keeps within both budgets on every document.
  lemma ExtractionWithinBudgets(inputs: seq<PageInput>, limits: Limits)
    requires PagesOf(inputs, limits).Some?
    ensures var rows := PagesOf(inputs, limits).value;
      && |rows| == |inputs| && TotalBytes(rows) <= limits.total
      && forall i :: 0 <= i < |rows| ==> PageKept(inputs[i], rows[i], i + 1, limits, TotalBytes(rows[..i]))
  {
    hide PageKept, TotalBytes;
    PagesAreKept(inputs, limits, |inputs|);
    var rows := PagesOf(inputs, limits).value;
    assert rows[..|inputs|] == rows;
  }

  lemma PlainRowNotExhausted(input: PageInput, number: int, limits: Limits, used: nat)
    ensures RowFor(input, number, limits, used).failure != Some(BUDGET_CODE)
  {
    hide BoundedPageText, Offered, TimedOut, Contains;
    assert |BUDGET_CODE| == 27 && |PARSE_CODE| == 16;
    if input.Parsed? {
      if input.precheck.Some? { assert |PrecheckCode(input.precheck.value)| < 20; }
      if input.ocr.Unrecognized? { assert |OcrCode(input.ocr.error, input.native)| <= 20; }
    }
  }

  // A row says the document budget is spent exactly when it is, and then so do
  // all later ones.
  lemma ExhaustionIsFinal(inputs: seq<PageInput>, limits: Limits, i: nat, j: nat)
    requires PagesOf(inputs, limits).Some? && i <= j < |inputs|
    ensures var rows := PagesOf(inputs, limits).value;
      && (rows[i].failure == Some(BUDGET_CODE) <==> TotalBytes(rows[..i]) == limits.total)
      && (rows[i].failure == Some(BUDGET_CODE) ==> rows[j] == Exhausted(j + 1))
  {
    hide BoundedPageText, TotalBytes, Offered, PageKept, PagesOf, Encodable, RowFor;
    var rows := PagesOf(inputs, limits).value;
    PageAt(inputs, limits, i);
    PageAt(inputs, limits, j);
    PlainRowNotExhausted(inputs[i], i + 1, limits, TotalBytes(rows[..i]));
    PagesAreKept(inputs, limits, i);
    PagesAreKept(inputs, limits, j);
    assert rows[..j][..i] == rows[..i];
    TotalGrows(rows[..j], i);
  }

  // The bytes the pages would spend, from what they offer alone: each keeps what
  // its allowance leaves of its text, until nothing is left.
  function Used(inputs: seq<PageInput>, limits: Limits): nat
  {
    if inputs == [] then 0
    else
      var used, last := Used(inputs[..|inputs| - 1], limits), inputs[|inputs| - 1];
      if used >= limits.total then used else used + |Encode(BoundedPageText(Offered(last), limits, used).0)|
  }

  lemma RowSpends(input: PageInput, number: int, limits: Limits, used: nat)
    ensures |Encode(RowFor(input, number, limits, used).text)| == |Encode(BoundedPageText(Offered(input), limits, used).0)|
  {
    hide Encode, DecodeIgnore, Strip;
    if input.Unparsable? { EmptyEncodes(); }
  }

  lemma {:induction false} UsedIsTotal(inputs: seq<PageInput>, limits: Limits)
    requires PagesOf(inputs, limits).Some?
    ensures Used(inputs, limits) == TotalBytes(PagesOf(inputs, limits).value)
  {
    hide RowFor, BoundedPageText, Encode, Encodable, Offered, Exhausted;
    if inputs == [] {
      NoPages(limits);
    } else {
      var m := |inputs| - 1;
      var rows := PagesOf(inputs[..m], limits).value;
      UsedIsTotal(inputs[..m], limits);
      RowSpends(inputs[m], |inputs|, limits, Used(inputs[..m], limits));
      ExhaustedIsEmpty(|inputs|);
      assert PagesOf(inputs, limits).value[..m] == rows;
    }
  }

  lemma ExhaustedIsEmpty(number: int)
    ensures |Encode(Exhausted(number).text)| == 0
  {
    EmptyEncodes();
  }

  // A page reached before the budget is spent that offers a lone surrogate.
  predicate BreaksAt(inputs: seq<PageInput>, limits: Limits, n: nat)
    requires n < |inputs|
  {
    Used(inputs[..n], limits) < limits.total && !Encodable(Offered(inputs[n]))
  }

  // The promise that one bad page never fails the document fails exactly when
  // some page reached within the budget offers a lone surrogate.
  lemma {:induction false} DocumentFailsExactly(inputs: seq<PageInput>, limits: Limits)
    ensures PagesOf(inputs, limits).None? <==> exists n :: 0 <= n < |inputs| && BreaksAt(inputs, limits, n)
  {
    hide PagesOf, BreaksAt;
    if n :| 0 <= n < |inputs| && BreaksAt(inputs, limits, n) { BreaksDocument(inputs, limits, n); }
    if PagesOf(inputs, limits).None? { var n := BreakOf(inputs, limits); }
  }

  lemma BreaksDocument(inputs: seq<PageInput>, limits: Limits, n: nat)
    requires n < |inputs| && BreaksAt(inputs, limits, n)
    ensures PagesOf(inputs, limits).None?
  {
    hide Used, RowFor, Encodable, Offered, PagesOf;
    if PagesOf(inputs[..n], limits).Some? {
      UsedIsTotal(inputs[..n], limits);
      PagesSnoc(inputs, limits, n, PagesOf(inputs[..n], limits).value);
      NoneForEver(inputs, limits, n + 1);
    } else {
      NoneForEver(inputs, limits, n);
    }
  }

  // The first page that broke it.
  lemma {:induction false} BreakOf(inputs: seq<PageInput>, limits: Limits) returns (n: nat)
    requires PagesOf(inputs, limits).None?
    ensures n < |inputs| && BreaksAt(inputs, limits, n)
  {
    hide Used, RowFor, Encodable, Offered, TotalBytes;
    n := |inputs| - 1;
    var front := inputs[..n];
    if PagesOf(front, limits).None? {
      n := BreakOf(front, limits);
      assert front[..n] == inputs[..n];
    } else {
      UsedIsTotal(front, limits);
    }
  }

  // For instance: one page of one lone surrogate.
  lemma OneSurrogateFailsTheDocument()
    ensures PagesOf([Parsed(Some([0xD800]), false, None, Recognized([], None))], Limits(10, 100, 100)) == None
  {
    var input := Parsed(Some([0xD800]), false, None, Recognized([], None));
    assert Surrogate(Offered(input)[0]);
    assert [input][..0] == [];
  }
}
