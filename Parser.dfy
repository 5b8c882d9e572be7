/** Text extraction from uploaded files (`backend/services/parser.py`):
    dispatch on the file name's extension, PDF pages and CSV rows joined by
    newlines, JSON flattened to its leaf values. The libraries (pypdf, csv,
    json, UTF-8 decoding) are oracles. */
module Parser {
  import opened Common
  import opened JsonValue

  /** What the libraries return for given input. */
  datatype Libraries = Libraries(
    /** `bytes.decode('utf-8', errors='ignore')`, which never raises */
    decodeUtf8: Bytes -> string,
    /** pypdf: the text each page's `extract_text()` gives (empty when it
        gives nothing), or None when reading the document raises */
    readPdf: Bytes -> Option<seq<string>>,
    /** `csv.reader`: the rows of fields, or None when the reader raises */
    readCsv: string -> Option<seq<seq<string>>>,
    /** `json.loads`, or None when it raises */
    loadJson: string -> Option<Json>)

  // ---------------------------------------------------------------------
  // JSON flattening

  /** The leaves of a JSON value, depth first: dict values in order (keys
      dropped), list elements in order, each scalar as `str(x)`. */
  function Leaves(x: Json): seq<string> {
    match x
    case JArr(xs) => LeavesAll(xs)
    case JObj(ms) => LeavesOfValues(ms)
    case _ => [PyStr(x)]
  }

  function LeavesAll(xs: seq<Json>): seq<string> {
    if xs == [] then [] else LeavesAll(xs[..|xs| - 1]) + Leaves(xs[|xs| - 1])
  }

  function LeavesOfValues(ms: seq<Member>): seq<string> {
    if ms == [] then [] else LeavesOfValues(ms[..|ms| - 1]) + Leaves(ms[|ms| - 1].value)
  }

  function Values(ms: seq<Member>): (vs: seq<Json>)
    ensures |vs| == |ms| && forall i :: 0 <= i < |ms| ==> vs[i] == ms[i].value
  {
    seq(|ms|, i requires 0 <= i < |ms| => ms[i].value)
  }

  /** Leaves of a list concatenate: the order is depth-first, left to right. */
  lemma {:induction false} LeavesAllAppend(xs: seq<Json>, ys: seq<Json>)
    ensures LeavesAll(xs + ys) == LeavesAll(xs) + LeavesAll(ys)
    decreases |ys|
  {
    if ys == [] {
      assert xs + ys == xs;
    } else {
      var n := |ys| - 1;
      assert (xs + ys)[..|xs + ys| - 1] == xs + ys[..n];
      LeavesAllAppend(xs, ys[..n]);
    }
  }

  /** A dict contributes the leaves of its values; its keys never appear. */
  lemma {:induction false} DictKeysDropped(ms: seq<Member>)
    ensures Leaves(JObj(ms)) == Leaves(JArr(Values(ms)))
    decreases |ms|
  {
    if ms != [] {
      var n := |ms| - 1;
      assert Values(ms)[..n] == Values(ms[..n]);
      DictKeysDropped(ms[..n]);
    }
  }

  /** Empty lists and dicts contribute no token wherever they sit. */
  lemma EmptyContainersVanish(xs: seq<Json>, ys: seq<Json>)
    ensures Leaves(JArr(xs + [JArr([])] + ys)) == Leaves(JArr(xs + ys))
    ensures Leaves(JArr(xs + [JObj([])] + ys)) == Leaves(JArr(xs + ys))
  {
    LeavesAllAppend(xs + [JArr([])], ys);
    LeavesAllAppend(xs + [JObj([])], ys);
    LeavesAllAppend(xs, ys);
    assert (xs + [JArr([])])[..|xs|] == xs;
    assert (xs + [JObj([])])[..|xs|] == xs;
  }

  /** The recursive `flatten(x)` closure: appends the leaves of `x` to `out`. */
  method FlattenInto(x: Json, out: seq<string>) returns (res: seq<string>)
    ensures res == out + Leaves(x)
  {
    match x
    case JArr(xs) =>
      res := out;
      for i := 0 to |xs|
        invariant res == out + LeavesAll(xs[..i])
      {
        assert xs[..i + 1][..i] == xs[..i];
        assert LeavesAll(xs[..i + 1]) == LeavesAll(xs[..i]) + Leaves(xs[i]);
        AppendAssoc(out, LeavesAll(xs[..i]), Leaves(xs[i]));
        res := FlattenInto(xs[i], res);
      }
      assert xs[..|xs|] == xs;
    case JObj(ms) =>
      res := out;
      for i := 0 to |ms|
        invariant res == out + LeavesOfValues(ms[..i])
      {
        assert ms[..i + 1][..i] == ms[..i];
        assert LeavesOfValues(ms[..i + 1]) == LeavesOfValues(ms[..i]) + Leaves(ms[i].value);
        AppendAssoc(out, LeavesOfValues(ms[..i]), Leaves(ms[i].value));
        res := FlattenInto(ms[i].value, res);
      }
      assert ms[..|ms|] == ms;
    case _ =>
      res := out + [PyStr(x)];
  }

  /** `_flatten_json`: the leaves joined by single spaces; a scalar on its own
      is just its `str()`. */
  method FlattenJson(y: Json) returns (text: string)
    ensures text == Join(Leaves(y), " ")
    ensures IsScalar(y) ==> text == PyStr(y)
  {
    var out := FlattenInto(y, []);
    assert out == Leaves(y);
    text := Join(out, " ");
  }

  // ---------------------------------------------------------------------
  // PDF and CSV

  /** The pages whose text is non-empty, in page order. */
  function NonEmptyPages(pages: seq<string>): (r: seq<string>)
    ensures forall p :: p in r ==> p != [] && p in pages
    ensures forall p :: p in pages && p != [] ==> p in r
  {
    if pages == [] then []
    else
      var last := pages[|pages| - 1];
      NonEmptyPages(pages[..|pages| - 1]) + (if last != [] then [last] else [])
  }

  /** `_parse_pdf` after pypdf has read the document: the truthy page texts,
      joined by newlines. */
  method ParsePdfPages(pages: seq<string>) returns (text: string)
    ensures text == Join(NonEmptyPages(pages), "\n")
  {
    var kept: seq<string> := [];
    for i := 0 to |pages|
      invariant kept == NonEmptyPages(pages[..i])
    {
      assert pages[..i + 1][..i] == pages[..i];
      var extracted := pages[i];
      if extracted != [] {
        kept := kept + [extracted];
      }
    }
    assert pages[..|pages|] == pages;
    text := Join(kept, "\n");
  }

  /** Each row's fields joined by one space. */
  function RowLines(rows: seq<seq<string>>): (lines: seq<string>)
    ensures |lines| == |rows|
    ensures forall i :: 0 <= i < |rows| ==> lines[i] == Join(rows[i], " ")
  {
    seq(|rows|, i requires 0 <= i < |rows| => Join(rows[i], " "))
  }

  /** `_parse_csv` after the reader has split the rows: one line per row, in order. */
  method ParseCsvRows(rows: seq<seq<string>>) returns (text: string)
    ensures text == Join(RowLines(rows), "\n")
  {
    var lines: seq<string> := [];
    for i := 0 to |rows|
      invariant |lines| == i
      invariant forall j :: 0 <= j < i ==> lines[j] == Join(rows[j], " ")
    {
      lines := lines + [Join(rows[i], " ")];
    }
    assert lines == RowLines(rows);
    text := Join(lines, "\n");
  }

  // ---------------------------------------------------------------------
  // Dispatch

  datatype Format = Pdf | Csv | JsonFile | PlainText

  /** The branch `extract_text` takes for a file name: the lower-cased name's
      suffix, `.pdf`, `.csv`, `.json`, and everything else (`.txt`, `.md` and
      unknown suffixes alike) as text. */
  function FormatOf(filename: string): (f: Format)
    ensures f == Pdf <==> EndsWith(Lower(filename), ".pdf")
    ensures f == Csv <==> !EndsWith(Lower(filename), ".pdf") && EndsWith(Lower(filename), ".csv")
    ensures f == JsonFile <==>
      !EndsWith(Lower(filename), ".pdf") && !EndsWith(Lower(filename), ".csv")
      && EndsWith(Lower(filename), ".json")
  {
    var name := Lower(filename);
    if EndsWith(name, ".pdf") then Pdf
    else if EndsWith(name, ".csv") then Csv
    else if EndsWith(name, ".json") then JsonFile
    else PlainText
  }

  /** What `extract_text` returns; a library that raises gives "". */
  function ExtractedText(fileBytes: Bytes, filename: string, libs: Libraries): string {
    match FormatOf(filename)
    case Pdf =>
      (match libs.readPdf(fileBytes)
       case None => ""
       case Some(pages) => Join(NonEmptyPages(pages), "\n"))
    case Csv =>
      (match libs.readCsv(libs.decodeUtf8(fileBytes))
       case None => ""
       case Some(rows) => Join(RowLines(rows), "\n"))
    case JsonFile =>
      (match libs.loadJson(libs.decodeUtf8(fileBytes))
       case None => ""
       case Some(data) => Join(Leaves(data), " "))
    case PlainText => libs.decodeUtf8(fileBytes)
  }

  /** `extract_text`. */
  method ExtractText(fileBytes: Bytes, filename: string, libs: Libraries) returns (text: string)
    ensures text == ExtractedText(fileBytes, filename, libs)
  {
    var originalFilename := Lower(filename);
    if EndsWith(originalFilename, ".pdf") {
      match libs.readPdf(fileBytes)
      case None => text := "";
      case Some(pages) => text := ParsePdfPages(pages);
    } else if EndsWith(originalFilename, ".csv") {
      match libs.readCsv(libs.decodeUtf8(fileBytes))
      case None => text := "";
      case Some(rows) => text := ParseCsvRows(rows);
    } else if EndsWith(originalFilename, ".json") {
      match libs.loadJson(libs.decodeUtf8(fileBytes))
      case None => text := "";
      case Some(data) => text := FlattenJson(data);
    } else {
      text := libs.decodeUtf8(fileBytes);
    }
  }

  /** Dispatch ignores case: the name and its lower-cased form parse alike. */
  lemma ExtensionCaseInsensitive(fileBytes: Bytes, filename: string, libs: Libraries)
    ensures ExtractedText(fileBytes, Lower(filename), libs) == ExtractedText(fileBytes, filename, libs)
  {
    LowerIdempotent(filename);
  }

  /** `.txt`, `.md` and any other suffix take the same decoding path. */
  lemma TextLikeFilesDecoded(fileBytes: Bytes, filename: string, libs: Libraries)
    requires EndsWith(Lower(filename), ".txt") || EndsWith(Lower(filename), ".md")
    ensures ExtractedText(fileBytes, filename, libs) == libs.decodeUtf8(fileBytes)
  {
    var name := Lower(filename);
    var last := if EndsWith(name, ".txt") then 't' else 'd';
    LastOfSuffix(name, if EndsWith(name, ".txt") then ".txt" else ".md");
    assert name[|name| - 1] == last;
    if EndsWith(name, ".pdf") { LastOfSuffix(name, ".pdf"); }
    if EndsWith(name, ".csv") { LastOfSuffix(name, ".csv"); }
    if EndsWith(name, ".json") { LastOfSuffix(name, ".json"); }
  }

  lemma LastOfSuffix(s: string, suffix: string)
    requires suffix != [] && EndsWith(s, suffix)
    ensures s[|s| - 1] == suffix[|suffix| - 1]
  {
  }

  /** A library that raises makes the whole extraction return "". */
  lemma RaisingParserGivesEmpty(fileBytes: Bytes, filename: string, libs: Libraries)
    requires FormatOf(filename) == Pdf ==> libs.readPdf(fileBytes).None?
    requires FormatOf(filename) == Csv ==> libs.readCsv(libs.decodeUtf8(fileBytes)).None?
    requires FormatOf(filename) == JsonFile ==> libs.loadJson(libs.decodeUtf8(fileBytes)).None?
    requires FormatOf(filename) != PlainText
    ensures ExtractedText(fileBytes, filename, libs) == ""
  {
  }
}
