/**
 * The transformations `format_text` dispatches to: `format_json`, `format_xml`,
 * `parse_jwt`, `summarize_json`, `encode_base64` and `decode_base64`, and the dispatch
 * on the format name itself.
 */
module Transforms {
  import opened Wrappers
  import opened Strings
  import opened Json
  import opened Foreign
  import Xml
  import Jwt
  import JsonStatistics
  import JsonSummary

  const UnknownFormat := "Unknown format type"
  const FormatJsonFailed := "Failed to format JSON: "
  const ParseErrorOnLine := "Parse error on line "
  const EmptyJson := "Empty JSON input"
  const InvalidJson := "Invalid JSON: "
  const InvalidBase64 := "Invalid base64 encoding: "
  const InvalidUtf8 := "Invalid UTF-8 in decoded data: "

  /** The format names `format_text` knows. */
  const FormatTypes: set<string> := {"json", "xml", "jwt", "json-summary", "encode", "decode"}

  // format_json

  /** The marker under the offending line: a `-` for each of the `column` characters
      before the error and a `^` beneath it. */
  function Marker(column: nat): (m: string)
    ensures |m| == column + 1 && m[column] == '^'
    ensures forall k | 0 <= k < column :: m[k] == '-'
  {
    Repeat('-', column) + "^"
  }

  /** The loop of `format_json` that builds the marker. */
  method BuildMarker(column: nat) returns (marker: string)
    ensures marker == Marker(column)
  {
    marker := "";
    for k := 0 to column
      invariant marker == Repeat('-', k)
    {
      marker := marker + "-";
    }
    marker := marker + "^";
  }

  /** `lines.get(line.saturating_sub(1)).unwrap_or(&"")`: the input line the parser
      reports (1-based), or nothing when there is no such line. */
  function ErrorLine(text: string, line: nat): (r: string)
    ensures '\n' !in r
  {
    var lines := Lines(text);
    var index := if line == 0 then 0 else line - 1;
    if index < |lines| then lines[index] else ""
  }

  /** The report `format_json` gives for a parse error at `line`, `column` with the
      library's message `e`. */
  function ParseErrorReport(text: string, line: nat, column: nat, e: string): string {
    ParseErrorOnLine + NatToString(line) + " column " + NatToString(column + 1) + ":\n"
    + ErrorLine(text, line) + "\n" + Marker(column) + "\n" + e
  }

  /** What `format_json` returns for `text`. */
  function FormatJsonSpec(text: string, lib: Library): Result<string> {
    match lib.parseJson(text)
    case Ok(parsed) =>
      (match lib.prettyJson(parsed)
       case Ok(formatted) => Ok(formatted)
       case Err(e) => Err(FormatJsonFailed + e))
    case Err(e) =>
      var (line, column) := lib.errorPosition(text);
      Err(ParseErrorReport(text, line, column, e))
  }

  /** `format_json`. */
  method FormatJson(text: string, lib: Library) returns (r: Result<string>)
    ensures r == FormatJsonSpec(text, lib)
  {
    match lib.parseJson(text)
    case Ok(parsed) =>
      match lib.prettyJson(parsed) {
        case Ok(formatted) => r := Ok(formatted);
        case Err(e) => r := Err(FormatJsonFailed + e);
      }
    case Err(e) =>
      var (line, column) := lib.errorPosition(text);
      var marker := BuildMarker(column);
      r := Err(ParseErrorOnLine + NatToString(line) + " column " + NatToString(column + 1)
               + ":\n" + ErrorLine(text, line) + "\n" + marker + "\n" + e);
  }

  /** `format_json` succeeds exactly when the text parses and prints; a parse failure
      gives a "Parse error on line" report, a printing failure a "Failed to format JSON"
      message, and the pretty text is returned unchanged. */
  lemma FormatJsonOutcome(text: string, lib: Library)
    ensures FormatJsonSpec(text, lib).Ok? <==>
      lib.parseJson(text).Ok? && lib.prettyJson(lib.parseJson(text).value).Ok?
    ensures FormatJsonSpec(text, lib).Ok? ==>
      FormatJsonSpec(text, lib).value == lib.prettyJson(lib.parseJson(text).value).value
    ensures FormatJsonSpec(text, lib).Err? ==>
      (lib.parseJson(text).Err? <==> FormatJsonSpec(text, lib).error[..|ParseErrorOnLine|] == ParseErrorOnLine)
  {
    var r := FormatJsonSpec(text, lib);
    if r.Err? && lib.parseJson(text).Ok? {
      assert r.error[0] == 'F';
    }
  }

  /** The line below the error line holds the marker, whose `^` stands at index
      `column`, beneath the character the report points at. */
  lemma ReportPointsAtColumn(text: string, line: nat, column: nat, e: string)
    ensures var head := ParseErrorOnLine + NatToString(line) + " column " + NatToString(column + 1)
                        + ":\n" + ErrorLine(text, line) + "\n";
      var report := ParseErrorReport(text, line, column, e);
      |head| + column < |report| && report[|head| + column] == '^'
      && forall k | |head| <= k < |head| + column :: report[k] == '-'
  {
    var head := ParseErrorOnLine + NatToString(line) + " column " + NatToString(column + 1)
                + ":\n" + ErrorLine(text, line) + "\n";
    var report := ParseErrorReport(text, line, column, e);
    assert report == head + Marker(column) + "\n" + e;
  }

  // encode_base64 and decode_base64

  /** `encode_base64`: the empty text encodes to nothing; otherwise the STANDARD
      encoding of its UTF-8 bytes. It never fails. */
  function EncodeBase64(text: string, lib: Library): (r: Result<string>)
    ensures r.Ok?
    ensures text == [] ==> r == Ok("")
    ensures Base64Faithful(lib) ==> (r.value == [] <==> text == [])
  {
    if text == [] then Ok("") else Ok(lib.base64Encode(lib.utf8Bytes(text)))
  }

  /** `decode_base64`: blank input decodes to nothing; otherwise the trimmed text is
      decoded and the bytes read as UTF-8. */
  function DecodeBase64(text: string, lib: Library): (r: Result<string>)
    ensures (forall k | 0 <= k < |text| :: IsWhitespace(text[k])) ==> r == Ok("")
    ensures r.Err? <==>
      (Trim(text) != [] && (lib.base64Decode(Trim(text)).Err?
                            || lib.utf8Decode(lib.base64Decode(Trim(text)).value).Err?))
    ensures r.Err? && lib.base64Decode(Trim(text)).Err? ==> InvalidBase64 <= r.error
    ensures r.Err? && lib.base64Decode(Trim(text)).Ok? ==> InvalidUtf8 <= r.error
  {
    var text := Trim(text);
    if text == [] then Ok("")
    else
      match lib.base64Decode(text)
      case Err(e) => Err(InvalidBase64 + e)
      case Ok(bytes) =>
        match lib.utf8Decode(bytes)
        case Err(e) => Err(InvalidUtf8 + e)
        case Ok(decoded) => Ok(decoded)
  }

  /** What the libraries promise: STANDARD decoding inverts STANDARD encoding, whose
      output uses the base64 alphabet and padding (no whitespace) and is empty only for
      no bytes; UTF-8 decoding inverts `as_bytes`, which is empty only for the empty
      text. */
  ghost predicate Base64Faithful(lib: Library) {
    && (forall bytes :: lib.base64Decode(lib.base64Encode(bytes)) == Ok(bytes))
    && (forall bytes, k | 0 <= k < |lib.base64Encode(bytes)| :: !IsWhitespace(lib.base64Encode(bytes)[k]))
    && (forall bytes :: bytes != [] ==> lib.base64Encode(bytes) != [])
    && (forall text :: lib.utf8Decode(lib.utf8Bytes(text)) == Ok(text))
    && (forall text :: text != [] ==> lib.utf8Bytes(text) != [])
  }

  /** Round trip: decoding what `encode_base64` produced gives the text back, the empty
      text included. */
  lemma Base64RoundTrip(text: string, lib: Library)
    requires Base64Faithful(lib)
    ensures DecodeBase64(EncodeBase64(text, lib).value, lib) == Ok(text)
  {
    if text != [] {
      var encoded := lib.base64Encode(lib.utf8Bytes(text));
      assert encoded != [];
      assert !IsWhitespace(encoded[0]);
      assert LeadingWhitespace(encoded) == 0;
      assert !IsWhitespace(encoded[|encoded| - 1]);
      assert EndOfContent(encoded) == |encoded|;
      assert Trim(encoded) == encoded[0..|encoded|] == encoded;
    }
  }

  // summarize_json

  const SummaryHeading := "JSON Structure Summary:\n======================\n\n"

  /** The statistics block `summarize_json` appends after the summary. */
  function StatisticsText(c: Census): string {
    "\n\nStatistics:\n-----------\n"
    + "Total objects: " + NatToString(c.objects) + "\n"
    + "Total arrays: " + NatToString(c.arrays) + "\n"
    + "Total primitive values: " + NatToString(c.primitives) + "\n"
    + "Maximum depth: " + NatToString(c.height) + "\n"
    + "Total keys: " + NatToString(c.keys) + "\n"
  }

  /** What `summarize_json` returns for `text`: the summary of the root value and the
      census of the whole tree. */
  function SummarizeJsonSpec(text: string, lib: Library): Result<string> {
    var trimmed := Trim(text);
    if trimmed == [] then Err(EmptyJson)
    else
      match lib.parseJson(trimmed)
      case Err(e) => Err(InvalidJson + e)
      case Ok(v) =>
        Ok(SummaryHeading + JsonSummary.GenerateJsonSummary(v, "root", 0, lib.typeOrder)
           + StatisticsText(Tally(v)))
  }

  /** `summarize_json`, counting with a `JsonStats` record. */
  method SummarizeJson(text: string, lib: Library) returns (r: Result<string>)
    ensures r == SummarizeJsonSpec(text, lib)
  {
    var trimmed := Trim(text);
    if trimmed == [] {
      return Err(EmptyJson);
    }
    match lib.parseJson(trimmed)
    case Err(e) => r := Err(InvalidJson + e);
    case Ok(parsedValue) =>
      var summary := JsonSummary.GenerateJsonSummary(parsedValue, "root", 0, lib.typeOrder);
      var stats := JsonStatistics.CalculateJsonStats(parsedValue);
      var statistics := "\n\nStatistics:\n-----------\n"
        + "Total objects: " + NatToString(stats.objects) + "\n"
        + "Total arrays: " + NatToString(stats.arrays) + "\n"
        + "Total primitive values: " + NatToString(stats.primitives) + "\n"
        + "Maximum depth: " + NatToString(stats.maxDepth) + "\n"
        + "Total keys: " + NatToString(stats.totalKeys) + "\n";
      var result := SummaryHeading + summary + statistics;
      r := Ok(result);
  }

  /** `summarize_json` fails with "Empty JSON input" exactly on blank input, with an
      "Invalid JSON" message exactly when the trimmed text does not parse, and otherwise
      succeeds with a report that opens with the heading. */
  lemma SummarizeOutcome(text: string, lib: Library)
    ensures SummarizeJsonSpec(text, lib) == Err(EmptyJson)
      <==> forall k | 0 <= k < |text| :: IsWhitespace(text[k])
    ensures SummarizeJsonSpec(text, lib).Ok?
      <==> Trim(text) != [] && lib.parseJson(Trim(text)).Ok?
    ensures SummarizeJsonSpec(text, lib).Ok? ==>
      SummarizeJsonSpec(text, lib).value[..|SummaryHeading|] == SummaryHeading
  {
    var r := SummarizeJsonSpec(text, lib);
    if Trim(text) != [] && r.Err? {
      assert r.error[..|InvalidJson|] == InvalidJson;
      assert r.error[1] == 'n';
    }
  }

  /** The figures reported agree with each other: objects, arrays and primitive values
      add up to the number of values in the tree, a key or array slot leads to every
      value but the root, and the maximum depth is less than the number of values. */
  lemma SummaryFiguresAgree(v: Value)
    ensures var c := Tally(v);
      c.objects + c.arrays + c.primitives == Size(v)
      && c.keys + Elements(v) + 1 == Size(v)
      && c.height < Size(v)
  {
    TallyCounts(v);
  }

  // format_text's dispatch

  /** What the `match format_type` of `format_text` yields for `content`. */
  function TransformSpec(formatType: string, content: string, lib: Library): Result<string> {
    if formatType == "json" then FormatJsonSpec(content, lib)
    else if formatType == "xml" then Xml.FormatXmlSpec(content)
    else if formatType == "jwt" then Jwt.ParseJwtSpec(content, lib)
    else if formatType == "json-summary" then SummarizeJsonSpec(content, lib)
    else if formatType == "encode" then EncodeBase64(content, lib)
    else if formatType == "decode" then DecodeBase64(content, lib)
    else Err(UnknownFormat)
  }

  /** The `match format_type` of `format_text`. */
  method Transform(formatType: string, content: string, lib: Library) returns (r: Result<string>)
    ensures r == TransformSpec(formatType, content, lib)
  {
    if formatType == "json" {
      r := FormatJson(content, lib);
    } else if formatType == "xml" {
      r := Xml.FormatXml(content);
    } else if formatType == "jwt" {
      r := Jwt.ParseJwt(content, lib);
    } else if formatType == "json-summary" {
      r := SummarizeJson(content, lib);
    } else if formatType == "encode" {
      r := EncodeBase64(content, lib);
    } else if formatType == "decode" {
      r := DecodeBase64(content, lib);
    } else {
      r := Err(UnknownFormat);
    }
  }

  /** "Unknown format type" comes exactly from a format name outside the six known
      ones: no transformation fails with that message. */
  lemma UnknownFormatIff(formatType: string, content: string, lib: Library)
    ensures TransformSpec(formatType, content, lib) == Err(UnknownFormat) <==> formatType !in FormatTypes
  {
    assert UnknownFormat[0] == 'U';
    if formatType == "json" {
      var j := FormatJsonSpec(content, lib);
      assert j.Err? ==> j.error[0] == 'P' || j.error[0] == 'F';
    } else if formatType == "xml" {
      var x := Xml.FormatXmlSpec(content);
      assert x.Err? ==> x.error in {Xml.EmptyInput, Xml.NotBracketed, Xml.UnclosedTag, Xml.UnbalancedTags};
    } else if formatType == "jwt" {
      var t := Jwt.ParseJwtSpec(content, lib);
      Jwt.ParseJwtErrors(content, lib);
      if t.Err? {
        assert t.error[0] == 'E' || t.error[0] == 'I' || t.error[0] == 'F';
      }
    } else if formatType == "json-summary" {
      var m := SummarizeJsonSpec(content, lib);
      assert m.Err? ==> m.error[0] == 'E' || m.error[0] == 'I';
    } else if formatType == "decode" {
      var d := DecodeBase64(content, lib);
      assert d.Err? ==> d.error[0] == 'I';
    }
  }
}
