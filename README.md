# devmate backend, modelled in Dafny

devmate is a desktop developer toolbox. Its Rust backend (`src-tauri/src/lib.rs`)
exposes commands to the web frontend. This project models those commands and proves
what they promise. Commands that change the store are methods of a `ContentStorage`
class. Everything else is modelled as functions. The loops of `format_xml`,
`format_json`'s marker, `decode_jwt_part`'s padding and `calculate_stats_recursive` are
methods proved equal to specification functions. The loops of `generate_json_summary`
(the members loop, `.all` and the collection of type names) are expressions in Rust and
are modelled as the recursive functions `MembersLines`, `AllSameType` and `TypesOf`.

The commands modelled:

- **Content store.** `store_raw_content`, `clear_content`, `get_content_info`,
  `get_content_chunk` and the store-back of `read_large_file_streaming`. The store has
  two slots: the raw text the user loaded and the last formatting result. The frontend
  pages through a slot window by window.
- **`format_text`.** It picks the text (the given text, or the raw slot when the text
  is empty) and dispatches on the format name: `json`, `xml`, `jwt`, `json-summary`,
  `encode`, `decode`. A success is stored back in the formatted slot, except from
  `encode` and `decode`.
- **`format_json`.** Pretty printing, or, for a parse error, a report holding the
  offending line and a `---^` marker under the column.
- **`format_xml`.** A character-by-character re-indenter. Its loop is proved equal to a
  split specification: `Scan` cuts the input into tags, text runs and blanks, and
  `Step`/`Run` lay them out.
- **`parse_jwt` and `decode_jwt_part`.** The token is split on `.`. Each base64url part
  (section 5 of RFC 4648) is padded with `=` to a whole number of four-character groups
  (section 3.2) and mapped to the standard alphabet.
- **`encode_base64` and `decode_base64`.**
- **`summarize_json`.** `generate_json_summary` builds an outline of the value, and
  `get_value_type` names each kind. `calculate_json_stats` counts the tree through a
  `JsonStats` record that `calculate_stats_recursive` updates in place.

Library calls are parameters, passed as the `Foreign.Library` record:

- `serde_json` parsing, pretty printing and error positions;
- the base64 STANDARD engine;
- UTF-8 conversion;
- `HashSet` iteration order.

Every result is proved for any such library. The base64 round trip is proved under
`Base64Faithful`, which states what the two libraries promise.

Files:

- `wrappers.dfy`: `Option` and `Result`.
- `strings.dfy`: `trim`, `split`, `lines`, `replace`, `repeat` and decimal printing.
- `chunking.dfy`: the window arithmetic of `get_content_chunk` and paging.
- `foreign.dfy`: the library record.
- `json.dfy`: the value tree, `get_value_type` and the census of a tree.
- `jsonstats.dfy`: the `JsonStats` class and the recursive walk.
- `jsonsummary.dfy`: `generate_json_summary`.
- `xml.dfy` and `xmllaws.dfy`: `format_xml` and what is proved about it.
- `jwt.dfy`: `parse_jwt` and `decode_jwt_part`.
- `transforms.dfy`: `format_json`, base64, `summarize_json` and the dispatch.
- `storage.dfy`: `ContentStorage` and the commands on it.

## Model

| member | source | states |
|---|---|---|
| Storage.ContentStorage.constructor | src-tauri/src/lib.rs:478-482 | the default store has both slots empty |
| Storage.ContentStorage.StoreRawContent | src-tauri/src/lib.rs:487-492 | the raw slot holds the new content and the formatted slot is emptied |
| Storage.ContentStorage.ClearContent | src-tauri/src/lib.rs:553-558 | both slots are empty afterwards, whatever they held |
| Storage.ContentStorage.Info | src-tauri/src/lib.rs:538-550 | `has_raw`/`has_formatted` are true exactly when each slot is filled; each length is that slot's length, or 0 when it is empty |
| Storage.ContentStorage.Slot | src-tauri/src/lib.rs:503-507 | the slot `"raw"` or `"formatted"` names |
| Storage.ContentStorage.GetContentChunk | src-tauri/src/lib.rs:495-535 | "Invalid content type" comes exactly from a name other than raw/formatted, and "No content stored" exactly from an empty named slot; these are the only errors; a success is the window of that slot's content at `start` |
| Storage.ContentStorage.FormatText | src-tauri/src/lib.rs:14-42 | the result is the named transformation of the text, or of the raw slot when the text is empty ("" when that slot is empty); the raw slot is unchanged; the formatted slot takes a success unless the format is encode/decode, and is otherwise unchanged |
| Storage.ContentStorage.ReadLargeFileStreaming | src-tauri/src/lib.rs:561-598 | it fails exactly when a file over 100 MiB cannot be read, and then with "Failed to read file: "; a success reports the size, `use_streaming` exactly when the size is over the threshold, and the message for that case; only a streamed file replaces the store, as `store_raw_content` does, and nothing else changes |
| Storage.PagedReadRoundTrip | src-tauri/src/lib.rs:495-535 | for a filled slot and a non-zero chunk size, the first read succeeds, and following `next_start` until `has_more` is false gives back exactly the slot's content |
| Storage.InfoAgreesWithChunks | src-tauri/src/lib.rs:495-550 | a chunk read of a slot succeeds exactly when `get_content_info` says the slot is filled, and its `total_length` is the length that command reports |
| Chunking.ContentChunk | src-tauri/src/lib.rs:510-530 | `total_length` is the content length; `end = min(start + chunk_size, total_length)`; inside the content, the chunk is the slice from `start` to `next_start`, at most `chunk_size` long, and `has_more` holds exactly when `next_start` is before the end; at or past the end, the chunk is empty, `has_more` is false and `next_start` is the length |
| Chunking.ZeroChunkSizeMakesNoProgress | src-tauri/src/lib.rs:512-529 | with chunk size 0 a read inside the content returns an empty chunk with `has_more` true and `next_start` unchanged |
| Chunking.ChunksReassemble | src-tauri/src/lib.rs:512-529 | the chunks read from `start` by following `next_start` concatenate to the content from `start` on |
| Chunking.ChunkedReadRoundTrip | src-tauri/src/lib.rs:512-529 | the chunks read from 0 concatenate to the whole content |
| Chunking.ChunkLengths | src-tauri/src/lib.rs:512-529 | every chunk but the last is exactly `chunk_size` long; the last is non-empty and no longer, unless nothing was left to read |
| Chunking.ChunksFrom | src-tauri/src/lib.rs:512-529 | a caller following `next_start` receives at least one answer |
| Chunking.ChunkCount | src-tauri/src/lib.rs:512-529 | the number of answers is the ceiling of the remaining length over `chunk_size`, or one at the end of the content |
| Transforms.TransformSpec | src-tauri/src/lib.rs:23-31 | the dispatch specification: `json`, `xml`, `jwt`, `json-summary`, `encode` and `decode` pick their transformation, any other name gives "Unknown format type" |
| Transforms.Transform | src-tauri/src/lib.rs:23-31 | the dispatch runs the transformation the format name picks; equal to `TransformSpec` |
| Transforms.UnknownFormatIff | src-tauri/src/lib.rs:23-31 | "Unknown format type" comes exactly from a name outside the six known ones; no transformation fails with that message |
| Transforms.ErrorLine | src-tauri/src/lib.rs:63-64 | the line the parser names, counted from 1 (line 0 read as line 1), or "" past the last line; it holds no line break |
| Transforms.ParseErrorReport | src-tauri/src/lib.rs:72-79 | the report: "Parse error on line", the line and the column plus one, the offending line, the marker and the parser's message, each on its own line |
| Transforms.FormatJsonSpec | src-tauri/src/lib.rs:45-82 | the specification of `format_json`: a parse failure gives the report, a print failure "Failed to format JSON: " and the printer's error, a success the pretty text |
| Transforms.Marker | src-tauri/src/lib.rs:66-70 | the marker is `column + 1` long: `column` dashes, then `^` |
| Transforms.BuildMarker | src-tauri/src/lib.rs:66-70 | the marker loop builds `Marker(column)` |
| Transforms.FormatJson | src-tauri/src/lib.rs:45-82 | equal to `FormatJsonSpec`: the pretty text, "Failed to format JSON: " plus the printer's error, or the parse error report |
| Transforms.FormatJsonOutcome | src-tauri/src/lib.rs:55-80 | success exactly when the text parses and prints, and the value is the printer's text; an error starts with "Parse error on line " exactly when the parse failed |
| Transforms.ReportPointsAtColumn | src-tauri/src/lib.rs:62-79 | in the parse error report, the line after the error line has `^` at index `column`, with a dash at every index before it |
| Transforms.EncodeBase64 | src-tauri/src/lib.rs:278-283 | the encoding never fails; empty text encodes to ""; for a faithful library, only the empty text does |
| Transforms.DecodeBase64 | src-tauri/src/lib.rs:285-297 | blank input decodes to ""; decoding fails exactly when the trimmed text is not blank and the base64 engine or then the UTF-8 check fails; a base64 failure starts with "Invalid base64 encoding: " and a UTF-8 failure with "Invalid UTF-8 in decoded data: " |
| Transforms.Base64RoundTrip | src-tauri/src/lib.rs:278-297 | for libraries that keep their promises, decoding what `encode_base64` produced gives the text back, the empty text included |
| Transforms.StatisticsText | src-tauri/src/lib.rs:321-329 | the statistics block: the five figures of the census, each on its own labelled line |
| Transforms.SummarizeJsonSpec | src-tauri/src/lib.rs:299-332 | the specification of `summarize_json`: blank input is refused, a parse failure is reported, and a success is the heading, the outline and the statistics |
| Transforms.SummarizeJson | src-tauri/src/lib.rs:299-332 | equal to `SummarizeJsonSpec`: the heading, the outline of the root, and the counts of a `JsonStats` walk, which are the census of the tree |
| Transforms.SummarizeOutcome | src-tauri/src/lib.rs:299-319 | "Empty JSON input" comes exactly from blank input; success exactly when the trimmed text parses; a success starts with the heading |
| Transforms.SummaryFiguresAgree | src-tauri/src/lib.rs:322-329 | the reported figures agree: objects + arrays + primitives is the number of values; keys + array elements + 1 is the number of values; the maximum depth is less than the number of values |
| Jwt.PadCount | src-tauri/src/lib.rs:251-254 | the number of `=` is below 4 and completes a multiple of 4 |
| Jwt.Padded | src-tauri/src/lib.rs:251-254 | the input followed by only `=`, to the least multiple of four at or above its length |
| Jwt.PadBase64 | src-tauri/src/lib.rs:251-254 | the padding loop yields `Padded(encoded)` |
| Jwt.ToStandardAlphabet | src-tauri/src/lib.rs:257 | the two replacements, `-` by `+` and then `_` by `/` |
| Jwt.ToStandardAlphabetMaps | src-tauri/src/lib.rs:257 | the two replacements map `-` to `+` and `_` to `/` position by position, keep every other character, and leave no `-` or `_` |
| Jwt.DecodeJwtPartSpec | src-tauri/src/lib.rs:249-276 | the specification of `decode_jwt_part`: pad, map the alphabet, then base64, UTF-8 and JSON, each failure with its prefix |
| Jwt.TokenObject | src-tauri/src/lib.rs:199-240 | the printed object has the keys header, payload, signature and token_parts, in that order; header and payload are the decoded values; token_parts holds the three raw parts as strings |
| Jwt.ParseJwtSpec | src-tauri/src/lib.rs:185-247 | the specification of `parse_jwt`: blank and three-part checks, header then payload decoding, then printing `TokenObject` |
| Jwt.DecodeJwtPart | src-tauri/src/lib.rs:249-276 | equal to `DecodeJwtPartSpec`: padding, alphabet mapping, then base64, UTF-8 and JSON in that order, each failure with its own prefix |
| Jwt.ParseJwt | src-tauri/src/lib.rs:185-247 | equal to `ParseJwtSpec`: trim, split on `.`, decode the header then the payload, and print the result object |
| Jwt.BadFormatIff | src-tauri/src/lib.rs:186-197 | "Invalid JWT format" comes exactly from a trimmed token that is non-empty and does not hold exactly two dots |
| Jwt.EmptyTokenIff | src-tauri/src/lib.rs:186-190 | "Empty JWT token" comes exactly from a token that is all whitespace |
| Jwt.ParseJwtErrors | src-tauri/src/lib.rs:185-247 | every error is one of the two fixed messages, or starts with the header, payload or output failure prefix |
| Jwt.PartsRebuildToken | src-tauri/src/lib.rs:193-197 | with two dots, the three parts joined with dots are the trimmed token, and no part holds a dot |
| Xml.FormatXmlSpec | src-tauri/src/lib.rs:84-183 | the specification of `format_xml`: blank input and unbracketed input are refused; otherwise the trimmed text is scanned into pieces, laid out from an empty state, and accepted when the final depth is 0 |
| Xml.Scan | src-tauri/src/lib.rs:101-175 | the cut of the input into tags, text runs and whitespace, or none when a `<` has no `>` |
| Xml.Step | src-tauri/src/lib.rs:115-174 | one piece laid out: the output only grows; a closing tag lowers the depth by one, an opening tag that is not self-closing raises it by one, and any other piece leaves it |
| Xml.Run | src-tauri/src/lib.rs:101-175 | the pieces laid out one after the other; the output only grows |
| Xml.Indent | src-tauri/src/lib.rs:126-136 | two spaces per level, nothing for a level at or below 0 |
| Xml.FormatXml | src-tauri/src/lib.rs:84-183 | equal to `FormatXmlSpec`: the trim and bracket checks, then the layout of the scanned pieces and the depth check |
| Xml.Reindent | src-tauri/src/lib.rs:101-182 | the `while i < chars.len()` loop and the final depth check give what `Resume` gives from position 0 |
| Xml.Turn | src-tauri/src/lib.rs:102-175 | one iteration moves `i` forward and leaves the rest of the loop's result unchanged, or takes the unclosed-tag exit exactly where `Resume` does |
| Xml.TagTurn | src-tauri/src/lib.rs:103-152 | a tag closed at `tag_end` is laid out and the loop resumes at `tag_end + 1` |
| Xml.TextTurn | src-tauri/src/lib.rs:153-170 | a text run is laid out and the loop resumes at the next `<` |
| Xml.PushTag | src-tauri/src/lib.rs:115-150 | the buffer, depth and text flag after a tag are those of one `Step` on that tag |
| Xml.LeadTag | src-tauri/src/lib.rs:115-145 | the line break, indentation and depth change before a tag are `Step`'s with the tag text taken off the end |
| Xml.PushText | src-tauri/src/lib.rs:162-170 | the trimmed run is appended, and the text flag set, only when it is not empty |
| Xml.Seek | src-tauri/src/lib.rs:105-108 | the inner scan stops at the first `>` (or `<`) at or after the start, or at the end |
| Xml.FindFrom | src-tauri/src/lib.rs:105-108 | the index found holds the character sought, no earlier index after the start does, and the end means there is none |
| Xml.NextPiece | src-tauri/src/lib.rs:102-172 | every piece the loop takes moves it forward, without passing the end |
| Xml.Resume | src-tauri/src/lib.rs:102-182 | the loop from position `i` as a tail-recursive function: at the end the depth check; otherwise an unclosed tag, or one piece laid out and the loop resumed after it |
| Xml.Finish | src-tauri/src/lib.rs:177-182 | an unclosed tag fails; otherwise the pieces are laid out and the result is accepted exactly when the final depth is 0 |
| Xml.IsClosing | src-tauri/src/lib.rs:116 | a tag whose content starts with `/` |
| Xml.IsSelfClosing | src-tauri/src/lib.rs:117 | a tag whose content ends with `/` |
| Xml.ResumeIsFinish | src-tauri/src/lib.rs:101-182 | running the loop is the same as scanning the pieces and then laying them out |
| Xml.FinishPrepend | src-tauri/src/lib.rs:101-182 | laying out one scanned piece and then the rest is laying out the rest from the state after that piece |
| Xml.ResumeTag | src-tauri/src/lib.rs:103-152 | one turn at a closed tag is one `Step`, resuming after the `>` |
| Xml.ResumeText | src-tauri/src/lib.rs:153-170 | one turn at a text run is one `Step`, resuming at the next `<` |
| Xml.ResumeUnclosed | src-tauri/src/lib.rs:110-112 | a `<` with no `>` after it ends the loop with "Unclosed tag found" |
| Xml.ResumeBlank | src-tauri/src/lib.rs:171-174 | whitespace between pieces is skipped |
| XmlLaws.FindFromLater | src-tauri/src/lib.rs:105-108 | a search started later but not after the match finds the same match |
| XmlLaws.NextPieceSpells | src-tauri/src/lib.rs:102-172 | each piece is well cut and is exactly the input characters it covers |
| XmlLaws.ScanStep | src-tauri/src/lib.rs:101-175 | a successful scan is the first piece in front of a successful scan of the rest |
| XmlLaws.ScanSpellsInput | src-tauri/src/lib.rs:101-175 | when the scan succeeds, its pieces are well cut and spell the input back exactly |
| XmlLaws.ScanFailsIffUnclosed | src-tauri/src/lib.rs:105-112 | the scan fails exactly when some `<` has no `>` after it |
| XmlLaws.EndsClosedScans | src-tauri/src/lib.rs:91-112 | input ending in `>` always scans |
| XmlLaws.RunDepth | src-tauri/src/lib.rs:119-143 | the final depth is the starting depth plus the opening tags minus the closing tags |
| XmlLaws.StepSqueeze | src-tauri/src/lib.rs:115-174 | one step appends the piece's non-whitespace characters to the output's, in order |
| XmlLaws.ClosingSqueeze | src-tauri/src/lib.rs:119-129 | a closing tag, with or without the line break and indentation before it, adds only its own non-whitespace characters |
| XmlLaws.OpeningSqueeze | src-tauri/src/lib.rs:130-145 | an opening or self-closing tag, with the line break and indentation before it, adds only its own non-whitespace characters |
| XmlLaws.RunSqueeze | src-tauri/src/lib.rs:101-175 | laying out pieces appends the non-whitespace characters they spell, in order |
| XmlLaws.RunSqueezeStep | src-tauri/src/lib.rs:101-175 | the inductive step of `RunSqueeze`: the first piece's characters, then the rest's |
| XmlLaws.IndentSqueezes | src-tauri/src/lib.rs:123-136 | line breaks and indentation hold no non-whitespace character |
| XmlLaws.EmptyInputIff | src-tauri/src/lib.rs:85-88 | "Empty XML input" comes exactly from input that is all whitespace |
| XmlLaws.NotBracketedIff | src-tauri/src/lib.rs:91-93 | the bracketing error comes exactly from non-blank input whose trimmed form does not both start with `<` and end with `>` |
| XmlLaws.NeverUnclosed | src-tauri/src/lib.rs:110-112 | the unclosed-tag error is never returned |
| XmlLaws.BalancedIff | src-tauri/src/lib.rs:119-182 | for bracketed input, success comes exactly when opening and closing tags cancel out; otherwise "Unbalanced tags detected" |
| XmlLaws.Gap | src-tauri/src/lib.rs:119-145 | the whitespace written in front of a piece: only whitespace |
| XmlLaws.StepEmits | src-tauri/src/lib.rs:115-174 | one step appends the gap and then the piece: a tag exactly as the input spells it, a text run trimmed, nothing for whitespace |
| XmlLaws.Gaps | src-tauri/src/lib.rs:101-175 | one gap per piece, each of them only whitespace |
| XmlLaws.RunEmits | src-tauri/src/lib.rs:101-175 | laying out pieces appends, for each piece in order, its gap and the piece |
| XmlLaws.FormatWeavesPieces | src-tauri/src/lib.rs:84-183 | a successful output is, for each piece of the trimmed input in order, a run of whitespace followed by the tag as spelt or the trimmed text; the pieces spell the trimmed input |
| XmlLaws.FormatKeepsContent | src-tauri/src/lib.rs:84-183 | a successful format keeps the input's non-whitespace characters, in order: it only adds or removes whitespace |
| Json.ValueType | src-tauri/src/lib.rs:422-431 | the name is one of the six; "Object" exactly for objects and "Array" exactly for arrays |
| Json.ValueTypeSeparates | src-tauri/src/lib.rs:422-431 | two values get the same name exactly when they are of the same kind |
| Json.Tally | src-tauri/src/lib.rs:454-475 | the census `calculate_stats_recursive` takes of a value: an object counts itself and its keys, an array itself, anything else one primitive, and their children one level down; its laws are `TallyCounts` |
| Json.MembersTally | src-tauri/src/lib.rs:461-463 | the census of an object's children, each one level below it |
| Json.ItemsTally | src-tauri/src/lib.rs:467-469 | the census of an array's items, each one level below it |
| Json.TallyCounts | src-tauri/src/lib.rs:454-475 | each value is counted once, as an object, an array or a primitive; every value but the root is a key's value or an array element; the height is below the number of values |
| Json.MembersTallyCounts | src-tauri/src/lib.rs:458-464 | the same counts for an object's members |
| Json.ItemsTallyCounts | src-tauri/src/lib.rs:465-470 | the same counts for an array's items |
| Json.PrimitiveTally | src-tauri/src/lib.rs:471-473 | a primitive counts as one primitive and nothing else |
| JsonStatistics.JsonStats.constructor | src-tauri/src/lib.rs:442-448 | the record starts at zero |
| JsonStatistics.CalculateStatsRecursive | src-tauri/src/lib.rs:454-475 | the record afterwards is the old one with the census of the value added at `depth`: the counts are summed and `max_depth` is raised to `depth` plus the value's height |
| JsonStatistics.CountMembers | src-tauri/src/lib.rs:461-463 | the loop over `obj.values()` adds each member's census one level down |
| JsonStatistics.CountItems | src-tauri/src/lib.rs:467-469 | the loop over `arr.iter()` adds each item's census one level down |
| JsonStatistics.CalculateJsonStats | src-tauri/src/lib.rs:441-452 | a fresh record that holds the census of the whole tree, with the root at depth 0 |
| JsonStatistics.Absorb | src-tauri/src/lib.rs:455-470 | counting a subtree at `depth` into the record: the counters are summed and `max_depth` becomes the larger of the old one and `depth` plus the subtree's height |
| JsonStatistics.AbsorbPlus | src-tauri/src/lib.rs:454-475 | counting two groups one after the other is counting them together |
| JsonStatistics.AbsorbChild | src-tauri/src/lib.rs:461-469 | counting a child at the next depth is counting its census one level down |
| JsonStatistics.ObjectAbsorb | src-tauri/src/lib.rs:458-463 | counting an object itself and then its members is counting the object's tree |
| JsonStatistics.ArrayAbsorb | src-tauri/src/lib.rs:465-469 | counting an array itself and then its items is counting the array's tree |
| JsonStatistics.MembersTallyStep | src-tauri/src/lib.rs:461-463 | the census of one more member |
| JsonStatistics.ItemsTallyStep | src-tauri/src/lib.rs:467-469 | the census of one more item |
| JsonSummary.GenerateJsonSummary | src-tauri/src/lib.rs:334-420 | the summary text starts with the indentation of its level, two spaces per level, and holds more than it |
| JsonSummary.SummaryLines | src-tauri/src/lib.rs:334-420 | the outline has a first line, at its own level, naming the value by its key |
| JsonSummary.EntryText | src-tauri/src/lib.rs:338-418 | the wording of each kind of line |
| JsonSummary.AllSameType | src-tauri/src/lib.rs:373 | every item has the first item's type |
| JsonSummary.TypesOf | src-tauri/src/lib.rs:379-382 | the set of the items' type names |
| JsonSummary.Preview | src-tauri/src/lib.rs:397-401 | a string of up to 50 characters is shown whole; a longer one as its first 47 characters and "...", 50 in all |
| JsonSummary.MembersLines | src-tauri/src/lib.rs:356-358 | the `for (k, v) in obj.iter()` loop: each member's outline at the members' level, in the object's order; its laws are `MembersDepths`, `MembersListed` and `MembersText` |
| JsonSummary.ItemsLines | src-tauri/src/lib.rs:369-393 | the lines under an array header: none for an empty array, else the types line and, for an object first item, the "First item structure" line and that item's outline two levels deeper; its laws are `ItemsLinesShape` and `ItemsText` |
| JsonSummary.Render | src-tauri/src/lib.rs:334-420 | the successive `push_str` calls: each line rendered, in order; its law is `RenderAppend` |
| JsonSummary.ItemsKind | src-tauri/src/lib.rs:371-386 | the items line says "All items are" exactly when every item has the first item's type, and then names that type; otherwise "Mixed types" with the set of the items' type names, which holds at least two |
| JsonSummary.MixedMeansSeveralTypes | src-tauri/src/lib.rs:371-386 | the items share a type exactly when their set of type names is that one name; mixed items have at least two names |
| JsonSummary.ItemsLinesShape | src-tauri/src/lib.rs:369-392 | the lines under an array header: the types line and, when the first item is an object, the "First item structure" line and the outline of that item two levels deeper, and nothing else |
| JsonSummary.SummaryDepths | src-tauri/src/lib.rs:334-420 | every line of an outline lies between its own level and two levels per level of tree height below it |
| JsonSummary.ObjectDepths | src-tauri/src/lib.rs:338-359 | the same for an object's outline |
| JsonSummary.ArrayDepths | src-tauri/src/lib.rs:361-395 | the same for an array's outline |
| JsonSummary.ItemsDepths | src-tauri/src/lib.rs:369-392 | the same for the lines under an array header |
| JsonSummary.MembersDepths | src-tauri/src/lib.rs:356-358 | the same for the members of an object |
| JsonSummary.MembersHeight | src-tauri/src/lib.rs:461-463 | each member's value lies at least one level below its object's height |
| JsonSummary.ItemsHeight | src-tauri/src/lib.rs:467-469 | each item lies at least one level below its array's height |
| JsonSummary.SummaryKeys | src-tauri/src/lib.rs:334-420 | an outline names its value once at its own level, by its key, on its first line |
| JsonSummary.ItemsUnkeyed | src-tauri/src/lib.rs:369-392 | no line under an array header names a value at the header's level |
| JsonSummary.MembersListed | src-tauri/src/lib.rs:356-358 | the members' lines name every key, in the object's order |
| JsonSummary.ObjectListsKeys | src-tauri/src/lib.rs:338-359 | an object's outline lists all its keys one level deeper |
| JsonSummary.KeysAtAppend | src-tauri/src/lib.rs:334-420 | the keys named at a level in two runs of lines are the first run's, then the second's |
| JsonSummary.KeysAtDeeper | src-tauri/src/lib.rs:334-420 | lines below a level name no keys at that level |
| JsonSummary.WithinAppend | src-tauri/src/lib.rs:334-420 | two runs of lines, each between two levels, stay between them when joined |
| JsonSummary.RenderLine | src-tauri/src/lib.rs:334-418 | a rendered line starts with two spaces per level and ends with a line break |
| JsonSummary.RenderAppend | src-tauri/src/lib.rs:334-420 | the text of two runs of lines is their texts one after the other |
| JsonSummary.MembersText | src-tauri/src/lib.rs:356-358 | the text of the members' lines is their summaries concatenated in order |
| JsonSummary.ItemsText | src-tauri/src/lib.rs:370-393 | the text under an array header is the types line and, when the first item is an object, the "First item structure" line followed by that item's summary two levels deeper |
| JsonSummary.ObjectSummaryText | src-tauri/src/lib.rs:338-359 | an object's summary is its header line, then each member's summary one level deeper under its key |
| JsonSummary.ArraySummaryText | src-tauri/src/lib.rs:361-395 | an array's summary is its header line; then, unless the array is empty, the types line; then, when the first item is an object, the "First item structure" line and that item's summary as "item" two levels deeper |
| JsonSummary.PrimitiveSummaryText | src-tauri/src/lib.rs:396-418 | a primitive's summary is its one line |
| Strings.IsWhitespace | src-tauri/src/lib.rs:153 | Unicode White_Space, the set `char::is_whitespace` tests and `str::trim` strips |
| Strings.Trim | src-tauri/src/lib.rs:85 | the trim is empty exactly for all-whitespace input; otherwise it is the input from the first to the last non-whitespace character |
| Strings.LeadingWhitespace | src-tauri/src/lib.rs:85 | the leading run is all whitespace and is followed by a non-whitespace character or the end |
| Strings.EndOfContent | src-tauri/src/lib.rs:85 | after the returned position there is only whitespace, and the character just before it is not whitespace |
| Strings.SqueezeTrim | src-tauri/src/lib.rs:85 | trimming keeps every non-whitespace character, in order |
| Strings.Squeeze | src-tauri/src/lib.rs:84-183 | a measure for stating what `format_xml` keeps, not a step of the code: the non-whitespace characters, no longer than the input, none of them whitespace |
| Strings.SqueezeAppend | src-tauri/src/lib.rs:84-183 | the measure on a concatenation: the non-whitespace of a concatenation is that of each part, in order |
| Strings.SqueezeBlank | src-tauri/src/lib.rs:84-183 | the measure on layout: a blank string has no non-whitespace characters |
| Strings.Split | src-tauri/src/lib.rs:193 | a split gives at least one part, and no part holds the separator |
| Strings.SplitCount | src-tauri/src/lib.rs:193-195 | a split gives one part more than there are separators |
| Strings.SplitJoin | src-tauri/src/lib.rs:193 | the parts joined back with the separator are the input |
| Strings.JoinThree | src-tauri/src/lib.rs:193-195 | three parts joined are the first, the separator, the second, the separator, the third |
| Strings.JoinCons | src-tauri/src/lib.rs:193 | joining a part in front of further parts puts the separator between them |
| Strings.CountAppend | src-tauri/src/lib.rs:193 | the separators of a concatenation are those of each part |
| Strings.CountAbsent | src-tauri/src/lib.rs:193 | a string without the separator has none to count |
| Strings.IndexOf | src-tauri/src/lib.rs:193 | the first occurrence, or the end when there is none |
| Strings.Lines | src-tauri/src/lib.rs:63 | no line holds a line break |
| Strings.StripCr | src-tauri/src/lib.rs:63 | the `\r` before a line break taken off: a line ending in `\r` loses exactly that one character, any other line is kept |
| Strings.LinesSplit | src-tauri/src/lib.rs:63 | the lines are the pieces of the text split at each line break, with a `\r` before a break taken off; an empty last piece is not a line, and a last piece without a break after it keeps its characters |
| Strings.JoinWith | src-tauri/src/lib.rs:384 | `join`: the parts with the separator between each two |
| Strings.ReplaceChar | src-tauri/src/lib.rs:257 | same length; each occurrence of the character is replaced and every other character is kept |
| Strings.Repeat | src-tauri/src/lib.rs:126 | `n` copies of the character |
| Strings.NatToString | src-tauri/src/lib.rs:325-329 | decimal digits only, with no leading zero |
| Strings.NatToStringRoundTrip | src-tauri/src/lib.rs:325-329 | reading the digits back gives the number |

## Left out

- Tauri, the `AppState` mutex and lock poisoning are not modelled. The seven
  `state.lock()` errors (lib.rs:17, 36, 488, 501, 539, 554, 579) cannot happen in a single-threaded model, and concurrent
  commands are not modelled.
- `greet` is not modelled: it only formats a greeting.
- `read_large_file_streaming`: opening the file and reading its metadata are not
  modelled. The file's size and the outcome of reading it are parameters, so the two
  earlier errors ("Failed to open file", "Failed to get file metadata") are not part
  of the model.
- `serde_json` parsing, pretty printing and error positions, the base64 STANDARD
  engine, UTF-8 conversion and `HashSet` iteration order are all library calls. They
  are modelled as opaque functions in `Foreign.Library`. Their own output formats and
  error texts are not modelled.
- Lengths and offsets count characters, not bytes. `str::len`, `&s[start..end]` in
  `get_content_chunk`, `&s[..47]` and `s.len()` in the string preview, `padded.len() % 4` in
  `decode_jwt_part`, and
  `get_content_info`'s lengths all count UTF-8 bytes in Rust. As a result, the model
  does not capture the panic `get_content_chunk` or the preview hits when an offset
  falls inside a multi-byte character.
- Integer widths are unbounded. `start + chunk_size` overflowing `usize`, `depth`
  overflowing `i32` in `format_xml`, and the `JsonStats` counters wrapping are not
  modelled.
- Parsed objects are sequences of members and keys are taken to be distinct, as in a
  `serde_json::Map`. The order of a map's keys is that sequence's order. `TokenObject`
  writes the keys already sorted, which is the order the default `Map` keeps.
- JsonSummary.EntryText: the emoji and label text of each summary line are written
  out, but no property is proved about the wording.
- Transforms.FormatJson: the marker places `^` after `column` dashes and the report
  prints `column + 1`, as the code does. Whether that lines up with the bad character
  depends on `serde_json`'s column convention, which is left to the library.
- Transforms.DecodeBase64: the decoded text is whatever the STANDARD engine and the
  UTF-8 check return. The contract states when decoding fails and which prefix each
  failure carries, and `Base64RoundTrip` states the round trip under the library's own
  promises.
- Transforms.EncodeBase64: the encoded text is whatever the STANDARD engine returns.
  Its totality, the empty case and, under `Base64Faithful`, that only the empty text
  encodes to "" are stated; the round trip is `Base64RoundTrip`.
