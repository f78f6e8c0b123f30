/**
 * `format_xml`: a character-by-character re-indenter for XML-like text. It checks the
 * trimmed input is bracketed by `<` and `>`, copies every tag, puts each opening tag on
 * its own line indented by two spaces per open tag, keeps trimmed text inline, and
 * rejects input whose opening and closing tags do not cancel out.
 *
 * The specification is split in two: `Scan` cuts the input into the pieces the loop
 * visits (tags, text runs, blanks), and `Step`/`Run` lay those pieces out.
 */
module Xml {
  import opened Wrappers
  import opened Strings

  const EmptyInput := "Empty XML input"
  const NotBracketed := "Invalid XML: Must start with '<' and end with '>'"
  const UnclosedTag := "Invalid XML: Unclosed tag found"
  const UnbalancedTags := "Invalid XML: Unbalanced tags detected"

  /** Index of the first `c` at or after `j`, or `|s|` when there is none. */
  function FindFrom(s: string, j: nat, c: char): (k: nat)
    requires j <= |s|
    ensures j <= k <= |s|
    ensures k < |s| ==> s[k] == c
    ensures forall m | j <= m < k :: s[m] != c
    decreases |s| - j
  {
    if j == |s| then j else if s[j] == c then j else FindFrom(s, j + 1, c)
  }

  /** A piece of the input: a tag `<body>`, a run of text up to the next `<`, or one
      whitespace character between them. */
  datatype Token = Tag(body: string) | TextRun(raw: string) | Blank(c: char)

  /** `tag_content.starts_with('/')`. */
  predicate IsClosing(body: string) {
    |body| > 0 && body[0] == '/'
  }

  /** `tag_content.ends_with('/')`. */
  predicate IsSelfClosing(body: string) {
    |body| > 0 && body[|body| - 1] == '/'
  }

  /** The characters a piece was cut from. */
  function Spelling(t: Token): string {
    match t
    case Tag(body) => "<" + body + ">"
    case TextRun(raw) => raw
    case Blank(c) => [c]
  }

  /** The characters a sequence of pieces was cut from. */
  function Source(ts: seq<Token>): string {
    if ts == [] then [] else Spelling(ts[0]) + Source(ts[1..])
  }

  function Prepend(t: Token, rest: Option<seq<Token>>): Option<seq<Token>> {
    match rest
    case None => None
    case Some(ts) => Some([t] + ts)
  }

  /** The piece of `s` that starts at `i` and where the next one starts; None for a `<`
      with no `>` after it. */
  function NextPiece(s: string, i: nat): (r: Option<(Token, nat)>)
    requires i < |s|
    ensures r.Some? ==> i < r.value.1 <= |s|
  {
    if s[i] == '<' then
      var e := FindFrom(s, i, '>');
      if e == |s| then None else Some((Tag(s[i + 1..e]), e + 1))
    else if !IsWhitespace(s[i]) then
      var e := FindFrom(s, i, '<');
      Some((TextRun(s[i..e]), e))
    else
      Some((Blank(s[i]), i + 1))
  }

  /** The pieces of `s[i..]` in the order the loop of `format_xml` visits them; None when
      the loop meets a `<` that no later `>` closes. */
  function Scan(s: string, i: nat): Option<seq<Token>>
    requires i <= |s|
    decreases |s| - i
  {
    if i == |s| then Some([])
    else
      match NextPiece(s, i)
      case None => None
      case Some((t, j)) => Prepend(t, Scan(s, j))
  }

  /** The formatter's state between two pieces: the `formatted` buffer, `depth` and
      `last_was_text`. */
  datatype Layout = Layout(out: string, depth: int, lastWasText: bool)

  /** `"  ".repeat(depth.max(0) as usize)`. */
  function Indent(depth: int): (r: string)
    ensures |r| == (if depth > 0 then 2 * depth else 0)
    ensures forall k | 0 <= k < |r| :: r[k] == ' '
  {
    Repeat(' ', if depth > 0 then 2 * depth else 0)
  }

  /** What the loop does with one piece. The output only grows; a closing tag takes one
      level off the depth, an opening tag that does not close itself adds one, and
      nothing else changes it. */
  function Step(st: Layout, t: Token): (r: Layout)
    ensures st.out <= r.out
    ensures r.depth == st.depth + (if t.Tag? && IsClosing(t.body) then -1
                                   else if t.Tag? && !IsSelfClosing(t.body) then 1 else 0)
  {
    match t
    case Tag(body) =>
      var tag := "<" + body + ">";
      if IsClosing(body) then
        var depth := st.depth - 1;
        var out := if st.lastWasText then st.out else st.out + "\n" + Indent(depth);
        Layout(out + tag, depth, false)
      else
        var out := (if st.out == [] then st.out else st.out + "\n") + Indent(st.depth);
        Layout(out + tag, if IsSelfClosing(body) then st.depth else st.depth + 1, false)
    case TextRun(raw) =>
      var text := Trim(raw);
      if text == [] then st else Layout(st.out + text, st.depth, true)
    case Blank(_) => st
  }

  /** The pieces laid out one after the other: what was already written stays. */
  function Run(st: Layout, ts: seq<Token>): (r: Layout)
    ensures st.out <= r.out
    decreases |ts|
  {
    if ts == [] then st else Run(Step(st, ts[0]), ts[1..])
  }

  /** The end of the loop and the final depth check. */
  function Finish(scan: Option<seq<Token>>, st: Layout): Result<string> {
    match scan
    case None => Err(UnclosedTag)
    case Some(ts) =>
      var last := Run(st, ts);
      if last.depth != 0 then Err(UnbalancedTags) else Ok(last.out)
  }

  /** What `format_xml` returns for `text`. */
  function FormatXmlSpec(text: string): Result<string> {
    var trimmed := Trim(text);
    if trimmed == [] then Err(EmptyInput)
    else if !(trimmed[0] == '<' && trimmed[|trimmed| - 1] == '>') then Err(NotBracketed)
    else Finish(Scan(trimmed, 0), Layout([], 0, false))
  }

  /** Laying out a scanned piece first and then the rest is laying out the rest from the
      state after that piece. */
  lemma FinishPrepend(t: Token, rest: Option<seq<Token>>, st: Layout)
    ensures Finish(Prepend(t, rest), st) == Finish(rest, Step(st, t))
  {
    if rest.Some? {
      assert ([t] + rest.value)[1..] == rest.value;
    }
  }

  /** The rest of the loop from position `i` in state `st`, one iteration per call:
      the loop of `format_xml` as a tail-recursive function. */
  function Resume(s: string, i: nat, st: Layout): Result<string>
    requires i <= |s|
    decreases |s| - i
  {
    if i == |s| then
      (if st.depth != 0 then Err(UnbalancedTags) else Ok(st.out))
    else
      match NextPiece(s, i)
      case None => Err(UnclosedTag)
      case Some((t, j)) => Resume(s, j, Step(st, t))
  }

  /** Running the loop is scanning the pieces and laying them out. */
  lemma {:induction false} ResumeIsFinish(s: string, i: nat, st: Layout)
    requires i <= |s|
    ensures Resume(s, i, st) == Finish(Scan(s, i), st)
    decreases |s| - i
  {
    if i < |s| && NextPiece(s, i).Some? {
      var (t, j) := NextPiece(s, i).value;
      ResumeIsFinish(s, j, Step(st, t));
      FinishPrepend(t, Scan(s, j), st);
    }
  }

  /** One turn of the loop at a tag that closes at `e`. */
  lemma ResumeTag(s: string, i: nat, e: nat, next: nat, st: Layout, st': Layout)
    requires i < e < |s| && s[i] == '<' && FindFrom(s, i, '>') == e && next == e + 1
    requires st' == Step(st, Tag(s[i + 1..e]))
    ensures Resume(s, i, st) == Resume(s, next, st')
  {
  }

  /** One turn of the loop at a run of text that stops at `e`. */
  lemma ResumeText(s: string, i: nat, e: nat, st: Layout, st': Layout)
    requires i < e <= |s| && s[i] != '<' && !IsWhitespace(s[i]) && FindFrom(s, i, '<') == e
    requires st' == Step(st, TextRun(s[i..e]))
    ensures Resume(s, i, st) == Resume(s, e, st')
  {
  }

  /** A `<` with no `>` after it ends the loop with "Unclosed tag found". */
  lemma ResumeUnclosed(s: string, i: nat, st: Layout)
    requires i < |s| && s[i] == '<' && FindFrom(s, i, '>') == |s|
    ensures Resume(s, i, st) == Err(UnclosedTag)
  {
  }

  /** One turn of the loop at a blank between pieces. */
  lemma ResumeBlank(s: string, i: nat, st: Layout)
    requires i < |s| && s[i] != '<' && IsWhitespace(s[i])
    ensures Resume(s, i, st) == Resume(s, i + 1, st)
  {
  }

  /** The inner scanning loops of `format_xml`: move forward to the next `c`. */
  method Seek(s: string, j: nat, c: char) returns (k: nat)
    requires j <= |s|
    ensures k == FindFrom(s, j, c)
  {
    k := j;
    while k < |s| && s[k] != c
      invariant j <= k <= |s|
      invariant FindFrom(s, k, c) == FindFrom(s, j, c)
    {
      k := k + 1;
    }
  }

  /** The body of the loop for a tag closed at `tagEnd`: the line break and indentation
      in front of it, the depth change, then the tag copied character by character. */
  method PushTag(formatted0: string, depth0: int, lastWasText0: bool, chars: string, i: nat, tagEnd: nat)
    returns (formatted: string, depth: int, lastWasText: bool)
    requires i < tagEnd < |chars| && chars[i] == '<' && chars[tagEnd] == '>'
    ensures Layout(formatted, depth, lastWasText)
      == Step(Layout(formatted0, depth0, lastWasText0), Tag(chars[i + 1..tagEnd]))
  {
    var tagContent := chars[i + 1..tagEnd];
    formatted, depth, lastWasText := LeadTag(formatted0, depth0, lastWasText0, tagContent);
    ghost var before := formatted;
    for j := i to tagEnd + 1
      invariant formatted == before + chars[i..j]
    {
      AppendNext(before, chars, i, j);
      formatted := formatted + [chars[j]];
    }
    TagSpelling(chars, i, tagEnd);
  }

  /** What comes before a tag: for a closing tag one level less, and a line break and
      indentation unless it follows text; for any other tag a line break unless the
      output is empty, indentation, and one level more unless it closes itself. */
  method LeadTag(formatted0: string, depth0: int, lastWasText0: bool, tagContent: string)
    returns (formatted: string, depth: int, lastWasText: bool)
    ensures Step(Layout(formatted0, depth0, lastWasText0), Tag(tagContent))
      == Layout(formatted + ("<" + tagContent + ">"), depth, lastWasText)
  {
    formatted, depth, lastWasText := formatted0, depth0, lastWasText0;
    var isClosingTag := |tagContent| > 0 && tagContent[0] == '/';
    var isSelfClosing := |tagContent| > 0 && tagContent[|tagContent| - 1] == '/';
    if isClosingTag {
      depth := depth - 1;
      if !lastWasText {
        formatted := formatted + "\n" + Indent(depth);
      }
      lastWasText := false;
    } else {
      if formatted != [] {
        formatted := formatted + "\n";
      }
      formatted := formatted + Indent(depth);
      if !isSelfClosing {
        depth := depth + 1;
      }
      lastWasText := false;
    }
  }

  /** Appending the next character extends the copied slice by one. */
  lemma AppendNext(before: string, s: string, i: nat, j: nat)
    requires i <= j < |s|
    ensures before + s[i..j] + [s[j]] == before + s[i..j + 1]
  {
    assert s[i..j + 1] == s[i..j] + [s[j]];
  }

  /** The characters from a `<` to the next `>` are the tag around its body. */
  lemma TagSpelling(s: string, i: nat, e: nat)
    requires i < e < |s| && s[i] == '<' && s[e] == '>'
    ensures s[i..e + 1] == "<" + s[i + 1..e] + ">"
  {
    assert s[i..e + 1] == [s[i]] + s[i + 1..e] + [s[e]];
  }

  /** The body of the loop for a run of text: trimmed, and appended only when something
      is left. */
  method PushText(formatted0: string, depth: int, lastWasText0: bool, run: string)
    returns (formatted: string, lastWasText: bool)
    ensures Layout(formatted, depth, lastWasText) == Step(Layout(formatted0, depth, lastWasText0), TextRun(run))
  {
    formatted, lastWasText := formatted0, lastWasText0;
    var textContent := Trim(run);
    if textContent != [] {
      formatted := formatted + textContent;
      lastWasText := true;
    }
  }

  /** `format_xml`: the checks on the trimmed input, then the loop over its characters. */
  method FormatXml(text: string) returns (r: Result<string>)
    ensures r == FormatXmlSpec(text)
  {
    ResumeIsFinish(Trim(text), 0, Layout([], 0, false));
    var trimmed := Trim(text);
    if trimmed == [] {
      return Err(EmptyInput);
    }
    if !(trimmed[0] == '<') || !(trimmed[|trimmed| - 1] == '>') {
      return Err(NotBracketed);
    }
    r := Reindent(trimmed);
  }

  /** One turn of the loop of `format_xml` at position `i`: a tag, a run of text or a blank.
      `unclosed` is the early exit for a `<` with no `>` after it. */
  method Turn(chars: string, i: nat, formatted0: string, depth0: int, lastWasText0: bool)
    returns (unclosed: bool, next: nat, formatted: string, depth: int, lastWasText: bool)
    requires i < |chars|
    ensures unclosed ==> Resume(chars, i, Layout(formatted0, depth0, lastWasText0)) == Err(UnclosedTag)
    ensures !unclosed ==> i < next <= |chars|
    ensures !unclosed ==> Resume(chars, i, Layout(formatted0, depth0, lastWasText0))
                          == Resume(chars, next, Layout(formatted, depth, lastWasText))
  {
    if chars[i] == '<' {
      var tagEnd := Seek(chars, i, '>');
      if tagEnd >= |chars| {
        ResumeUnclosed(chars, i, Layout(formatted0, depth0, lastWasText0));
        return true, i, formatted0, depth0, lastWasText0;
      }
      unclosed := false;
      next, formatted, depth, lastWasText := TagTurn(chars, i, tagEnd, formatted0, depth0, lastWasText0);
    } else if !IsWhitespace(chars[i]) {
      unclosed, depth := false, depth0;
      next, formatted, lastWasText := TextTurn(chars, i, formatted0, depth0, lastWasText0);
    } else {
      ResumeBlank(chars, i, Layout(formatted0, depth0, lastWasText0));
      unclosed, next, formatted, depth, lastWasText := false, i + 1, formatted0, depth0, lastWasText0;
    }
  }

  /** The turn for a `<` closed by the `>` at `tagEnd`: lay out the tag. */
  method TagTurn(chars: string, i: nat, tagEnd: nat, formatted0: string, depth0: int, lastWasText0: bool)
    returns (next: nat, formatted: string, depth: int, lastWasText: bool)
    requires i < tagEnd < |chars| && chars[i] == '<' && FindFrom(chars, i, '>') == tagEnd
    ensures next == tagEnd + 1
    ensures Resume(chars, i, Layout(formatted0, depth0, lastWasText0))
            == Resume(chars, next, Layout(formatted, depth, lastWasText))
  {
    formatted, depth, lastWasText := PushTag(formatted0, depth0, lastWasText0, chars, i, tagEnd);
    next := tagEnd + 1;
    ResumeTag(chars, i, tagEnd, next, Layout(formatted0, depth0, lastWasText0), Layout(formatted, depth, lastWasText));
  }

  /** The turn for a run of text: find the next `<` and lay out the trimmed run. */
  method TextTurn(chars: string, i: nat, formatted0: string, depth: int, lastWasText0: bool)
    returns (next: nat, formatted: string, lastWasText: bool)
    requires i < |chars| && chars[i] != '<' && !IsWhitespace(chars[i])
    ensures i < next <= |chars|
    ensures Resume(chars, i, Layout(formatted0, depth, lastWasText0))
            == Resume(chars, next, Layout(formatted, depth, lastWasText))
  {
    next := Seek(chars, i, '<');
    formatted, lastWasText := PushText(formatted0, depth, lastWasText0, chars[i..next]);
    ResumeText(chars, i, next, Layout(formatted0, depth, lastWasText0), Layout(formatted, depth, lastWasText));
  }

  /** The `while i < chars.len()` loop and the depth check after it. */
  method Reindent(chars: string) returns (r: Result<string>)
    ensures r == Resume(chars, 0, Layout([], 0, false))
  {
    var formatted: string := [];
    var depth: int := 0;
    var i: nat := 0;
    var lastWasText := false;
    ghost var goal := Resume(chars, 0, Layout(formatted, depth, lastWasText));
    while i < |chars|
      invariant i <= |chars|
      invariant goal == Resume(chars, i, Layout(formatted, depth, lastWasText))
      decreases |chars| - i
    {
      var unclosed;
      unclosed, i, formatted, depth, lastWasText := Turn(chars, i, formatted, depth, lastWasText);
      if unclosed {
        return Err(UnclosedTag);
      }
    }
    if depth != 0 {
      return Err(UnbalancedTags);
    }
    return Ok(formatted);
  }
}
