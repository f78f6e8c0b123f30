/**
 * What `format_xml` promises, proved about its specification `FormatXmlSpec`: the
 * pieces it visits spell the input back, the "Unclosed tag" exit can never be taken,
 * the final depth is the number of opening tags minus the number of closing tags, and
 * formatting only ever adds or removes whitespace.
 */
module XmlLaws {
  import opened Wrappers
  import opened Strings
  import opened Xml

  /** The shape of each piece the loop visits: a tag body holds no `>`; a text run is
      not empty, holds no `<` and starts with a non-whitespace character; a blank is one
      whitespace character. */
  predicate WellCut(t: Token) {
    match t
    case Tag(body) => '>' !in body
    case TextRun(raw) => raw != [] && !IsWhitespace(raw[0]) && '<' !in raw
    case Blank(c) => IsWhitespace(c) && c != '<'
  }

  /** Searching from a later point that is still before the match finds the same match. */
  lemma {:induction false} FindFromLater(s: string, i: nat, p: nat, c: char)
    requires i <= |s| && i <= p <= FindFrom(s, i, c)
    ensures FindFrom(s, p, c) == FindFrom(s, i, c)
    decreases p - i
  {
    if i < p {
      assert s[i] != c;
      FindFromLater(s, i + 1, p, c);
    }
  }

  /** The piece at `i` is well cut and spells the input from `i` up to where the next
      piece starts. */
  lemma NextPieceSpells(s: string, i: nat)
    requires i < |s| && NextPiece(s, i).Some?
    ensures var (t, j) := NextPiece(s, i).value;
      WellCut(t) && s[i..j] == Spelling(t)
  {
    var (t, j) := NextPiece(s, i).value;
    if s[i] == '<' {
      var e := FindFrom(s, i, '>');
      assert s[i..e + 1] == [s[i]] + s[i + 1..e] + [s[e]];
    } else if !IsWhitespace(s[i]) {
      assert s[i..j][0] == s[i];
    } else {
      assert s[i..i + 1] == [s[i]];
    }
  }

  /** A successful scan from `i` is the piece at `i` in front of a successful scan
      from where that piece ends. */
  lemma ScanStep(s: string, i: nat)
    requires i < |s| && Scan(s, i).Some?
    ensures NextPiece(s, i).Some?
    ensures var (t, j) := NextPiece(s, i).value;
      Scan(s, j).Some? && Scan(s, i).value == [t] + Scan(s, j).value
  {
  }

  /** The pieces spell the first piece's characters, then the rest's. */
  lemma SourceCons(t: Token, ts: seq<Token>)
    ensures Source([t] + ts) == Spelling(t) + Source(ts)
  {
    assert ([t] + ts)[1..] == ts;
  }

  /** Tokenize round trip: when the scan succeeds, its pieces are well cut and spell
      `s[i..]` back exactly. */
  lemma {:induction false} ScanSpellsInput(s: string, i: nat)
    requires i <= |s| && Scan(s, i).Some?
    ensures Source(Scan(s, i).value) == s[i..]
    ensures forall k | 0 <= k < |Scan(s, i).value| :: WellCut(Scan(s, i).value[k])
    decreases |s| - i
  {
    if i < |s| {
      ScanStep(s, i);
      var (t, j) := NextPiece(s, i).value;
      var ts := Scan(s, j).value;
      ScanSpellsInput(s, j);
      NextPieceSpells(s, i);
      SourceCons(t, ts);
      SliceConcat(s, i, j);
    }
  }

  /** Some `<` at or after `i` has no `>` anywhere after it. */
  predicate Unclosed(s: string, i: nat)
    requires i <= |s|
  {
    exists p | i <= p < |s| :: s[p] == '<' && FindFrom(s, p, '>') == |s|
  }

  /** The scan fails exactly when a `<` is never closed. */
  lemma {:induction false} ScanFailsIffUnclosed(s: string, i: nat)
    requires i <= |s|
    ensures Scan(s, i).None? <==> Unclosed(s, i)
    decreases |s| - i
  {
    if i < |s| {
      match NextPiece(s, i)
      case None =>
        assert s[i] == '<' && FindFrom(s, i, '>') == |s|;
      case Some((t, j)) =>
        ScanFailsIffUnclosed(s, j);
        forall p | i <= p < j && s[p] == '<'
          ensures FindFrom(s, p, '>') < |s|
        {
          if s[i] == '<' {
            FindFromLater(s, i, p, '>');
          }
        }
        if Unclosed(s, i) {
          var p :| i <= p < |s| && s[p] == '<' && FindFrom(s, p, '>') == |s|;
          assert j <= p;
        }
    }
  }

  /** Input that ends with `>` has no unclosed `<`, so its scan succeeds. */
  lemma EndsClosedScans(s: string)
    requires s != [] && s[|s| - 1] == '>'
    ensures Scan(s, 0).Some?
  {
    ScanFailsIffUnclosed(s, 0);
    forall p | 0 <= p < |s| && s[p] == '<'
      ensures FindFrom(s, p, '>') < |s|
    {
    }
  }

  /** Opening tags that are neither closing nor self-closing. */
  function Opens(ts: seq<Token>): nat {
    if ts == [] then 0
    else
      var t := ts[0];
      var here := if t.Tag? && !IsClosing(t.body) && !IsSelfClosing(t.body) then 1 else 0;
      here + Opens(ts[1..])
  }

  /** Closing tags. */
  function Closes(ts: seq<Token>): nat {
    if ts == [] then 0
    else
      var here := if ts[0].Tag? && IsClosing(ts[0].body) then 1 else 0;
      here + Closes(ts[1..])
  }

  /** Each opening tag adds one to the depth and each closing tag takes one away. */
  lemma {:induction false} RunDepth(st: Layout, ts: seq<Token>)
    ensures Run(st, ts).depth == st.depth + Opens(ts) - Closes(ts)
    decreases |ts|
  {
    if ts != [] {
      RunDepth(Step(st, ts[0]), ts[1..]);
    }
  }

  /** The indentation is whitespace. */
  lemma IndentSqueezes(depth: int)
    ensures Squeeze("\n" + Indent(depth)) == [] && Squeeze(Indent(depth)) == []
  {
    SqueezeBlank("\n" + Indent(depth));
    SqueezeBlank(Indent(depth));
  }

  /** One step keeps the non-whitespace characters of the piece, in order. */
  lemma StepSqueeze(st: Layout, t: Token)
    requires WellCut(t)
    ensures Squeeze(Step(st, t).out) == Squeeze(st.out) + Squeeze(Spelling(t))
  {
    match t
    case Tag(body) =>
      if IsClosing(body) {
        ClosingSqueeze(st, body);
      } else {
        OpeningSqueeze(st, body);
      }
    case TextRun(raw) =>
      SqueezeTrim(raw);
      SqueezeAppend(st.out, Trim(raw));
    case Blank(c) =>
      SqueezeBlank([c]);
  }

  /** Whitespace put between the output and a tag leaves only their non-whitespace
      characters. */
  lemma SqueezeGap(a: string, w1: string, w2: string, tag: string)
    requires Squeeze(w1) == [] && Squeeze(w2) == []
    ensures Squeeze(a + w1 + w2 + tag) == Squeeze(a) + Squeeze(tag)
  {
    SqueezeAppend(a + w1 + w2, tag);
    SqueezeAppend(a + w1, w2);
    SqueezeAppend(a, w1);
  }

  /** A closing tag, with or without a line break and indentation before it. */
  lemma ClosingSqueeze(st: Layout, body: string)
    requires IsClosing(body)
    ensures Squeeze(Step(st, Tag(body)).out) == Squeeze(st.out) + Squeeze("<" + body + ">")
  {
    var tag := "<" + body + ">";
    if st.lastWasText {
      SqueezeAppend(st.out, tag);
    } else {
      IndentSqueezes(st.depth - 1);
      SqueezeBlank("\n");
      SqueezeGap(st.out, "\n", Indent(st.depth - 1), tag);
    }
  }

  /** An opening or self-closing tag, after a line break unless the output is empty,
      and indentation. */
  lemma OpeningSqueeze(st: Layout, body: string)
    requires !IsClosing(body)
    ensures Squeeze(Step(st, Tag(body)).out) == Squeeze(st.out) + Squeeze("<" + body + ">")
  {
    var tag := "<" + body + ">";
    IndentSqueezes(st.depth);
    if st.out == [] {
      SqueezeGap(st.out, [], Indent(st.depth), tag);
      assert st.out + [] + Indent(st.depth) == Indent(st.depth);
    } else {
      SqueezeBlank("\n");
      SqueezeGap(st.out, "\n", Indent(st.depth), tag);
    }
  }

  /** Laying out pieces keeps the non-whitespace characters they spell, in order. */
  lemma {:induction false} RunSqueeze(st: Layout, ts: seq<Token>)
    requires forall k | 0 <= k < |ts| :: WellCut(ts[k])
    ensures Squeeze(Run(st, ts).out) == Squeeze(st.out) + Squeeze(Source(ts))
    decreases |ts|
  {
    if ts != [] {
      RunSqueeze(Step(st, ts[0]), ts[1..]);
      RunSqueezeStep(st, ts);
    }
  }

  /** The inductive step of RunSqueeze: the first piece's characters, then the rest's. */
  lemma RunSqueezeStep(st: Layout, ts: seq<Token>)
    requires ts != [] && WellCut(ts[0])
    requires Squeeze(Run(Step(st, ts[0]), ts[1..]).out)
      == Squeeze(Step(st, ts[0]).out) + Squeeze(Source(ts[1..]))
    ensures Squeeze(Run(st, ts).out) == Squeeze(st.out) + Squeeze(Source(ts))
  {
    var st', rest := Step(st, ts[0]), ts[1..];
    calc {
      Squeeze(Run(st, ts).out);
      Squeeze(Run(st', rest).out);
      Squeeze(st'.out) + Squeeze(Source(rest));
      { StepSqueeze(st, ts[0]); }
      Squeeze(st.out) + Squeeze(Spelling(ts[0])) + Squeeze(Source(rest));
      { AppendAssociates(Squeeze(st.out), Squeeze(Spelling(ts[0])), Squeeze(Source(rest))); }
      Squeeze(st.out) + (Squeeze(Spelling(ts[0])) + Squeeze(Source(rest)));
      { SqueezeAppend(Spelling(ts[0]), Source(rest)); }
      Squeeze(st.out) + Squeeze(Spelling(ts[0]) + Source(rest));
      Squeeze(st.out) + Squeeze(Source(ts));
    }
  }

  /** "Empty XML input" exactly for input that is all whitespace. */
  lemma EmptyInputIff(text: string)
    ensures FormatXmlSpec(text) == Err(EmptyInput) <==> forall k | 0 <= k < |text| :: IsWhitespace(text[k])
  {
  }

  /** The trimmed input starts with `<` and ends with `>`. */
  predicate Bracketed(trimmed: string) {
    trimmed != [] && trimmed[0] == '<' && trimmed[|trimmed| - 1] == '>'
  }

  /** "Must start with '<' and end with '>'" exactly for non-blank input whose trimmed
      form is not bracketed. */
  lemma NotBracketedIff(text: string)
    ensures FormatXmlSpec(text) == Err(NotBracketed) <==> Trim(text) != [] && !Bracketed(Trim(text))
  {
    if Bracketed(Trim(text)) {
      EndsClosedScans(Trim(text));
    }
  }

  /** The "Unclosed tag found" exit is never taken: the trimmed input ends with `>`, so
      every `<` has a `>` after it. */
  lemma NeverUnclosed(text: string)
    ensures FormatXmlSpec(text) != Err(UnclosedTag)
  {
    if Bracketed(Trim(text)) {
      EndsClosedScans(Trim(text));
    }
  }

  /** For bracketed input the outcome is decided by the tag count alone: success when the
      opening and closing tags cancel out, "Unbalanced tags detected" otherwise. */
  lemma BalancedIff(text: string)
    requires Bracketed(Trim(text))
    ensures Scan(Trim(text), 0).Some?
    ensures var ts := Scan(Trim(text), 0).value;
      (FormatXmlSpec(text).Ok? <==> Opens(ts) == Closes(ts))
      && (Opens(ts) != Closes(ts) ==> FormatXmlSpec(text) == Err(UnbalancedTags))
  {
    EndsClosedScans(Trim(text));
    RunDepth(Layout([], 0, false), Scan(Trim(text), 0).value);
  }

  /** Formatting only adds or removes whitespace: the output's non-whitespace characters
      are the input's, in the same order. */
  lemma FormatKeepsContent(text: string, out: string)
    requires FormatXmlSpec(text) == Ok(out)
    ensures Squeeze(out) == Squeeze(text)
  {
    var trimmed := Trim(text);
    EndsClosedScans(trimmed);
    var ts := Scan(trimmed, 0).value;
    ScanSpellsInput(trimmed, 0);
    RunSqueeze(Layout([], 0, false), ts);
    assert trimmed[0..] == trimmed;
    SqueezeTrim(text);
  }

  /** What the loop writes for a piece itself: a tag as it was spelled, a text run
      trimmed, nothing for a blank. */
  function Emitted(t: Token): string {
    match t
    case Tag(body) => "<" + body + ">"
    case TextRun(raw) => Trim(raw)
    case Blank(_) => []
  }

  /** A run of whitespace only. */
  predicate AllWhitespace(w: string) {
    forall k | 0 <= k < |w| :: IsWhitespace(w[k])
  }

  /** The whitespace the loop writes in front of a piece: before a closing tag a line
      break and the indentation one level up unless it follows text; before any other
      tag a line break unless nothing was written yet, and the indentation; nothing
      before text. */
  function Gap(st: Layout, t: Token): (w: string)
    ensures AllWhitespace(w)
  {
    match t
    case Tag(body) =>
      if IsClosing(body) then (if st.lastWasText then [] else "\n" + Indent(st.depth - 1))
      else (if st.out == [] then [] else "\n") + Indent(st.depth)
    case _ => []
  }

  /** One step writes the gap and then the piece. */
  lemma StepEmits(st: Layout, t: Token)
    ensures Step(st, t).out == st.out + Gap(st, t) + Emitted(t)
  {
    match t
    case Tag(body) =>
      if IsClosing(body) {
        if !st.lastWasText {
          AppendAssociates(st.out, "\n", Indent(st.depth - 1));
        }
      } else if st.out != [] {
        AppendAssociates(st.out, "\n", Indent(st.depth));
      }
    case TextRun(raw) =>
    case Blank(_) =>
  }

  /** The gap in front of each piece when the pieces are laid out from `st`. */
  function Gaps(st: Layout, ts: seq<Token>): (gs: seq<string>)
    ensures |gs| == |ts|
    ensures forall k | 0 <= k < |gs| :: AllWhitespace(gs[k])
    decreases |ts|
  {
    if ts == [] then [] else [Gap(st, ts[0])] + Gaps(Step(st, ts[0]), ts[1..])
  }

  /** Each gap followed by its piece, one after the other. */
  function Weave(gs: seq<string>, ts: seq<Token>): string
    requires |gs| == |ts|
    decreases |ts|
  {
    if ts == [] then [] else gs[0] + Emitted(ts[0]) + Weave(gs[1..], ts[1..])
  }

  /** Laying out pieces appends, for each piece in order, its gap and the piece. */
  lemma {:induction false} RunEmits(st: Layout, ts: seq<Token>)
    ensures Run(st, ts).out == st.out + Weave(Gaps(st, ts), ts)
    decreases |ts|
  {
    if ts == [] {
      assert Run(st, ts).out == st.out + [];
    } else {
      var st' := Step(st, ts[0]);
      var gs := Gaps(st, ts);
      var g, e, w := Gap(st, ts[0]), Emitted(ts[0]), Weave(gs[1..], ts[1..]);
      RunEmits(st', ts[1..]);
      StepEmits(st, ts[0]);
      assert gs[1..] == Gaps(st', ts[1..]);
      calc {
        Run(st, ts).out;
        Run(st', ts[1..]).out;
        st'.out + w;
        st.out + g + e + w;
        { AppendAssociates(st.out + g, e, w); }
        st.out + g + (e + w);
        { AppendAssociates(st.out, g, e + w); }
        st.out + (g + (e + w));
        { AppendAssociates(g, e, w); }
        st.out + Weave(gs, ts);
      }
    }
  }

  /** A successful format is, for each piece of the trimmed input in order, a run of
      whitespace followed by the piece: every tag exactly as the input spells it, every
      text run trimmed. */
  lemma FormatWeavesPieces(text: string, out: string)
    requires FormatXmlSpec(text) == Ok(out)
    ensures Scan(Trim(text), 0).Some?
    ensures var ts := Scan(Trim(text), 0).value;
      var gs := Gaps(Layout([], 0, false), ts);
      && out == Weave(gs, ts)
      && (forall k | 0 <= k < |gs| :: AllWhitespace(gs[k]))
      && Source(ts) == Trim(text)
  {
    var trimmed := Trim(text);
    EndsClosedScans(trimmed);
    var ts := Scan(trimmed, 0).value;
    ScanSpellsInput(trimmed, 0);
    assert trimmed[0..] == trimmed;
    RunEmits(Layout([], 0, false), ts);
    assert [] + Weave(Gaps(Layout([], 0, false), ts), ts) == Weave(Gaps(Layout([], 0, false), ts), ts);
  }
}
