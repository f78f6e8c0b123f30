/**
 * The handful of Rust `str`/`char` operations the backend relies on, written out:
 * `char::is_whitespace`, `str::trim`, `str::split`, `str::replace`, `str::repeat`
 * and decimal formatting of an unsigned integer.
 */
module Strings {

  /** Unicode White_Space, the set `char::is_whitespace` and `str::trim` use. */
  predicate IsWhitespace(c: char) {
    ('\t' <= c <= '\r') || c == ' ' || c == '\U{0085}' || c == '\U{00A0}'
    || c == '\U{1680}' || ('\U{2000}' <= c <= '\U{200A}') || c == '\U{2028}'
    || c == '\U{2029}' || c == '\U{202F}' || c == '\U{205F}' || c == '\U{3000}'
  }

  /** Length of the leading run of whitespace. */
  function LeadingWhitespace(s: string): (a: nat)
    ensures a <= |s|
    ensures forall k | 0 <= k < a :: IsWhitespace(s[k])
    ensures a < |s| ==> !IsWhitespace(s[a])
  {
    if s == [] || !IsWhitespace(s[0]) then 0 else 1 + LeadingWhitespace(s[1..])
  }

  /** Position just after the last non-whitespace character (0 when there is none). */
  function EndOfContent(s: string): (b: nat)
    ensures b <= |s|
    ensures forall k | b <= k < |s| :: IsWhitespace(s[k])
    ensures b > 0 ==> !IsWhitespace(s[b - 1])
  {
    if s == [] || !IsWhitespace(s[|s| - 1]) then |s| else EndOfContent(s[..|s| - 1])
  }

  /** `s.trim()`: leading and trailing whitespace removed, nothing else. */
  function Trim(s: string): (r: string)
    ensures r == [] <==> forall k | 0 <= k < |s| :: IsWhitespace(s[k])
    ensures r != [] ==> !IsWhitespace(r[0]) && !IsWhitespace(r[|r| - 1])
    ensures r != [] ==> r == s[LeadingWhitespace(s)..EndOfContent(s)]
  {
    var a := LeadingWhitespace(s);
    var b := EndOfContent(s);
    if a < b then s[a..b] else []
  }

  /** The non-whitespace characters of `s`, in order. */
  function Squeeze(s: string): (r: string)
    ensures |r| <= |s|
    ensures forall k | 0 <= k < |r| :: !IsWhitespace(r[k])
  {
    if s == [] then []
    else if IsWhitespace(s[0]) then Squeeze(s[1..])
    else [s[0]] + Squeeze(s[1..])
  }

  lemma {:induction false} SqueezeAppend(a: string, b: string)
    ensures Squeeze(a + b) == Squeeze(a) + Squeeze(b)
  {
    if a == [] {
      assert a + b == b;
    } else {
      assert (a + b)[0] == a[0];
      assert (a + b)[1..] == a[1..] + b;
      SqueezeAppend(a[1..], b);
    }
  }

  /** A string of whitespace only squeezes to nothing. */
  lemma {:induction false} SqueezeBlank(s: string)
    requires forall k | 0 <= k < |s| :: IsWhitespace(s[k])
    ensures Squeeze(s) == []
  {
    if s != [] {
      SqueezeBlank(s[1..]);
    }
  }

  /** Trimming only removes whitespace. */
  lemma SqueezeTrim(s: string)
    ensures Squeeze(Trim(s)) == Squeeze(s)
  {
    var a := LeadingWhitespace(s);
    var b := EndOfContent(s);
    if a < b {
      var head, body, tail := s[..a], s[a..b], s[b..];
      CutThree(s, a, b);
      assert forall k | 0 <= k < |head| :: head[k] == s[k];
      assert forall k | 0 <= k < |tail| :: tail[k] == s[b + k];
      SqueezeBlank(head);
      SqueezeBlank(tail);
      calc {
        Squeeze(s);
        Squeeze(head + body + tail);
        { SqueezeAppend(head + body, tail); }
        Squeeze(head + body) + Squeeze(tail);
        { SqueezeAppend(head, body); }
        Squeeze(body);
      }
    } else {
      assert forall k | 0 <= k < |s| :: IsWhitespace(s[k]);
      SqueezeBlank(s);
    }
  }

  /** A string is its prefix up to `a`, the slice from `a` to `b`, and the rest. */
  lemma CutThree(s: string, a: nat, b: nat)
    requires a <= b <= |s|
    ensures s == s[..a] + s[a..b] + s[b..]
  {
  }

  /** The suffix from `i` is the slice up to `j` and the suffix from `j`. */
  lemma SliceConcat(s: string, i: nat, j: nat)
    requires i <= j <= |s|
    ensures s[i..] == s[i..j] + s[j..]
  {
  }

  lemma AppendAssociates(a: string, b: string, c: string)
    ensures a + b + c == a + (b + c)
  {
  }

  /** `c.to_string().repeat(n)`. */
  function Repeat(c: char, n: nat): (r: string)
    ensures |r| == n && forall k | 0 <= k < n :: r[k] == c
  {
    if n == 0 then [] else [c] + Repeat(c, n - 1)
  }

  /** Number of occurrences of `c` in `s`. */
  function Count(s: string, c: char): nat
  {
    if s == [] then 0 else (if s[0] == c then 1 else 0) + Count(s[1..], c)
  }

  /** Index of the first `c` in `s`, or `|s|` when there is none. */
  function IndexOf(s: string, c: char): (k: nat)
    ensures k <= |s|
    ensures k < |s| ==> s[k] == c
    ensures forall m | 0 <= m < k :: s[m] != c
  {
    if s == [] then 0 else if s[0] == c then 0 else 1 + IndexOf(s[1..], c)
  }

  /** `s.split(c).collect::<Vec<&str>>()`. */
  function Split(s: string, c: char): (parts: seq<string>)
    ensures |parts| >= 1
    ensures forall k | 0 <= k < |parts| :: c !in parts[k]
    decreases |s|
  {
    var k := IndexOf(s, c);
    if k == |s| then [s] else [s[..k]] + Split(s[k + 1..], c)
  }

  /** A line with the `\r` of a `\r\n` ending taken off. */
  function StripCr(line: string): (r: string)
    ensures line == r || line == r + ['\r']
    ensures line == r + ['\r'] <==> line != [] && line[|line| - 1] == '\r'
  {
    if line != [] && line[|line| - 1] == '\r' then line[..|line| - 1] else line
  }

  /** `s.lines()`: the pieces between line breaks, `\n` or `\r\n`; a final empty piece
      after a closing line break is not a line. */
  function Lines(s: string): (ls: seq<string>)
    ensures forall k | 0 <= k < |ls| :: '\n' !in ls[k]
    decreases |s|
  {
    if s == [] then []
    else
      var k := IndexOf(s, '\n');
      if k == |s| then [s] else [StripCr(s[..k])] + Lines(s[k + 1..])
  }

  /** The lines are the pieces `split('\n')` gives, each with a `\r` before its line
      break taken off; a last piece that is not followed by a line break keeps its `\r`,
      and a last piece that is empty (the text is empty or ends with a line break) is
      not a line. */
  lemma {:induction false} LinesSplit(s: string)
    ensures var ps := Split(s, '\n'); var n := |ps| - 1;
      && |Lines(s)| == (if ps[n] == [] then n else n + 1)
      && (forall k | 0 <= k < n :: Lines(s)[k] == StripCr(ps[k]))
      && (ps[n] != [] ==> Lines(s)[n] == ps[n])
    decreases |s|
  {
    var k := IndexOf(s, '\n');
    if s != [] && k < |s| {
      var rest := s[k + 1..];
      LinesSplit(rest);
      var ps := Split(s, '\n');
      var ps' := Split(rest, '\n');
      assert ps == [s[..k]] + ps';
      assert Lines(s) == [StripCr(s[..k])] + Lines(rest);
    }
  }

  /** `parts.join(sep)`: the parts with `sep` between each two. */
  function JoinWith(parts: seq<string>, sep: string): string
  {
    if parts == [] then [] else if |parts| == 1 then parts[0] else parts[0] + sep + JoinWith(parts[1..], sep)
  }

  /** The parts joined back with the separator: the inverse of Split. */
  function Join(parts: seq<string>, c: char): string
    requires |parts| >= 1
  {
    if |parts| == 1 then parts[0] else parts[0] + [c] + Join(parts[1..], c)
  }

  lemma {:induction false} CountAppend(a: string, b: string, c: char)
    ensures Count(a + b, c) == Count(a, c) + Count(b, c)
  {
    if a == [] {
      assert a + b == b;
    } else {
      assert (a + b)[1..] == a[1..] + b;
      CountAppend(a[1..], b, c);
    }
  }

  lemma {:induction false} CountAbsent(s: string, c: char)
    requires c !in s
    ensures Count(s, c) == 0
  {
    if s != [] {
      CountAbsent(s[1..], c);
    }
  }

  /** Splitting on `c` yields one part more than there are separators. */
  lemma {:induction false} SplitCount(s: string, c: char)
    ensures |Split(s, c)| == Count(s, c) + 1
    decreases |s|
  {
    var k := IndexOf(s, c);
    if k == |s| {
      CountAbsent(s, c);
    } else {
      SplitCount(s[k + 1..], c);
      assert s == (s[..k] + [c]) + s[k + 1..];
      CountAbsent(s[..k], c);
      CountAppend(s[..k] + [c], s[k + 1..], c);
      CountAppend(s[..k], [c], c);
    }
  }

  /** The parts re-joined with the separator give back the original string. */
  lemma {:induction false} SplitJoin(s: string, c: char)
    ensures Join(Split(s, c), c) == s
    decreases |s|
  {
    var k := IndexOf(s, c);
    if k < |s| {
      var head, rest := s[..k], s[k + 1..];
      SplitJoin(rest, c);
      JoinCons(head, Split(rest, c), c);
      CutAround(s, k);
    }
  }

  /** Joining a part in front of further parts puts the separator between them. */
  lemma JoinCons(head: string, tail: seq<string>, c: char)
    requires |tail| >= 1
    ensures Join([head] + tail, c) == head + [c] + Join(tail, c)
  {
    assert ([head] + tail)[1..] == tail;
  }

  /** A string is what comes before position `k`, the character there and the rest. */
  lemma CutAround(s: string, k: nat)
    requires k < |s|
    ensures s == s[..k] + [s[k]] + s[k + 1..]
  {
  }

  /** Three parts joined: the first, the separator, the second, the separator, the
      third. */
  lemma JoinThree(parts: seq<string>, c: char)
    requires |parts| == 3
    ensures Join(parts, c) == parts[0] + [c] + parts[1] + [c] + parts[2]
  {
    assert parts[1..][1..] == [parts[2]];
    assert Join(parts[1..], c) == parts[1] + [c] + parts[2];
  }

  /** `s.replace(from, to)` for single characters. */
  function ReplaceChar(s: string, from: char, to: char): (r: string)
    ensures |r| == |s|
    ensures forall k | 0 <= k < |s| :: r[k] == if s[k] == from then to else s[k]
  {
    if s == [] then [] else [if s[0] == from then to else s[0]] + ReplaceChar(s[1..], from, to)
  }

  /** A decimal digit character. */
  predicate IsDigit(c: char) {
    '0' <= c <= '9'
  }

  /** `format!("{}", n)` for an unsigned integer. */
  function NatToString(n: nat): (r: string)
    ensures |r| >= 1 && forall k | 0 <= k < |r| :: IsDigit(r[k])
    ensures n > 0 ==> r[0] != '0'
  {
    if n < 10 then [(n as char) + '0'] else NatToString(n / 10) + [((n % 10) as char) + '0']
  }

  /** The value of a digit string, the inverse reading of NatToString. */
  function DecimalValue(s: string): nat
    requires forall k | 0 <= k < |s| :: IsDigit(s[k])
  {
    if s == [] then 0
    else
      var d := s[|s| - 1];
      assert IsDigit(d);
      10 * DecimalValue(s[..|s| - 1]) + (d as int - '0' as int)
  }

  /** Decimal rendering is faithful: reading the digits back gives the number. */
  lemma {:induction false} NatToStringRoundTrip(n: nat)
    ensures DecimalValue(NatToString(n)) == n
  {
    if n >= 10 {
      NatToStringRoundTrip(n / 10);
      var s := NatToString(n);
      assert s[..|s| - 1] == NatToString(n / 10);
    }
  }
}
