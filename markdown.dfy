/** `markdownToText` and `splitParagraphs`: the chain of regular-expression
    replacements that turns the self-PR markdown into plain text, each
    replacement written out as a scan over the string. */
module Markdown {
  import opened Wrappers
  import opened Text
  import opened Seqs

  predicate NoBacktick(s: string) {
    forall i :: 0 <= i < |s| ==> s[i] != '`'
  }

  /** Three newlines in a row start at index `i`. */
  predicate TripleNewlineAt(s: string, i: int) {
    0 <= i < |s| - 2 && s[i] == '\n' && s[i + 1] == '\n' && s[i + 2] == '\n'
  }

  /** No three newlines in a row. */
  predicate NoTripleNewline(s: string) {
    forall i :: 0 <= i < |s| ==> !TripleNewlineAt(s, i)
  }

  /** The number of leading characters of `s` that are whitespace. */
  function SpaceRun(s: string): (n: nat)
    ensures n <= |s|
    ensures forall i :: 0 <= i < n ==> IsSpace(s[i])
    ensures n < |s| ==> !IsSpace(s[n])
  {
    if s != [] && IsSpace(s[0]) then 1 + SpaceRun(s[1..]) else 0
  }

  // ---------------------------------------------------------------------
  // /```[\s\S]*?```/g → ''

  predicate FenceAt(s: string, i: int) {
    0 <= i && i + 3 <= |s| && s[i..i + 3] == "```"
  }

  /** The first fence at or after `from`. */
  function FindFence(s: string, from: nat): (r: Option<nat>)
    decreases |s| - from
    ensures r.Some? ==> from <= r.value && FenceAt(s, r.value)
                        && forall k :: from <= k < r.value ==> !FenceAt(s, k)
    ensures r.None? ==> forall k :: from <= k ==> !FenceAt(s, k)
  {
    if from + 3 > |s| then None
    else if FenceAt(s, from) then Some(from)
    else FindFence(s, from + 1)
  }

  /** Every fenced block, from an opening fence to the nearest closing one,
      removed. An opening fence with no closing fence after it is kept, and
      so is everything after it: no later match can close either. */
  function StripFences(s: string): (r: string)
    decreases |s|
    ensures |r| <= |s|
    ensures (forall k :: !FenceAt(s, k)) ==> r == s
  {
    if |s| < 3 then s
    else if FenceAt(s, 0) then
      match FindFence(s, 3)
      case Some(j) => StripFences(s[j + 3..])
      case None => s
    else
      assert forall k :: FenceAt(s[1..], k) ==> FenceAt(s, k + 1) by {
        forall k | FenceAt(s[1..], k) ensures FenceAt(s, k + 1) {
          assert s[1..][k..k + 3] == s[k + 1..k + 4];
        }
      }
      [s[0]] + StripFences(s[1..])
  }

  // ---------------------------------------------------------------------
  // /^#{1,6}\s*/gm → ''

  /** The leading `#` characters, at most six. */
  function HashRun(s: string): (n: nat)
    ensures n <= 6 && n <= |s|
    ensures forall i :: 0 <= i < n ==> s[i] == '#'
    ensures s != [] && s[0] == '#' ==> n >= 1
  {
    HashRunUpTo(s, 6)
  }

  function HashRunUpTo(s: string, max: nat): (n: nat)
    ensures n <= max && n <= |s|
    ensures forall i :: 0 <= i < n ==> s[i] == '#'
    ensures max > 0 && s != [] && s[0] == '#' ==> n >= 1
  {
    if max > 0 && s != [] && s[0] == '#' then 1 + HashRunUpTo(s[1..], max - 1) else 0
  }

  /** Heading markers removed with the whitespace after them, wherever a line
      starts. `lineStart` says whether the text before `s` ended a line; the
      whitespace may run over line ends, and the position after it starts a
      line when the last character removed ended one. */
  function StripHeadings(s: string, lineStart: bool): (r: string)
    decreases |s|
    ensures |r| <= |s|
    ensures (forall i :: 0 <= i < |s| ==> s[i] != '#') ==> r == s
  {
    if s == [] then []
    else if lineStart && s[0] == '#' then
      var t := s[HashRun(s)..];
      var w := SpaceRun(t);
      StripHeadings(t[w..], w > 0 && IsLineTerminator(t[w - 1]))
    else
      [s[0]] + StripHeadings(s[1..], IsLineTerminator(s[0]))
  }

  // ---------------------------------------------------------------------
  // /^\s*[-*+]\s+/gm → '・'

  predicate IsBulletChar(c: char) {
    c == '-' || c == '*' || c == '+'
  }

  /** The end of a bullet marker at the start of `s`: whitespace, one of
      `-*+`, then at least one whitespace character, all taken greedily. */
  function BulletEnd(s: string): (r: Option<nat>)
    ensures r.Some? ==> 2 <= r.value <= |s|
  {
    var w := SpaceRun(s);
    if w < |s| && IsBulletChar(s[w]) && SpaceRun(s[w + 1..]) >= 1 then Some(w + 1 + SpaceRun(s[w + 1..]))
    else None
  }

  /** Every bullet marker at a line start replaced by "・". */
  function StripBullets(s: string, lineStart: bool): (r: string)
    decreases |s|
  {
    if s == [] then []
    else if lineStart && BulletEnd(s).Some? then
      var e := BulletEnd(s).value;
      "・" + StripBullets(s[e..], IsLineTerminator(s[e - 1]))
    else
      [s[0]] + StripBullets(s[1..], IsLineTerminator(s[0]))
  }

  // ---------------------------------------------------------------------
  // /\[(.*?)\]\(.*?\)/g → '$1'

  /** The first "](" at or after `k`, when no line ends before it. */
  function LinkTextEnd(s: string, k: nat): (r: Option<nat>)
    decreases |s| - k
    ensures r.Some? ==> k <= r.value && r.value + 1 < |s| && s[r.value] == ']' && s[r.value + 1] == '('
  {
    if k + 1 >= |s| then None
    else if s[k] == ']' && s[k + 1] == '(' then Some(k)
    else if IsLineTerminator(s[k]) then None
    else LinkTextEnd(s, k + 1)
  }

  /** The first ")" at or after `k`, when no line ends before it. */
  function LinkTargetEnd(s: string, k: nat): (r: Option<nat>)
    decreases |s| - k
    ensures r.Some? ==> k <= r.value < |s| && s[r.value] == ')'
  {
    if k >= |s| then None
    else if s[k] == ')' then Some(k)
    else if IsLineTerminator(s[k]) then None
    else LinkTargetEnd(s, k + 1)
  }

  /** A link `[text](target)` at the start of `s`: where its text ends and
      where the whole link ends. Both parts are the shortest that match, and
      neither crosses a line end; when the shortest text has no target on
      its line, no longer text has one either. */
  function LinkAt(s: string): (r: Option<(nat, nat)>)
    ensures r.Some? ==> 1 <= r.value.0 && r.value.0 + 2 < r.value.1 <= |s|
  {
    if s == [] || s[0] != '[' then None
    else match LinkTextEnd(s, 1)
      case None => None
      case Some(k) =>
        match LinkTargetEnd(s, k + 2)
        case None => None
        case Some(p) => Some((k, p + 1))
  }

  /** Every link replaced by its text. */
  function StripLinks(s: string): (r: string)
    decreases |s|
  {
    if s == [] then []
    else match LinkAt(s)
      case Some((k, e)) => s[1..k] + StripLinks(s[e..])
      case None => [s[0]] + StripLinks(s[1..])
  }

  // ---------------------------------------------------------------------
  // /`/g → '' and /\n{3,}/g → '\n\n'

  predicate NotBacktick(c: char) {
    c != '`'
  }

  function RemoveBackticks(s: string): (r: string)
    ensures NoBacktick(r)
  {
    Filter(NotBacktick, s)
  }

  /** The number of leading newlines. */
  function NewlineRun(s: string): (n: nat)
    ensures n <= |s|
    ensures forall i :: 0 <= i < n ==> s[i] == '\n'
    ensures n < |s| ==> s[n] != '\n'
    ensures s != [] && s[0] == '\n' ==> n >= 1
  {
    if s != [] && s[0] == '\n' then 1 + NewlineRun(s[1..]) else 0
  }

  /** Joining two texts makes no new run of three newlines when they do not
      both have a newline at the seam. */
  lemma NoTripleConcat(h: string, t: string)
    requires NoTripleNewline(h) && NoTripleNewline(t)
    requires h == [] || t == [] || h[|h| - 1] != '\n' || t[0] != '\n'
    ensures NoTripleNewline(h + t)
  {
    var s := h + t;
    forall i | 0 <= i < |s| - 2
      ensures !TripleNewlineAt(s, i)
    {
      if i + 2 < |h| {
        assert s[i] == h[i] && s[i + 1] == h[i + 1] && s[i + 2] == h[i + 2];
        assert !TripleNewlineAt(h, i);
      } else if i >= |h| {
        assert s[i] == t[i - |h|] && s[i + 1] == t[i - |h| + 1] && s[i + 2] == t[i - |h| + 2];
        assert !TripleNewlineAt(t, i - |h|);
      } else {
        assert s[|h| - 1] == h[|h| - 1] && s[|h|] == t[0];
      }
    }
  }

  /** Every run of three or more newlines shortened to two. */
  function CollapseNewlines(s: string): (r: string)
    decreases |s|
    ensures s == [] ==> r == []
    ensures s != [] && s[0] != '\n' ==> r != [] && r[0] == s[0]
    ensures NoTripleNewline(r)
    ensures NoBacktick(s) ==> NoBacktick(r)
  {
    if s == [] then []
    else if s[0] == '\n' then
      var n := NewlineRun(s);
      var head := if n >= 3 then "\n\n" else s[..n];
      var tail := CollapseNewlines(s[n..]);
      NoTripleConcat(head, tail);
      head + tail
    else
      var tail := CollapseNewlines(s[1..]);
      NoTripleConcat([s[0]], tail);
      [s[0]] + tail
  }

  // ---------------------------------------------------------------------
  // The whole conversion

  /** Trimming keeps a piece of the text, so it keeps both properties. */
  lemma TrimKeeps(s: string)
    ensures NoBacktick(s) ==> NoBacktick(Trim(s))
    ensures NoTripleNewline(s) ==> NoTripleNewline(Trim(s))
  {
    var a := TrimInfix(s);
    InfixKeeps(s, a, a + |Trim(s)|);
  }

  /** A contiguous piece of a text keeps both properties. */
  lemma InfixKeeps(s: string, a: nat, b: nat)
    requires a <= b <= |s|
    ensures NoBacktick(s) ==> NoBacktick(s[a..b])
    ensures NoTripleNewline(s) ==> NoTripleNewline(s[a..b])
  {
    var r := s[a..b];
    if NoBacktick(s) {
      forall i | 0 <= i < |r| ensures r[i] != '`' {
        assert r[i] == s[a + i];
      }
    }
    if NoTripleNewline(s) {
      forall i | 0 <= i < |r| - 2
        ensures !TripleNewlineAt(r, i)
      {
        assert r[i] == s[a + i] && r[i + 1] == s[a + i + 1] && r[i + 2] == s[a + i + 2];
        assert !TripleNewlineAt(s, a + i);
      }
    }
  }

  /** `markdownToText`. */
  function MarkdownToText(markdown: string): (r: string)
    ensures NoBacktick(r)
    ensures NoTripleNewline(r)
    ensures IsTrimmed(r)
  {
    var text := CollapseNewlines(RemoveBackticks(StripLinks(StripBullets(StripHeadings(StripFences(markdown), true), true))));
    TrimKeeps(text);
    Trim(text)
  }

  // ---------------------------------------------------------------------
  // Paragraphs

  /** The last newline among the first `n` characters, at index 1 or later. */
  function LastNewline(s: string, n: nat): (r: Option<nat>)
    requires n <= |s|
    ensures r.Some? ==> 1 <= r.value < n && s[r.value] == '\n'
  {
    if n <= 1 then None
    else if s[n - 1] == '\n' then Some(n - 1)
    else LastNewline(s, n - 1)
  }

  /** The end of a blank-line separator `\n\s*\n` at the start of `s`: the
      whitespace is taken greedily and given back up to its last newline. */
  function BlankLineEnd(s: string): (r: Option<nat>)
    ensures r.Some? ==> 2 <= r.value <= |s|
    ensures s == [] || s[0] != '\n' ==> r.None?
  {
    if s == [] || s[0] != '\n' then None
    else
      var w := SpaceRun(s[1..]);
      match LastNewline(s, 1 + w)
      case Some(j) => Some(j + 1)
      case None => None
  }

  /** `split(/\n\s*\n/)`, with `current` the piece read so far. */
  function SplitBlankLines(s: string, current: string): (r: seq<string>)
    decreases |s|
    ensures |r| >= 1
    ensures (forall i :: 0 <= i < |s| ==> s[i] != '\n') ==> r == [current + s]
  {
    if s == [] then
      assert current + s == current;
      [current]
    else match BlankLineEnd(s)
      case Some(e) => [current] + SplitBlankLines(s[e..], "")
      case None =>
        assert current + [s[0]] + s[1..] == current + s;
        SplitBlankLines(s[1..], current + [s[0]])
  }

  /** `splitParagraphs`: the converted text split at blank lines, each piece
      trimmed, blank pieces dropped. */
  function SplitParagraphs(markdown: string): (r: seq<string>)
    ensures forall i :: 0 <= i < |r| ==> r[i] != "" && IsTrimmed(r[i])
  {
    var pieces := Map(Trim, SplitBlankLines(MarkdownToText(markdown), ""));
    FilterPreserves(NonEmpty, IsTrimmed, pieces);
    Filter(NonEmpty, pieces)
  }

  /** A trimmed text without a line break is one paragraph, or none when it is empty. */
  lemma SingleLineSplit(text: string)
    requires IsTrimmed(text)
    requires forall i :: 0 <= i < |text| ==> text[i] != '\n'
    ensures Filter(NonEmpty, Map(Trim, SplitBlankLines(text, ""))) == if text == "" then [] else [text]
  {
    assert SplitBlankLines(text, "") == [text] by {
      assert "" + text == text;
    }
    MapSingle(Trim, text);
    TrimOfTrimmed(text);
    FilterSingle(NonEmpty, text);
  }

  /** A converted text without a line break is one paragraph, or none when it is empty. */
  lemma SingleLineParagraph(markdown: string)
    requires forall i :: 0 <= i < |MarkdownToText(markdown)| ==> MarkdownToText(markdown)[i] != '\n'
    ensures SplitParagraphs(markdown) == if MarkdownToText(markdown) == "" then [] else [MarkdownToText(markdown)]
  {
    SingleLineSplit(MarkdownToText(markdown));
  }
}
