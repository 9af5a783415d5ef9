/**
 * The live-decoration builder of the markdown editor. The syntax-tree walk
 * is an input: the nodes it enters, in order, as `(name, from, to)` spans.
 * The builder turns each node into style marks over ranges of the document
 * and line decorations at line starts; the line decorations are buffered,
 * sorted by position and added after every mark.
 */
module MarkdownDecorations {
  import opened Wrappers
  import opened Strings
  import opened EditorText
  import Sorting

  /** The decoration styles, one per CSS class the builder uses. */
  datatype Tag =
    | HeadingMarker | Header1 | Header2 | Header3
    | FormattingBold | Bold | FormattingItalic | Italic
    | FormattingStrikethrough | Strikethrough | FormattingCode | InlineCode
    | BlockquoteLine | FormattingQuote | LinkText | Url
    | FormattingList | TaskMarker | HorizontalRule

  /** The decoration catalog: the CSS class each style applies. */
  function ClassName(t: Tag): string {
    match t
    case HeadingMarker => "cm-heading-marker"
    case Header1 => "cm-header-1"
    case Header2 => "cm-header-2"
    case Header3 => "cm-header-3"
    case FormattingBold => "cm-formatting-bold"
    case Bold => "cm-bold"
    case FormattingItalic => "cm-formatting-italic"
    case Italic => "cm-italic"
    case FormattingStrikethrough => "cm-formatting-strikethrough"
    case Strikethrough => "cm-strikethrough"
    case FormattingCode => "cm-formatting-code"
    case InlineCode => "cm-inline-code"
    case BlockquoteLine => "cm-blockquote-line"
    case FormattingQuote => "cm-formatting-quote"
    case LinkText => "cm-link"
    case Url => "cm-url"
    case FormattingList => "cm-formatting-list"
    case TaskMarker => "cm-task-marker"
    case HorizontalRule => "cm-hr"
  }

  /** Distinct styles use distinct CSS classes, so the vocabulary is unambiguous. */
  lemma {:induction false} ClassNameInjective(a: Tag, b: Tag)
    requires a != b
    ensures ClassName(a) != ClassName(b)
  {
    assert ClassName(a)[3] != ClassName(b)[3] || |ClassName(a)| != |ClassName(b)| || ClassName(a) != ClassName(b);
  }

  /** A syntax node entered by the tree walk. */
  datatype Span = Span(name: string, from: nat, to: nat)

  /** A decoration the builder adds: a mark over `[from, to)` or a line decoration at `pos`. */
  datatype Deco = Mark(from: nat, to: nat, tag: Tag) | LineDeco(pos: nat, tag: Tag)

  /** An entry of the buffered line decorations. */
  datatype PendingLine = PendingLine(pos: nat, tag: Tag)

  /** The tree walk reports ranges inside the document. */
  ghost predicate WellFormed(doc: string, spans: seq<Span>) {
    forall i :: 0 <= i < |spans| ==> spans[i].from <= spans[i].to <= |doc|
  }

  // ---------------------------------------------------------------------------
  // The three regular expressions, as matchers
  // ---------------------------------------------------------------------------

  /** The length of the run of `c` that starts `s`. */
  function LeadingRun(s: string, c: char): (n: nat)
    ensures n <= |s|
    ensures forall i :: 0 <= i < n ==> s[i] == c
    ensures n == |s| || s[n] != c
  {
    if s == [] || s[0] != c then 0 else 1 + LeadingRun(s[1..], c)
  }

  /** The length of the run of `\s` characters that starts `s`. */
  function LeadingSpaces(s: string): (n: nat)
    ensures n <= |s|
    ensures forall i :: 0 <= i < n ==> IsSpace(s[i])
    ensures n == |s| || !IsSpace(s[n])
  {
    if s == [] || !IsSpace(s[0]) then 0 else 1 + LeadingSpaces(s[1..])
  }

  /** `/^(#{1,3})\s/` matches `text` with group 1 of length `k`. */
  ghost predicate HeadingPrefixAt(text: string, k: nat) {
    && 1 <= k <= 3 && k < |text|
    && (forall i :: 0 <= i < k ==> text[i] == '#')
    && IsSpace(text[k])
  }

  /** The matcher for `/^(#{1,3})\s/`: the length of group 1, if it matches. */
  function HeadingMarkLength(text: string): Option<nat>
  {
    var n := LeadingRun(text, '#');
    if 1 <= n <= 3 && n < |text| && IsSpace(text[n]) then Some(n) else None
  }

  /** The matcher finds group 1 exactly when the pattern matches. */
  lemma {:induction false} HeadingMarkLengthSpec(text: string)
    ensures HeadingMarkLength(text).Some? ==> HeadingPrefixAt(text, HeadingMarkLength(text).value)
    ensures HeadingMarkLength(text).None? ==> forall k :: !HeadingPrefixAt(text, k)
  {
  }

  /** `/^(\s*>)/` matches `text` with group 1 of length `k`. */
  ghost predicate QuotePrefixAt(text: string, k: nat) {
    && 1 <= k <= |text|
    && (forall i :: 0 <= i < k - 1 ==> IsSpace(text[i]))
    && text[k - 1] == '>'
  }

  /** The matcher for `/^(\s*>)/`: the length of group 1, if it matches. */
  function QuotePrefixLength(text: string): Option<nat>
  {
    var n := LeadingSpaces(text);
    if n < |text| && text[n] == '>' then Some(n + 1) else None
  }

  /** The matcher finds group 1 exactly when the pattern matches. */
  lemma {:induction false} QuotePrefixLengthSpec(text: string)
    ensures QuotePrefixLength(text).Some? ==> QuotePrefixAt(text, QuotePrefixLength(text).value)
    ensures QuotePrefixLength(text).None? ==> forall k :: !QuotePrefixAt(text, k)
  {
  }

  /** The first position at or after `i` holding `c`, or `|s|`. */
  function FirstFrom(s: string, c: char, i: nat): (r: nat)
    requires i <= |s|
    ensures i <= r <= |s|
    ensures forall j :: i <= j < r ==> s[j] != c
    ensures r < |s| ==> s[r] == c
    decreases |s| - i
  {
    if i == |s| || s[i] == c then i else FirstFrom(s, c, i + 1)
  }

  /**
   * `/^\[([^\]]*)\]\(([^)]*)\)$/` matches `t` with group 1 of length `k`:
   * `t` is `[`, `k` characters other than `]`, `](`, characters other than
   * `)`, and a final `)`.
   */
  ghost predicate LinkShapeAt(t: string, k: nat) {
    && k + 4 <= |t|
    && t[0] == '['
    && (forall j :: 1 <= j < k + 1 ==> t[j] != ']')
    && t[k + 1] == ']' && t[k + 2] == '('
    && (forall j :: k + 3 <= j < |t| - 1 ==> t[j] != ')')
    && t[|t| - 1] == ')'
  }

  /** The matcher for the link pattern: the length of the link text, if it matches. */
  function LinkTextLength(t: string): Option<nat>
  {
    if |t| < 4 || t[0] != '[' then None
    else
      var close := FirstFrom(t, ']', 1);
      if close + 1 < |t| && t[close] == ']' && t[close + 1] == '(' then
        var paren := FirstFrom(t, ')', close + 2);
        if paren == |t| - 1 then Some(close - 1) else None
      else None
  }

  /** The matcher finds the link text exactly when the link pattern matches. */
  lemma {:induction false} LinkTextLengthSpec(t: string)
    ensures LinkTextLength(t).Some? ==> LinkShapeAt(t, LinkTextLength(t).value)
    ensures LinkTextLength(t).None? ==> forall k :: !LinkShapeAt(t, k)
  {
  }

  // ---------------------------------------------------------------------------
  // What each node kind contributes
  // ---------------------------------------------------------------------------

  /** `r` is a run of non-inverted marks that are contiguous and exactly cover `[from, to)`. */
  predicate Covers(r: seq<Deco>, from: nat, to: nat) {
    && |r| > 0
    && (forall i :: 0 <= i < |r| ==> r[i].Mark? && from <= r[i].from <= r[i].to <= to)
    && r[0].from == from
    && r[|r| - 1].to == to
    && (forall i :: 0 <= i < |r| - 1 ==> r[i].to == r[i + 1].from)
  }

  /** The heading style a node name selects, if the node is a heading of level 1 to 3. */
  function HeadingTag(name: string): (r: Option<Tag>)
    ensures r.Some? <==> name in {"ATXHeading1", "ATXHeading2", "ATXHeading3"}
    ensures name == "ATXHeading1" ==> r == Some(Header1)
    ensures name == "ATXHeading2" ==> r == Some(Header2)
    ensures name == "ATXHeading3" ==> r == Some(Header3)
  {
    if name == "ATXHeading1" then Some(Header1)
    else if name == "ATXHeading2" then Some(Header2)
    else if name == "ATXHeading3" then Some(Header3)
    else None
  }

  /**
   * A heading: the `#` run is measured on the text of the line holding
   * `from` but counted from `from`; the level mark follows only when at least
   * one character is left after the marker. A line without the marker gets
   * the level style over the whole node.
   */
  function HeadingMarks(doc: string, s: Span, tag: Tag): (r: seq<Deco>)
    requires s.from <= s.to <= |doc|
    ensures var text := LineText(doc, LineAt(doc, s.from));
            forall k :: HeadingPrefixAt(text, k) ==>
              && |r| == (if s.from + k + 1 <= s.to then 2 else 1)
              && r[0] == Mark(s.from, s.from + k, HeadingMarker)
              && (|r| == 2 ==> r[1] == Mark(s.from + k, s.to, tag) && Covers(r, s.from, s.to))
    ensures (forall k :: !HeadingPrefixAt(LineText(doc, LineAt(doc, s.from)), k)) ==>
              r == [Mark(s.from, s.to, tag)]
  {
    var line := LineAt(doc, s.from);
    HeadingMarkLengthSpec(LineText(doc, line));
    match HeadingMarkLength(LineText(doc, line))
    case Some(k) =>
      var markEnd := s.from + k;
      [Mark(s.from, markEnd, HeadingMarker)] + (if markEnd + 1 <= s.to then [Mark(markEnd, s.to, tag)] else [])
    case None => [Mark(s.from, s.to, tag)]
  }

  /**
   * The bold and italic rule: `mLen` is the length of the marker chosen by
   * the node's first characters; three marks when the node is longer than
   * two markers, none otherwise.
   */
  function EmphasisMarks(s: Span, mLen: nat, markerTag: Tag, innerTag: Tag): (r: seq<Deco>)
    ensures r != [] <==> s.to - s.from > 2 * mLen
    ensures r != [] ==>
              && |r| == 3 && Covers(r, s.from, s.to)
              && r[0].to - r[0].from == mLen && r[2].to - r[2].from == mLen
              && r[1].from < r[1].to
              && r[0].tag == markerTag && r[1].tag == innerTag && r[2].tag == markerTag
  {
    if s.to - s.from > mLen * 2 then
      [Mark(s.from, s.from + mLen, markerTag), Mark(s.from + mLen, s.to - mLen, innerTag), Mark(s.to - mLen, s.to, markerTag)]
    else []
  }

  /** The marker `StrongEmphasis` looks for. */
  function BoldMarker(text: string): (m: string)
    ensures |m| == 2
    ensures StartsWith(text, "**") ==> m == "**"
  {
    if StartsWith(text, "**") then "**" else "__"
  }

  /** The marker `Emphasis` looks for. */
  function ItalicMarker(text: string): (m: string)
    ensures |m| == 1
    ensures StartsWith(text, "*") ==> m == "*"
  {
    if StartsWith(text, "*") then "*" else "_"
  }

  /**
   * The strikethrough and inline-code rule: three marks when the node is
   * delimited by `delim` at both ends and is longer than `minLen`.
   */
  function DelimitedMarks(doc: string, s: Span, delim: string, minLen: nat, markerTag: Tag, innerTag: Tag): (r: seq<Deco>)
    requires s.from <= s.to <= |doc|
    requires 2 * |delim| <= minLen
    ensures var text := doc[s.from..s.to];
            r != [] <==> StartsWith(text, delim) && EndsWith(text, delim) && s.to - s.from > minLen
    ensures r != [] ==>
              && |r| == 3 && Covers(r, s.from, s.to)
              && r[0].to - r[0].from == |delim| && r[2].to - r[2].from == |delim|
              && r[1].from < r[1].to
              && doc[r[0].from..r[0].to] == delim && doc[r[2].from..r[2].to] == delim
              && r[0].tag == markerTag && r[1].tag == innerTag && r[2].tag == markerTag
  {
    var text := doc[s.from..s.to];
    if StartsWith(text, delim) && EndsWith(text, delim) && s.to - s.from > minLen then
      var n := |delim|;
      assert doc[s.from..s.from + n] == text[..n];
      assert doc[s.to - n..s.to] == text[|text| - n..];
      [Mark(s.from, s.from + n, markerTag), Mark(s.from + n, s.to - n, innerTag), Mark(s.to - n, s.to, markerTag)]
    else []
  }

  /** The quote-marker mark of line `i`: over exactly the `/^\s*>/` prefix, if the line has one. */
  function LineQuoteMark(doc: string, i: nat): seq<Deco>
    requires 1 <= i <= LineCount(doc)
  {
    var line := LineByNumber(doc, i);
    match QuotePrefixLength(LineText(doc, line))
    case Some(k) => [Mark(line.from, line.from + k, FormattingQuote)]
    case None => []
  }

  /**
   * Line `i` gets a quote mark exactly when it starts with `/^\s*>/`; the
   * mark then runs from the line start over the whole prefix.
   */
  lemma {:induction false} LineQuoteMarkSpec(doc: string, i: nat)
    requires 1 <= i <= LineCount(doc)
    ensures var r, line := LineQuoteMark(doc, i), LineByNumber(doc, i);
            && |r| <= 1
            && (r == [] <==> forall k :: !QuotePrefixAt(LineText(doc, line), k))
            && (r != [] ==> r[0].Mark? && r[0].tag == FormattingQuote && r[0].from == line.from
                            && r[0].from < r[0].to <= line.to
                            && QuotePrefixAt(LineText(doc, line), r[0].to - r[0].from)
                            && doc[r[0].to - 1] == '>')
  {
    QuotePrefixLengthSpec(LineText(doc, LineByNumber(doc, i)));
  }

  /** The quote-marker marks of lines `first` up to (not including) `end`, in line order. */
  function QuoteMarks(doc: string, first: nat, end: nat): seq<Deco>
    requires 1 <= first && end <= LineCount(doc) + 1
    decreases end
  {
    if end <= first then [] else QuoteMarks(doc, first, end - 1) + LineQuoteMark(doc, end - 1)
  }

  /** One blockquote line decoration at the start of each line `first` up to (not including) `end`. */
  function QuoteLines(doc: string, first: nat, end: nat): (r: seq<PendingLine>)
    requires 1 <= first && end <= LineCount(doc) + 1
    ensures |r| == if end <= first then 0 else end - first
    decreases end
  {
    if end <= first then [] else QuoteLines(doc, first, end - 1) + [PendingLine(LineByNumber(doc, end - 1).from, BlockquoteLine)]
  }

  /** Entry `j` of the quote lines is the start of line `first + j`. */
  lemma {:induction false} QuoteLinesAt(doc: string, first: nat, end: nat)
    requires 1 <= first && end <= LineCount(doc) + 1
    ensures forall j :: 0 <= j < |QuoteLines(doc, first, end)| ==>
              QuoteLines(doc, first, end)[j] == PendingLine(LineByNumber(doc, first + j).from, BlockquoteLine)
    decreases end
  {
    if first < end {
      QuoteLinesAt(doc, first, end - 1);
    }
  }

  /** A text has the link shape for at most one length of link text. */
  lemma {:induction false} LinkShapeUnique(t: string, k: nat, k': nat)
    requires LinkShapeAt(t, k) && LinkShapeAt(t, k')
    ensures k == k'
  {
  }

  /** The five pieces of a link, the url piece left out when it is empty. */
  function LinkPieces(from: nat, to: nat, k: nat): (r: seq<Deco>)
    requires from + k + 4 <= to
    ensures |r| == (if from + k + 4 == to then 4 else 5)
    ensures Covers(r, from, to)
    ensures r[0] == Mark(from, from + 1, FormattingCode) && r[1] == Mark(from + 1, from + 1 + k, LinkText)
    ensures r[2] == Mark(from + 1 + k, from + k + 3, FormattingCode)
    ensures r[|r| - 1] == Mark(to - 1, to, FormattingCode)
    ensures |r| == 5 ==> r[3] == Mark(from + k + 3, to - 1, Url)
  {
    var textStart := from + 1;
    var textEnd := textStart + k;
    var urlStart := textEnd + 2;
    var urlEnd := to - 1;
    [Mark(from, from + 1, FormattingCode), Mark(textStart, textEnd, LinkText), Mark(textEnd, urlStart, FormattingCode)]
    + (if urlStart < urlEnd then [Mark(urlStart, urlEnd, Url)] else [])
    + [Mark(to - 1, to, FormattingCode)]
  }

  /**
   * A link `[text](url)`: the pieces `[`, text, `](`, url and `)` as
   * contiguous marks covering the node, the url piece left out when the url
   * is empty; nothing when the node's text does not have that shape.
   */
  function LinkMarks(doc: string, s: Span): (r: seq<Deco>)
    requires s.from <= s.to <= |doc|
    ensures (forall k :: !LinkShapeAt(doc[s.from..s.to], k)) ==> r == []
    ensures forall k :: LinkShapeAt(doc[s.from..s.to], k) ==>
              && |r| == (if s.from + k + 4 == s.to then 4 else 5)
              && Covers(r, s.from, s.to)
              && LinkPieceTexts(doc, r, k)
  {
    var text := doc[s.from..s.to];
    LinkTextLengthSpec(text);
    match LinkTextLength(text)
    case None => []
    case Some(k) =>
      var r := LinkPieces(s.from, s.to, k);
      LinkPiecesText(doc, s, k);
      forall k' | LinkShapeAt(text, k') ensures k' == k {
        LinkShapeUnique(text, k, k');
      }
      r
  }

  /**
   * What the pieces of a matched link hold: `[`, a link text without `]`
   * (style `cm-link`), `](`, a url without `)` (style `cm-url`) and `)`.
   */
  ghost predicate LinkPieceTexts(doc: string, r: seq<Deco>, k: nat)
    requires |r| >= 4 && forall i :: 0 <= i < |r| ==> r[i].Mark? && r[i].from <= r[i].to <= |doc|
  {
    && doc[r[0].from..r[0].to] == "[" && r[0].tag == FormattingCode
    && r[1].to - r[1].from == k && ']' !in doc[r[1].from..r[1].to] && r[1].tag == LinkText
    && doc[r[2].from..r[2].to] == "](" && r[2].tag == FormattingCode
    && (|r| == 5 ==> ')' !in doc[r[3].from..r[3].to] && r[3].tag == Url)
    && doc[r[|r| - 1].from..r[|r| - 1].to] == ")" && r[|r| - 1].tag == FormattingCode
  }

  lemma {:induction false} LinkPiecesText(doc: string, s: Span, k: nat)
    requires s.from <= s.to <= |doc| && LinkShapeAt(doc[s.from..s.to], k)
    ensures LinkPieceTexts(doc, LinkPieces(s.from, s.to, k), k)
  {
    var text := doc[s.from..s.to];
    var r := LinkPieces(s.from, s.to, k);
    SliceOfSlice(doc, s.from, s.to, 0, 1);
    SliceOfSlice(doc, s.from, s.to, 1, k + 1);
    SliceOfSlice(doc, s.from, s.to, k + 1, k + 3);
    SliceOfSlice(doc, s.from, s.to, k + 3, |text| - 1);
    SliceOfSlice(doc, s.from, s.to, |text| - 1, |text|);
  }

  /** The node types the builder styles; every other type is `OtherNode`. */
  datatype NodeKind =
    | HeadingNode(level: Tag) | StrongEmphasisNode | EmphasisNode | StrikethroughNode | InlineCodeNode
    | BlockquoteNode | LinkNode | ListMarkNode | TaskMarkerNode | HorizontalRuleNode | OtherNode

  /** The builder's tests on the node name. */
  function KindOf(name: string): NodeKind
  {
    match HeadingTag(name)
    case Some(t) => HeadingNode(t)
    case None =>
      if name == "StrongEmphasis" then StrongEmphasisNode
      else if name == "Emphasis" then EmphasisNode
      else if name == "Strikethrough" then StrikethroughNode
      else if name == "InlineCode" then InlineCodeNode
      else if name == "Blockquote" then BlockquoteNode
      else if name == "Link" then LinkNode
      else if name == "ListMark" then ListMarkNode
      else if name == "TaskMarker" then TaskMarkerNode
      else if name == "HorizontalRule" then HorizontalRuleNode
      else OtherNode
  }

  /** The first and one-past-last line numbers a blockquote node covers. */
  function QuoteRange(doc: string, s: Span): (r: (nat, nat))
    requires s.from <= s.to <= |doc|
    ensures 1 <= r.0 < r.1 <= LineCount(doc) + 1
    ensures r == (LineAt(doc, s.from).number, LineAt(doc, s.to).number + 1)
  {
    LineAtMonotone(doc, s.from, s.to);
    (LineAt(doc, s.from).number, LineAt(doc, s.to).number + 1)
  }

  /** The marks one node contributes, in the order they are added. */
  function SpanMarks(doc: string, s: Span): seq<Deco>
    requires s.from <= s.to <= |doc|
  {
    var text := doc[s.from..s.to];
    match KindOf(s.name)
    case HeadingNode(tag) => HeadingMarks(doc, s, tag)
    case StrongEmphasisNode => EmphasisMarks(s, |BoldMarker(text)|, FormattingBold, Bold)
    case EmphasisNode => EmphasisMarks(s, |ItalicMarker(text)|, FormattingItalic, Italic)
    case StrikethroughNode => DelimitedMarks(doc, s, "~~", 4, FormattingStrikethrough, Strikethrough)
    case InlineCodeNode => DelimitedMarks(doc, s, "`", 2, FormattingCode, InlineCode)
    case BlockquoteNode => QuoteMarks(doc, QuoteRange(doc, s).0, QuoteRange(doc, s).1)
    case LinkNode => LinkMarks(doc, s)
    case ListMarkNode => [Mark(s.from, s.to, FormattingList)]
    case TaskMarkerNode => [Mark(s.from, s.to, TaskMarker)]
    case HorizontalRuleNode => []
    case OtherNode => []
  }

  /** The line decorations one node buffers. */
  function SpanLines(doc: string, s: Span): seq<PendingLine>
    requires s.from <= s.to <= |doc|
  {
    match KindOf(s.name)
    case BlockquoteNode => QuoteLines(doc, QuoteRange(doc, s).0, QuoteRange(doc, s).1)
    case HorizontalRuleNode => [PendingLine(LineAt(doc, s.from).from, HorizontalRule)]
    case _ => []
  }

  /** The marks of all nodes, in traversal order. */
  function AllMarks(doc: string, spans: seq<Span>): seq<Deco>
    requires WellFormed(doc, spans)
  {
    if spans == [] then []
    else AllMarks(doc, spans[..|spans| - 1]) + SpanMarks(doc, spans[|spans| - 1])
  }

  /** The buffered line decorations of all nodes, in traversal order (before sorting). */
  function AllLines(doc: string, spans: seq<Span>): seq<PendingLine>
    requires WellFormed(doc, spans)
  {
    if spans == [] then []
    else AllLines(doc, spans[..|spans| - 1]) + SpanLines(doc, spans[|spans| - 1])
  }

  /** The comparator `(a, b) => a.pos - b.pos`, as "`b` does not go strictly before `a`". */
  function PosLeq(a: PendingLine, b: PendingLine): bool {
    a.pos <= b.pos
  }

  lemma {:induction false} PosLeqTotalPreorder()
    ensures Sorting.TotalPreorder(PosLeq)
  {
  }

  /** Each buffered entry becomes a line decoration at its position. */
  function AsLineDecos(ls: seq<PendingLine>): (r: seq<Deco>)
    ensures |r| == |ls|
    ensures forall i :: 0 <= i < |ls| ==> r[i] == LineDeco(ls[i].pos, ls[i].tag)
  {
    if ls == [] then [] else [LineDeco(ls[0].pos, ls[0].tag)] + AsLineDecos(ls[1..])
  }

  /** What the builder holds when it is finished. */
  function Decorations(doc: string, spans: seq<Span>): seq<Deco>
    requires WellFormed(doc, spans)
  {
    AllMarks(doc, spans) + AsLineDecos(Sorting.SortBy(AllLines(doc, spans), PosLeq))
  }

  // ---------------------------------------------------------------------------
  // The builder
  // ---------------------------------------------------------------------------

  /** The heading branch of `enter`. */
  method EnterHeading(doc: string, node: Span, headerDeco: Tag, builder: seq<Deco>)
    returns (builder': seq<Deco>)
    requires node.from <= node.to <= |doc|
    ensures builder' == builder + HeadingMarks(doc, node, headerDeco)
  {
    var from, to := node.from, node.to;
    var line := LineAt(doc, from);
    var text := LineText(doc, line);
    var match_ := HeadingMarkLength(text);
    if match_.Some? {
      var markEnd := from + match_.value;
      builder' := builder + [Mark(from, markEnd, HeadingMarker)];
      if markEnd + 1 <= to {
        builder' := builder' + [Mark(markEnd, to, headerDeco)];
      }
    } else {
      builder' := builder + [Mark(from, to, headerDeco)];
    }
  }

  /** The bold and italic branches of `enter`; `mLen` is the marker length the node kind fixes. */
  method EnterEmphasis(node: Span, mLen: nat, dim: Tag, inner: Tag, builder: seq<Deco>)
    returns (builder': seq<Deco>)
    ensures builder' == builder + EmphasisMarks(node, mLen, dim, inner)
  {
    builder' := builder;
    var from, to := node.from, node.to;
    if to - from > mLen * 2 {
      builder' := builder' + [Mark(from, from + mLen, dim)];
      builder' := builder' + [Mark(from + mLen, to - mLen, inner)];
      builder' := builder' + [Mark(to - mLen, to, dim)];
    }
  }

  /** The strikethrough (`delim` = `~~`) and inline-code (`delim` = `` ` ``) branches of `enter`. */
  method EnterDelimited(doc: string, node: Span, delim: string, minLen: nat, dim: Tag, inner: Tag, builder: seq<Deco>)
    returns (builder': seq<Deco>)
    requires node.from <= node.to <= |doc| && 2 * |delim| <= minLen
    ensures builder' == builder + DelimitedMarks(doc, node, delim, minLen, dim, inner)
  {
    builder' := builder;
    var from, to := node.from, node.to;
    var text := doc[from..to];
    var n := |delim|;
    if StartsWith(text, delim) && EndsWith(text, delim) && to - from > minLen {
      builder' := builder' + [Mark(from, from + n, dim)];
      builder' := builder' + [Mark(from + n, to - n, inner)];
      builder' := builder' + [Mark(to - n, to, dim)];
    }
  }

  /** One more line extends the quote marks and the quote lines by that line's share. */
  lemma {:induction false} QuoteStep(doc: string, first: nat, i: nat)
    requires 1 <= first <= i <= LineCount(doc)
    ensures QuoteMarks(doc, first, i + 1) == QuoteMarks(doc, first, i) + LineQuoteMark(doc, i)
    ensures QuoteLines(doc, first, i + 1) == QuoteLines(doc, first, i) + [PendingLine(LineByNumber(doc, i).from, BlockquoteLine)]
  {
  }

  /** One iteration of the blockquote loop: line `i`'s line decoration and quote mark. */
  method EnterQuoteLine(doc: string, first: nat, i: nat, b: seq<Deco>, l: seq<PendingLine>)
    returns (b': seq<Deco>, l': seq<PendingLine>)
    requires 1 <= first <= i <= LineCount(doc)
    requires b == QuoteMarks(doc, first, i) && l == QuoteLines(doc, first, i)
    ensures b' == QuoteMarks(doc, first, i + 1) && l' == QuoteLines(doc, first, i + 1)
  {
    var line := LineByNumber(doc, i);
    l' := l + [PendingLine(line.from, BlockquoteLine)];
    var qMatch := QuotePrefixLength(LineText(doc, line));
    if qMatch.Some? {
      b' := b + [Mark(line.from, line.from + qMatch.value, FormattingQuote)];
    } else {
      b' := b;
    }
    QuoteStep(doc, first, i);
  }

  /**
   * The loop of the blockquote branch: lines `startLine` to `endLine`, in
   * order; the marks and line decorations of the lines are collected and
   * then added to the builder and the buffer.
   */
  method EnterQuoteLines(doc: string, startLine: nat, endLine: nat, builder: seq<Deco>, lineDecos: seq<PendingLine>)
    returns (builder': seq<Deco>, lineDecos': seq<PendingLine>)
    requires 1 <= startLine <= endLine + 1 <= LineCount(doc) + 1
    ensures builder' == builder + QuoteMarks(doc, startLine, endLine + 1)
    ensures lineDecos' == lineDecos + QuoteLines(doc, startLine, endLine + 1)
  {
    var marks, lines := [], [];
    var i := startLine;
    while i <= endLine
      invariant startLine <= i <= endLine + 1
      invariant marks == QuoteMarks(doc, startLine, i) && lines == QuoteLines(doc, startLine, i)
    {
      marks, lines := EnterQuoteLine(doc, startLine, i, marks, lines);
      i := i + 1;
    }
    builder', lineDecos' := builder + marks, lineDecos + lines;
  }

  /** The blockquote branch of `enter`: walks the lines from the line of `from` to the line of `to`. */
  method EnterBlockquote(doc: string, node: Span, builder: seq<Deco>, lineDecos: seq<PendingLine>)
    returns (builder': seq<Deco>, lineDecos': seq<PendingLine>)
    requires node.from <= node.to <= |doc|
    ensures builder' == builder + QuoteMarks(doc, QuoteRange(doc, node).0, QuoteRange(doc, node).1)
    ensures lineDecos' == lineDecos + QuoteLines(doc, QuoteRange(doc, node).0, QuoteRange(doc, node).1)
  {
    var range := QuoteRange(doc, node);
    builder', lineDecos' := EnterQuoteLines(doc, range.0, range.1 - 1, builder, lineDecos);
  }

  /** The link branch of `enter`. */
  method EnterLink(doc: string, node: Span, builder: seq<Deco>) returns (builder': seq<Deco>)
    requires node.from <= node.to <= |doc|
    ensures builder' == builder + LinkMarks(doc, node)
  {
    builder' := builder;
    var from, to := node.from, node.to;
    var text := doc[from..to];
    var linkMatch := LinkTextLength(text);
    if linkMatch.Some? {
      var textStart := from + 1;
      var textEnd := textStart + linkMatch.value;
      var urlStart := textEnd + 2;
      var urlEnd := to - 1;
      var pieces := [Mark(from, from + 1, FormattingCode), Mark(textStart, textEnd, LinkText), Mark(textEnd, urlStart, FormattingCode)];
      if urlStart < urlEnd {
        pieces := pieces + [Mark(urlStart, urlEnd, Url)];
      }
      pieces := pieces + [Mark(to - 1, to, FormattingCode)];
      assert pieces == LinkPieces(from, to, linkMatch.value);
      builder' := builder' + pieces;
    }
  }

  /** The `enter` callback: adds the node's marks and buffers its line decorations. */
  method Enter(doc: string, node: Span, builder: seq<Deco>, lineDecos: seq<PendingLine>)
    returns (builder': seq<Deco>, lineDecos': seq<PendingLine>)
    requires node.from <= node.to <= |doc|
    ensures builder' == builder + SpanMarks(doc, node)
    ensures lineDecos' == lineDecos + SpanLines(doc, node)
  {
    builder', lineDecos' := builder, lineDecos;
    var from, to := node.from, node.to;
    match KindOf(node.name)
    case HeadingNode(headerDeco) =>
      builder' := EnterHeading(doc, node, headerDeco, builder);
    case StrongEmphasisNode =>
      builder' := EnterEmphasis(node, |BoldMarker(doc[from..to])|, FormattingBold, Bold, builder);
    case EmphasisNode =>
      builder' := EnterEmphasis(node, |ItalicMarker(doc[from..to])|, FormattingItalic, Italic, builder);
    case StrikethroughNode =>
      builder' := EnterDelimited(doc, node, "~~", 4, FormattingStrikethrough, Strikethrough, builder);
    case InlineCodeNode =>
      builder' := EnterDelimited(doc, node, "`", 2, FormattingCode, InlineCode, builder);
    case BlockquoteNode =>
      builder', lineDecos' := EnterBlockquote(doc, node, builder, lineDecos);
    case LinkNode =>
      builder' := EnterLink(doc, node, builder);
    case ListMarkNode =>
      builder' := builder + [Mark(from, to, FormattingList)];
    case TaskMarkerNode =>
      builder' := builder + [Mark(from, to, TaskMarker)];
    case HorizontalRuleNode =>
      var line := LineAt(doc, from);
      lineDecos' := lineDecos + [PendingLine(line.from, HorizontalRule)];
    case OtherNode =>
  }

  /** Entering one more node extends both accumulators by what that node contributes. */
  lemma {:induction false} WalkStep(doc: string, spans: seq<Span>, n: nat)
    requires WellFormed(doc, spans) && n < |spans|
    ensures AllMarks(doc, spans[..n + 1]) == AllMarks(doc, spans[..n]) + SpanMarks(doc, spans[n])
    ensures AllLines(doc, spans[..n + 1]) == AllLines(doc, spans[..n]) + SpanLines(doc, spans[n])
  {
    assert spans[..n + 1][..n] == spans[..n];
  }

  /** The tree walk of `buildDecorations`: `enter` on every node, in order. */
  method Walk(doc: string, spans: seq<Span>) returns (builder: seq<Deco>, lineDecos: seq<PendingLine>)
    requires WellFormed(doc, spans)
    ensures builder == AllMarks(doc, spans) && lineDecos == AllLines(doc, spans)
  {
    builder, lineDecos := [], [];
    for n := 0 to |spans|
      invariant builder == AllMarks(doc, spans[..n])
      invariant lineDecos == AllLines(doc, spans[..n])
    {
      builder, lineDecos := Enter(doc, spans[n], builder, lineDecos);
      WalkStep(doc, spans, n);
    }
    assert spans[..|spans|] == spans;
  }

  /** The final loop of `buildDecorations`: one line decoration per sorted entry, after `marks`. */
  method AddLineDecos(marks: seq<Deco>, lineDecos: seq<PendingLine>) returns (builder: seq<Deco>)
    ensures builder == marks + AsLineDecos(lineDecos)
  {
    builder := marks;
    for n := 0 to |lineDecos|
      invariant builder == marks + AsLineDecos(lineDecos[..n])
    {
      var pos, deco := lineDecos[n].pos, lineDecos[n].tag;
      builder := builder + [LineDeco(pos, deco)];
    }
    assert lineDecos[..|lineDecos|] == lineDecos;
  }

  /**
   * `buildDecorations`: walks the nodes, then sorts the buffered line
   * decorations by position and adds them after all marks.
   */
  method BuildDecorations(doc: string, spans: seq<Span>) returns (decorations: seq<Deco>)
    requires WellFormed(doc, spans)
    ensures decorations == Decorations(doc, spans)
  {
    var builder, lineDecos := Walk(doc, spans);
    lineDecos := Sorting.SortBy(lineDecos, PosLeq);
    decorations := AddLineDecos(builder, lineDecos);
  }

  // ---------------------------------------------------------------------------
  // Properties of the result
  // ---------------------------------------------------------------------------

  /** The result is every mark, in traversal order, followed by the line decorations. */
  lemma {:induction false} MarksThenLines(doc: string, spans: seq<Span>)
    requires WellFormed(doc, spans)
    ensures var r, m := Decorations(doc, spans), |AllMarks(doc, spans)|;
            && r[..m] == AllMarks(doc, spans)
            && r[m..] == AsLineDecos(Sorting.SortBy(AllLines(doc, spans), PosLeq))
            && (forall i :: m <= i < |r| ==> r[i].LineDeco?)
  {
  }

  /** Line decorations made from entries sorted by position ascend by position. */
  lemma {:induction false} AsLineDecosAscending(marks: seq<Deco>, ls: seq<PendingLine>)
    requires Sorting.SortedBy(ls, PosLeq)
    ensures var r, m := marks + AsLineDecos(ls), |marks|;
            forall i, j :: m <= i < j < |r| ==> r[i].LineDeco? && r[j].LineDeco? && r[i].pos <= r[j].pos
  {
    var t := AsLineDecos(ls);
    var r, m := marks + t, |marks|;
    forall i, j | m <= i < j < |r| ensures r[i].LineDeco? && r[j].LineDeco? && r[i].pos <= r[j].pos {
      var i', j' := i - m, j - m;
      assert r[i] == t[i'] == LineDeco(ls[i'].pos, ls[i'].tag);
      assert r[j] == t[j'] == LineDeco(ls[j'].pos, ls[j'].tag);
      assert PosLeq(ls[i'], ls[j']);
    }
  }

  /** The line decorations at the end of the result ascend by position. */
  lemma {:induction false} LineDecorationsAscending(doc: string, spans: seq<Span>)
    requires WellFormed(doc, spans)
    ensures var r, m := Decorations(doc, spans), |AllMarks(doc, spans)|;
            forall i, j :: m <= i < j < |r| ==> r[i].LineDeco? && r[j].LineDeco? && r[i].pos <= r[j].pos
  {
    PosLeqTotalPreorder();
    Sorting.SortBySorted(AllLines(doc, spans), PosLeq);
    AsLineDecosAscending(AllMarks(doc, spans), Sorting.SortBy(AllLines(doc, spans), PosLeq));
  }

  /**
   * The sort loses and adds no buffered line decoration, and keeps the ones
   * at the same position in the order they were buffered.
   */
  lemma {:induction false} LineDecorationsStable(doc: string, spans: seq<Span>, p: nat)
    requires WellFormed(doc, spans)
    ensures var ls, sorted := AllLines(doc, spans), Sorting.SortBy(AllLines(doc, spans), PosLeq);
            && multiset(sorted) == multiset(ls)
            && Sorting.TiedWith(sorted, PosLeq, PendingLine(p, HorizontalRule))
               == Sorting.TiedWith(ls, PosLeq, PendingLine(p, HorizontalRule))
  {
    PosLeqTotalPreorder();
    Sorting.SortByStable(AllLines(doc, spans), PosLeq, PendingLine(p, HorizontalRule));
  }

  /** A node of a kind the builder does not know adds nothing. */
  lemma {:induction false} UnknownNodeIgnored(doc: string, s: Span)
    requires s.from <= s.to <= |doc|
    requires s.name !in {"ATXHeading1", "ATXHeading2", "ATXHeading3", "StrongEmphasis", "Emphasis",
                         "Strikethrough", "InlineCode", "Blockquote", "Link", "ListMark", "TaskMarker",
                         "HorizontalRule"}
    ensures SpanMarks(doc, s) == [] && SpanLines(doc, s) == []
  {
  }

  /** Bold always uses a 2-character marker and italic a 1-character one, whichever alphabet the node uses. */
  lemma {:induction false} EmphasisRule(doc: string, s: Span)
    requires s.from <= s.to <= |doc|
    ensures s.name == "StrongEmphasis" ==> SpanMarks(doc, s) == EmphasisMarks(s, 2, FormattingBold, Bold)
    ensures s.name == "Emphasis" ==> SpanMarks(doc, s) == EmphasisMarks(s, 1, FormattingItalic, Italic)
  {
  }

  /**
   * A blockquote covers the lines from the line of `from` to the line of
   * `to` (`QuoteRange`): it buffers their line decorations (`QuoteLines`,
   * one per line start by `QuoteLinesAt`) and marks their quote prefixes
   * (`QuoteMarks`, each as `LineQuoteMarkSpec` states).
   */
  lemma {:induction false} BlockquoteRule(doc: string, s: Span)
    requires s.from <= s.to <= |doc| && s.name == "Blockquote"
    ensures var (first, end) := QuoteRange(doc, s);
            && SpanMarks(doc, s) == QuoteMarks(doc, first, end)
            && SpanLines(doc, s) == QuoteLines(doc, first, end)
  {
    assert KindOf(s.name) == BlockquoteNode;
  }

  /** A horizontal rule is one line decoration at the start of the line holding `from`, and no mark. */
  lemma {:induction false} HorizontalRuleRule(doc: string, s: Span)
    requires s.from <= s.to <= |doc| && s.name == "HorizontalRule"
    ensures SpanMarks(doc, s) == []
    ensures SpanLines(doc, s) == [PendingLine(LineAt(doc, s.from).from, HorizontalRule)]
    ensures IsLine(doc, LineAt(doc, s.from)) && LineAt(doc, s.from).from <= s.from
  {
    KindOfNames();
    var line := LineAt(doc, s.from);
    assert SpanLines(doc, s) == [PendingLine(line.from, HorizontalRule)];
  }

  /** The node kind of each name the builder tests for. */
  lemma {:induction false} KindOfNames()
    ensures KindOf("ATXHeading1") == HeadingNode(Header1)
    ensures KindOf("ATXHeading2") == HeadingNode(Header2)
    ensures KindOf("ATXHeading3") == HeadingNode(Header3)
    ensures KindOf("Strikethrough") == StrikethroughNode && KindOf("InlineCode") == InlineCodeNode
    ensures KindOf("Link") == LinkNode
    ensures KindOf("ListMark") == ListMarkNode && KindOf("TaskMarker") == TaskMarkerNode
    ensures KindOf("HorizontalRule") == HorizontalRuleNode
  {
    assert HeadingTag("Strikethrough").None? && HeadingTag("InlineCode").None? && HeadingTag("Link").None?;
    assert HeadingTag("ListMark").None? && HeadingTag("TaskMarker").None? && HeadingTag("HorizontalRule").None?;
  }

  /** A heading node contributes the heading marks of its level, and no line decoration. */
  lemma {:induction false} HeadingRule(doc: string, s: Span)
    requires s.from <= s.to <= |doc|
    ensures s.name == "ATXHeading1" ==> SpanMarks(doc, s) == HeadingMarks(doc, s, Header1) && SpanLines(doc, s) == []
    ensures s.name == "ATXHeading2" ==> SpanMarks(doc, s) == HeadingMarks(doc, s, Header2) && SpanLines(doc, s) == []
    ensures s.name == "ATXHeading3" ==> SpanMarks(doc, s) == HeadingMarks(doc, s, Header3) && SpanLines(doc, s) == []
  {
    KindOfNames();
  }

  /** Strikethrough is delimited by `~~` and must be longer than 4; inline code by `` ` `` and longer than 2. */
  lemma {:induction false} DelimitedRule(doc: string, s: Span)
    requires s.from <= s.to <= |doc|
    ensures s.name == "Strikethrough" ==>
              SpanMarks(doc, s) == DelimitedMarks(doc, s, "~~", 4, FormattingStrikethrough, Strikethrough)
    ensures s.name == "InlineCode" ==>
              SpanMarks(doc, s) == DelimitedMarks(doc, s, "`", 2, FormattingCode, InlineCode)
  {
    KindOfNames();
  }

  /** A link node contributes its link marks, and no line decoration. */
  lemma {:induction false} LinkRule(doc: string, s: Span)
    requires s.from <= s.to <= |doc| && s.name == "Link"
    ensures SpanMarks(doc, s) == LinkMarks(doc, s) && SpanLines(doc, s) == []
  {
    KindOfNames();
  }

  /** A list mark and a task marker are one mark each over the whole node. */
  lemma {:induction false} MarkerRule(doc: string, s: Span)
    requires s.from <= s.to <= |doc|
    ensures s.name == "ListMark" ==> SpanMarks(doc, s) == [Mark(s.from, s.to, FormattingList)] && SpanLines(doc, s) == []
    ensures s.name == "TaskMarker" ==> SpanMarks(doc, s) == [Mark(s.from, s.to, TaskMarker)] && SpanLines(doc, s) == []
  {
    KindOfNames();
  }

  // ---------------------------------------------------------------------------
  // The view plugin
  // ---------------------------------------------------------------------------

  /**
   * What a view update tells the plugin: which of document, viewport and
   * selection changed, and the view's document and syntax-tree nodes after it.
   */
  datatype ViewUpdate = ViewUpdate(docChanged: bool, viewportChanged: bool, selectionSet: bool,
                                   doc: string, spans: seq<Span>)

  /** The plugin instance: holds the decorations of the last build. */
  class DecorationsPlugin {
    var decorations: seq<Deco>

    /** Created with the decorations of the initial view. */
    constructor(doc: string, spans: seq<Span>)
      requires WellFormed(doc, spans)
      ensures decorations == Decorations(doc, spans)
    {
      var built := BuildDecorations(doc, spans);
      decorations := built;
    }

    /** Rebuilds when the document, the viewport or the selection changed; otherwise keeps the old set. */
    method Update(u: ViewUpdate)
      requires WellFormed(u.doc, u.spans)
      modifies this
      ensures u.docChanged || u.viewportChanged || u.selectionSet ==> decorations == Decorations(u.doc, u.spans)
      ensures !(u.docChanged || u.viewportChanged || u.selectionSet) ==> decorations == old(decorations)
    {
      if u.docChanged || u.viewportChanged || u.selectionSet {
        decorations := BuildDecorations(u.doc, u.spans);
      }
    }
  }
}
