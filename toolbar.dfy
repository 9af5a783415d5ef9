/**
 * The editor toolbar: the three Markdown insertion helpers, each one
 * `view.dispatch` of a single change plus a new selection followed by
 * `view.focus()`, and the table that maps each button to one of them.
 */
module EditorToolbar {
  import opened EditorText

  /** The main selection range; `From`/`To` are its lower and upper ends whichever way it was made. */
  datatype Selection = Selection(anchor: nat, head: nat) {
    function From(): nat { if anchor <= head then anchor else head }
    function To(): nat { if anchor <= head then head else anchor }
  }

  /** A cursor: a selection whose anchor and head coincide. */
  function Cursor(p: nat): (s: Selection)
    ensures s.From() == s.To() == p
  {
    Selection(p, p)
  }

  /** What the helpers read and write: the document and its main selection. */
  datatype EditorState = EditorState(doc: string, selection: Selection)

  predicate ValidState(st: EditorState) {
    st.selection.anchor <= |st.doc| && st.selection.head <= |st.doc|
  }

  /** The document after the change `{from, to, insert}`. */
  function Splice(doc: string, from: nat, to: nat, insert: string): (r: string)
    requires from <= to <= |doc|
    ensures |r| == |doc| - (to - from) + |insert|
    ensures r[..from] == doc[..from]
    ensures r[from..from + |insert|] == insert
    ensures r[from + |insert|..] == doc[to..]
  {
    var r := doc[..from] + insert + doc[to..];
    assert r[..from] == doc[..from];
    assert r[from..from + |insert|] == insert;
    assert r[from + |insert|..] == doc[to..];
    r
  }

  // ---------------------------------------------------------------------------
  // The three helpers as state transformations
  // ---------------------------------------------------------------------------

  /**
   * `wrapSelection`: the selected text gets `before` in front and `after`
   * behind, and the new selection is exactly the original text in its new place.
   */
  function Wrapped(st: EditorState, before: string, after: string): (r: EditorState)
    requires ValidState(st)
    ensures ValidState(r)
    ensures var from, to, sel := st.selection.From(), st.selection.To(), r.selection;
            && sel.anchor == from + |before| && sel.head == to + |before|
            && |r.doc| == |st.doc| + |before| + |after|
            && r.doc[..from] == st.doc[..from]
            && r.doc[from..sel.anchor] == before
            && r.doc[sel.From()..sel.To()] == st.doc[from..to]
            && r.doc[sel.head..sel.head + |after|] == after
            && r.doc[sel.head + |after|..] == st.doc[to..]
  {
    var from, to := st.selection.From(), st.selection.To();
    var selected := st.doc[from..to];
    var insert := before + selected + after;
    var doc' := Splice(st.doc, from, to, insert);
    assert doc'[from..from + |insert|] == insert;
    SliceOfInsert(doc', from, before, selected, after);
    EditorState(doc', Selection(from + |before|, to + |before|))
  }

  /** Cutting a placed `before + selected + after` back into its three parts. */
  lemma {:induction false} SliceOfInsert(d: string, from: nat, before: string, selected: string, after: string)
    requires from + |before + selected + after| <= |d| && d[from..from + |before + selected + after|] == before + selected + after
    ensures d[from..from + |before|] == before
    ensures d[from + |before|..from + |before| + |selected|] == selected
    ensures d[from + |before| + |selected|..from + |before| + |selected| + |after|] == after
  {
    var w := before + selected + after;
    var p, q := from + |before|, from + |before| + |selected|;
    forall k | 0 <= k < |w| ensures d[from + k] == w[k] {
      assert d[from..from + |w|][k] == d[from + k];
    }
    forall k | 0 <= k < |before| ensures d[from..p][k] == before[k] {
      assert w[k] == before[k];
    }
    forall k | 0 <= k < |selected| ensures d[p..q][k] == selected[k] {
      assert w[|before| + k] == selected[k];
    }
    forall k | 0 <= k < |after| ensures d[q..q + |after|][k] == after[k] {
      assert w[|before| + |selected| + k] == after[k];
    }
  }

  /**
   * `insertAtLineStart`: `prefix` goes in at the start of the line holding
   * the lower end of the selection, and the cursor lands right after it.
   */
  function LinePrefixed(st: EditorState, prefix: string): (r: EditorState)
    requires ValidState(st)
    ensures ValidState(r)
    ensures var line := LineAt(st.doc, st.selection.From());
            && IsLine(st.doc, line) && line.from <= st.selection.From() <= line.to
            && r.selection == Cursor(line.from + |prefix|)
            && |r.doc| == |st.doc| + |prefix|
            && r.doc[..line.from] == st.doc[..line.from]
            && r.doc[line.from..line.from + |prefix|] == prefix
            && r.doc[line.from + |prefix|..] == st.doc[line.from..]
            && (line.from == 0 || r.doc[line.from - 1] == '\n')
  {
    var line := LineAt(st.doc, st.selection.From());
    var doc' := Splice(st.doc, line.from, line.from, prefix);
    assert line.from > 0 ==> doc'[line.from - 1] == doc'[..line.from][line.from - 1];
    EditorState(doc', Cursor(line.from + |prefix|))
  }

  /** `insertText`: `text` replaces the selection and the cursor lands right after it. */
  function TextInserted(st: EditorState, text: string): (r: EditorState)
    requires ValidState(st)
    ensures ValidState(r)
    ensures var from, to := st.selection.From(), st.selection.To();
            && r.selection == Cursor(from + |text|)
            && |r.doc| == |st.doc| - (to - from) + |text|
            && r.doc[..from] == st.doc[..from]
            && r.doc[from..from + |text|] == text
            && r.doc[from + |text|..] == st.doc[to..]
  {
    var from, to := st.selection.From(), st.selection.To();
    EditorState(Splice(st.doc, from, to, text), Cursor(from + |text|))
  }

  // ---------------------------------------------------------------------------
  // The editor view
  // ---------------------------------------------------------------------------

  /** The mutable editor view the helpers act on. */
  class EditorView {
    var doc: string
    var selection: Selection
    var hasFocus: bool

    ghost predicate Valid()
      reads this
    {
      ValidState(EditorState(doc, selection))
    }

    function State(): EditorState
      reads this
    {
      EditorState(doc, selection)
    }

    constructor(doc: string, selection: Selection)
      requires ValidState(EditorState(doc, selection))
      ensures Valid() && State() == EditorState(doc, selection) && !hasFocus
    {
      this.doc := doc;
      this.selection := selection;
      hasFocus := false;
    }

    /** One transaction: the change `{from, to, insert}` and the new selection. */
    method Dispatch(from: nat, to: nat, insert: string, sel: Selection)
      requires from <= to <= |doc|
      requires sel.anchor <= |doc| - (to - from) + |insert| && sel.head <= |doc| - (to - from) + |insert|
      modifies this
      ensures doc == Splice(old(doc), from, to, insert) && selection == sel && hasFocus == old(hasFocus)
      ensures Valid()
    {
      doc := doc[..from] + insert + doc[to..];
      selection := sel;
    }

    method Focus()
      modifies this
      ensures hasFocus && doc == old(doc) && selection == old(selection)
    {
      hasFocus := true;
    }

    method WrapSelection(before: string, after: string)
      requires Valid()
      modifies this
      ensures Valid() && State() == Wrapped(old(State()), before, after) && hasFocus
    {
      var from, to := selection.From(), selection.To();
      var selected := doc[from..to];
      Dispatch(from, to, before + selected + after, Selection(from + |before|, to + |before|));
      Focus();
    }

    method InsertAtLineStart(prefix: string)
      requires Valid()
      modifies this
      ensures Valid() && State() == LinePrefixed(old(State()), prefix) && hasFocus
    {
      var from := selection.From();
      var line := LineAt(doc, from);
      Dispatch(line.from, line.from, prefix, Cursor(line.from + |prefix|));
      Focus();
    }

    method InsertText(text: string)
      requires Valid()
      modifies this
      ensures Valid() && State() == TextInserted(old(State()), text) && hasFocus
    {
      var from, to := selection.From(), selection.To();
      Dispatch(from, to, text, Cursor(from + |text|));
      Focus();
    }
  }

  // ---------------------------------------------------------------------------
  // The buttons
  // ---------------------------------------------------------------------------

  datatype Command = Wrap(before: string, after: string) | LineStart(prefix: string) | Insert(text: string)

  datatype Button =
    | BoldButton | ItalicButton | StrikethroughButton
    | Heading1Button | Heading2Button | Heading3Button
    | BulletListButton | OrderedListButton | ChecklistButton
    | InlineCodeButton | LinkButton | BlockquoteButton | HorizontalRuleButton

  /** The command each toolbar button runs. */
  function CommandOf(b: Button): Command {
    match b
    case BoldButton => Wrap("**", "**")
    case ItalicButton => Wrap("*", "*")
    case StrikethroughButton => Wrap("~~", "~~")
    case Heading1Button => LineStart("# ")
    case Heading2Button => LineStart("## ")
    case Heading3Button => LineStart("### ")
    case BulletListButton => LineStart("- ")
    case OrderedListButton => LineStart("1. ")
    case ChecklistButton => LineStart("- [ ] ")
    case InlineCodeButton => Wrap("`", "`")
    case LinkButton => Insert("[text](url)")
    case BlockquoteButton => LineStart("> ")
    case HorizontalRuleButton => Insert("\n---\n")
  }

  /** What running a command does to the editor state. */
  function Run(st: EditorState, c: Command): (r: EditorState)
    requires ValidState(st)
    ensures ValidState(r)
  {
    match c
    case Wrap(before, after) => Wrapped(st, before, after)
    case LineStart(prefix) => LinePrefixed(st, prefix)
    case Insert(text) => TextInserted(st, text)
  }

  /**
   * The table's shape: every wrapping button puts the same non-empty marker
   * on both sides, every line prefix is a single line ending in a space, and
   * no two buttons run the same command.
   */
  lemma {:induction false} ButtonTableShape(b: Button, b': Button)
    ensures CommandOf(b).Wrap? ==> CommandOf(b).before == CommandOf(b).after != ""
    ensures CommandOf(b).LineStart? ==> var p := CommandOf(b).prefix;
              |p| >= 2 && p[|p| - 1] == ' ' && '\n' !in p
    ensures b != b' ==> CommandOf(b) != CommandOf(b')
  {
    if b != b' {
      match CommandOf(b) {
        case Wrap(x, _) => assert |x| == 1 ==> x[0] in {'*', '`'};
        case LineStart(p) => assert p[0] in {'#', '-', '1', '>'};
        case Insert(t) => assert t[0] in {'[', '\n'};
      }
    }
  }

  /**
   * A button click: runs the button's command on the view, and does nothing
   * at all when there is no view yet.
   */
  method Click(view: EditorView?, b: Button)
    requires view != null ==> view.Valid()
    modifies view
    ensures view != null ==> view.Valid() && view.State() == Run(old(view.State()), CommandOf(b)) && view.hasFocus
  {
    if view != null {
      match CommandOf(b)
      case Wrap(before, after) => view.WrapSelection(before, after);
      case LineStart(prefix) => view.InsertAtLineStart(prefix);
      case Insert(text) => view.InsertText(text);
    }
  }
}
