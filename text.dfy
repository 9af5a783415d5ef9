/**
 * The editor document as CodeMirror's `Text` presents it: a string whose
 * lines are separated by single `'\n'` characters, with `line(i)` (1-based)
 * and `lineAt(pos)`. The line table is the sequence of line start offsets.
 */
module EditorText {

  /** CodeMirror's `Line`: its 1-based number and the range `[from, to)` of its text. */
  datatype Line = Line(number: nat, from: nat, to: nat)

  /** `line` is a whole line of `doc`: it starts and ends at a line break (or the document's ends). */
  ghost predicate IsLine(doc: string, line: Line) {
    && line.from <= line.to <= |doc|
    && (line.from == 0 || doc[line.from - 1] == '\n')
    && (line.to == |doc| || doc[line.to] == '\n')
    && '\n' !in doc[line.from..line.to]
  }

  /** The text of a line, without its line break (`line.text`). */
  function LineText(doc: string, line: Line): (r: string)
    requires line.from <= line.to <= |doc|
    ensures |r| == line.to - line.from
  {
    doc[line.from..line.to]
  }

  /** The start offsets of the lines that begin within `doc[..n]`. */
  function StartsUpTo(doc: string, n: nat): (r: seq<nat>)
    requires n <= |doc|
    ensures |r| >= 1 && r[0] == 0
  {
    if n == 0 then [0]
    else StartsUpTo(doc, n - 1) + (if doc[n - 1] == '\n' then [n] else [])
  }

  /** `r` is ascending, holds only offsets up to `n` just after line breaks, and all of those. */
  ghost predicate TableOf(doc: string, r: seq<nat>, n: nat)
    requires n <= |doc|
  {
    && (forall i :: 0 <= i < |r| ==> r[i] <= n)
    && (forall i, j :: 0 <= i < j < |r| ==> r[i] < r[j])
    && (forall i :: 1 <= i < |r| ==> 1 <= r[i] && doc[r[i] - 1] == '\n')
    && (forall k :: 0 <= k < n && doc[k] == '\n' ==> k + 1 in r)
  }

  lemma {:induction false} StartsUpToFacts(doc: string, n: nat)
    requires n <= |doc|
    ensures TableOf(doc, StartsUpTo(doc, n), n)
  {
    if n > 0 {
      StartsUpToFacts(doc, n - 1);
      var a, r := StartsUpTo(doc, n - 1), StartsUpTo(doc, n);
      assert r == a + (if doc[n - 1] == '\n' then [n] else []);
      forall i | 0 <= i < |r| ensures r[i] <= n && (1 <= i ==> 1 <= r[i] && doc[r[i] - 1] == '\n') {
        if i < |a| {
          assert r[i] == a[i];
        }
      }
      forall i, j | 0 <= i < j < |r| ensures r[i] < r[j] {
        assert r[i] == a[i];
        if j < |a| {
          assert r[j] == a[j];
        }
      }
      forall k | 0 <= k < n && doc[k] == '\n' ensures k + 1 in r {
        if k < n - 1 {
          assert k + 1 in a;
        } else {
          assert r[|r| - 1] == n;
        }
      }
    }
  }

  /** The line table: the start offset of every line, in document order. */
  function LineStarts(doc: string): (r: seq<nat>)
    ensures |r| >= 1
  {
    StartsUpTo(doc, |doc|)
  }

  /** The number of lines (`doc.lines`). */
  function LineCount(doc: string): (r: nat)
    ensures r >= 1
  {
    |LineStarts(doc)|
  }

  /** The table up to `n` is a prefix of the table up to `m`, and the rest starts after `n`. */
  lemma {:induction false} StartsPrefix(doc: string, n: nat, m: nat)
    requires n <= m <= |doc|
    ensures StartsUpTo(doc, n) <= StartsUpTo(doc, m)
    ensures forall i :: |StartsUpTo(doc, n)| <= i < |StartsUpTo(doc, m)| ==> StartsUpTo(doc, m)[i] > n
    decreases m - n
  {
    if n < m {
      StartsPrefix(doc, n, m - 1);
      StartsUpToFacts(doc, n);
    }
  }

  /** `doc.line(i)`: the line with number `i`. */
  function LineByNumber(doc: string, i: nat): (r: Line)
    requires 1 <= i <= LineCount(doc)
    ensures r.number == i && IsLine(doc, r)
    ensures r.from == LineStarts(doc)[i - 1]
  {
    var st := LineStarts(doc);
    StartsUpToFacts(doc, |doc|);
    var r := Line(i, st[i - 1], if i < |st| then st[i] - 1 else |doc|);
    assert '\n' !in doc[r.from..r.to];
    r
  }

  /** `doc.lineAt(p)`: the line that contains offset `p` (a line's end offset belongs to it). */
  function LineAt(doc: string, p: nat): (r: Line)
    requires p <= |doc|
    ensures 1 <= r.number <= LineCount(doc)
    ensures r == LineByNumber(doc, r.number)
    ensures IsLine(doc, r) && r.from <= p <= r.to
  {
    StartsPrefix(doc, p, |doc|);
    StartsUpToFacts(doc, p);
    var k := |StartsUpTo(doc, p)|;
    assert LineStarts(doc)[k - 1] == StartsUpTo(doc, p)[k - 1];
    LineByNumber(doc, k)
  }

  /** Two whole lines that share an offset are the same range. */
  lemma {:induction false} LinesOverlapSame(doc: string, a: Line, b: Line, p: nat)
    requires IsLine(doc, a) && IsLine(doc, b)
    requires a.from <= p <= a.to && b.from <= p <= b.to
    ensures a.from == b.from && a.to == b.to
  {
  }

  /** A whole line is determined by any offset it contains: `lineAt` returns it. */
  lemma {:induction false} LineAtUnique(doc: string, p: nat, line: Line)
    requires IsLine(doc, line) && line.from <= p <= line.to
    ensures LineAt(doc, p).from == line.from && LineAt(doc, p).to == line.to
  {
    LinesOverlapSame(doc, LineAt(doc, p), line, p);
  }

  /** Later offsets lie on the same or later lines. */
  lemma {:induction false} LineAtMonotone(doc: string, p: nat, q: nat)
    requires p <= q <= |doc|
    ensures LineAt(doc, p).number <= LineAt(doc, q).number
  {
    StartsPrefix(doc, p, q);
  }

  /** The start of line `i` lies on line `i`. */
  lemma {:induction false} LineAtLineStart(doc: string, i: nat)
    requires 1 <= i <= LineCount(doc)
    ensures LineAt(doc, LineByNumber(doc, i).from).number == i
  {
    var line := LineByNumber(doc, i);
    LineAtUnique(doc, line.from, line);
    var r := LineAt(doc, line.from);
    var st := LineStarts(doc);
    StartsUpToFacts(doc, |doc|);
    assert st[r.number - 1] == st[i - 1];
  }
}
