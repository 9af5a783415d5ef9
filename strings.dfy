/**
 * The JavaScript string primitives the core relies on, over `seq<char>`.
 * One `char` stands for one UTF-16 code unit of the JavaScript string.
 */
module Strings {

  import opened Wrappers

  /** `s.startsWith(p)` */
  predicate StartsWith(s: string, p: string) {
    |p| <= |s| && s[..|p|] == p
  }

  /** `s.endsWith(p)` */
  predicate EndsWith(s: string, p: string) {
    |p| <= |s| && s[|s| - |p|..] == p
  }

  /**
   * The characters JavaScript's regular-expression class `\s` matches: the
   * ECMAScript WhiteSpace and LineTerminator code points.
   */
  predicate IsSpace(c: char) {
    c == '\t' || c == '\n' || c == '\U{000B}' || c == '\U{000C}' || c == '\r' || c == ' '
    || c == '\U{00A0}' || c == '\U{1680}' || ('\U{2000}' <= c <= '\U{200A}')
    || c == '\U{2028}' || c == '\U{2029}' || c == '\U{202F}' || c == '\U{205F}'
    || c == '\U{3000}' || c == '\U{FEFF}'
  }

  /** `p` occurs in `s` at position `k`. */
  predicate OccursAt(s: string, p: string, k: nat) {
    k + |p| <= |s| && s[k..k + |p|] == p
  }

  /** The index of the first occurrence of `p` in `s` at or after `from` (`s.indexOf(p, from)`). */
  function IndexOf(s: string, p: string, from: nat): (r: Option<nat>)
    decreases |s| - from
    ensures r.Some? ==> from <= r.value && OccursAt(s, p, r.value)
    ensures r.Some? ==> forall k :: from <= k < r.value ==> !OccursAt(s, p, k)
    ensures r.None? ==> forall k :: from <= k ==> !OccursAt(s, p, k)
  {
    if from + |p| > |s| then None
    else if OccursAt(s, p, from) then Some(from)
    else IndexOf(s, p, from + 1)
  }

  /** The first occurrence at or after `from` is the one `IndexOf` finds. */
  lemma {:induction false} IndexOfFirst(s: string, p: string, from: nat, j: nat)
    requires from <= j && OccursAt(s, p, j)
    requires forall k :: from <= k < j ==> !OccursAt(s, p, k)
    ensures IndexOf(s, p, from) == Some(j)
    decreases j - from
  {
    if from < j {
      IndexOfFirst(s, p, from + 1, j);
    }
  }

  /**
   * `s.replace(p, q)` with a string pattern: only the FIRST occurrence of `p`
   * is replaced, wherever it stands; without an occurrence `s` is returned.
   */
  function ReplaceFirst(s: string, p: string, q: string): (r: string)
    ensures IndexOf(s, p, 0).None? ==> r == s
    ensures IndexOf(s, p, 0).Some? ==>
              var k := IndexOf(s, p, 0).value; r == s[..k] + q + s[k + |p|..]
  {
    match IndexOf(s, p, 0)
    case None => s
    case Some(k) => s[..k] + q + s[k + |p|..]
  }

  /** The position of the last `c` in `s`, if any. */
  function LastIndexOf(s: string, c: char): (r: Option<nat>)
    ensures r.Some? ==> r.value < |s| && s[r.value] == c && c !in s[r.value + 1..]
    ensures r.None? <==> c !in s
  {
    if s == [] then None
    else if s[|s| - 1] == c then Some(|s| - 1)
    else
      var r := LastIndexOf(s[..|s| - 1], c);
      assert s == s[..|s| - 1] + [s[|s| - 1]];
      r
  }

  /** A slice of a slice is a slice of the original. */
  lemma {:induction false} SliceOfSlice(s: string, a: nat, b: nat, i: nat, j: nat)
    requires a <= b <= |s| && i <= j <= b - a
    ensures s[a..b][i..j] == s[a + i..a + j]
  {
    assert |s[a..b][i..j]| == |s[a + i..a + j]|;
    forall k | 0 <= k < j - i ensures s[a..b][i..j][k] == s[a + i..a + j][k] {
    }
  }
}
