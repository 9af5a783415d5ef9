/** String rules on `/`-separated paths shared by the file tree and the sidebar. */
module Paths {
  import opened Wrappers
  import opened Strings

  /**
   * `p.replace(/\/[^/]+$/, "")`: drops a final `/` followed by one or more
   * non-`/` characters. The only place that pattern can match is the last
   * `/`, and only when something follows it.
   */
  function StripLastSegment(p: string): (r: string)
    ensures |r| <= |p| && r == p[..|r|]
    ensures r == p <==> ('/' !in p || p[|p| - 1] == '/')
    ensures r != p ==> |r| + 1 < |p| && p[|r|] == '/' && '/' !in p[|r| + 1..]
  {
    match LastIndexOf(p, '/')
    case None => p
    case Some(i) =>
      if i + 1 < |p| then
        assert p[i + 1..][|p| - i - 2] == p[|p| - 1];
        p[..i]
      else p
  }

  /** The length of the run of non-`/` characters starting at `i`. */
  function NonSlashRun(s: string, i: nat): (n: nat)
    requires i <= |s|
    ensures i + n <= |s| && '/' !in s[i..i + n]
    ensures i + n == |s| || s[i + n] == '/'
    decreases |s| - i
  {
    if i == |s| || s[i] == '/' then 0
    else
      var n := NonSlashRun(s, i + 1);
      assert s[i..i + 1 + n] == [s[i]] + s[i + 1..i + 1 + n];
      1 + n
  }

  /** The path formed from a parent directory and a name: `parent + "/" + name`. */
  function Join(parent: string, name: string): (r: string)
    ensures |r| == |parent| + 1 + |name| && r[..|parent|] == parent && r[|parent|] == '/' && r[|parent| + 1..] == name
  {
    var r := parent + "/" + name;
    assert r[..|parent|] == parent && r[|parent| + 1..] == name;
    r
  }

  /** Stripping the last segment of a joined path gives back the parent, when the name is a single non-empty segment. */
  lemma {:induction false} StripJoin(parent: string, name: string)
    requires name != [] && '/' !in name
    ensures StripLastSegment(Join(parent, name)) == parent
  {
    var p := Join(parent, name);
    assert p[|parent| + 1..] == name;
    assert p[|p| - 1] == name[|name| - 1];
  }
}
