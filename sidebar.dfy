/** How the sidebar splits the vault path into the folder name and the parent shown above it. */
module AppSidebar {
  import opened Wrappers
  import opened Strings
  import opened Paths

  /**
   * `folderName`: the text after the last `/` (the whole path when there is
   * none, `""` when the path ends in `/`), and `""` for an empty vault path.
   */
  function FolderName(vaultPath: string): (r: string)
    ensures '/' !in r
    ensures vaultPath == "" ==> r == ""
    ensures '/' !in vaultPath ==> r == vaultPath
    ensures '/' in vaultPath ==> |r| < |vaultPath| && vaultPath[|vaultPath| - |r| - 1] == '/'
                                 && vaultPath[|vaultPath| - |r|..] == r
  {
    if vaultPath == "" then ""
    else
      match LastIndexOf(vaultPath, '/')
      case None => vaultPath
      case Some(i) => vaultPath[i + 1..]
  }

  /** The `/Users/` prefix the sidebar abbreviates. */
  const UsersPrefix: string := "/Users/"

  /**
   * `s.replace(/^\/Users\/[^/]+/, "~")`: a leading `/Users/<name>`, with
   * `<name>` the longest non-empty run of non-`/` characters, becomes `~`;
   * anything else is left as it is.
   */
  function HomeAbbreviated(s: string): (r: string)
    ensures StartsWith(s, UsersPrefix) && |s| > 7 && s[7] != '/' ==>
              // the name is s[7..|s| - |r| + 1]
              && 1 <= |r| && |r| + 6 < |s| && r == "~" + s[|s| - |r| + 1..]
              && '/' !in s[7..|s| - |r| + 1] && (|r| == 1 || r[1] == '/')
    ensures !(StartsWith(s, UsersPrefix) && |s| > 7 && s[7] != '/') ==> r == s
  {
    if StartsWith(s, UsersPrefix) && |s| > 7 && s[7] != '/' then
      var n := NonSlashRun(s, 7);
      assert s[7..7 + n][0] == s[7];
      "~" + s[7 + n..]
    else s
  }

  /** `parentPath`: the vault path without its last segment, with the home directory shown as `~`. */
  function ParentPath(vaultPath: string): (r: string)
    ensures vaultPath == "" ==> r == ""
  {
    if vaultPath == "" then "" else HomeAbbreviated(StripLastSegment(vaultPath))
  }

  /**
   * Shown together as `parentPath + "/" + folderName`, the two parts give the
   * vault path back when it ends in a `/segment` and is not under `/Users/`.
   */
  lemma {:induction false} DisplayRoundTrip(vaultPath: string)
    requires '/' in vaultPath && vaultPath[|vaultPath| - 1] != '/'
    requires !StartsWith(vaultPath, UsersPrefix)
    ensures ParentPath(vaultPath) + "/" + FolderName(vaultPath) == vaultPath
  {
    var i := LastIndexOf(vaultPath, '/').value;
    assert i + 1 < |vaultPath|;
    var parent, name := vaultPath[..i], vaultPath[i + 1..];
    assert StripLastSegment(vaultPath) == parent;
    assert FolderName(vaultPath) == name;
    if |parent| >= |UsersPrefix| {
      assert vaultPath[..|UsersPrefix|] == parent[..|UsersPrefix|];
    }
    assert ParentPath(vaultPath) == parent;
    assert vaultPath == parent + [vaultPath[i]] + name;
  }
}
