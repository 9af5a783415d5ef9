/**
 * The file tree and its provider: the tree of entries addressed by path,
 * the pure insert / remove / rename recursions over it, and the provider's
 * three state cells (`files`, `selectedFile`, `contentMap`).
 */
module FileTreeContext {
  import opened Wrappers
  import opened Strings
  import opened Paths

  /**
   * An entry of the tree. `children` is an optional field: `NoChildren` is
   * the absent field, and `ChildList([])` a present but empty list (which
   * the code treats as present, since `[]` is truthy).
   */
  datatype FileEntry = FileEntry(name: string, path: string, isDirectory: bool, children: Children)
  datatype Children = NoChildren | ChildList(entries: seq<FileEntry>)

  /** `f.children || []` */
  function ChildrenOf(f: FileEntry): seq<FileEntry> {
    match f.children
    case NoChildren => []
    case ChildList(cs) => cs
  }

  /** The entries of a tree in pre-order: each entry, then everything below it, then its later siblings. */
  function Flatten(files: seq<FileEntry>): seq<FileEntry>
    decreases files
  {
    if files == [] then [] else [files[0]] + Below(files[0]) + Flatten(files[1..])
  }

  /** Everything below an entry, in pre-order. */
  function Below(f: FileEntry): seq<FileEntry>
    decreases f
  {
    match f.children
    case NoChildren => []
    case ChildList(cs) => Flatten(cs)
  }

  /** An entry is a member of the pre-order exactly when it is some top-level entry or below one. */
  lemma {:induction false} FlattenMembers(files: seq<FileEntry>, e: FileEntry)
    ensures e in Flatten(files) <==> exists i :: 0 <= i < |files| && (e == files[i] || e in Below(files[i]))
  {
    if files != [] {
      FlattenMembers(files[1..], e);
      if e in Flatten(files[1..]) {
        var i :| 0 <= i < |files[1..]| && (e == files[1..][i] || e in Below(files[1..][i]));
        assert files[i + 1] == files[1..][i];
      }
      forall i | 1 <= i < |files| && (e == files[i] || e in Below(files[i])) ensures e in Flatten(files[1..]) {
        assert files[i] == files[1..][i - 1];
      }
    }
  }

  /** No entry anywhere in the tree has this path. */
  ghost predicate PathAbsent(files: seq<FileEntry>, path: string) {
    forall e :: e in Flatten(files) ==> e.path != path
  }

  /** Some directory somewhere in the tree has this path. */
  ghost predicate HasDirectory(files: seq<FileEntry>, path: string) {
    exists e :: e in Flatten(files) && e.path == path && e.isDirectory
  }

  /** The parts of an entry other than its children. */
  predicate SameHead(a: FileEntry, b: FileEntry) {
    a.name == b.name && a.path == b.path && a.isDirectory == b.isDirectory
  }

  predicate IsRootPath(p: string) {
    p == "" || p == "/"
  }

  // ---------------------------------------------------------------------------
  // insertEntry
  // ---------------------------------------------------------------------------

  /**
   * `insertEntry`: at the root (`""` or `"/"`) the entry goes at the end of
   * the top level; otherwise it is appended to the children of every
   * directory whose path is `parentPath`, at any depth.
   */
  function InsertEntry(files: seq<FileEntry>, parentPath: string, entry: FileEntry): (r: seq<FileEntry>)
    ensures IsRootPath(parentPath) ==> r == files + [entry]
    ensures !IsRootPath(parentPath) ==> |r| == |files| && forall i :: 0 <= i < |r| ==> SameHead(r[i], files[i])
    ensures !IsRootPath(parentPath) ==> forall i :: 0 <= i < |r| && files[i].path == parentPath && files[i].isDirectory ==>
              r[i].children == ChildList(ChildrenOf(files[i]) + [entry])
    decreases files, 1
  {
    if IsRootPath(parentPath) then files + [entry] else InsertEach(files, parentPath, entry)
  }

  /** `files.map(...)` of `insertEntry`, for a parent path that is not the root. */
  function InsertEach(files: seq<FileEntry>, parentPath: string, entry: FileEntry): (r: seq<FileEntry>)
    requires !IsRootPath(parentPath)
    ensures |r| == |files| && forall i :: 0 <= i < |r| ==> r[i] == InsertInto(files[i], parentPath, entry)
    decreases files, 0
  {
    if files == [] then [] else [InsertInto(files[0], parentPath, entry)] + InsertEach(files[1..], parentPath, entry)
  }

  /** The callback of that `map`: a matching directory takes the entry, any other entry with children recurses. */
  function InsertInto(f: FileEntry, parentPath: string, entry: FileEntry): (r: FileEntry)
    requires !IsRootPath(parentPath)
    ensures SameHead(r, f)
    ensures f.path == parentPath && f.isDirectory ==> r.children == ChildList(ChildrenOf(f) + [entry])
    ensures !(f.path == parentPath && f.isDirectory) && f.children.NoChildren? ==> r == f
    ensures !(f.path == parentPath && f.isDirectory) && f.children.ChildList? ==>
              r.children == ChildList(InsertEntry(f.children.entries, parentPath, entry))
    decreases f
  {
    if f.path == parentPath && f.isDirectory then f.(children := ChildList(ChildrenOf(f) + [entry]))
    else match f.children
      case NoChildren => f
      case ChildList(cs) => f.(children := ChildList(InsertEntry(cs, parentPath, entry)))
  }

  /** With no directory at `parentPath`, inserting below it changes nothing. */
  lemma {:induction false} InsertUnknownParent(files: seq<FileEntry>, parentPath: string, entry: FileEntry)
    requires !IsRootPath(parentPath) && !HasDirectory(files, parentPath)
    ensures InsertEntry(files, parentPath, entry) == files
    decreases files
  {
    if files != [] {
      var f := files[0];
      assert f in Flatten(files);
      assert Flatten(files) == [f] + Below(f) + Flatten(files[1..]);
      assert !HasDirectory(files[1..], parentPath);
      InsertUnknownParent(files[1..], parentPath, entry);
      if f.children.ChildList? {
        assert Below(f) == Flatten(f.children.entries);
        assert !HasDirectory(f.children.entries, parentPath);
        InsertUnknownParent(f.children.entries, parentPath, entry);
      }
      assert InsertInto(f, parentPath, entry) == f;
      assert InsertEach(files, parentPath, entry) == [f] + files[1..];
    }
  }

  /** With a directory at `parentPath` anywhere in the tree, the inserted entry is somewhere in the result. */
  lemma {:induction false} InsertReachesParent(files: seq<FileEntry>, parentPath: string, entry: FileEntry)
    requires !IsRootPath(parentPath) && HasDirectory(files, parentPath)
    ensures entry in Flatten(InsertEntry(files, parentPath, entry))
    decreases files
  {
    var e :| e in Flatten(files) && e.path == parentPath && e.isDirectory;
    var f, rest := files[0], files[1..];
    var r := InsertEntry(files, parentPath, entry);
    var g := InsertInto(f, parentPath, entry);
    assert r == [g] + InsertEntry(rest, parentPath, entry);
    assert Flatten(r) == [g] + Below(g) + Flatten(r[1..]) && r[1..] == InsertEntry(rest, parentPath, entry);
    if f.path == parentPath && f.isDirectory {
      var cs := ChildrenOf(f) + [entry];
      assert Below(g) == Flatten(cs);
      FlattenMembers(cs, entry);
      assert cs[|cs| - 1] == entry;
    } else if e in Below(f) {
      var cs := f.children.entries;
      assert Below(f) == Flatten(cs);
      InsertReachesParent(cs, parentPath, entry);
      assert Below(g) == Flatten(InsertEntry(cs, parentPath, entry));
    } else {
      assert e in Flatten(rest);
      InsertReachesParent(rest, parentPath, entry);
    }
  }

  // ---------------------------------------------------------------------------
  // removeEntry
  // ---------------------------------------------------------------------------

  /** `removeEntry`: drops every entry with this path, with everything below it, at any depth. */
  function RemoveEntry(files: seq<FileEntry>, path: string): seq<FileEntry>
    decreases files
  {
    if files == [] then []
    else (if files[0].path == path then [] else [Pruned(files[0], path)]) + RemoveEntry(files[1..], path)
  }

  /** The `map` callback of `removeEntry`: an entry with children keeps them with the path removed. */
  function Pruned(f: FileEntry, path: string): (r: FileEntry)
    ensures SameHead(r, f) && r.children.ChildList? == f.children.ChildList?
    decreases f
  {
    match f.children
    case NoChildren => f
    case ChildList(cs) => f.(children := ChildList(RemoveEntry(cs, path)))
  }

  /** After removal, no entry anywhere has the removed path. */
  lemma {:induction false} RemoveNoneLeft(files: seq<FileEntry>, path: string)
    ensures PathAbsent(RemoveEntry(files, path), path)
    decreases files
  {
    if files != [] {
      var f, rest := files[0], RemoveEntry(files[1..], path);
      RemoveNoneLeft(files[1..], path);
      if f.path != path {
        var g := Pruned(f, path);
        if f.children.ChildList? {
          RemoveNoneLeft(f.children.entries, path);
          assert Below(g) == Flatten(RemoveEntry(f.children.entries, path));
        }
        assert forall e :: e in Below(g) ==> e.path != path;
        assert RemoveEntry(files, path) == [g] + rest;
        assert Flatten([g] + rest) == [g] + Below(g) + Flatten(rest) by {
          assert ([g] + rest)[1..] == rest;
        }
      } else {
        assert RemoveEntry(files, path) == rest;
      }
    }
  }

  /** Removing a path that occurs nowhere leaves the tree as it is. */
  lemma {:induction false} RemoveAbsent(files: seq<FileEntry>, path: string)
    requires PathAbsent(files, path)
    ensures RemoveEntry(files, path) == files
    decreases files
  {
    if files != [] {
      var f := files[0];
      assert f in Flatten(files);
      assert Flatten(files) == [f] + Below(f) + Flatten(files[1..]);
      RemoveAbsent(files[1..], path);
      if f.children.ChildList? {
        assert Below(f) == Flatten(f.children.entries);
        RemoveAbsent(f.children.entries, path);
      }
      assert Pruned(f, path) == f;
      assert RemoveEntry(files, path) == [f] + files[1..];
    }
  }

  /** Removing twice is removing once. */
  lemma {:induction false} RemoveIdempotent(files: seq<FileEntry>, path: string)
    ensures RemoveEntry(RemoveEntry(files, path), path) == RemoveEntry(files, path)
  {
    RemoveNoneLeft(files, path);
    RemoveAbsent(RemoveEntry(files, path), path);
  }

  /** The top-level entries that stay, in their original order: each is an input entry whose path differs. */
  function KeptHeads(files: seq<FileEntry>, path: string): seq<FileEntry> {
    if files == [] then []
    else (if files[0].path == path then [] else [files[0]]) + KeptHeads(files[1..], path)
  }

  /** The top level of the result is exactly the input's other entries, in order (children pruned). */
  lemma {:induction false} RemoveKeepsOthers(files: seq<FileEntry>, path: string)
    ensures var r, k := RemoveEntry(files, path), KeptHeads(files, path);
            |r| == |k| && (forall i :: 0 <= i < |r| ==> r[i] == Pruned(k[i], path) && r[i].path != path)
    decreases files
  {
    if files != [] {
      RemoveKeepsOthers(files[1..], path);
    }
  }

  // ---------------------------------------------------------------------------
  // renameInTree
  // ---------------------------------------------------------------------------

  /** `path.replace(/\/[^/]+$/, "") + "/" + newName`: the renamed entry's new path. */
  function RenamedPath(path: string, newName: string): (r: string)
    ensures r == Join(StripLastSegment(path), newName)
  {
    StripLastSegment(path) + "/" + newName
  }

  /** Renaming the last segment of `parent/oldName` gives `parent/newName`. */
  lemma {:induction false} RenamedPathSibling(parent: string, oldName: string, newName: string)
    requires oldName != [] && '/' !in oldName
    ensures RenamedPath(Join(parent, oldName), newName) == Join(parent, newName)
  {
    StripJoin(parent, oldName);
  }

  /**
   * `renameInTree`: every entry with this path gets the new name and the
   * new path; its children are left as they were, and the recursion goes
   * only into entries that do not match.
   */
  function RenameInTree(files: seq<FileEntry>, path: string, newName: string): (r: seq<FileEntry>)
    ensures |r| == |files|
    ensures forall i :: 0 <= i < |r| && files[i].path == path ==>
              r[i] == files[i].(name := newName, path := RenamedPath(path, newName))
    ensures forall i :: 0 <= i < |r| && files[i].path != path ==>
              SameHead(r[i], files[i]) && r[i].children.ChildList? == files[i].children.ChildList?
    decreases files
  {
    if files == [] then [] else [Renamed(files[0], path, newName)] + RenameInTree(files[1..], path, newName)
  }

  /** The `map` callback of `renameInTree`. */
  function Renamed(f: FileEntry, path: string, newName: string): (r: FileEntry)
    ensures f.path == path ==> r == f.(name := newName, path := RenamedPath(path, newName))
    ensures f.path != path && f.children.NoChildren? ==> r == f
    ensures f.path != path && f.children.ChildList? ==>
              r == f.(children := ChildList(RenameInTree(f.children.entries, path, newName)))
    decreases f
  {
    if f.path == path then f.(name := newName, path := RenamedPath(path, newName))
    else match f.children
      case NoChildren => f
      case ChildList(cs) => f.(children := ChildList(RenameInTree(cs, path, newName)))
  }

  /**
   * An entry with the path anywhere in the tree means the result holds an
   * entry with the new name at the new path: the match itself, or the
   * matching entry above it whose subtree the recursion does not enter.
   */
  lemma {:induction false} RenameReachesMatch(files: seq<FileEntry>, path: string, newName: string, e: FileEntry)
    requires e in Flatten(files) && e.path == path
    ensures exists e' :: e' in Flatten(RenameInTree(files, path, newName)) &&
              e'.name == newName && e'.path == RenamedPath(path, newName)
    decreases files
  {
    var f, rest := files[0], files[1..];
    var r := RenameInTree(files, path, newName);
    var g := Renamed(f, path, newName);
    assert r == [g] + RenameInTree(rest, path, newName);
    assert Flatten(r) == [g] + Below(g) + Flatten(r[1..]) && r[1..] == RenameInTree(rest, path, newName);
    if f.path == path {
      assert g in Flatten(r);
    } else if e in Below(f) {
      var cs := f.children.entries;
      assert Below(f) == Flatten(cs);
      RenameReachesMatch(cs, path, newName, e);
      assert Below(g) == Flatten(RenameInTree(cs, path, newName));
    } else {
      assert e in Flatten(rest);
      RenameReachesMatch(rest, path, newName, e);
    }
  }

  /** Renaming a path that occurs nowhere leaves the tree as it is. */
  lemma {:induction false} RenameAbsent(files: seq<FileEntry>, path: string, newName: string)
    requires PathAbsent(files, path)
    ensures RenameInTree(files, path, newName) == files
    decreases files
  {
    if files != [] {
      var f := files[0];
      assert f in Flatten(files);
      assert Flatten(files) == [f] + Below(f) + Flatten(files[1..]);
      RenameAbsent(files[1..], path, newName);
      if f.children.ChildList? {
        assert Below(f) == Flatten(f.children.entries);
        RenameAbsent(f.children.entries, path, newName);
      }
      assert Renamed(f, path, newName) == f;
      assert RenameInTree(files, path, newName) == [f] + files[1..];
    }
  }

  // ---------------------------------------------------------------------------
  // Names, paths and content of new files
  // ---------------------------------------------------------------------------

  /** `createFile`'s file name: `.md` is appended unless the name already ends with it. */
  function SafeName(name: string): (r: string)
    ensures EndsWith(r, ".md")
    ensures EndsWith(name, ".md") ==> r == name
    ensures !EndsWith(name, ".md") ==> r == name + ".md"
  {
    if EndsWith(name, ".md") then name
    else
      var r := name + ".md";
      assert r[|r| - 3..] == ".md";
      r
  }

  /** The path of a new entry: `"/" + name` at the root, `parentPath + "/" + name` otherwise. */
  function FullPath(parentPath: string, name: string): (r: string)
    ensures r == Join(if IsRootPath(parentPath) then "" else parentPath, name)
  {
    if IsRootPath(parentPath) then "/" + name else parentPath + "/" + name
  }

  /** A new entry's path lies directly below its parent: stripping its last segment gives the parent back. */
  lemma {:induction false} FullPathParent(parentPath: string, name: string)
    requires name != [] && '/' !in name
    ensures StripLastSegment(FullPath(parentPath, name)) == if IsRootPath(parentPath) then "" else parentPath
  {
    StripJoin(if IsRootPath(parentPath) then "" else parentPath, name);
  }

  /** A new file's content: a level-1 heading with the name, its first `.md` removed, then a blank line. */
  function InitialContent(name: string): (r: string)
    ensures StartsWith(r, "# ") && EndsWith(r, "\n\n")
    ensures IndexOf(name, ".md", 0).None? ==> r == "# " + name + "\n\n"
    ensures forall k :: IndexOf(name, ".md", 0) == Some(k) ==> r == "# " + name[..k] + name[k + 3..] + "\n\n"
  {
    var r := "# " + ReplaceFirst(name, ".md", "") + "\n\n";
    assert r[..2] == "# " && r[|r| - 2..] == "\n\n";
    r
  }

  /** Creating `Note` and creating `Note.md` start the file with the same heading. */
  lemma {:induction false} InitialContentSameTitle(base: string)
    requires IndexOf(base, ".md", 0).None?
    ensures InitialContent(base + ".md") == InitialContent(base) == "# " + base + "\n\n"
  {
    var name := base + ".md";
    assert OccursAt(name, ".md", |base|) by {
      assert name[|base|..|base| + 3] == ".md";
    }
    IndexOfFirstAfter(base);
    assert ReplaceFirst(name, ".md", "") == base by {
      assert name[..|base|] == base;
    }
  }

  /** In `base + ".md"`, with `.md` nowhere in `base`, the first `.md` is the appended one. */
  lemma {:induction false} IndexOfFirstAfter(base: string)
    requires IndexOf(base, ".md", 0).None?
    ensures IndexOf(base + ".md", ".md", 0) == Some(|base|)
  {
    var s := base + ".md";
    assert OccursAt(s, ".md", |base|) by {
      assert s[|base|..|base| + 3] == ".md";
    }
    forall k: nat | k < |base| ensures !OccursAt(s, ".md", k) {
      assert k + 3 <= |base| ==> !OccursAt(base, ".md", k);
      NoEarlyMd(base, k);
    }
    IndexOfFirst(s, ".md", 0, |base|);
  }

  /** Appending `.md` creates no occurrence that starts inside `base` where there was none. */
  lemma {:induction false} NoEarlyMd(base: string, k: nat)
    requires k < |base| && (k + 3 <= |base| ==> !OccursAt(base, ".md", k))
    ensures !OccursAt(base + ".md", ".md", k)
  {
    var s := base + ".md";
    if k + 3 <= |base| {
      assert s[..|base|] == base;
      assert s[k..k + 3] == s[..|base|][k..k + 3];
    } else if k == |base| - 1 {
      assert s[k + 1] == '.';
      assert s[k..k + 3][1] != ".md"[1];
    } else {
      assert s[k + 2] == '.';
      assert s[k..k + 3][2] != ".md"[2];
    }
  }

  /** Moving a key: the content at `from`, if any, now sits at `to` and `from` is gone. */
  function MoveContent(m: map<string, string>, from: string, to: string): (r: map<string, string>)
    ensures from !in m ==> r == m
    ensures from in m ==> from !in r
    ensures from in m && from != to ==> to in r && r[to] == m[from]
    ensures forall k :: k != from && k != to ==> (k in r <==> k in m) && (k in m ==> r[k] == m[k])
  {
    if from in m then m[to := m[from]] - {from} else m
  }

  /** Renaming an entry to the path it already has loses its content. */
  lemma {:induction false} RenameToSamePathDropsContent(m: map<string, string>, path: string)
    requires path in m
    ensures path !in MoveContent(m, path, path)
  {
  }

  // ---------------------------------------------------------------------------
  // The provider
  // ---------------------------------------------------------------------------

  /** The provider's state cells and the callbacks that update them. */
  class FileTreeStore {
    var files: seq<FileEntry>
    var selectedFile: Option<string>
    var contentMap: map<string, string>

    constructor(files: seq<FileEntry>, contentMap: map<string, string>)
      ensures this.files == files && selectedFile == None && this.contentMap == contentMap
    {
      this.files := files;
      selectedFile := None;
      this.contentMap := contentMap;
    }

    /**
     * `fileContent`: the selected file's content; `""` when nothing is
     * selected, when the selected path is the empty (falsy) string, or when
     * it has no content.
     */
    function FileContent(): (r: string)
      reads this
      ensures selectedFile.None? || selectedFile == Some("") ==> r == ""
      ensures selectedFile.Some? && selectedFile.value !in contentMap ==> r == ""
      ensures selectedFile.Some? && selectedFile.value != "" && selectedFile.value in contentMap ==>
                r == contentMap[selectedFile.value]
    {
      match selectedFile
      case None => ""
      case Some(p) => if p != "" && p in contentMap then contentMap[p] else ""
    }

    method SetSelectedFile(path: Option<string>)
      modifies this
      ensures selectedFile == path && files == old(files) && contentMap == old(contentMap)
    {
      selectedFile := path;
    }

    /** `createFile`: inserts a file entry, gives it its initial content and selects it. */
    method CreateFile(parentPath: string, name: string)
      modifies this
      ensures var safeName := SafeName(name);
              var fullPath := FullPath(parentPath, safeName);
              && files == InsertEntry(old(files), parentPath, FileEntry(safeName, fullPath, false, NoChildren))
              && contentMap == old(contentMap)[fullPath := InitialContent(name)]
              && selectedFile == Some(fullPath)
    {
      var safeName := SafeName(name);
      var fullPath := FullPath(parentPath, safeName);
      var entry := FileEntry(safeName, fullPath, false, NoChildren);
      files := InsertEntry(files, parentPath, entry);
      contentMap := contentMap[fullPath := InitialContent(name)];
      selectedFile := Some(fullPath);
    }

    /** `createFolder`: inserts a directory entry with an empty child list; content and selection stay. */
    method CreateFolder(parentPath: string, name: string)
      modifies this
      ensures files == InsertEntry(old(files), parentPath, FileEntry(name, FullPath(parentPath, name), true, ChildList([])))
      ensures contentMap == old(contentMap) && selectedFile == old(selectedFile)
    {
      var entry := FileEntry(name, FullPath(parentPath, name), true, ChildList([]));
      files := InsertEntry(files, parentPath, entry);
    }

    /** `deleteEntry`: removes the path from the tree and clears the selection only if it is exactly that path. */
    method DeleteEntry(path: string)
      modifies this
      ensures files == RemoveEntry(old(files), path)
      ensures selectedFile == if old(selectedFile) == Some(path) then None else old(selectedFile)
      ensures contentMap == old(contentMap)
    {
      files := RemoveEntry(files, path);
      if selectedFile == Some(path) {
        selectedFile := None;
      }
    }

    /** `renameEntry`: renames in the tree and moves the content key, when there is content. */
    method RenameEntry(path: string, newName: string)
      modifies this
      ensures files == RenameInTree(old(files), path, newName)
      ensures contentMap == MoveContent(old(contentMap), path, RenamedPath(path, newName))
      ensures selectedFile == old(selectedFile)
    {
      files := RenameInTree(files, path, newName);
      if path in contentMap {
        var content := contentMap[path];
        var newPath := RenamedPath(path, newName);
        var next := contentMap[newPath := content];
        contentMap := next - {path};
      }
    }

    /** `updateFileContent`: sets that one key. */
    method UpdateFileContent(path: string, content: string)
      modifies this
      ensures contentMap == old(contentMap)[path := content]
      ensures files == old(files) && selectedFile == old(selectedFile)
    {
      contentMap := contentMap[path := content];
    }
  }
}
