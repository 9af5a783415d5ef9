/**
 * The sidebar's file tree view: converting entries to tree nodes
 * (directories first, then by name), looking an entry up by path, and the
 * selection rule that ignores directories.
 */
module FileTree {
  import opened Wrappers
  import opened Strings
  import opened FileTreeContext
  import Sorting

  datatype Icon = Folder | FileText

  /** A `TreeNode`: `text` is its `label`; `NoNodes` is the absent `children` field. */
  datatype TreeNode = TreeNode(id: string, text: string, icon: Icon, children: NodeChildren)
  datatype NodeChildren = NoNodes | Nodes(nodes: seq<TreeNode>)

  // ---------------------------------------------------------------------------
  // The sort comparator
  // ---------------------------------------------------------------------------

  /**
   * The comparator of `toTreeNodes` as "`a` may go before `b`" (it returns
   * at most 0): a directory before a file, and within one kind the name
   * order. `nameLeq` stands for `a.name.localeCompare(b.name) <= 0`.
   */
  function EntryLeq(nameLeq: (string, string) -> bool, a: FileEntry, b: FileEntry): bool {
    if a.isDirectory && !b.isDirectory then true
    else if !a.isDirectory && b.isDirectory then false
    else nameLeq(a.name, b.name)
  }

  /** Directories first, then names: a total preorder whenever the name order is one. */
  lemma {:induction false} EntryLeqTotalPreorder(nameLeq: (string, string) -> bool)
    requires Sorting.TotalPreorder(nameLeq)
    ensures Sorting.TotalPreorder((a, b) => EntryLeq(nameLeq, a, b))
  {
    var leq := (a, b) => EntryLeq(nameLeq, a, b);
    forall a, b ensures leq(a, b) || leq(b, a) {
      assert nameLeq(a.name, b.name) || nameLeq(b.name, a.name);
    }
    forall a, b, c | leq(a, b) && leq(b, c) ensures leq(a, c) {
      if a.isDirectory == b.isDirectory == c.isDirectory {
        assert nameLeq(a.name, b.name) && nameLeq(b.name, c.name);
      }
    }
  }

  /** The copy of the entries `toTreeNodes` sorts. */
  function SortedEntries(entries: seq<FileEntry>, nameLeq: (string, string) -> bool): (r: seq<FileEntry>)
    ensures multiset(r) == multiset(entries)
  {
    Sorting.SortBy(entries, (a, b) => EntryLeq(nameLeq, a, b))
  }

  // ---------------------------------------------------------------------------
  // toTreeNodes
  // ---------------------------------------------------------------------------

  /** `name.replace(/\.md$/, "")`: a trailing `.md` is dropped. */
  function FileLabel(name: string): (r: string)
    ensures EndsWith(name, ".md") ==> r + ".md" == name
    ensures !EndsWith(name, ".md") ==> r == name
  {
    if EndsWith(name, ".md") then
      assert name == name[..|name| - 3] + name[|name| - 3..];
      name[..|name| - 3]
    else name
  }

  /** `toTreeNodes`: sorts a copy, then converts each entry. */
  function ToTreeNodes(entries: seq<FileEntry>, nameLeq: (string, string) -> bool): (r: seq<TreeNode>)
    ensures |r| == |entries|
    decreases entries, 2
  {
    var sorted := SortedEntries(entries, nameLeq);
    assert forall x :: x in sorted ==> x in entries by {
      forall x | x in sorted ensures x in entries {
        assert x in multiset(sorted);
      }
    }
    assert |sorted| == |multiset(sorted)|;
    ConvertAll(sorted, entries, nameLeq)
  }

  /** The `map` of `toTreeNodes` over the sorted copy; `within` bounds the entries for termination. */
  function ConvertAll(sorted: seq<FileEntry>, ghost within: seq<FileEntry>, nameLeq: (string, string) -> bool): (r: seq<TreeNode>)
    requires forall x :: x in sorted ==> x in within
    ensures |r| == |sorted| && forall i :: 0 <= i < |r| ==> r[i] == Convert(sorted[i], within, nameLeq)
    decreases within, 1, |sorted|
  {
    if sorted == [] then [] else [Convert(sorted[0], within, nameLeq)] + ConvertAll(sorted[1..], within, nameLeq)
  }

  /** The `map` callback: a node keyed by the path; only a directory with a `children` field gets child nodes. */
  function Convert(e: FileEntry, ghost within: seq<FileEntry>, nameLeq: (string, string) -> bool): (n: TreeNode)
    requires e in within
    ensures n.id == e.path && n.icon == (if e.isDirectory then Folder else FileText)
    ensures n.text == if e.isDirectory then e.name else FileLabel(e.name)
    ensures n.children.Nodes? <==> e.isDirectory && e.children.ChildList?
    ensures n.children.Nodes? ==> n.children.nodes == ToTreeNodes(e.children.entries, nameLeq)
    decreases within, 0
  {
    var text := if e.isDirectory then e.name else FileLabel(e.name);
    var icon := if e.isDirectory then Folder else FileText;
    if e.isDirectory && e.children.ChildList? then TreeNode(e.path, text, icon, Nodes(ToTreeNodes(e.children.entries, nameLeq)))
    else TreeNode(e.path, text, icon, NoNodes)
  }

  /** The node at each position is the conversion of the entry at that position of the sorted copy. */
  lemma {:induction false} ToTreeNodesPositions(entries: seq<FileEntry>, nameLeq: (string, string) -> bool)
    ensures var r, sorted := ToTreeNodes(entries, nameLeq), SortedEntries(entries, nameLeq);
            |r| == |sorted| &&
            forall i :: 0 <= i < |r| ==>
              && r[i].id == sorted[i].path
              && r[i].icon == (if sorted[i].isDirectory then Folder else FileText)
              && r[i].text == (if sorted[i].isDirectory then sorted[i].name else FileLabel(sorted[i].name))
              && (r[i].children.Nodes? <==> sorted[i].isDirectory && sorted[i].children.ChildList?)
              && (r[i].children.Nodes? ==> r[i].children.nodes == ToTreeNodes(sorted[i].children.entries, nameLeq))
  {
  }

  /** One node per entry: the node ids are the entry paths, rearranged. */
  lemma {:induction false} NodeIdsArePaths(entries: seq<FileEntry>, nameLeq: (string, string) -> bool)
    ensures multiset(Sorting.Map(ToTreeNodes(entries, nameLeq), (n: TreeNode) => n.id))
            == multiset(Sorting.Map(entries, (e: FileEntry) => e.path))
  {
    var r, sorted := ToTreeNodes(entries, nameLeq), SortedEntries(entries, nameLeq);
    ToTreeNodesPositions(entries, nameLeq);
    assert Sorting.Map(r, (n: TreeNode) => n.id) == Sorting.Map(sorted, (e: FileEntry) => e.path);
    Sorting.MapPermutation(sorted, entries, (e: FileEntry) => e.path);
  }

  /**
   * With `localeCompare` a total preorder: every folder node comes before
   * every file node, and nodes of one kind follow the name order.
   */
  lemma {:induction false} DirectoriesFirstThenNames(entries: seq<FileEntry>, nameLeq: (string, string) -> bool)
    requires Sorting.TotalPreorder(nameLeq)
    ensures var sorted := SortedEntries(entries, nameLeq);
            && (forall i, j :: 0 <= i < j < |sorted| && sorted[j].isDirectory ==> sorted[i].isDirectory)
            && (forall i, j :: 0 <= i < j < |sorted| && sorted[i].isDirectory == sorted[j].isDirectory ==>
                  nameLeq(sorted[i].name, sorted[j].name))
  {
    var leq := (a, b) => EntryLeq(nameLeq, a, b);
    EntryLeqTotalPreorder(nameLeq);
    Sorting.SortBySorted(entries, leq);
    var sorted := SortedEntries(entries, nameLeq);
    forall i, j | 0 <= i < j < |sorted| ensures EntryLeq(nameLeq, sorted[i], sorted[j]) {
      assert leq(sorted[i], sorted[j]);
    }
  }

  // ---------------------------------------------------------------------------
  // findEntry and handleSelect
  // ---------------------------------------------------------------------------

  /** `findEntry`: the loop returns the entry if it matches, else what its children yield, else moves on. */
  function FindEntry(entries: seq<FileEntry>, path: string): (r: Option<FileEntry>)
    ensures r.Some? ==> r.value.path == path
    decreases entries
  {
    if entries == [] then None
    else if entries[0].path == path then Some(entries[0])
    else match FindBelow(entries[0], path)
      case Some(found) => Some(found)
      case None => FindEntry(entries[1..], path)
  }

  function FindBelow(f: FileEntry, path: string): (r: Option<FileEntry>)
    ensures r.Some? ==> r.value.path == path
    decreases f
  {
    match f.children
    case NoChildren => None
    case ChildList(cs) => FindEntry(cs, path)
  }

  /** The first entry of a flat list with this path. */
  function FirstWithPath(s: seq<FileEntry>, path: string): (r: Option<FileEntry>)
    ensures r.None? <==> forall e :: e in s ==> e.path != path
    ensures r.Some? ==> r.value in s && r.value.path == path
  {
    if s == [] then None else if s[0].path == path then Some(s[0]) else FirstWithPath(s[1..], path)
  }

  lemma {:induction false} FirstWithPathAppend(a: seq<FileEntry>, b: seq<FileEntry>, path: string)
    ensures FirstWithPath(a + b, path) == if FirstWithPath(a, path).Some? then FirstWithPath(a, path) else FirstWithPath(b, path)
  {
    if a == [] {
      assert a + b == b;
    } else {
      assert (a + b)[0] == a[0] && (a + b)[1..] == a[1..] + b;
      FirstWithPathAppend(a[1..], b, path);
    }
  }

  /** `findEntry` finds the first entry with the path in pre-order: a parent before its descendants, earlier siblings first. */
  lemma {:induction false} FindEntryIsFirstInPreOrder(entries: seq<FileEntry>, path: string)
    ensures FindEntry(entries, path) == FirstWithPath(Flatten(entries), path)
    decreases entries
  {
    if entries != [] {
      var f := entries[0];
      FindEntryIsFirstInPreOrder(entries[1..], path);
      if f.children.ChildList? {
        FindEntryIsFirstInPreOrder(f.children.entries, path);
      }
      assert FindBelow(f, path) == FirstWithPath(Below(f), path);
      FirstWithPathAppend([f] + Below(f), Flatten(entries[1..]), path);
      FirstWithPathAppend([f], Below(f), path);
    }
  }

  /** `handleSelect`'s test: select unless the entry found at the id is a directory. */
  function ShouldSelect(files: seq<FileEntry>, id: string): bool {
    var found := FindEntry(files, id);
    !(found.Some? && found.value.isDirectory)
  }

  /** An id is selected exactly when no entry has it, or the first one in pre-order is not a directory. */
  lemma {:induction false} ShouldSelectRule(files: seq<FileEntry>, id: string)
    ensures ShouldSelect(files, id) <==>
              (forall e :: e in Flatten(files) ==> e.path != id)
              || !FirstWithPath(Flatten(files), id).value.isDirectory
  {
    FindEntryIsFirstInPreOrder(files, id);
  }

  /** `handleSelect`: sets the selection to the id, except for directories. */
  method HandleSelect(store: FileTreeStore, id: string)
    modifies store
    ensures store.selectedFile == if ShouldSelect(old(store.files), id) then Some(id) else old(store.selectedFile)
    ensures store.files == old(store.files) && store.contentMap == old(store.contentMap)
  {
    var found := FindEntry(store.files, id);
    var isDir := found.Some? && found.value.isDirectory;
    if !isDir {
      store.SetSelectedFile(Some(id));
    }
  }
}
