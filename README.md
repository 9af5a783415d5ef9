# Seance core in Dafny

This project models the logic at the heart of the Seance markdown note editor:

- **Live decorations.** The editor's live-decoration builder turns the nodes of the markdown syntax tree into style marks and line decorations. The nodes are given as `(name, from, to)` spans. The view plugin around the builder decides when to rebuild.
- **File tree context.** The provider holds the file tree and performs the pure insert, remove and rename recursions over it. It also keeps the selected file and the content of every file, keyed by path.
- **Sidebar file tree.** The file tree view converts entries into tree nodes (directories first, then by name), looks an entry up by path, and refuses to select directories.
- **Editor toolbar.** The toolbar has three insertion helpers and the table that maps each button to one of them.
- **Vault path.** The sidebar splits the vault path into a folder name and the parent shown above it.
- **Keyboard shortcuts.** The global handler decides which action, if any, a keydown fires.
- **Settings.** The settings provider merges defaults, stored values and patches.

## Modules

- `wrappers.dfy` (`Wrappers`): the `Option` type.
- `strings.dfy` (`Strings`): the JavaScript string primitives used by the core: `startsWith`, `endsWith`, `indexOf`, `replace` with a string pattern, `lastIndexOf`, and the `\s` character class.
- `sorting.dfy` (`Sorting`): `Array.prototype.sort` with a comparator, as a stable insertion sort, and `map`.
- `text.dfy` (`EditorText`): the editor document as CodeMirror's `Text` presents it, through the line table behind `line(i)` and `lineAt(pos)`.
- `paths.dfy` (`Paths`): the `/\/[^/]+$/` strip shared by the file tree and the sidebar.
- `decorations.dfy` (`MarkdownDecorations`): the builder and the view plugin. The traversal, each node kind's branch, the blockquote line loop, the buffer sort and the final drain are methods. Each method is proved equal to a specification function (`SpanMarks`, `SpanLines`, `Decorations`), and the lemmas state what those functions promise.
- `filetree_context.dfy` (`FileTreeContext`): the tree recursions as functions, and the provider as the class `FileTreeStore` with the fields `files`, `selectedFile` and `contentMap`.
- `filetree.dfy` (`FileTree`): `toTreeNodes`, `findEntry` and `handleSelect`.
- `toolbar.dfy` (`EditorToolbar`): the helpers as state transformations and as methods of an `EditorView` class with `doc`, `selection` and `hasFocus` fields, plus the button table.
- `sidebar.dfy` (`AppSidebar`), `shortcuts.dfy` (`KeyboardShortcuts`), `settings.dfy` (`SettingsContext`).

## Behaviour worth knowing

- **Output order.** The code sorts only the buffered line decorations and adds them after every mark (`markdownDecorations.ts` lines 176-179). The model does the same. `MarksThenLines` states that shape, and no lemma claims the whole result is sorted.
- **Link pieces.** A link with an empty url gets four marks instead of five, because the url piece is added only when it is non-empty (`markdownDecorations.ts` lines 150-152; `LinkPieces`, `LinkMarks`).
- **Blockquote loop.** The loop gathers the line decorations and quote marks of the quote's lines in order, then appends them to the builder and the buffer. The result is the same as adding them one by one.
- **Quirks modelled exactly as written:**
  - The heading marker length is measured on the line's text but counted from the node's `from`.
  - `createFile` removes the *first* `.md` anywhere in the name for the initial heading.
  - Renaming an entry to the path it already has deletes its content (`RenameToSamePathDropsContent`).
  - `renameInTree` gives a renamed directory a new path but leaves its children's paths as they were.
  - `fileContent` treats a selected path of `""` as no selection.
  - `saveSettings` swallows a failing `setItem`: the new settings still become the state, and storage keeps what it held (`UpdateSettings` with `writeOk` false).

## Model

| member | source | states |
|---|---|---|
| MarkdownDecorations.ClassNameInjective | src/components/editor/markdownDecorations.ts:15-30 | distinct decoration styles use distinct CSS classes |
| MarkdownDecorations.ClassName | src/components/editor/markdownDecorations.ts:15-30 | the CSS class of each decoration style |
| MarkdownDecorations.LeadingRun | src/components/editor/markdownDecorations.ts:57 | the length of the longest run of one character at the start of a text, as a greedy `#+` consumes |
| MarkdownDecorations.LeadingSpaces | src/components/editor/markdownDecorations.ts:129 | the length of the longest run of `\s` characters at the start of a text |
| MarkdownDecorations.HeadingMarkLength | src/components/editor/markdownDecorations.ts:57 | the matcher for `/^(#{1,3})\s/`, giving the group's length |
| MarkdownDecorations.QuotePrefixLength | src/components/editor/markdownDecorations.ts:129 | the matcher for `/^(\s*>)/`, giving the group's length |
| MarkdownDecorations.FirstFrom | src/components/editor/markdownDecorations.ts:140 | the first position at or after `i` holding `c`, or the end, with no `c` before it: where `[^\]]*` and `[^)]*` stop |
| MarkdownDecorations.LinkTextLength | src/components/editor/markdownDecorations.ts:140 | the matcher for `/^\[([^\]]*)\]\(([^)]*)\)$/`, giving the first group's length |
| MarkdownDecorations.HeadingMarkLengthSpec | src/components/editor/markdownDecorations.ts:57 | the matcher returns k exactly when `/^(#{1,3})\s/` matches with a group of length k, and nothing when no length matches |
| MarkdownDecorations.QuotePrefixLengthSpec | src/components/editor/markdownDecorations.ts:129 | the matcher returns k exactly when `/^(\s*>)/` matches with a group of length k, and nothing when it cannot match |
| MarkdownDecorations.LinkTextLengthSpec | src/components/editor/markdownDecorations.ts:140 | the matcher returns k exactly when the whole text has the shape `[` k non-`]` characters `](` non-`)` characters `)`, and nothing when it has no such shape |
| MarkdownDecorations.LinkShapeUnique | src/components/editor/markdownDecorations.ts:140 | a text has the link shape for at most one link-text length |
| MarkdownDecorations.HeadingTag | src/components/editor/markdownDecorations.ts:48-52 | a level exists exactly for the three heading names, and each name selects its own level style |
| MarkdownDecorations.HeadingMarks | src/components/editor/markdownDecorations.ts:54-70 | on a match of length k, a marker mark `[from, from+k)` comes first, then a level mark `[from+k, to)` only when `from+k+1 <= to`, with the two covering the node; without a match, one level mark over the whole node |
| MarkdownDecorations.EmphasisMarks | src/components/editor/markdownDecorations.ts:79-83 | three contiguous marks covering the node exactly when it is longer than two markers, with the marker-length ends and a non-empty inner mark; otherwise nothing |
| MarkdownDecorations.BoldMarker | src/components/editor/markdownDecorations.ts:76-77 | the bold marker has length 2, and it is `**` when the text starts with `**` |
| MarkdownDecorations.ItalicMarker | src/components/editor/markdownDecorations.ts:89-90 | the italic marker has length 1, and it is `*` when the text starts with `*` |
| MarkdownDecorations.DelimitedMarks | src/components/editor/markdownDecorations.ts:100-117 | marks exist exactly when the text starts and ends with the delimiter and is longer than the minimum; then there are three contiguous covering marks, and the outer two lie over the delimiter text |
| MarkdownDecorations.LineQuoteMarkSpec | src/components/editor/markdownDecorations.ts:125-132 | a line gets a quote mark exactly when its text matches `/^\s*>/`; the mark starts at the line start, covers the whole prefix, stays inside the line and ends on the `>` |
| MarkdownDecorations.LineQuoteMark | src/components/editor/markdownDecorations.ts:125-132 | the quote mark of line `i`, if its text matches |
| MarkdownDecorations.QuoteMarks | src/components/editor/markdownDecorations.ts:124-133 | the quote marks of the lines `first` up to before `end`, in line order |
| MarkdownDecorations.QuoteLines | src/components/editor/markdownDecorations.ts:124-126 | one buffered entry per line from `first` up to before `end` |
| MarkdownDecorations.QuoteLinesAt | src/components/editor/markdownDecorations.ts:124-126 | the buffered blockquote entries are one per line, in order, each at that line's start |
| MarkdownDecorations.QuoteRange | src/components/editor/markdownDecorations.ts:122-123 | a blockquote covers the line numbers from the line of `from` to the line of `to`, at least one line and all within the document |
| MarkdownDecorations.LinkPieces | src/components/editor/markdownDecorations.ts:142-153 | four or five contiguous marks cover the link: `[`, the text, `](`, the url only when non-empty, then `)` |
| MarkdownDecorations.LinkMarks | src/components/editor/markdownDecorations.ts:137-155 | no marks for a node without the link shape; otherwise 4 marks (empty url) or 5, covering the node, over the texts `LinkPieceTexts` names |
| MarkdownDecorations.LinkPiecesText | src/components/editor/markdownDecorations.ts:139-153 | the pieces lie over `[`, a link text free of `]`, `](`, a url free of `)` and `)` |
| MarkdownDecorations.KindOf | src/components/editor/markdownDecorations.ts:44-172 | the branch of `enter` that a node name selects, with every other name ignored |
| MarkdownDecorations.SpanMarks | src/components/editor/markdownDecorations.ts:44-172 | the marks one node adds to the builder, by its kind |
| MarkdownDecorations.SpanLines | src/components/editor/markdownDecorations.ts:120-171 | the line decorations one node buffers: blockquotes and horizontal rules only |
| MarkdownDecorations.AllMarks | src/components/editor/markdownDecorations.ts:43-173 | the marks of every node, in traversal order |
| MarkdownDecorations.AllLines | src/components/editor/markdownDecorations.ts:43-173 | the buffered line decorations of every node, in traversal order |
| MarkdownDecorations.PosLeq | src/components/editor/markdownDecorations.ts:176 | the sort comparator `a.pos - b.pos <= 0` |
| MarkdownDecorations.AsLineDecos | src/components/editor/markdownDecorations.ts:177-179 | each buffered entry becomes a line decoration at its position with its style, in order |
| MarkdownDecorations.Decorations | src/components/editor/markdownDecorations.ts:36-182 | the builder's content: all marks, then the stably sorted line decorations |
| MarkdownDecorations.EnterHeading | src/components/editor/markdownDecorations.ts:48-71 | the heading branch appends exactly the heading marks |
| MarkdownDecorations.EnterEmphasis | src/components/editor/markdownDecorations.ts:73-97 | the bold and italic branches append exactly the emphasis marks |
| MarkdownDecorations.EnterDelimited | src/components/editor/markdownDecorations.ts:99-117 | the strikethrough and inline-code branches append exactly the delimited marks |
| MarkdownDecorations.QuoteStep | src/components/editor/markdownDecorations.ts:124-133 | one more line extends the quote marks and quote lines by that line's share |
| MarkdownDecorations.EnterQuoteLine | src/components/editor/markdownDecorations.ts:125-132 | one loop iteration extends the collected marks and lines from lines `first..i-1` to lines `first..i` |
| MarkdownDecorations.EnterQuoteLines | src/components/editor/markdownDecorations.ts:124-133 | the loop adds the quote marks and one line decoration for every line from `startLine` to `endLine` |
| MarkdownDecorations.EnterBlockquote | src/components/editor/markdownDecorations.ts:120-134 | the blockquote branch adds the quote marks and line decorations of the lines in the node's range |
| MarkdownDecorations.EnterLink | src/components/editor/markdownDecorations.ts:137-155 | the link branch appends exactly the link marks |
| MarkdownDecorations.Enter | src/components/editor/markdownDecorations.ts:44-172 | entering a node appends its marks to the builder and its line decorations to the buffer |
| MarkdownDecorations.WalkStep | src/components/editor/markdownDecorations.ts:43-173 | entering one more node extends both accumulators by that node's share |
| MarkdownDecorations.Walk | src/components/editor/markdownDecorations.ts:43-173 | after the walk the builder holds every node's marks in traversal order, and the buffer holds every node's line decorations |
| MarkdownDecorations.AddLineDecos | src/components/editor/markdownDecorations.ts:177-179 | the drain loop adds one line decoration per entry, in the entries' order, after the marks |
| MarkdownDecorations.BuildDecorations | src/components/editor/markdownDecorations.ts:36-182 | the builder's result is `Decorations`: all marks, then the sorted line decorations |
| MarkdownDecorations.PosLeqTotalPreorder | src/components/editor/markdownDecorations.ts:176 | the position comparator is a total preorder |
| MarkdownDecorations.MarksThenLines | src/components/editor/markdownDecorations.ts:175-179 | the result is every mark in traversal order, followed by nothing but the sorted line decorations |
| MarkdownDecorations.AsLineDecosAscending | src/components/editor/markdownDecorations.ts:176-179 | entries sorted by position become line decorations ascending by position |
| MarkdownDecorations.LineDecorationsAscending | src/components/editor/markdownDecorations.ts:176-179 | the line decorations at the end of the result ascend by position |
| MarkdownDecorations.LineDecorationsStable | src/components/editor/markdownDecorations.ts:176 | the sort is a permutation of the buffer and keeps entries at equal positions in buffer order |
| MarkdownDecorations.KindOfNames | src/components/editor/markdownDecorations.ts:48-168 | the node kind each tested node name selects |
| MarkdownDecorations.HeadingRule | src/components/editor/markdownDecorations.ts:48-71 | each heading name yields the heading marks of its level and no line decoration |
| MarkdownDecorations.EmphasisRule | src/components/editor/markdownDecorations.ts:74-97 | bold always uses marker length 2 and italic length 1, whichever marker character the node uses |
| MarkdownDecorations.DelimitedRule | src/components/editor/markdownDecorations.ts:100-117 | strikethrough uses `~~` with a minimum length of 4, inline code uses a backquote with a minimum of 2 |
| MarkdownDecorations.BlockquoteRule | src/components/editor/markdownDecorations.ts:120-134 | a blockquote yields the quote marks and line decorations of the lines from `lineAt(from)` to `lineAt(to)` |
| MarkdownDecorations.LinkRule | src/components/editor/markdownDecorations.ts:137-155 | a link node yields its link marks and no line decoration |
| MarkdownDecorations.MarkerRule | src/components/editor/markdownDecorations.ts:158-165 | a list mark and a task marker are one mark each over the whole node |
| MarkdownDecorations.HorizontalRuleRule | src/components/editor/markdownDecorations.ts:168-171 | a horizontal rule yields no mark and one line decoration at the start of the line holding `from` |
| MarkdownDecorations.UnknownNodeIgnored | src/components/editor/markdownDecorations.ts:44-172 | any other node name contributes nothing |
| MarkdownDecorations.DecorationsPlugin.constructor | src/components/editor/markdownDecorations.ts:192-194 | the plugin starts with the decorations of the initial view |
| MarkdownDecorations.DecorationsPlugin.Update | src/components/editor/markdownDecorations.ts:196-200 | the plugin rebuilds exactly when the document, the viewport or the selection changed, and otherwise keeps its decorations |
| EditorText.StartsUpToFacts | src/components/editor/markdownDecorations.ts:125 | the line table is ascending and holds exactly 0 and the offsets just after line breaks |
| EditorText.StartsPrefix | src/components/editor/markdownDecorations.ts:122-123 | the table of a prefix is a prefix of the table, and the later entries start after the prefix |
| EditorText.LineByNumber | src/components/editor/markdownDecorations.ts:125 | `line(i)` is a whole line numbered `i`, starting at the i-th table entry |
| EditorText.LineAt | src/components/editor/markdownDecorations.ts:55 | `lineAt(p)` is a whole line containing `p`, and it is `line(n)` for its number `n` |
| EditorText.LinesOverlapSame | src/components/editor/markdownDecorations.ts:55 | two whole lines sharing an offset are the same |
| EditorText.LineAtUnique | src/components/editor/EditorToolbar.tsx:53 | `lineAt(p)` is the one whole line containing `p` |
| EditorText.LineAtMonotone | src/components/editor/markdownDecorations.ts:122-123 | later offsets lie on the same line or later lines |
| EditorText.LineAtLineStart | src/components/editor/markdownDecorations.ts:124-125 | the start of line `i` lies on line `i` |
| Strings.IndexOf | src/context/FileTreeContext.tsx:226 | `indexOf` finds the first occurrence at or after `from`, or reports that there is none |
| Strings.IndexOfFirst | src/context/FileTreeContext.tsx:226 | an occurrence with none before it is the one `indexOf` finds |
| Strings.ReplaceFirst | src/context/FileTreeContext.tsx:226 | `replace` with a string pattern replaces only the first occurrence, and returns the text unchanged when there is none |
| Strings.LastIndexOf | src/components/sidebar/AppSidebar.tsx:37 | the last occurrence of a character, with none after it, or none at all exactly when the character is absent |
| Strings.SliceOfSlice | src/components/editor/markdownDecorations.ts:139-140 | a slice of a slice is a slice of the original |
| Strings.StartsWith | src/components/editor/markdownDecorations.ts:102 | `startsWith` |
| Strings.EndsWith | src/context/FileTreeContext.tsx:213 | `endsWith` |
| Strings.IsSpace | src/components/editor/markdownDecorations.ts:57 | the characters of the `\s` class |
| Sorting.Insert | src/components/sidebar/FileTree.tsx:14 | inserting adds exactly the one element |
| Sorting.SortBy | src/components/sidebar/FileTree.tsx:14-18 | the sort is a permutation of its input |
| Sorting.InsertSorted | src/components/sidebar/FileTree.tsx:14-18 | inserting into a sorted sequence under a total preorder keeps it sorted |
| Sorting.SortBySorted | src/components/sidebar/FileTree.tsx:14-18 | under a total preorder the sort's output is sorted |
| Sorting.InsertStable | src/components/editor/markdownDecorations.ts:176 | insertion places the new element after the elements it ties with |
| Sorting.SortByStable | src/components/editor/markdownDecorations.ts:176 | the sort keeps tied elements in their input order |
| Sorting.Map | src/components/sidebar/FileTree.tsx:20-34 | `map` applies the callback at every position |
| Sorting.MapPermutation | src/components/sidebar/FileTree.tsx:14-34 | mapping a rearrangement gives a rearrangement of the images |
| Paths.StripLastSegment | src/components/sidebar/AppSidebar.tsx:40 | the result is a prefix of the path; it is the whole path exactly when the path has no `/` or ends in `/`; otherwise it ends just before the last `/`, which has at least one character after it |
| Paths.NonSlashRun | src/components/sidebar/AppSidebar.tsx:41 | the longest run of non-`/` characters from `i` |
| Paths.Join | src/context/FileTreeContext.tsx:191 | `parent + "/" + name` cut back into its parts |
| Paths.StripJoin | src/context/FileTreeContext.tsx:190-191 | stripping the last segment of `parent/name` gives `parent` when `name` is one non-empty segment |
| FileTreeContext.FlattenMembers | src/components/sidebar/FileTree.tsx:69-81 | an entry is in the pre-order exactly when it is a top-level entry or lies below one |
| FileTreeContext.InsertEntry | src/context/FileTreeContext.tsx:151-170 | at the root, the entry is appended to the top level; elsewhere the top level keeps its entries, and each directory with the parent path gets the entry after its children (an absent list counts as empty) |
| FileTreeContext.InsertEach | src/context/FileTreeContext.tsx:161-169 | the `map` applies the callback to every top-level entry |
| FileTreeContext.InsertInto | src/context/FileTreeContext.tsx:162-168 | the callback keeps an entry's name, path and kind; a matching directory gets the entry after its children; any other entry with a child list gets the insert into that list; an entry without one is unchanged |
| FileTreeContext.InsertUnknownParent | src/context/FileTreeContext.tsx:161-169 | with no directory at the parent path anywhere, the tree is unchanged |
| FileTreeContext.InsertReachesParent | src/context/FileTreeContext.tsx:151-170 | with a directory at the parent path anywhere in the tree, the inserted entry is somewhere in the result |
| FileTreeContext.RemoveEntry | src/context/FileTreeContext.tsx:172-181 | the `filter` then `map` of `removeEntry`: entries with the path are dropped at every depth |
| FileTreeContext.Pruned | src/context/FileTreeContext.tsx:175-180 | the callback keeps an entry's name, path, kind and whether it has a child list |
| FileTreeContext.RemoveNoneLeft | src/context/FileTreeContext.tsx:172-181 | after removal no entry at any depth has the path |
| FileTreeContext.RemoveAbsent | src/context/FileTreeContext.tsx:172-181 | removing a path that occurs nowhere leaves the tree unchanged |
| FileTreeContext.RemoveIdempotent | src/context/FileTreeContext.tsx:172-181 | removing twice is removing once |
| FileTreeContext.KeptHeads | src/context/FileTreeContext.tsx:173 | the top-level entries the `filter` keeps, in order |
| FileTreeContext.RemoveKeepsOthers | src/context/FileTreeContext.tsx:173-180 | the top level keeps exactly the other entries, in order, with their children pruned |
| FileTreeContext.RenamedPath | src/context/FileTreeContext.tsx:190-191 | the new path is the old path's parent joined with the new name |
| FileTreeContext.RenamedPathSibling | src/context/FileTreeContext.tsx:190-191 | renaming `parent/old` gives `parent/new` |
| FileTreeContext.RenameInTree | src/context/FileTreeContext.tsx:183-199 | a matching entry gets the new name and path and keeps its children; other entries keep their name, path and kind |
| FileTreeContext.Renamed | src/context/FileTreeContext.tsx:189-197 | a matching entry gets the new name and path and keeps its children, an other entry with a child list gets the rename inside that list, and an entry without one is unchanged |
| FileTreeContext.RenameReachesMatch | src/context/FileTreeContext.tsx:183-199 | an entry with the path anywhere in the tree means the result holds an entry with the new name at the new path |
| FileTreeContext.RenameAbsent | src/context/FileTreeContext.tsx:183-199 | renaming a path that occurs nowhere leaves the tree unchanged |
| FileTreeContext.SafeName | src/context/FileTreeContext.tsx:213 | the file name ends in `.md`; it is appended only when missing |
| FileTreeContext.FullPath | src/context/FileTreeContext.tsx:214-217 | the path is `"/" + name` at the root (`""` or `"/"`), and `parent + "/" + name` otherwise |
| FileTreeContext.FullPathParent | src/context/FileTreeContext.tsx:214-217 | the new entry's path lies directly below its parent |
| FileTreeContext.InitialContent | src/context/FileTreeContext.tsx:226 | the content is `# `, the name with its first `.md` removed (the text before it and the text after it), and a blank line; a name without `.md` is kept whole |
| FileTreeContext.InitialContentSameTitle | src/context/FileTreeContext.tsx:213-226 | creating `Note` and creating `Note.md` give the same heading |
| FileTreeContext.IndexOfFirstAfter | src/context/FileTreeContext.tsx:226 | in `base + ".md"`, with `.md` nowhere in `base`, the first `.md` is the appended one |
| FileTreeContext.NoEarlyMd | src/context/FileTreeContext.tsx:226 | appending `.md` creates no earlier occurrence of `.md` |
| FileTreeContext.MoveContent | src/context/FileTreeContext.tsx:258-268 | with content at the old key, the content moves to the new key and the old key is gone; without it the map is unchanged; other keys keep their values |
| FileTreeContext.RenameToSamePathDropsContent | src/context/FileTreeContext.tsx:261-264 | renaming to the same path deletes the content |
| FileTreeContext.FileTreeStore.constructor | src/context/FileTreeContext.tsx:206-208 | the provider starts with the given files and contents and no selection |
| FileTreeContext.FileTreeStore.FileContent | src/context/FileTreeContext.tsx:210 | the selected file's content, or `""` when there is no selection, the selection is `""`, or the selected path has no content |
| FileTreeContext.FileTreeStore.SetSelectedFile | src/context/FileTreeContext.tsx:207 | only the selection changes |
| FileTreeContext.FileTreeStore.CreateFile | src/context/FileTreeContext.tsx:212-228 | the file entry is inserted, its initial content is stored under its path, and the new path is selected |
| FileTreeContext.FileTreeStore.CreateFolder | src/context/FileTreeContext.tsx:230-244 | a directory entry with an empty child list is inserted; contents and selection stay |
| FileTreeContext.FileTreeStore.DeleteEntry | src/context/FileTreeContext.tsx:246-254 | the path is removed from the tree, and the selection is cleared only when it is exactly that path |
| FileTreeContext.FileTreeStore.RenameEntry | src/context/FileTreeContext.tsx:256-269 | the tree is renamed and the content key is moved; the selection stays |
| FileTreeContext.FileTreeStore.UpdateFileContent | src/context/FileTreeContext.tsx:271-273 | only that one key of the content map changes |
| FileTree.EntryLeqTotalPreorder | src/components/sidebar/FileTree.tsx:14-18 | directories first, then names, is a total preorder whenever the name order is one |
| FileTree.EntryLeq | src/components/sidebar/FileTree.tsx:14-18 | the comparator: a directory before a file, and the name order within one kind |
| FileTree.SortedEntries | src/components/sidebar/FileTree.tsx:14-18 | the sorted copy is a permutation of the entries |
| FileTree.FileLabel | src/components/sidebar/FileTree.tsx:25 | a trailing `.md` is removed, and a name without one is unchanged |
| FileTree.ToTreeNodes | src/components/sidebar/FileTree.tsx:12-35 | one node per entry |
| FileTree.ConvertAll | src/components/sidebar/FileTree.tsx:20-34 | the `map` converts every sorted entry in place |
| FileTree.Convert | src/components/sidebar/FileTree.tsx:20-33 | a node's id is the path, its icon and label follow the kind (a file loses a trailing `.md`), and it has child nodes exactly when it is a directory with a child list |
| FileTree.ToTreeNodesPositions | src/components/sidebar/FileTree.tsx:20-34 | the node at each position is the conversion of the sorted entry at that position |
| FileTree.NodeIdsArePaths | src/components/sidebar/FileTree.tsx:14-34 | the node ids are the entry paths, rearranged |
| FileTree.DirectoriesFirstThenNames | src/components/sidebar/FileTree.tsx:14-18 | every directory comes before every file, and entries of one kind follow the name order |
| FileTree.FindEntry | src/components/sidebar/FileTree.tsx:69-81 | a found entry has the path |
| FileTree.FindBelow | src/components/sidebar/FileTree.tsx:75-78 | an entry found below another has the path |
| FileTree.FirstWithPath | src/components/sidebar/FileTree.tsx:69-81 | the first entry of a flat list with the path, or none exactly when no entry has it |
| FileTree.FirstWithPathAppend | src/components/sidebar/FileTree.tsx:73-79 | searching a concatenation searches the first part, then the second |
| FileTree.FindEntryIsFirstInPreOrder | src/components/sidebar/FileTree.tsx:69-81 | `findEntry` returns the first entry with the path in pre-order |
| FileTree.ShouldSelect | src/components/sidebar/FileTree.tsx:46-52 | `handleSelect`'s test: select unless the entry found is a directory |
| FileTree.ShouldSelectRule | src/components/sidebar/FileTree.tsx:46-52 | an id is selected exactly when no entry has it or the first one in pre-order is not a directory |
| FileTree.HandleSelect | src/components/sidebar/FileTree.tsx:46-52 | the selection becomes the id unless the entry found is a directory; files and contents stay |
| EditorToolbar.Cursor | src/components/editor/EditorToolbar.tsx:57 | a selection given only an anchor is a cursor |
| EditorToolbar.Splice | src/components/editor/EditorToolbar.tsx:42 | the change keeps the text before `from`, writes the insert, then keeps the text from `to` on |
| EditorToolbar.Wrapped | src/components/editor/EditorToolbar.tsx:37-47 | `before` and `after` go around the selected text, the rest of the document is kept, and the new selection covers exactly the original text |
| EditorToolbar.SliceOfInsert | src/components/editor/EditorToolbar.tsx:42-46 | the inserted text cuts back into its three parts |
| EditorToolbar.LinePrefixed | src/components/editor/EditorToolbar.tsx:51-58 | the prefix goes in at the start of the line holding the selection's lower end, the rest is kept, and the cursor lands after the prefix |
| EditorToolbar.TextInserted | src/components/editor/EditorToolbar.tsx:62-67 | the text replaces the selection, the rest is kept, and the cursor lands after the text |
| EditorToolbar.Run | src/components/editor/EditorToolbar.tsx:76-96 | every command keeps the selection inside the document |
| EditorToolbar.EditorView.constructor | src/components/editor/EditorToolbar.tsx:30 | a view holds a document and a selection inside it |
| EditorToolbar.EditorView.Dispatch | src/components/editor/EditorToolbar.tsx:41-47 | one transaction applies the change and sets the selection |
| EditorToolbar.EditorView.Focus | src/components/editor/EditorToolbar.tsx:48 | focusing changes neither the document nor the selection |
| EditorToolbar.EditorView.WrapSelection | src/components/editor/EditorToolbar.tsx:37-49 | the view ends in the wrapped state and focused |
| EditorToolbar.EditorView.InsertAtLineStart | src/components/editor/EditorToolbar.tsx:51-60 | the view ends in the line-prefixed state and focused |
| EditorToolbar.EditorView.InsertText | src/components/editor/EditorToolbar.tsx:62-70 | the view ends in the inserted state and focused |
| EditorToolbar.ButtonTableShape | src/components/editor/EditorToolbar.tsx:107-209 | each wrapping button uses the same non-empty marker on both sides, each line prefix is one line ending in a space, and no two buttons run the same command |
| EditorToolbar.CommandOf | src/components/editor/EditorToolbar.tsx:107-209 | the helper and the arguments each toolbar button uses |
| EditorToolbar.Click | src/components/editor/EditorToolbar.tsx:76-96 | a click runs the button's command on the view; without a view nothing happens |
| AppSidebar.FolderName | src/components/sidebar/AppSidebar.tsx:37 | the text after the last `/`: the whole path without a `/`, `""` for an empty path or one ending in `/` |
| AppSidebar.HomeAbbreviated | src/components/sidebar/AppSidebar.tsx:41 | a leading `/Users/<name>`, with the longest non-empty `/`-free name, becomes `~`; anything else is unchanged |
| AppSidebar.ParentPath | src/components/sidebar/AppSidebar.tsx:38-42 | an empty vault path gives an empty parent |
| AppSidebar.DisplayRoundTrip | src/components/sidebar/AppSidebar.tsx:37-41 | for a path ending in `/segment` and not under `/Users/`, `parentPath + "/" + folderName` is the path |
| KeyboardShortcuts.HandleKeyDown | src/hooks/useKeyboardShortcuts.ts:27-53 | nothing fires without Cmd or Ctrl; `n`/`N` fires new file, or new folder with Shift; `s`/`S` fires save; `,` fires settings; `preventDefault` exactly when something fires; other keys do nothing |
| KeyboardShortcuts.MatchesDocumentedTable | src/hooks/useKeyboardShortcuts.ts:13-18 | with Cmd or Ctrl the handler fires the documented table's action, letters read case-insensitively, and Ctrl acts as Cmd |
| SettingsContext.Merge | src/context/SettingsContext.tsx:69 | each field present in the patch wins, and every other field is kept |
| SettingsContext.DefaultSettings | src/context/SettingsContext.tsx:22-28 | the default settings |
| SettingsContext.MergeIdempotent | src/context/SettingsContext.tsx:69 | applying a patch twice is applying it once |
| SettingsContext.AsPatch | src/context/SettingsContext.tsx:44 | a whole saved settings object overrides every field |
| SettingsContext.LoadSettings | src/context/SettingsContext.tsx:30-40 | the defaults unless a stored text parses, and then the stored fields over the defaults |
| SettingsContext.SaveSettings | src/context/SettingsContext.tsx:42-48 | what a successful `setItem` stores: the whole settings object |
| SettingsContext.LoadSaved | src/context/SettingsContext.tsx:30-48 | what was saved loads back unchanged |
| SettingsContext.LoadEmptyObject | src/context/SettingsContext.tsx:34 | a stored object without settings fields loads as the defaults (dark, 14, mono, auto-save on, empty vault path) |
| SettingsContext.SettingsStore.constructor | src/context/SettingsContext.tsx:65 | the initial settings are loaded from storage |
| SettingsContext.SettingsStore.UpdateSettings | src/context/SettingsContext.tsx:67-73 | the new settings are the merge of the patch into the old ones; when the write succeeds that same value is stored and loads back, and when `setItem` throws storage is unchanged |

## Left out

- CodeMirror and Lezer: the syntax tree and its traversal are an input sequence of spans. `RangeSetBuilder`, `Decoration` objects and the `ViewPlugin` lifecycle are left out. What the builder library does with marks added out of order is not modelled.
- CodeMirror's `Text` class and `@codemirror/state` are not part of this model. `EditorText` rebuilds their line rules from the document string.
- JavaScript's regular-expression engine: each pattern is a hand-written matcher. `\s` is a fixed set of whitespace characters, and one `char` stands for one UTF-16 code unit.
- `localeCompare` is locale-dependent, so it is an abstract name order (`nameLeq`) that the sort lemmas require to be a total preorder.
- Sorting.SortBy: a stable insertion sort stands in for the engine's sort. With a consistent comparator, any stable sort gives the same result.
- `localStorage` and `JSON`: what storage holds is the `Stored` value. A write that throws is the `writeOk` flag of `UpdateSettings`. A read that throws, malformed JSON and the empty (falsy) text are all "nothing usable". A parsed object is reduced to the settings fields it contains. Field values of the wrong JSON type are not modelled.
- SettingsContext.Settings: `fontSize` is an unbounded integer rather than a JavaScript number. The theme is limited to dark and light.
- Window event registration, `preventDefault`'s effect, `view.focus()`'s effect on the page, React state scheduling and rendering are left out. `useCallback` closures are modelled as reading the current state.
- src/types/files.ts is not part of this model. `FileEntry` follows its use in the core: name, path, directory flag and an optional child list.
- AppSidebar.ParentPath: its own contract states only the empty case. The rest of its behaviour is stated by `StripLastSegment`, `HomeAbbreviated` and `DisplayRoundTrip`.
- EditorToolbar.Run: its own contract only keeps the state valid. What each command does is stated by `Wrapped`, `LinePrefixed` and `TextInserted`.
- FileTree.FindEntry: its own contract only says that a found entry has the path. That it finds the first such entry in pre-order is `FindEntryIsFirstInPreOrder`.
