# VppDriver: a verified model of the VisionPro project driver

`VppDriver/Program.cs` is a small server. It loads a Cognex VisionPro project file (`.vpp`) and answers JSON-RPC requests from a client, one per input line.

The tools it offers let the client do the following on the loaded project:
- list the tools of the job manager;
- read or write any property by a dotted path such as `Operators[0].RunParams.Threshold`;
- link one tool's output to another tool's input (`@Tool.path`);
- create a tool in a tool block, tool group or job;
- read or replace the C# script of a block, group or job.

Every change is saved back to the project file.

This project models that driver in Dafny and proves what its handlers promise.

- **ObjectGraph** (`object_graph.dfy`): the loaded project as reflection sees it.
  - A heap of objects. Each object has a runtime type name and a node kind: job manager, job, tool group, tool block, other tool, script support object, or plain object.
  - Each object has named properties. A property has a declared type category, a writable flag, an indexed flag, and a getter that either returns a value or throws.
  - Collections also carry a sequence of items.
  - Property lookup ignores case and detects ambiguous matches. A write changes one property of one object.
- **Text** (`text.dfy`): the .NET string operations the driver relies on.
  - `Split` with and without empty entries, the two-way split, and `IndexOf`.
  - `Replace(pattern, "")`, right padding, and ordinal comparison.
  - `int.Parse` with the Int32 range, and the one case-insensitive name equality (`SameName`).
- **PathResolver** (`paths.dfy`): `TryResolveProperty`. It has a loop over the path pieces and a counting scan for `name[index]`. Both are proved equal to a recursive definition of resolution.
- **TypeResolver** (`types.dfy`): `ResolveVisionProType`.
  - The namespace is inferred from a short type name.
  - The type is then looked up in three places in order: the loaded assemblies, the plugin file `<seg0>.<seg1>.<seg2>.dll`, and the partial-name lookup. Each is an abstract map.
- **ToolRegistry** (`registry.dfy`): the case-insensitive tool cache.
  - It is a class whose contents are a map from the case-folded key to the entry, plus the keys in insertion order.
  - Load clears and refills it by a recursive pre-order traversal. The first name seen wins, and a tool with a null name aborts the load part-way.
  - Tool creation overwrites an entry.
- **Inspector** (`inspector.dfy`): rendering for a get request.
  - Null and scalars render as text; anything else renders as a table.
  - The table is built line by line into a buffer, as `AppendObjectStructure` builds its `StringBuilder`, and nests one level for `RunParams`, `Operator` and `Operators`.
- **Engine** (`engine.dfy`): every handler as a function of a session.
  - The session holds the graph, the root, the file path, the cache, and a log of every save attempted.
  - The handlers are loading, listing, get/set with links, tool creation, scripts, the tool-call switch, and the JSON-RPC loop over input lines.
  - The serializer, value conversion, property setters, type instantiation, the file-name helper and the JSON parser are collaborators, passed in as an environment `Env`.
- **Driver** (`driver.dfy`): the program's own shape. A class `VppDriver` holds the graph, root, path, save log and cache as fields that its methods reassign or update in place. Each method is proved to reach the state and reply that the matching Engine function describes.

## Model

| member | source | states |
|---|---|---|
| Text.SameNameIsEquivalence | VppDriver/Program.cs:28 | The case-insensitive name equality used for cache keys, property names, type names and enum members is reflexive, symmetric and transitive, so it is a valid dictionary comparer |
| Text.FoldStringIdempotent | VppDriver/Program.cs:28 | Case-folding a key twice gives the same as folding it once, and a folded key names the same entry as the original key |
| Text.IndexOf | VppDriver/Program.cs:395 | The position is -1 exactly when the character is absent; otherwise it holds the character and no earlier position does |
| Text.JoinSplit | VppDriver/Program.cs:189 | Splitting at '.' loses nothing: joining the pieces with '.' gives back the original text |
| Text.SplitJoin | VppDriver/Program.cs:124 | Pieces that hold no separator, joined with it and split again, come back unchanged |
| Text.SplitPiecesLackSeparator | VppDriver/Program.cs:189 | No piece of a split contains the separator |
| Text.SplitWithoutSeparator | VppDriver/Program.cs:189 | A text without the separator splits into itself alone |
| Text.SplitConcat | VppDriver/Program.cs:382 | Splitting `a + sep + b` gives the pieces of `a` followed by the pieces of `b` |
| Text.NonEmpty | VppDriver/Program.cs:382 | Removing empty entries leaves only non-empty pieces |
| Text.SplitNonEmptyIsEmptyIff | VppDriver/Program.cs:382 | A split with empty entries removed is empty exactly when the text consists only of separators |
| Text.SplitNonEmptyLeadingSeparator | VppDriver/Program.cs:382 | A leading separator does not change the non-empty pieces |
| Text.SplitOnce | VppDriver/Program.cs:331-333 | The two-way split gives a head without '.'. When the text has a '.', head + '.' + rest is the text; otherwise the rest is empty |
| Text.SplitOnceHeadIsFirstPiece | VppDriver/Program.cs:331-332 | The head of the two-way split is the first piece of the full split |
| Text.FirstPiece | VppDriver/Program.cs:331-332 | The first piece of a split is the text before the first separator, or the whole text when there is none |
| Text.RemoveAll | VppDriver/Program.cs:175 | Removing every occurrence of a pattern never lengthens the text and introduces no new characters |
| Text.RemoveAllAbsent | VppDriver/Program.cs:175 | Removing a pattern that does not occur changes nothing |
| Text.PadRight | VppDriver/Program.cs:455 | A padded column is the text followed by spaces, with the requested width or the text's own length when that is longer |
| Text.OrdinalLeTotal | VppDriver/Program.cs:436 | The order that sorts property names relates every pair of names |
| Text.OrdinalLeTransitive | VppDriver/Program.cs:436 | The order that sorts property names is transitive |
| Text.ParseInt32 | VppDriver/Program.cs:397 | A parsed index lies within the Int32 range |
| Text.ParseShowInt | VppDriver/Program.cs:397 | Every Int32 written in decimal parses back to itself |
| Text.ParseRejectsLetters | VppDriver/Program.cs:397 | An index text containing a lower-case letter does not parse |
| Text.TrimStart | VppDriver/Program.cs:357 | The result is a suffix of the text that does not start with white space, and everything removed is white space |
| Text.TrimEnd | VppDriver/Program.cs:357 | The result is a prefix of the text that does not end with white space, and everything removed is white space |
| Text.Trim | VppDriver/Program.cs:357 | The trimmed text neither starts nor ends with white space, and it is empty exactly when the text is null-or-white-space blank |
| Text.TrimIdempotent | VppDriver/Program.cs:357 | Trimming twice is trimming once |
| ObjectGraph.ObjectAt | VppDriver/Program.cs:399 | A value denotes an object exactly when it is a reference into the heap |
| ObjectGraph.MatchingSpec | VppDriver/Program.cs:422 | The properties matching a name ignoring case are exactly those of the object with an equal name |
| ObjectGraph.FindProperty | VppDriver/Program.cs:422 | A found property belongs to the object and matches the name ignoring case. The lookup reports Missing exactly when no property matches |
| ObjectGraph.ElementAt | VppDriver/Program.cs:403-411 | An element is found exactly when the value is enumerable, the index is within range (not negative) and the element there is non-null |
| ObjectGraph.WithValue | VppDriver/Program.cs:365 | A write keeps the number of properties |
| ObjectGraph.WriteProperty | VppDriver/Program.cs:365 | A write allocates nothing: the heap keeps its size |
| ObjectGraph.FindAfterWrite | VppDriver/Program.cs:365 | After a write, a lookup finds the property it found before, now reading the new value when it is the written one. Missing and ambiguous stay so |
| ObjectGraph.MatchingAfterWrite | VppDriver/Program.cs:365 | The matches after a write are the matches before it, with the written property rewritten |
| ObjectGraph.MemberAfterWrite | VppDriver/Program.cs:365 | After a write, the written name reads the new value when the object has that property, and every other name reads as before |
| ObjectGraph.WriteKeepsOthers | VppDriver/Program.cs:365 | A write changes only the target object, and only its properties |
| ObjectGraph.OtherMembersAfterWrite | VppDriver/Program.cs:529 | Writing one property leaves every object's kind and its other properties unchanged |
| PathResolver.ParseSegment | VppDriver/Program.cs:391-397 | A piece is indexed exactly when it contains '[' and ends with ']'. Then name + "[" + index + "]" is the piece, and the name holds no '['. Otherwise it is a plain name |
| PathResolver.IndexedPieceParsesBack | VppDriver/Program.cs:391-397 | `name[index]` with a bracket-free name parses back into that name and index |
| PathResolver.IndexedStep | VppDriver/Program.cs:393-418 | An indexed piece only ever moves on to a non-null element |
| PathResolver.NthItem | VppDriver/Program.cs:405-409 | The counting scan finds the item at the index, or null when the index is negative or too large |
| PathResolver.FindIndexed | VppDriver/Program.cs:393-418 | The indexed branch computes exactly the indexed step: a bad index text, a missing or throwing collection, or a missing element all give no element |
| PathResolver.Advance | VppDriver/Program.cs:388-426 | One loop pass stops with the outcome of resolving the remaining pieces, or moves on to the value from which the rest resolves identically |
| PathResolver.WalkPieces | VppDriver/Program.cs:383-427 | The loop over the pieces of a non-empty path returns exactly the recursive walk of those pieces from the root |
| PathResolver.TryResolveProperty | VppDriver/Program.cs:377-430 | The resolver returns exactly the recursive resolution of the path, including the blank and separator-only paths that address the root, and properties of string values such as `Length` |
| PathResolver.ResolveRootPaths | VppDriver/Program.cs:379-382 | A null or blank path, or one made only of '.', resolves to the root with no property |
| PathResolver.ResolveIgnoresLeadingSeparator | VppDriver/Program.cs:382 | A leading '.' does not change where a path leads |
| PathResolver.ResolveSingleName | VppDriver/Program.cs:420-424 | A single plain name on a non-null root resolves to (root, the property matched ignoring case). A missing name fails, an ambiguous one throws, and a null root fails |
| PathResolver.ResolveStringLength | VppDriver/Program.cs:420-424 | When a plain name reads a string, `name.Length` resolves to that string with its `Length` property, which is read-only, takes no index and reads the string's length |
| PathResolver.WalkComposes | VppDriver/Program.cs:386-427 | Resolving `a + b` is resolving `a` as inner pieces and then `b` from the value reached. The first failing inner piece decides the outcome |
| PathResolver.ResolvedTargetIsLive | VppDriver/Program.cs:411-424 | A path that resolves ends at a non-null object. It has a property exactly when its last piece is a plain name, and that property belongs to the object and matches the piece ignoring case |
| PathResolver.IndexOutOfRangeFails | VppDriver/Program.cs:403-416 | A negative or too large index, or one naming a null element, makes the path fail |
| TypeResolver.ModuleName | VppDriver/Program.cs:175-176 | The inferred namespace segment is made of characters of the name after its `Cog` prefix, or is `CalibFix` |
| TypeResolver.InferIsIdempotent | VppDriver/Program.cs:169-178 | Inference leaves a full name (one containing '.') unchanged, so inferring twice is inferring once |
| TypeResolver.InferredNameSegments | VppDriver/Program.cs:169-193 | A short name `n` becomes `Cognex.VisionPro.<m>.n`, whose segments are exactly Cognex, VisionPro, m and n. Its plugin file is `Cognex.VisionPro.<m>.dll` |
| TypeResolver.RemoveToolSuffix | VppDriver/Program.cs:175 | Dropping `Tool` from `<stem>Tool` gives the stem, for a stem without 'T' |
| TypeResolver.InferStemName | VppDriver/Program.cs:175-177 | `Cog<stem>Tool` is looked up as `Cognex.VisionPro.<stem>.Cog<stem>Tool` |
| TypeResolver.InferFixture | VppDriver/Program.cs:176 | `CogFixtureTool` is looked up in the `CalibFix` namespace |
| TypeResolver.AssemblyName | VppDriver/Program.cs:189-193 | An assembly name is formed exactly when the full name has at least three segments |
| TypeResolver.PluginFileName | VppDriver/Program.cs:190-193 | A plugin file name exists exactly when the assembly name does |
| TypeResolver.FindType | VppDriver/Program.cs:184 | The type found matches the name ignoring case, and no earlier type of the assembly does. Nothing is found exactly when no type matches |
| TypeResolver.FindInLoaded | VppDriver/Program.cs:181-186 | The result comes from a non-dynamic assembly and matches ignoring case. Nothing is found exactly when no non-dynamic assembly knows the name |
| TypeResolver.FirstLoadedHit | VppDriver/Program.cs:181-186 | When no earlier non-dynamic assembly knows the type, the loaded-assembly search answers with assembly `i` |
| TypeResolver.ResolveVisionProType | VppDriver/Program.cs:167-231 | The resolver's loop and fallbacks return exactly the layered lookup: loaded assemblies first, then the plugin file, then the partial name |
| TypeResolver.MissingMeansAbsentEverywhere | VppDriver/Program.cs:181-230 | A type reported missing matches no type in any non-dynamic loaded assembly, in the plugin file, or in the partial-name assembly |
| TypeResolver.FoundTypeMatchesAndLoadedWin | VppDriver/Program.cs:181-186 | A found type matches the inferred name ignoring case. When a loaded assembly knows it, the plugin files and partial names do not affect the answer |
| ToolRegistry.AddIfAbsent | VppDriver/Program.cs:474 | A conditional insert keeps the cache well formed: one entry per folded key, and the order lists each key once |
| ToolRegistry.Put | VppDriver/Program.cs:280 | An overwriting insert keeps the cache well formed |
| ToolRegistry.Entries | VppDriver/Program.cs:124 | The cache enumerates one entry per stored name |
| ToolRegistry.FindAfterAdd | VppDriver/Program.cs:474 | After a conditional insert, the name finds the new node only when no equal name was stored before. Every other name finds what it found before |
| ToolRegistry.FindAfterPut | VppDriver/Program.cs:280 | After an overwriting insert, every name equal to the key ignoring case finds the new node. Every other name finds what it found before |
| ToolRegistry.NamedExactly | VppDriver/Program.cs:488 | The case-sensitive `Name` lookup only returns properties of the object with exactly that name |
| ToolRegistry.ToolsAndJobs | VppDriver/Program.cs:496 | An enumerable is descended into only through its own items |
| ToolRegistry.LeavesHaveNoChildren | VppDriver/Program.cs:492-496 | A tool, script or plain object without items has no children, so the traversal stops there |
| ToolRegistry.VisitsAllAppend | VppDriver/Program.cs:492-496 | Visiting a list of children in order visits each child's subtree in turn |
| ToolRegistry.VisitsParentFirst | VppDriver/Program.cs:480-498 | The traversal is pre-order: every visited node is the start node or a child of a node visited earlier, and null is never visited |
| ToolRegistry.VisitsAllParentFirst | VppDriver/Program.cs:492-496 | Visiting a list of children is pre-order with those children as roots |
| ToolRegistry.Record | VppDriver/Program.cs:474 | Inserting a sequence of visits keeps the cache well formed |
| ToolRegistry.RecordAppend | VppDriver/Program.cs:474 | Inserting `xs + ys` inserts `xs` and then, unless that aborted, `ys` |
| ToolRegistry.Completed | VppDriver/Program.cs:474 | The visits inserted before an abort are a prefix of the visits, all of them named |
| ToolRegistry.RecordFindsFirst | VppDriver/Program.cs:474 | First seen wins: after a rebuild a name finds what it found before, or else the first visited node under an equal name before any null name |
| ToolRegistry.RecordFailsOnNullName | VppDriver/Program.cs:474-488 | The rebuild aborts exactly when some visited tool or job has a null name |
| ToolRegistry.Rebuild | VppDriver/Program.cs:473-474 | The cache a load builds is well formed |
| ToolRegistry.ToolCache.constructor | VppDriver/Program.cs:28 | The cache starts empty |
| ToolRegistry.ToolCache.Clear | VppDriver/Program.cs:473 | Clearing empties the cache in place |
| ToolRegistry.ToolCache.AddIfMissing | VppDriver/Program.cs:474 | The load callback inserts a name only when no equal name is stored |
| ToolRegistry.ToolCache.Store | VppDriver/Program.cs:280 | The indexer assignment overwrites the entry for a name |
| ToolRegistry.ToolCache.Traverse | VppDriver/Program.cs:480-498 | The recursive traversal leaves the cache as inserting its pre-order visits would. It reports an abort exactly when a null name was met |
| ToolRegistry.ToolCache.TraverseChildren | VppDriver/Program.cs:492-496 | The loops over jobs, tools and items traverse each child in order and stop at the first abort |
| Inspector.NotIndexedSpec | VppDriver/Program.cs:435-436 | The dump lists exactly the properties that take no index |
| Inspector.InsertByNameCounts | VppDriver/Program.cs:436 | Inserting into the sorted list adds exactly that property |
| Inspector.InsertKeepsSorted | VppDriver/Program.cs:436 | Inserting into a list sorted by name keeps it sorted |
| Inspector.SortByNameIsSortedPermutation | VppDriver/Program.cs:435-436 | The properties are ordered by name and are a permutation of the input |
| Inspector.ShownSpec | VppDriver/Program.cs:440 | The rows shown are exactly the properties not named `...Changed`, `Tag` or `Parent` |
| Inspector.ShownKeepsSorted | VppDriver/Program.cs:434-440 | Skipping properties keeps the name order |
| Inspector.DumpRowsAtLastLevel | VppDriver/Program.cs:456 | At the deepest level each shown property gives one row and nothing nests |
| Inspector.DumpAtLastLevel | VppDriver/Program.cs:434-458 | The deepest table of a value has one row per shown non-indexed property, sorted by name |
| Inspector.DumpNestsOnlyAllowListed | VppDriver/Program.cs:455-457 | A property gets only its own row unless it is RunParams, Operator or Operators, depth remains and its value can be read |
| Inspector.DumpRowsAtTopLevel | VppDriver/Program.cs:438-458 | With one level of nesting left, the rows of the first n properties are, for each shown one in order, its row followed by the flat table of its value when it is on the allow-list and can be read |
| Inspector.DumpAtTopLevel | VppDriver/Program.cs:432-458 | The top-level table of a non-null value is, for each shown non-indexed property sorted by name, its row and then, for RunParams, Operator and Operators that can be read, the one-level table of their value |
| Inspector.LineBuilder.constructor | VppDriver/Program.cs:309 | The buffer starts empty |
| Inspector.LineBuilder.AppendLine | VppDriver/Program.cs:455 | A line is added at the end of the buffer |
| Inspector.ComputeCell | VppDriver/Program.cs:441-453 | The detail cell is `<Err>` for a throwing getter, `null`, the text of a primitive, string or enum property, `[Count=n]` for another enumerable, and `<DeclaredType>` otherwise |
| Inspector.AppendObjectStructure | VppDriver/Program.cs:432-459 | The recursive dump appends exactly the table of the value at that depth |
| Inspector.AppendProperties | VppDriver/Program.cs:438-458 | The loop over properties appends their rows in order |
| Inspector.AppendProperty | VppDriver/Program.cs:440-457 | One property appends its row, then its nested table when it is on the allow-list |
| Inspector.ReportOpening | VppDriver/Program.cs:309-314 | The table for an object opens with `[Structure: T]`, a rule, the header row and a rule |
| Inspector.RenderValue | VppDriver/Program.cs:303-316 | A get renders "null", a scalar's own text, or the structure table of the object |
| Engine.MemberNamed | VppDriver/Program.cs:357 | The enum member found is one of the type's members and equals the text ignoring case. None is found exactly when no member does |
| Engine.ParseEnum | VppDriver/Program.cs:355-357 | An enum literal converts exactly when it is non-blank and its trimmed text names a member ignoring case. The value is that member |
| Engine.ParseEnumIgnoresSurroundingSpace | VppDriver/Program.cs:357 | White space around an enum literal changes neither the member chosen nor the rejection message |
| Engine.ListToolsEmpty | VppDriver/Program.cs:124 | The tool list is "No tools." exactly when the cache is empty |
| Engine.ListToolsLines | VppDriver/Program.cs:124 | When no cached name or type name holds a line feed, the list splits at LF into one `- name (Type)` line per cached tool, in enumeration order |
| Engine.WithNewGroup | VppDriver/Program.cs:265 | Giving a job a new group allocates the group and its tool collection |
| Engine.SelectContainer | VppDriver/Program.cs:257-267 | Picking a container never frees objects |
| Engine.AddItem | VppDriver/Program.cs:279 | Adding to a collection allocates nothing |
| Engine.RootPathAddressesTool | VppDriver/Program.cs:296-320 | A path of ".", null, blank or separators addresses the tool itself. A get renders it and changes nothing; a set is refused as read-only |
| Engine.ReadOnlyTarget | VppDriver/Program.cs:296-320 | When the path resolves to a property that cannot be written, a get renders the property's value and a set is refused as read-only. Neither changes anything |
| Engine.StringLengthIsReadOnly | VppDriver/Program.cs:296-320 | For a property holding a string, a get of `name.Length` answers the string's length and a set of it is refused as read-only. Neither changes anything |
| Engine.SetRejectsUnwritable | VppDriver/Program.cs:292-320 | A set on a missing tool, an unresolved path or a non-writable target changes nothing and saves nothing, whatever the value |
| Engine.SetWritesOnlyTheTarget | VppDriver/Program.cs:320-367 | A set either changes nothing, or writes one value to the target property and saves that graph |
| Engine.CommitWritesOnce | VppDriver/Program.cs:365-366 | An assignment either changes nothing or writes the value once and saves |
| Engine.SetSavesBeforeSuccess | VppDriver/Program.cs:320-367 | Every successful set saved the changed graph exactly once, and that save went through |
| Engine.SetValueSavesBeforeSuccess | VppDriver/Program.cs:326-367 | Both the link and the literal branch save before reporting success |
| Engine.LinkSavesBeforeSuccess | VppDriver/Program.cs:326-350 | A successful link saved the linked graph and the save went through |
| Engine.CommitSavesBeforeSuccess | VppDriver/Program.cs:365-367 | A success reply follows a save of the written graph that did not throw |
| Engine.AcceptedCommit | VppDriver/Program.cs:347-350 | An accepted value is written and saved. The reply is a success exactly when the save did not throw |
| Engine.SetThenGet | VppDriver/Program.cs:290-367 | After an accepted literal is set under a plain name, the graph holds that value. Getting the same path renders it, even when the save failed |
| Engine.LinkSharesSourceValue | VppDriver/Program.cs:326-350 | A link `@Tool.path` assigns the very value found at the source (a reference, when it is an object) and allocates nothing. It succeeds exactly when the save did not throw |
| Engine.LoadFaultKeepsSession | VppDriver/Program.cs:469-477 | A load that throws changes nothing and reports the message |
| Engine.LoadReplacesGraph | VppDriver/Program.cs:467-476 | A load replaces the graph, root and path and keeps the save log. The rebuilt cache finds, for every name, the first node visited under an equal name before any null name |
| Engine.LoadReportsNullNames | VppDriver/Program.cs:473-477 | A load reports "Loaded ..." exactly when no visited tool or job had a null name |
| Engine.CreateNeedsContainer | VppDriver/Program.cs:257-269 | A missing parent or one that is not a block, group or job is refused. Nothing is created, registered or saved |
| Engine.JobGetsGroup | VppDriver/Program.cs:262-266 | A job without a vision tool gets a new group, whose tool collection becomes the container |
| Engine.InstallRegisters | VppDriver/Program.cs:274-283 | A named tool is allocated, named, and added to the container's items. It is registered under its name, replacing any equal name and leaving other names alone. The graph is saved once, and the reply is a success exactly when the save did not throw |
| Engine.InstallKeepsDefaultName | VppDriver/Program.cs:276-280 | Without a non-empty name the instance keeps its constructed properties. A null default name is refused by the cache, with nothing registered or saved |
| Engine.ScriptSupportAfterSourceWrite | VppDriver/Program.cs:500-514 | Writing a script's source does not change which script a host finds |
| Engine.InjectThenExtract | VppDriver/Program.cs:515-534 | Without a script an injection fails and changes nothing. With one, non-blank code that is injected is exactly what extraction reads back |
| Engine.InjectCallThenExtractCall | VppDriver/Program.cs:127-152 | Through the tool calls, an injection keeps the cache, and a following extraction returns the injected code as a non-error |
| Engine.DispatchHandlesAdvertised | VppDriver/Program.cs:99-154 | The dispatcher handles exactly the advertised tool names. Any other name gets "Unknown tool." as an error and changes nothing |
| Engine.StepAnswers | VppDriver/Program.cs:56-93 | Blank, unparsable and null lines are skipped. A request without an id writes nothing. One with an id gets exactly one response under that id, an error with code -32603 and the message when the method threw |
| Engine.UnknownMethodIsNull | VppDriver/Program.cs:71-82 | A method the server does not know changes nothing and returns a null result, not an error |
| Engine.OnlyNonObjectParamsThrow | VppDriver/Program.cs:113-116 | A request fails as a JSON-RPC error exactly when it is tools/call whose params are missing or not a JSON object. It then carries the null-reference message (missing params) or the indexer's message (any other non-object) and leaves the state unchanged; every other failure is answered inside the result |
| Engine.RunAppend | VppDriver/Program.cs:52-97 | Running two batches of lines is running the first and continuing from its state with the second |
| Engine.RunWritesAtMostOnePerLine | VppDriver/Program.cs:86-93 | The loop writes at most one response per line |
| Engine.BlankLineIsSkipped | VppDriver/Program.cs:58 | A blank line changes nothing and writes nothing |
| Engine.PreloadOpensFile | VppDriver/Program.cs:44-45 | When the first command-line argument names an existing file that loads, the loop starts with that graph, root and path, nothing saved, and a cache that finds the first tool visited under each name |
| Engine.PreloadOtherwiseStarts | VppDriver/Program.cs:44-45 | Without an argument, without the file, or when its load throws, the loop starts from the empty session |
| Driver.VppDriver.constructor | VppDriver/Program.cs:28-31 | The driver starts with nothing loaded and an empty cache |
| Driver.VppDriver.Save | VppDriver/Program.cs:366 | A save hands the current graph, root and path to the serializer and logs it |
| Driver.VppDriver.LoadVppFile | VppDriver/Program.cs:467-478 | The handler reassigns the graph and path and rebuilds the cache in place, reaching the state and reply of the load function |
| Driver.VppDriver.HandleGetSetRequest | VppDriver/Program.cs:290-375 | The get/set handler reaches the state and reply of the get/set function |
| Driver.VppDriver.Get | VppDriver/Program.cs:301-317 | The get branch reads the property (or takes the object itself) and renders it. A throwing getter escapes |
| Driver.VppDriver.SetValue | VppDriver/Program.cs:322-373 | The set branch reaches the state and reply of the set function |
| Driver.VppDriver.Link | VppDriver/Program.cs:326-351 | The link branch reaches the state and reply of the link function |
| Driver.VppDriver.Commit | VppDriver/Program.cs:365-367 | The assignment-then-save reaches the state and reply of the commit function |
| Driver.VppDriver.CreateTool | VppDriver/Program.cs:255-286 | Tool creation reaches the state and reply of the creation function, including the group given to a job before type resolution |
| Driver.VppDriver.ResolveAndInstall | VppDriver/Program.cs:271-285 | Past the container check, type resolution and installation reach the function's state and reply |
| Driver.VppDriver.SelectTarget | VppDriver/Program.cs:257-267 | The container choice updates the graph as the selection function does and touches nothing else |
| Driver.VppDriver.Install | VppDriver/Program.cs:274-285 | Instantiating, naming, adding, registering and saving reach the install function's state and reply |
| Driver.VppDriver.TrySetScriptCode | VppDriver/Program.cs:523-534 | Only the script's Source is assigned, as the script-write function describes |
| Driver.VppDriver.Inject | VppDriver/Program.cs:128-152 | The injection case reaches the state, text and error flag of the injection function |
| Driver.VppDriver.Dispatch | VppDriver/Program.cs:119-157 | The tool switch reaches the state, text and error flag of the dispatch function |
| Driver.VppDriver.HandleToolCall | VppDriver/Program.cs:113-159 | A tool call reaches the state and answer of the tool-call function |
| Driver.VppDriver.HandleLine | VppDriver/Program.cs:56-95 | One loop iteration reaches the state and responses of the step function |
| Driver.VppDriver.RunMcpLoop | VppDriver/Program.cs:52-97 | The loop over all input lines reaches the state and responses of running them in order |
| Driver.VppDriver.Launch | VppDriver/Program.cs:42-48 | Start-up loads the file named on the command line when it exists, then the loop reaches the state and responses of running the lines from that preloaded session |

## Left out

- Foreign and I/O collaborators are parameters of `Env`, not modelled:
  - the VisionPro serializer's load and save;
  - `Convert.ChangeType`, and whether a property setter accepts a value;
  - `Activator.CreateInstance`;
  - `Path.GetFileName`;
  - JSON deserialisation of an input line.
- JSON output is not modelled: responses are records rather than serialised text, and request ids are kept as their JSON text.
- Console set-up, encodings, stream redirection and every `Log` call are left out. They are I/O with no effect on the driver's state. The preload in `Main` is modelled (`Engine.Preload`, `Driver.VppDriver.Launch`): it is the load handler applied to the empty session, its reply is discarded, and `File.Exists` is a parameter.
- Assembly loading is not modelled. `File.Exists`, `Assembly.LoadFrom`, `LoadWithPartialName` and the global assembly cache are abstract maps from file or assembly name to the assembly's types. An existing plugin file that fails to load maps to no assembly.
- `FindTypeInLoadedAssemblies` and `GetCachedProperties` are never called, and are not part of this model.
- Script compilation does not happen: an injection only assigns `Source`, although its message says the script was compiled.
- Strings are sequences of Unicode code points, while .NET strings are sequences of UTF-16 code units. For text with characters outside the Basic Multilingual Plane, lengths, character indexes and padding widths therefore differ from the program's. This affects `String.Length`, indexing into a string, and the padded name and type columns of a table.
- PathResolver.ResolveStringLength: the `Length` it reads counts code points, not UTF-16 code units.
- Engine.StringLengthIsReadOnly: the length a get answers counts code points, not UTF-16 code units.
- ObjectGraph.ElementAt: the elements of a string are its code points, not its UTF-16 code units.
- Text.PadRight: the width counts code points, not UTF-16 code units.
- Reflection is replaced by stored property lists:
  - Scalars have no properties, except that a string has the read-only `Length` and the indexer `Chars`, which throws when read without an argument.
  - A getter either returns a value or throws a message.
  - The VisionPro typed accessors (`Name`, `Tools`, `VisionTool`, `Script`, `Source`) read the stored value and treat a throwing getter as null.
- Text.SameName: case folding covers ASCII letters only, not the full Unicode upper-casing of `StringComparer.OrdinalIgnoreCase`.
- Inspector.SortByNameIsSortedPermutation: property names are sorted by ordinal character order, not by the current culture's collation that `OrderBy` uses.
- Engine.ParseEnum: numeric and comma-separated flag values that `Enum.Parse` would also accept are not modelled; only a single member name, trimmed of surrounding white space, is.
- Inspector.AppendObjectStructure: a nested table lists the properties of the value's runtime type, not of the property's declared type.
- ObjectGraph.Display: `ToString()` of an object is modelled as its type name, and culture-specific number formatting is not modelled.
- ToolRegistry.ToolCache.Traverse: the traversal depth is bounded by the heap size plus one. This is enough for any acyclic graph; the source would recurse without end on a cycle.
- Engine.JobGetsGroup: the group created for a job is modelled with only its `Tools` property.
- Exception messages of the .NET runtime are modelled as fixed English texts. Messages from collaborators are passed through unchanged. The fixed texts are:
  - the null key and null value messages;
  - the null reference message;
  - the substring start-index message;
  - the ambiguous match message of a property lookup;
  - the parameter count message of an indexer read without arguments;
  - the enum parse messages (no information, and a value that was not found);
  - the cast message for a created type that is not a tool.
