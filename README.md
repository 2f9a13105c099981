# oopnet element store and EPANET input-file codec, modelled in Dafny

This project models the core of oopnet, a Python library that keeps a water
distribution network (junctions, reservoirs, tanks, pipes, pumps, valves, patterns,
curves, rules) as an object graph. It converts that graph to and from the
section-structured text of an EPANET `.inp` input file. The model covers:

- the **element store**: one ID-keyed, insertion-ordered table per element category
  (`ElementStore`, `Elements.Network`), and renaming an element through its `id`
  setter (`Elements.Node.SetId`, `Elements.Link.SetId`);
- the **elements**: nodes and links as classes whose fields are updated in place,
  with their defaults, `coordinates` and `revert` (`Elements`);
- the **getters** by ID per category and per namespace (`Getters`), and the
  neighbourhood and source queries (`SpecialGetters`);
- the **adders** per category and the `add_node` / `add_link` dispatchers, with
  `ComponentExistsException` (`Adders`);
- the **reader**: `filesplitter` (`Splitter`, with the Python `str` operations it
  relies on in `PyStr`); the `section_reader` registry (`Decorators`); the priority
  ordered dispatch of `read` (`Reader`); and the map-section readers, of which
  COORDINATES does real work (`MapTags`);
- the **writer** of the title, node, link and emitter sections (`Writer`). Its
  output is the sequence of `print` calls made on the file.

Python's class hierarchies become one class per family (`Node`, `Link`). The
subclass-specific attributes sit in a `data` payload whose variant is the Python
class. Every attribute the writer tests against `None` is an `Option`. Exceptions
are values of `Exceptions.Error`. An operation that can raise returns a `Result`
or an `Outcome`, and whatever it already did stays visible.

Three behaviours of the code that the model keeps:

- Adding an element whose ID is already stored succeeds and replaces the element
  when `check_exists` is false.
- A writer raises `AttributeError` when a store holds an element of another kind, or
  a valve whose `valvetype` was never set.
- A repeated `[NAME]` header in an input file empties the block NAME again.

## Model

| member | source | states |
|---|---|---|
| ElementStore.Get | oopnet/utils/getters/get_by_id.py:18 | lookup by ID finds exactly the stored IDs, and finds the element stored under the ID |
| ElementStore.Values | oopnet/writer/decorator_writer/write_network_components.py:17 | iterating a store yields its elements in insertion order, one per ID |
| ElementStore.Put | oopnet/utils/adders/add_element.py:90 | `store[id] = x` keeps the store valid; `id` then maps to `x` and every other ID is unchanged; an existing ID keeps its place in the order, a new one goes last |
| ElementStore.PutNewValues | oopnet/utils/adders/add_element.py:87-90 | adding under a new ID appends the element to the iteration |
| ElementStore.Rename | oopnet/elements/network_components.py:83-88 | a re-key fails with NotFound exactly when the old ID is absent, and with DuplicateId exactly when the new ID names another element; otherwise the new ID takes the old one's element and every other ID is unchanged |
| ElementStore.RenameKeepsIteration | oopnet/elements/network_components.py:83-88 | renaming keeps the same elements in the same iteration order, with the new ID where the old one was |
| Elements.Node.Junction | oopnet/elements/network_components.py:23-81 | a new junction has the given ID and the class defaults: zero coordinates, elevation and qualities, no source, demand 0.0, no pattern, emitter coefficient 0.0 |
| Elements.Node.Reservoir | oopnet/elements/network_components.py:91-102 | a new reservoir has head 0.0 and no head pattern, plus the node defaults |
| Elements.Node.Tank | oopnet/elements/network_components.py:112-136 | a new tank has levels 10/0/20, diameter 50, min volume 0, no curve and mixing model MIXED, plus the node defaults |
| Elements.Node.SetId | oopnet/elements/network_components.py:83-143 | setting `id` on a node in a network re-keys it in the table of its own kind; a failed re-key raises and changes nothing; every other table, the title, report and times settings and the conversion count, and every attribute other than `id` are unchanged; a detached node only changes its ID |
| Elements.Node.Coordinates | oopnet/elements/network_components.py:32-40 | the `coordinates` property is the triple of x, y and elevation |
| Elements.Link.Pipe | oopnet/elements/network_components.py:53-164 | a new pipe has length 1000, diameter 12, roughness 100, minor loss 0, no reaction coefficients, no endpoints and status OPEN |
| Elements.Link.Pump | oopnet/elements/network_components.py:175-188 | a new pump has no keyword, value or setting |
| Elements.Link.Valve | oopnet/elements/network_components.py:198-261 | a new valve of any subclass has diameter 12, minor loss 0 and setting 0, except a GPV whose setting curve is None |
| Elements.Link.Coordinates | oopnet/elements/network_components.py:57-61 | a link's coordinates are its start node's then its end node's, and reading them raises exactly when an endpoint is missing |
| Elements.Link.Revert | oopnet/elements/network_components.py:63-65 | `revert` swaps start and end node and changes nothing else |
| Elements.Link.SetId | oopnet/elements/network_components.py:166-218 | setting `id` on a link in a network re-keys it in the pipes, pumps or valves table; a failed re-key raises and changes nothing; every other table, the title, report and times settings and the conversion count, and every attribute other than `id` (comment, endpoints, status, kind data) are unchanged |
| Elements.Network.SetNodeTable | oopnet/elements/network_components.py:83-88 | storing a re-keyed table in `_nodes[...]` replaces the table of that node kind only; the other tables and the settings stay as they were |
| Elements.Network.SetLinkTable | oopnet/elements/network_components.py:166-171 | storing a re-keyed table in `_links[...]` replaces the table of that link kind only; the other tables and the settings stay as they were |
| Elements.Network.constructor | oopnet/reader/decorator_reader/read.py:59 | a new network has every table empty and no title, report or times |
| Getters.GetJunction | oopnet/utils/getters/get_by_id.py:7-18 | succeeds exactly for a stored junction ID and returns that junction |
| Getters.GetTank | oopnet/utils/getters/get_by_id.py:21-32 | the same for tanks |
| Getters.GetReservoir | oopnet/utils/getters/get_by_id.py:35-46 | the same for reservoirs |
| Getters.GetPipe | oopnet/utils/getters/get_by_id.py:49-60 | the same for pipes |
| Getters.GetPump | oopnet/utils/getters/get_by_id.py:63-74 | the same for pumps |
| Getters.GetValve | oopnet/utils/getters/get_by_id.py:77-88 | the same for valves |
| Getters.GetCurve | oopnet/utils/getters/get_by_id.py:91-102 | the same for curves |
| Getters.GetPattern | oopnet/utils/getters/get_by_id.py:105-116 | the same for patterns |
| Getters.GetRule | oopnet/utils/getters/get_by_id.py:119-130 | the same for rules |
| Getters.GetNode | oopnet/utils/getters/get_by_id.py:133-144 | succeeds exactly for an ID in the node namespace, returns a node stored under it in one of the three node tables, and otherwise raises NotFound for that ID |
| Getters.GetLink | oopnet/utils/getters/get_by_id.py:147-158 | the same over the link namespace |
| Getters.GetNodeAgrees | oopnet/utils/getters/get_by_id.py:7-46 | while no ID names two nodes, `get_node` returns what the getter of the holding table returns |
| Getters.GetLinkAgrees | oopnet/utils/getters/get_by_id.py:49-88 | while no ID names two links, `get_link` returns what the getter of the holding table returns |
| Adders.DefaultMessage | oopnet/utils/adders/add_element.py:14 | the default message embeds the ID at a fixed position |
| Adders.DefaultMessageNamesId | oopnet/utils/adders/add_element.py:14 | two IDs with the same default message are the same ID |
| Adders.ComponentExistsAsWritten | oopnet/utils/adders/add_element.py:12-15 | building the exception succeeds exactly when the message is missing or empty, and otherwise raises AttributeError |
| Adders.NewComponentExists | oopnet/utils/adders/add_element.py:12-15 | the corrected exception keeps a given message and uses the default one otherwise |
| Adders.ComponentExistsCorrection | oopnet/utils/adders/add_element.py:12-15 | where the written constructor succeeds the corrected one builds the same exception; with an explicit message only the corrected one succeeds, and keeps it |
| Adders.ExplicitMessageRaises | oopnet/utils/adders/add_element.py:12-15 | a concrete explicit message makes the written constructor raise |
| Adders.AddJunction | oopnet/utils/adders/add_element.py:69-90 | without a junction and without `id` it raises KeyError; an existing ID under `check_exists` raises ComponentExists and changes nothing; otherwise the junction (given, or built with defaults) is stored under its ID, findable by `get_junction`, and no other table changes |
| Adders.AddReservoir | oopnet/utils/adders/add_element.py:93-114 | the same for reservoirs |
| Adders.AddTank | oopnet/utils/adders/add_element.py:117-138 | the same for tanks |
| Adders.AddPipe | oopnet/utils/adders/add_element.py:141-162 | the same for pipes |
| Adders.AddPump | oopnet/utils/adders/add_element.py:165-186 | the same for pumps |
| Adders.AddValve | oopnet/utils/adders/add_element.py:189-210 | the same for valves |
| Adders.AddPattern | oopnet/utils/adders/add_element.py:19-41 | the same for patterns; on success the pattern also points back at the network, on failure it is untouched |
| Adders.AddCurve | oopnet/utils/adders/add_element.py:44-66 | the same for curves |
| Adders.AddNode | oopnet/utils/adders/add_element.py:213-234 | an ID used by any node raises ComponentExists whatever `check_exists` says; a non-node then raises TypeError; a node goes into the table of its kind and `get_node` finds it; failure changes nothing; no two nodes ever come to share an ID |
| Adders.AddLink | oopnet/utils/adders/add_element.py:237-258 | the same for links |
| Decorators.ReaderDecorator.constructor | oopnet/reader/decorator_reader/decorators.py:46-55 | only the arguments that are not None are assigned; the others keep the defaults "", 0 and no function |
| Decorators.ReaderDecorator.SetSectionname | oopnet/reader/decorator_reader/decorators.py:18-20 | the setter changes the section name and nothing else |
| Decorators.ReaderDecorator.SetFunctionname | oopnet/reader/decorator_reader/decorators.py:26-28 | the setter changes the function name and nothing else |
| Decorators.ReaderDecorator.SetPriority | oopnet/reader/decorator_reader/decorators.py:34-36 | the setter changes the priority and nothing else |
| Decorators.ReaderDecorator.SetReaderfunction | oopnet/reader/decorator_reader/decorators.py:42-44 | the setter changes the reader function and nothing else |
| Decorators.SetAll | oopnet/reader/decorator_reader/decorators.py:14-44 | after the four setters the getters return exactly the values set, whatever was there before |
| Decorators.MakeRegistering | oopnet/reader/decorator_reader/decorators.py:58-72 | the registering factory carries the wrapped factory's name and doc |
| Decorators.Decorate | oopnet/reader/decorator_reader/decorators.py:60-69 | a decorated function behaves as the wrapped decorator made it, and records the factory and its positional and keyword arguments |
| Decorators.SectionReaderBody | oopnet/reader/decorator_reader/decorators.py:75-82 | the undecorated `section_reader` wraps a function in one that returns what it returns |
| Decorators.SectionReader | oopnet/reader/decorator_reader/decorators.py:84 | the rebound `section_reader` keeps its name and doc |
| Decorators.SectionReaderTransparent | oopnet/reader/decorator_reader/decorators.py:75-84 | a reader decorated with `@section_reader(title, priority)` computes what the reader computes and carries `(title, priority)` and `section_reader` |
| MapTags.ApplyRecord | oopnet/reader/decorator_reader/read_network_map_tags.py:16-21 | a record without tokens raises IndexError and one naming an unknown node raises NotFound, both changing nothing; for a known node, x becomes the second token when there is one and it parses, y becomes the third only when there are three tokens and both parse; a bad second token raises ValueError with nothing set, a bad third one after x is set; no other node changes |
| MapTags.ApplyBlock | oopnet/reader/decorator_reader/read_network_map_tags.py:15-21 | reading a block keeps the same set of nodes with coordinates |
| MapTags.FailureStops | oopnet/reader/decorator_reader/read_network_map_tags.py:15-21 | once a record has raised, the later records change nothing |
| MapTags.ApplyCoordinateRecord | oopnet/reader/decorator_reader/read_network_map_tags.py:16-21 | one loop pass sets the node coordinates to what the record makes of them, with the same exception, and leaves every other node attribute unchanged |
| MapTags.ReadCoordinates | oopnet/reader/decorator_reader/read_network_map_tags.py:6-21 | `read_coordinates` sets the coordinates of all nodes to what the block makes of them, stops at the first exception, and leaves every other node attribute unchanged |
| MapTags.ExtraTokensIgnored | oopnet/reader/decorator_reader/read_network_map_tags.py:18-21 | tokens after the third play no part |
| MapTags.NameOnlyChangesNothing | oopnet/reader/decorator_reader/read_network_map_tags.py:17-21 | a record holding only a known node name changes nothing and raises nothing |
| MapTags.LastRecordWins | oopnet/reader/decorator_reader/read_network_map_tags.py:15-21 | the last complete record for a node decides its coordinates |
| MapTags.ApplyBlockSnoc | oopnet/reader/decorator_reader/read_network_map_tags.py:15-16 | after records that raised nothing, the next record acts on their result |
| MapTags.RecordSetsBoth | oopnet/reader/decorator_reader/read_network_map_tags.py:17-21 | a record with a known name and two numbers sets both coordinates of that node |
| MapTags.UnnamedNodesKeepCoords | oopnet/reader/decorator_reader/read_network_map_tags.py:15-21 | a node that no record names keeps its coordinates |
| MapTags.ReadVertices | oopnet/reader/decorator_reader/read_network_map_tags.py:24-36 | accepts any block, raises nothing and changes nothing |
| MapTags.ReadLabels | oopnet/reader/decorator_reader/read_network_map_tags.py:39-51 | accepts any block, raises nothing and changes nothing |
| MapTags.ReadBackdrop | oopnet/reader/decorator_reader/read_network_map_tags.py:54-66 | accepts any block, raises nothing and changes nothing |
| MapTags.ReadTags | oopnet/reader/decorator_reader/read_network_map_tags.py:69-81 | accepts any block, raises nothing and changes nothing |
| PyStr.RemoveAll | oopnet/reader/decorator_reader/read.py:27 | `replace('\n', '')` drops every newline and keeps every other character as often as it occurs |
| PyStr.RemoveAllConcat | oopnet/reader/decorator_reader/read.py:27 | `replace` works piece by piece, so the kept characters stay in their order |
| PyStr.LStrip | oopnet/reader/decorator_reader/read.py:27 | the result is a suffix with only whitespace removed before it and no whitespace at its start |
| PyStr.RStrip | oopnet/reader/decorator_reader/read.py:27 | the result is a prefix with only whitespace removed after it and no whitespace at its end |
| PyStr.Strip | oopnet/reader/decorator_reader/read.py:27 | the result is a contiguous part of the string with only whitespace outside it and no whitespace at either of its ends |
| PyStr.CollapseSpacing | oopnet/reader/decorator_reader/read.py:27 | after `re.sub(r'\s+', ' ', ...)` the only whitespace is single plain spaces |
| PyStr.CollapseKeepsWords | oopnet/reader/decorator_reader/read.py:27 | collapsing whitespace keeps every other character in order |
| PyStr.LStripKeepsWords | oopnet/reader/decorator_reader/read.py:27 | stripping keeps every non-whitespace character in order |
| PyStr.NormalizeIsNormalized | oopnet/reader/decorator_reader/read.py:27 | a cleaned line has single spaces between words and none at either end |
| PyStr.NormalizeFixesNormalized | oopnet/reader/decorator_reader/read.py:27 | cleaning a clean line changes nothing |
| PyStr.StripClean | oopnet/reader/decorator_reader/read.py:34 | stripping a string without whitespace at its ends changes nothing |
| PyStr.CollapsePlain | oopnet/reader/decorator_reader/read.py:27 | collapsing a string that has only single plain spaces changes nothing |
| PyStr.SplitOnCount | oopnet/reader/decorator_reader/read.py:34-35 | `split(';')` yields one piece more than there are separators |
| PyStr.SplitOnPieces | oopnet/reader/decorator_reader/read.py:34 | no piece holds the separator, and every character of a piece comes from the string |
| PyStr.SplitOnFirst | oopnet/reader/decorator_reader/read.py:34 | the first piece is the text before the first separator |
| PyStr.JoinSplitOn | oopnet/reader/decorator_reader/read.py:34 | joining the pieces with the separator gives the string back |
| PyStr.SplitOnJoin | oopnet/reader/decorator_reader/read.py:34 | splitting a join of separator-free pieces gives the pieces back |
| PyStr.WordsOfNormalized | oopnet/reader/decorator_reader/read.py:34 | splitting a clean non-empty string on spaces yields non-empty words without whitespace |
| PyStr.TakeWord | oopnet/reader/decorator_reader/read.py:34 | the first word is the prefix up to the first whitespace character |
| PyStr.WordsCons | oopnet/reader/decorator_reader/read.py:34 | a non-whitespace character in front joins the first word when that starts the string, and is a word of its own otherwise |
| PyStr.WordsLeadingSpace | oopnet/reader/decorator_reader/read.py:27 | leading whitespace separates no word |
| PyStr.WordsSnocSpace | oopnet/reader/decorator_reader/read.py:27 | trailing whitespace separates no word |
| PyStr.WordsLStrip | oopnet/reader/decorator_reader/read.py:27 | `lstrip` keeps the words |
| PyStr.WordsRStrip | oopnet/reader/decorator_reader/read.py:27 | `rstrip` keeps the words |
| PyStr.WordsCollapse | oopnet/reader/decorator_reader/read.py:27 | `re.sub(r'\s+', ' ', ...)` keeps the words: every whitespace run becomes a separator, none disappears |
| PyStr.SplitNormalizedIsWords | oopnet/reader/decorator_reader/read.py:27-34 | on a clean line, `split(' ')` yields exactly the maximal runs of non-whitespace characters |
| PyStr.SplitAfterSpace | oopnet/reader/decorator_reader/read.py:27-34 | a single space in a clean line ends one piece, and the rest is again a clean line with the same words |
| PyStr.NormalizeSplitIsWords | oopnet/reader/decorator_reader/read.py:27-34 | after the cleaning, `split(' ')` gives exactly the words of the line without its newlines, as `str.split()` would; only a blank line cleans to the empty string |
| PyStr.NormalizeKeepsWords | oopnet/reader/decorator_reader/read.py:27 | cleaning a line drops whitespace only: its non-whitespace characters stay, in order |
| PyStr.RemoveNewlinesKeepsWords | oopnet/reader/decorator_reader/read.py:27 | dropping newlines keeps every non-whitespace character in order |
| PyStr.RStripKeepsWords | oopnet/reader/decorator_reader/read.py:27 | `rstrip` keeps every non-whitespace character in order |
| PyStr.WordsNonEmpty | oopnet/reader/decorator_reader/read.py:34 | no piece of a string with single inner spaces is empty, except a first one before a leading space |
| Splitter.HeaderName | oopnet/reader/decorator_reader/read.py:30 | `line[1:-1]` is the line without its first and last character, and empty for a shorter line |
| Splitter.Initial | oopnet/reader/decorator_reader/read.py:23-25 | the splitter starts with one empty TITLE block, which is current |
| Splitter.Step | oopnet/reader/decorator_reader/read.py:28-39 | one line keeps the blocks valid and the current block present |
| Splitter.SplitLinesSnoc | oopnet/reader/decorator_reader/read.py:26-39 | one more line takes one more step |
| Splitter.SplitLine | oopnet/reader/decorator_reader/read.py:27-39 | the loop body skips, opens a block or appends a record exactly as the step of the fold does |
| Splitter.FileSplitter | oopnet/reader/decorator_reader/read.py:11-40 | `filesplitter` returns the blocks of the fold over the file's lines |
| Splitter.RunKeepsBlocks | oopnet/reader/decorator_reader/read.py:29-39 | blocks are never removed or reordered; new names only go to the end |
| Splitter.TitleBlockFirst | oopnet/reader/decorator_reader/read.py:24-25 | there is always a TITLE block, and it is the first |
| Splitter.RecordsAppend | oopnet/reader/decorator_reader/read.py:32-39 | lines without a header append their records, in order, to the current block, and change nothing else |
| Splitter.RecordsBeforeHeader | oopnet/reader/decorator_reader/read.py:24-39 | without a header every record lands in TITLE, in input order, and TITLE is the only block |
| Splitter.HeaderResets | oopnet/reader/decorator_reader/read.py:29-31 | after `[NAME]` and header-free lines the block NAME holds exactly those lines' records; a repeated header discards earlier ones |
| Splitter.SkipChangesNothing | oopnet/reader/decorator_reader/read.py:28 | an empty line or a `;` comment line changes nothing |
| Splitter.ClassifyAfterCleaning | oopnet/reader/decorator_reader/read.py:27 | a line and its cleaned form are classified alike |
| Splitter.ValuesShape | oopnet/reader/decorator_reader/read.py:34 | each value of a cleaned record line is non-empty and holds neither whitespace nor `;` |
| Splitter.RecordShape | oopnet/reader/decorator_reader/read.py:33-38 | a record has at least one value, none empty or holding whitespace or `;`; it has a comment exactly when the cleaned line holds one `;`, and the comment is the stripped text after it |
| Reader.Insert | oopnet/reader/decorator_reader/read.py:63 | inserting adds exactly the one registration |
| Reader.InsertSorted | oopnet/reader/decorator_reader/read.py:63 | inserting into a priority-sorted list keeps it sorted |
| Reader.SortSorted | oopnet/reader/decorator_reader/read.py:63 | `sorted(..., key=priority)` is in ascending priority and keeps the length |
| Reader.SortPermutes | oopnet/reader/decorator_reader/read.py:63 | sorting loses and adds no registration |
| Reader.WithPriority | oopnet/reader/decorator_reader/read.py:63 | the registrations of one priority are registrations of that priority from the list |
| Reader.InsertStable | oopnet/reader/decorator_reader/read.py:63 | insertion puts a registration ahead of the others of its priority |
| Reader.SortStable | oopnet/reader/decorator_reader/read.py:63 | the sort is stable: equal priorities keep the order they were found in |
| Reader.PresentCount | oopnet/reader/decorator_reader/read.py:65 | a registration is kept as often as it occurs when its section is in the file, and dropped otherwise |
| Reader.PresentMembers | oopnet/reader/decorator_reader/read.py:65 | only registrations of sections in the file are kept |
| Reader.PresentSorted | oopnet/reader/decorator_reader/read.py:65 | leaving registrations out keeps the priority order |
| Reader.PresentPrefix | oopnet/reader/decorator_reader/read.py:64-65 | the readers called for the first registrations are the first readers called for all of them |
| Reader.PresentSnoc | oopnet/reader/decorator_reader/read.py:64-65 | one more registration is kept exactly when its section is in the file |
| Reader.PlanProperties | oopnet/reader/decorator_reader/read.py:63-66 | the readers `read` calls are in ascending priority, stable among equal priorities, each for a section in the file, each as often as registered |
| Reader.HandlerEffect | oopnet/reader/decorator_reader/read.py:66 | a reader other than COORDINATES changes no coordinate, only a reader of a section outside the map sections changes the title and settings, and a registration without a function raises |
| Reader.Dispatched | oopnet/reader/decorator_reader/read.py:64-66 | dispatching the readers keeps the same set of nodes with coordinates |
| Reader.DispatchedSnoc | oopnet/reader/decorator_reader/read.py:64-66 | after readers that raised nothing, the next registration's reader acts on their result if its section is present |
| Reader.DispatchStops | oopnet/reader/decorator_reader/read.py:64-66 | once a reader has raised, the later readers change nothing |
| Reader.NoCoordinatesReaderNoChange | oopnet/reader/decorator_reader/read.py:64-66 | without the COORDINATES reader no coordinate changes |
| Reader.MapReadersKeepGlobals | oopnet/reader/decorator_reader/read.py:64-66 | without readers of sections outside the map sections, the title and settings stay as they were |
| Reader.AbsentSectionsIgnored | oopnet/reader/decorator_reader/read.py:65 | registrations whose section is absent can be left out without changing anything |
| Reader.CallHandler | oopnet/reader/decorator_reader/read.py:66 | one reader call has the reader's effect on the node coordinates and on the title and settings, and changes no table, no conversion count and no other node attribute |
| Reader.CallOther | oopnet/reader/decorator_reader/read.py:66 | a reader of a section outside the map sections sets the title and settings its effect gives, raises what it gives, and touches no table and no node |
| Reader.CallMapReader | oopnet/reader/decorator_reader/read.py:66 | a map-section reader has its effect on the node coordinates and changes no other node attribute |
| Reader.CallNoOpReader | oopnet/reader/decorator_reader/read_network_map_tags.py:24-81 | the VERTICES, LABELS, BACKDROP and TAGS readers raise nothing |
| Reader.Finish | oopnet/reader/decorator_reader/read.py:68-77 | after the readers, a report or times setting that is still missing gets its default and one that a reader set is kept; the converter runs once; no table and no node changes |
| Reader.Dispatch | oopnet/reader/decorator_reader/read.py:64-66 | the loop calls the readers of the present sections in order until one raises; its effect on coordinates, title and settings is the dispatch fold, and no table changes |
| Reader.RunReaders | oopnet/reader/decorator_reader/read.py:63-77 | the readers run in plan order; on success a report or times setting the readers left missing gets its default, one they set is kept, and the converter runs once; on failure the settings are what the readers left and nothing is converted |
| Reader.Read | oopnet/reader/decorator_reader/read.py:43-79 | `read` returns a fresh network, calls the plan's readers on the file's blocks, takes the title from them, and on success keeps the report and times the readers set and defaults the missing ones; on failure nothing is defaulted or converted |
| Writer.TextFile.Print | oopnet/writer/decorator_writer/write_network_components.py:18 | a print call is appended to the file's output |
| Writer.CellPrints | oopnet/writer/decorator_writer/write_network_components.py:19-30 | every attribute print holds one item and ends with a space |
| Writer.Record | oopnet/writer/decorator_writer/write_network_components.py:18-33 | a record starts with the ID and raises exactly as its attributes do |
| Writer.PresentCellsPrinted | oopnet/writer/decorator_writer/write_network_components.py:19-30 | without an attribute that raises, exactly the present attributes are printed, one print each, in column order, with no placeholder for absent ones |
| Writer.CellsStop | oopnet/writer/decorator_writer/write_network_components.py:19-30 | once an attribute has raised, the later ones print nothing |
| Writer.FirstRaiseStops | oopnet/writer/decorator_writer/write_network_components.py:18-33 | the first attribute that raises ends the record: the ones before it are printed; the later ones, the comment and the record end are not |
| Writer.CellPrintsPrefix | oopnet/writer/decorator_writer/write_network_components.py:19-30 | what a record prints for its first columns does not depend on later columns |
| Writer.CommentIffPresent | oopnet/writer/decorator_writer/write_network_components.py:31-33 | a record that raises nothing holds the `; comment` print exactly when the element has a comment, just before the record end |
| Writer.ConcatAllPass | oopnet/writer/decorator_writer/write_network_components.py:17-33 | when no record raises, the section body is every record, in store order |
| Writer.ConcatStops | oopnet/writer/decorator_writer/write_network_components.py:17-33 | once a record has raised, the later records print nothing |
| Writer.ConcatFirstFailure | oopnet/writer/decorator_writer/write_network_components.py:17-33 | when record k is the first to raise, the body is the earlier records in full, then what record k printed, and it ends with that exception |
| Writer.ConcatSnoc | oopnet/writer/decorator_writer/write_network_components.py:17-33 | one more record after records that all printed appends its prints and takes its outcome |
| Writer.Section | oopnet/writer/decorator_writer/write_network_components.py:13-34 | a section starts with the `[NAME]` line and the column comment, and raises exactly as its records do |
| Writer.RecordsAt | oopnet/writer/decorator_writer/write_network_components.py:17-33 | the i-th record written is the i-th row's record |
| Writer.RecordsSnoc | oopnet/writer/decorator_writer/write_network_components.py:17-33 | one more row after rows that all printed appends that row's record |
| Writer.RecordsStop | oopnet/writer/decorator_writer/write_network_components.py:17-33 | once a row has raised, the later rows write nothing |
| Writer.DemandListFirstOnly | oopnet/writer/decorator_writer/write_network_components.py:21-25 | a list-valued demand prints like its first value alone |
| Writer.PatternListFirstOnly | oopnet/writer/decorator_writer/write_network_components.py:26-30 | a list-valued demand pattern prints like its first pattern alone |
| Writer.NodeRecordRaisesIffMisfit | oopnet/writer/decorator_writer/write_network_components.py:17-78 | a node's record raises exactly when the node is of another kind than its section, or has an empty demand or pattern list |
| Writer.LinkRecordRaisesIffMisfit | oopnet/writer/decorator_writer/write_network_components.py:86-150 | a link's record raises exactly when the link is of another kind than its section, or is a valve whose `valvetype` was never set |
| Writer.LinkRecordNamesEndpoints | oopnet/writer/decorator_writer/write_network_components.py:87-91 | a link record starts with the link's ID and its endpoints' IDs, whatever the section |
| Writer.RowsAllPass | oopnet/writer/decorator_writer/write_network_components.py:17-33 | rows whose columns all print make a section body that never raises |
| Writer.NodeSectionComplete | oopnet/writer/decorator_writer/write_network_components.py:13-78 | when every node fits, the node section prints the header, every node's full record in store order and the closing line, and raises nothing |
| Writer.LinkSectionComplete | oopnet/writer/decorator_writer/write_network_components.py:81-151 | when every link fits, the link section prints the header, every link's full record in store order and the closing line, and raises nothing |
| Writer.EmittersExactlyPositive | oopnet/writer/decorator_writer/write_network_components.py:154-162 | when every node is a junction, the emitter body lists exactly the junctions with a positive coefficient, as ID and coefficient, in store order, and raises nothing |
| Writer.TitleSection | oopnet/writer/decorator_writer/write_network_components.py:4-9 | the title section is the header, the title when there is one, and an empty line |
| Writer.WriteTitle | oopnet/writer/decorator_writer/write_network_components.py:4-9 | `write_title` prints the title section |
| Writer.WriteRecord | oopnet/writer/decorator_writer/write_network_components.py:18-33 | one loop pass prints the record of the element and raises as the record does |
| Writer.WriteHeader | oopnet/writer/decorator_writer/write_network_components.py:14-15 | the header and column comment are printed |
| Writer.WriteBody | oopnet/writer/decorator_writer/write_network_components.py:17-33 | the loop prints each row's record until one raises |
| Writer.WriteSection | oopnet/writer/decorator_writer/write_network_components.py:13-34 | a section writer prints the header, the records, and the closing line unless a record raised |
| Writer.WriteJunctions | oopnet/writer/decorator_writer/write_network_components.py:12-34 | `write_junctions` prints the JUNCTIONS section over the junctions in store order |
| Writer.WriteReservoirs | oopnet/writer/decorator_writer/write_network_components.py:37-51 | `write_reservoirs` prints the RESERVOIRS section over the reservoirs in store order |
| Writer.WriteTanks | oopnet/writer/decorator_writer/write_network_components.py:54-78 | `write_tanks` prints the TANKS section over the tanks in store order |
| Writer.WritePipes | oopnet/writer/decorator_writer/write_network_components.py:81-105 | `write_pipes` prints the PIPES section over the pipes in store order |
| Writer.WritePumps | oopnet/writer/decorator_writer/write_network_components.py:108-126 | `write_pumps` prints the PUMPS section over the pumps in store order |
| Writer.WriteValves | oopnet/writer/decorator_writer/write_network_components.py:129-151 | `write_valves` prints the VALVES section over the valves in store order |
| Writer.WriteEmitterBody | oopnet/writer/decorator_writer/write_network_components.py:158-161 | the emitter loop prints each junction's emitter record until one raises |
| Writer.WriteEmitterSection | oopnet/writer/decorator_writer/write_network_components.py:156-162 | the emitter section is the header, the emitter records and, unless one raised, the closing line |
| Writer.WriteEmitter | oopnet/writer/decorator_writer/write_network_components.py:154-162 | `write_emitter` prints the EMITTERS section over the junctions in store order |
| SpecialGetters.Neighbors | oopnet/utils/getters/special_getters.py:12-13 | the neighbours are exactly the stored pipes that share an endpoint with the pipe and have another ID |
| SpecialGetters.NeighborsAppend | oopnet/utils/getters/special_getters.py:13 | the neighbours keep store order |
| SpecialGetters.NeighborsCount | oopnet/utils/getters/special_getters.py:13 | each neighbour occurs as often as in the store, and a non-neighbour not at all |
| SpecialGetters.GetNeighbor | oopnet/utils/getters/special_getters.py:3-14 | `getneighbor` returns exactly the network's pipes that share an endpoint with the pipe and have another ID |
| SpecialGetters.Reached | oopnet/utils/getters/special_getters.py:27-28 | the neighbours of neighbours are stored pipes |
| SpecialGetters.WithoutId | oopnet/utils/getters/special_getters.py:29 | exactly the pipes whose ID is not the given one are kept |
| SpecialGetters.WithoutIdCount | oopnet/utils/getters/special_getters.py:29 | a pipe with another ID keeps all its occurrences |
| SpecialGetters.RemoveFirst | oopnet/utils/getters/special_getters.py:32 | `list.remove` takes away one occurrence, if there is one |
| SpecialGetters.RemoveEachOnce | oopnet/utils/getters/special_getters.py:30-32 | the removal loop keeps only pipes that were there |
| SpecialGetters.RemoveEachOnceCount | oopnet/utils/getters/special_getters.py:30-32 | the removal loop takes away as many occurrences of each pipe as there are direct neighbours equal to it, and no more than there are |
| SpecialGetters.Dedup | oopnet/utils/getters/special_getters.py:33 | `list(set(...))` holds each pipe exactly once, deduplicating by identity (the shown pipe classes are unhashable; see "## Left out") |
| SpecialGetters.StrLeTotal | oopnet/utils/getters/special_getters.py:34 | any two IDs are ordered |
| SpecialGetters.InsertById | oopnet/utils/getters/special_getters.py:34 | inserting adds exactly the one pipe |
| SpecialGetters.SortById | oopnet/utils/getters/special_getters.py:34 | sorting by ID is a permutation |
| SpecialGetters.InsertByIdSorted | oopnet/utils/getters/special_getters.py:34 | inserting into a list sorted by ID keeps it sorted |
| SpecialGetters.SortByIdSorted | oopnet/utils/getters/special_getters.py:34 | the sorted list is in ID order |
| SpecialGetters.SortKeepsNoDuplicates | oopnet/utils/getters/special_getters.py:33-34 | sorting a list without duplicates gives a list without duplicates |
| SpecialGetters.SortKeepsMembers | oopnet/utils/getters/special_getters.py:34 | sorting keeps exactly the same pipes |
| SpecialGetters.Candidates | oopnet/utils/getters/special_getters.py:25-29 | the candidates are stored pipes |
| SpecialGetters.AsWrittenMember | oopnet/utils/getters/special_getters.py:25-34 | as written, a pipe is returned exactly when it occurs more often among the candidates than among the direct neighbours, and never with the query pipe's ID |
| SpecialGetters.AsWrittenProperties | oopnet/utils/getters/special_getters.py:25-34 | as written, the result is in ID order without duplicates |
| SpecialGetters.GetNextNeighbor | oopnet/utils/getters/special_getters.py:16-35 | the two loops, the filter, the dedup and the sort compute the as-written next neighbours over the network's pipes |
| SpecialGetters.ExtendByNeighbors | oopnet/utils/getters/special_getters.py:26-28 | the `+=` loop collects the neighbours of each direct neighbour, one list after the other |
| SpecialGetters.RemoveOnceEach | oopnet/utils/getters/special_getters.py:30-32 | the removal loop removes the first occurrence of each direct neighbour still present, one after the other |
| SpecialGetters.RemoveNeighborsAndSort | oopnet/utils/getters/special_getters.py:29-34 | from the collected neighbours of neighbours, the ID filter, the removal loop, the dedup and the sort give the as-written next neighbours |
| SpecialGetters.DirectNeighborSurvives | oopnet/utils/getters/special_getters.py:30-32 | a direct neighbour reached through two other neighbours survives the removal loop and is returned as a next neighbour once pipes are hashable |
| SpecialGetters.NotIn | oopnet/utils/getters/special_getters.py:30-32 | exactly the pipes that are not among the given ones are kept |
| SpecialGetters.NextNeighborsExact | oopnet/utils/getters/special_getters.py:16-35 | corrected: the result is in ID order without duplicates, and holds exactly the neighbours of neighbours that are neither the query pipe by ID nor a direct neighbour |
| SpecialGetters.SourceList | oopnet/utils/getters/special_getters.py:37-46 | `getsourcelist` returns the tanks followed by the reservoirs in store order, in each of its branches |

## Left out

- The element store class itself (`binary_search`, `_rename`) is not part of this model. The store is modelled by its observable behaviour: a dictionary that remembers insertion order.
- Element equality is object identity. Python's dataclass equality compares field values, which agrees with identity for elements with distinct IDs.
- The `set()` in `getnextneighbor` has no defined order. The model keeps first occurrences; the contracts state only what holds for any order.
- The hashing of elements is not modelled. Deduplication is by identity.
- SpecialGetters.GetNextNeighbor: the pipe classes are dataclasses with value equality and no `__hash__`, so they are unhashable, and `list(set(nnpipes))` at special_getters.py:33 raises TypeError whenever any candidate is left after the removal loop. The model does not raise there: it deduplicates by identity, as the code evidently intends. The same holds for RemoveNeighborsAndSort, Dedup, AsWrittenProperties and NextNeighborsAsWritten.
- The emitter coefficient of a junction is assumed to be a number. The TypeError that `None > 0.0` raises at write_network_components.py:160 therefore cannot occur in the model.
- `getsourceneighbors` calls `getneighbornode`, which the source has commented out, so it is not modelled.
- SpecialGetters.SourceList: returns a new list in every branch. The source returns the tank store itself when there are no reservoirs, so aliasing of that list is not captured.
- Adders.AddJunction: keyword arguments other than `id` are not modelled (the same holds for AddReservoir, AddTank, AddPipe, AddPump, AddValve, AddPattern and AddCurve). An element built from keyword arguments carries the class defaults.
- Adders.AddNode: the TypeError message omits the type name that the source formats into it (the same for AddLink).
- Python truthiness of `if not junction:` is read as "no object given"; element objects are always truthy.
- The unit converter (`convert`) is not part of this model. It is counted (`conversions`), not executed.
- `list_all_functions_with_decorator` is not part of this model. The registrations it finds are a parameter of `Reader.Read`.
- The readers of the sections other than the map sections (junctions, pipes, options, report, times, ...) are not part of this model. Their effect on the title and on the report and times settings, and what they raise, is a parameter `other` of `Reader.Read`.
- Reader.Read: the readers of the component sections add no element in the model, since their effect on the tables is not modelled. The tables of a freshly read network are therefore empty, and a COORDINATES record fails with NotFound.
- File I/O: the reader takes the file's lines as a parameter, and the writer's output is the list of `print` calls made.
- `float()` parsing is a parameter `parse`. A token it rejects raises ValueError.
- Number formatting by `print` is not modelled; numbers are kept as numbers, and a tank's volume curve is printed as the Curve object.
- The `is not None` guards on the stores in the writers always hold in the model, since a store is never None.
- The writers of the other sections and the writer registration decorator are not part of this model. The registered priorities are recorded as the constant `Writer.WriterPriorities`.
- A valve whose `valvetype` was explicitly set to None is not distinguished from one on which it was never set: `ValveData.valvetype == None` stands for the missing attribute, so the valve writer raises for both, where Python prints the first without that column.
- Instances of the base classes `Node` and `Link` themselves are not modelled: every node is a junction, reservoir or tank, and every link a pipe, pump or valve.
- Pattern, curve and rule `id` setters are not part of this model, so their IDs are constant.
- Plotting, the report reader and the examples are outside the modelled core.

## Findings

| source | as written | input that shows it | evidently intended | confidence | as-written member | corrected member |
|---|---|---|---|---|---|---|
| oopnet/utils/adders/add_element.py:12-15 | `self.message` is assigned only when no message is given, but is read in every case | `ComponentExistsException("J-1", "taken")` raises AttributeError instead of building the exception | keep the given message, use the default one only when none is given | not executed | Adders.ComponentExistsAsWritten, Adders.ExplicitMessageRaises | Adders.NewComponentExists, Adders.ComponentExistsCorrection |
| oopnet/utils/getters/special_getters.py:30-32 | `list.remove` drops only the first occurrence of each direct neighbour from the candidates | pipes P1..P4 with P2, P3, P4 all starting at P1's end node: P2 is reached through P3 and through P4, and one removal leaves it in the candidates; the duplicate shows in the result only once pipes are hashable, since with the dataclasses as shown line 33 raises TypeError first | a next neighbour is never a direct neighbour | not executed | SpecialGetters.DirectNeighborSurvives, SpecialGetters.NextNeighborsAsWritten | SpecialGetters.NextNeighborsExact, SpecialGetters.NextNeighbors |
