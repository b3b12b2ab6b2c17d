# Search-job printers and client components, modelled in Dafny

This project models six pieces of a code-search application:

- the two printers of search-job trees in `internal/search/job/printers.go`: the s-expression printer `SexpFormat` (with its single-line `Sexp` and indented `PrettySexp` forms) and the Mermaid flowchart printer `PrettyMermaid`;
- `ButtonLink`, an element that behaves as a link or as a button and can be activated with the mouse or with Enter;
- the "Import Markdown notebook" button, which checks a chosen file, reads it and hands a notebook to a creation callback;
- the saved-search form of the editor extension, with its field state, change handlers and conditional sections;
- the notice banners shown from the `notices` setting;
- `GetOwnerAndName` of the pull-request auditor's webhook payload.

The printers are modelled imperatively, as in the source:

- a `Buffer` class with a `contents` string;
- `WriteSep`, which appends with a loop;
- recursive writer methods that append in the source's order.

Each writer is proved to append exactly what a pure specification function (`SexpAt`, `MermaidAt`) describes. Properties of those functions are then proved as lemmas:

- the single-line form equals a reference `Flat` rendering;
- parentheses are balanced;
- every newline of the pretty form is followed by exactly the indentation of its depth and then the start of a term;
- flowchart node ids are exactly `0 .. n-1` in order;
- every edge is immediately followed by the node it points to.

The client components are pure functions of their props. Where a component holds state, it is modelled as a class whose methods set that state:

- `ImportButton` holds the import state, the reads started and the notebooks handed over;
- `SavedSearchForm` holds the field values.

Shared helpers:

- `Strings`: the host languages' string operations — Go's `strings.Split`, JavaScript's `split(...)[0]` and `includes`, and `strconv.Itoa` with its inverse;
- `Seqs`: `Array.prototype.filter`;
- `Classes`: the `classnames` helper.

Notable behaviours of the code:

- **ButtonLink's router form wires `onSelect` as its click handler.** `onSelect` is the click handler of the common props (`ButtonLink.tsx:99`), which the router form keeps (`ButtonLink.tsx:123`), so a click on a router link selects as well as navigates.
- **The import title is the text before the first `.snb.md`**, not the name with a trailing suffix stripped. `a.snb.md.snb.md` gives `a`, and `x.snb.md-notes.md` gives `x` (`ImportMarkdownNotebookButton.tsx:69`).
- **An oversized file is rejected before the loading state is set** (`ImportMarkdownNotebookButton.tsx:51-56`). It does not pass through loading.
- **A read whose result is the empty string is rejected like a missing result**, because `!result` is true for it (`ImportMarkdownNotebookButton.tsx:61`).
- **The saved-search email section and the code-monitoring promotion follow the default values the form was created with** (`props.defaultValues?.notify`), not its current values. Exactly one of the two is shown.

## Model

| member | source | states |
|---|---|---|
| JobPrinters.WriteSep | internal/search/job/printers.go:16-24 | appends the separator followed by `indent` once per level of depth (nothing more when `indent` is empty or depth is not positive) |
| JobPrinters.Buffer.WriteString | internal/search/job/printers.go:17 | the buffer grows by exactly the written string |
| JobPrinters.WriteSexp | internal/search/job/printers.go:35-124 | `writeSexp` appends to the buffer exactly the writer-order text of the job at the current depth counter |
| JobPrinters.WriteSexpNary | internal/search/job/printers.go:48-93 | an AND/OR/PARALLEL job appends `(KW`, a separator one level deeper before each child in order, then `)` |
| JobPrinters.WriteSexpPriority | internal/search/job/printers.go:66-84 | a PRIORITY job appends its REQUIRED and OPTIONAL sub-terms, each part two levels deeper |
| JobPrinters.WriteGroup | internal/search/job/printers.go:68-82 | one REQUIRED or OPTIONAL group appends a separator one level deeper, its opening, a separator two levels deeper, the part and `)` |
| JobPrinters.WriteSexpParam | internal/search/job/printers.go:94-120 | TIMEOUT, LIMIT and FILTER append keyword, separator, parameter, separator, child, `)` |
| JobPrinters.SexpWrittenIs | internal/search/job/printers.go:35-124 | what the writer appends is the compositional s-expression `SexpAt` of the job |
| JobPrinters.ChildrenWrittenIs | internal/search/job/printers.go:51-54 | the children loop appends the separated children in order |
| JobPrinters.NaryWrittenIs | internal/search/job/printers.go:48-56 | an n-ary job's appends are the wrapped children text |
| JobPrinters.PriorityWrittenIs | internal/search/job/printers.go:66-84 | a PRIORITY job's appends are its `SexpAt` text |
| JobPrinters.ParamWrittenIs | internal/search/job/printers.go:94-120 | a one-parameter job's appends are its `SexpAt` text |
| JobPrinters.SexpFormat | internal/search/job/printers.go:31-127 | the returned string is the s-expression of the job at depth 0 with the given separator and indent |
| JobPrinters.Sexp | internal/search/job/printers.go:129-132 | the single-line form equals the reference rendering `Flat`: `(AND a b)`, `(PRIORITY (REQUIRED r) (OPTIONAL o))`, `(LIMIT n c)` |
| JobPrinters.PrettySexp | internal/search/job/printers.go:134-137 | the pretty form is the newline/two-space s-expression; with plain labels it is balanced and every newline is followed by exactly the indentation of its depth and then the start of a term |
| JobPrinters.WriteEdge | internal/search/job/printers.go:146-151 | appends `src---dst`, a newline and two spaces per level |
| JobPrinters.WriteNode | internal/search/job/printers.go:153-166 | appends `id([label])` or `id[label]` by style plus the line separator, and returns the id plus one |
| JobPrinters.WriteMermaid | internal/search/job/printers.go:175-263 | `writeMermaid` appends exactly the writer-order items of the job and returns the next unused id |
| JobPrinters.WriteMermaidNary | internal/search/job/printers.go:188-231 | an n-ary job writes its node, then an edge from it before each child |
| JobPrinters.WriteMermaidPriority | internal/search/job/printers.go:206-222 | a PRIORITY job writes PRIORITY, REQUIRED and OPTIONAL nodes and their edges in the source's order |
| JobPrinters.WriteMermaidRequired | internal/search/job/printers.go:207-214 | the PRIORITY node, an edge to the REQUIRED node, that node, an edge to the required part, then the part; returns the next id |
| JobPrinters.WriteMermaidOptional | internal/search/job/printers.go:216-220 | an edge from the PRIORITY node to the OPTIONAL node, that node, an edge to the optional part, then the part; returns the next id |
| JobPrinters.WriteMermaidParam | internal/search/job/printers.go:232-258 | TIMEOUT, LIMIT and FILTER write their node, an edge to a square parameter node, an edge to the child |
| JobPrinters.MermaidWrittenIs | internal/search/job/printers.go:175-263 | the writer's appends are the rendered `MermaidAt` trace and its next id |
| JobPrinters.NaryMermaidWrittenIs | internal/search/job/printers.go:188-205 | the n-ary writer's appends are the rendered n-ary trace |
| JobPrinters.EdgesWrittenIs | internal/search/job/printers.go:192-195 | the children loop's appends are the rendered edges-and-children trace |
| JobPrinters.PriorityMermaidWrittenIs | internal/search/job/printers.go:206-222 | the PRIORITY writer's appends are the rendered PRIORITY trace |
| JobPrinters.RequiredWrittenIs | internal/search/job/printers.go:207-214 | the REQUIRED half's appends are its four items followed by the rendered trace of the required part |
| JobPrinters.OptionalWrittenIs | internal/search/job/printers.go:216-220 | the OPTIONAL half's appends are its three items followed by the rendered trace of the optional part |
| JobPrinters.ParamMermaidWrittenIs | internal/search/job/printers.go:232-258 | the parameter writer's appends are the rendered parameter trace |
| JobPrinters.PrettyMermaid | internal/search/job/printers.go:169-266 | the flowchart is the header plus the rendered trace; node ids are `0 .. NodeCount-1` in writing order; every edge is directly followed by its target node and points forward |
| JobPrinterProofs.SexpIsFlat | internal/search/job/printers.go:129-132 | with separator space and no indent, `SexpAt` at any depth is the reference `Flat` text |
| JobPrinterProofs.ChildrenFlat | internal/search/job/printers.go:51-54 | the unindented children loop gives `" " + Flat(c)` per child |
| JobPrinterProofs.PriorityAtFlat | internal/search/job/printers.go:66-84 | the unindented PRIORITY term is `(PRIORITY (REQUIRED r) (OPTIONAL o))` |
| JobPrinterProofs.SexpBalanced | internal/search/job/printers.go:31-127 | every s-expression has balanced parentheses when its labels, separator and indent hold none |
| JobPrinterProofs.PriorityBalanced | internal/search/job/printers.go:66-84 | the PRIORITY term of balanced parts is balanced |
| JobPrinterProofs.ParamAtBalanced | internal/search/job/printers.go:94-120 | a parameter term of a balanced child is balanced |
| JobPrinterProofs.ChildrenBalanced | internal/search/job/printers.go:51-54 | the children loop of balanced children is balanced |
| JobPrinterProofs.BalancedWrap | internal/search/job/printers.go:49-55 | wrapping a balanced text in `(KW` and `)` stays balanced |
| JobPrinterProofs.PrettyIndented | internal/search/job/printers.go:134-137 | in the pretty form every newline is followed by exactly two spaces per level of its depth and then the start of a term (not a space), and the text is balanced |
| JobPrinterProofs.PrettyNary | internal/search/job/printers.go:48-93 | the pretty n-ary term keeps the indentation property |
| JobPrinterProofs.PrettyPriority | internal/search/job/printers.go:66-84 | the pretty PRIORITY term keeps the indentation property |
| JobPrinterProofs.PrettyTimeout | internal/search/job/printers.go:94-102 | the pretty TIMEOUT term keeps the indentation property |
| JobPrinterProofs.PrettyLimit | internal/search/job/printers.go:103-111 | the pretty LIMIT term keeps the indentation property |
| JobPrinterProofs.PrettyFilter | internal/search/job/printers.go:112-120 | the pretty FILTER term keeps the indentation property |
| JobPrinterProofs.ChildrenIndented | internal/search/job/printers.go:51-54 | the pretty children loop is indented and balanced |
| JobPrinterProofs.MermaidIds | internal/search/job/printers.go:175-263 | the node ids a job writes are `n, n+1, ...` in order, as many as `NodeCount`, and the next id is `n + NodeCount` |
| JobPrinterProofs.PriorityIds | internal/search/job/printers.go:206-222 | the PRIORITY case writes `3 + NodeCount(r) + NodeCount(o)` consecutive ids |
| JobPrinterProofs.NaryIds | internal/search/job/printers.go:188-205 | an n-ary job writes `1 + NodeCountList(cs)` consecutive ids |
| JobPrinterProofs.ChildrenIds | internal/search/job/printers.go:192-195 | the children loop writes the children's ids consecutively |
| JobPrinterProofs.ParamIds | internal/search/job/printers.go:232-258 | a parameter job writes `2 + NodeCount(c)` consecutive ids |
| JobPrinterProofs.MermaidEdges | internal/search/job/printers.go:175-263 | every edge written is directly followed by the node with its target id, and the source id is smaller |
| JobPrinterProofs.PriorityEdges | internal/search/job/printers.go:206-222 | the same for the PRIORITY case |
| JobPrinterProofs.NaryEdges | internal/search/job/printers.go:188-205 | the same for the n-ary case |
| JobPrinterProofs.ChildrenEdges | internal/search/job/printers.go:192-195 | the same for the children loop |
| JobPrinterProofs.ParamEdges | internal/search/job/printers.go:232-258 | the same for the parameter case |
| Strings.Itoa | internal/search/job/printers.go:107 | `strconv.Itoa` gives a non-empty text |
| Strings.ItoaDigits | internal/search/job/printers.go:107 | the text is decimal digits, with a leading minus sign exactly for negative numbers |
| Strings.NatToDecimalDigits | internal/search/job/printers.go:107 | the decimal text of a natural number is digits only and starts with `0` only for zero |
| Strings.ItoaRoundTrip | internal/search/job/printers.go:107 | the decimal text reads back to the number it was made from |
| Strings.Split | dev/pr-auditor/webhook.go:49 | `strings.Split` on one character gives at least one piece |
| Strings.SplitJoin | dev/pr-auditor/webhook.go:49 | joining the pieces with the separator gives the string back |
| Strings.SplitPieces | dev/pr-auditor/webhook.go:49 | no piece holds the separator; there is one piece more than separators |
| Strings.JoinSplit | dev/pr-auditor/webhook.go:49 | splitting joined separator-free pieces gives the pieces back |
| Strings.SplitHead | dev/pr-auditor/webhook.go:49-50 | the first piece is the longest separator-free prefix, and the remaining pieces are those of the text after the separator |
| Webhook.GetOwnerAndName | dev/pr-auditor/webhook.go:48-51 | the owner is the text before the first slash, the name the text between the first and second slash (or to the end) |
| Webhook.OwnerAndNameRoundTrip | dev/pr-auditor/webhook.go:48-51 | for a full name with exactly one slash, owner + "/" + name is the full name and neither part holds a slash |
| Webhook.OwnerAndNameOfJoin | dev/pr-auditor/webhook.go:48-51 | the owner and the name of `owner/name` are `owner` and `name` whenever neither holds a slash |
| Seqs.Filter | client/web/src/global/Notices.tsx:68 | `filter` keeps only elements satisfying the predicate and never grows |
| Seqs.FilterSpec | client/web/src/global/Notices.tsx:68 | `filter` keeps order and keeps each satisfying element as often as it occurs, dropping all others |
| Seqs.FilterMembership | client/web/src/global/Notices.tsx:68 | an element is kept iff it occurs and satisfies the predicate |
| Classes.Present | client/wildcard/src/components/ButtonLink/ButtonLink.tsx:93 | the class arguments that contribute are the non-empty ones |
| Classes.ClassNames | client/wildcard/src/components/ButtonLink/ButtonLink.tsx:93 | the class attribute is empty iff every argument is falsy |
| Classes.ClassNamesSingle | client/web/src/global/Notices.tsx:29 | one argument gives that argument |
| Classes.ClassNamesPair | client/web/src/global/Notices.tsx:29 | two arguments give both separated by a space, or the one that is given |
| Classes.ClassNamesSplit | client/wildcard/src/components/ButtonLink/ButtonLink.tsx:93 | splitting the attribute on spaces gives back the given class names in order |
| ButtonLink.OnKeyPress | client/wildcard/src/components/ButtonLink/ButtonLink.tsx:74-78 | a key press selects iff the element is enabled and the key is Enter with no modifier |
| ButtonLink.OnClick | client/wildcard/src/components/ButtonLink/ButtonLink.tsx:80-89 | a click always prevents the default first; it selects iff enabled and returns `false` iff disabled |
| ButtonLink.ClassArgs | client/wildcard/src/components/ButtonLink/ButtonLink.tsx:93 | the caller's class comes first; `disabled` and the disabled class are added exactly when disabled |
| ButtonLink.Render | client/wildcard/src/components/ButtonLink/ButtonLink.tsx:91-126 | an anchor with empty `href` and the click handler on click and auxiliary click iff there is no truthy destination or it is disabled, else a router link to the destination; tab index override, else -1 when disabled, else 0; role `button` iff anchor or `pressed` given; aria attributes mirror `pressed` and the tooltip |
| ButtonLink.Click | client/wildcard/src/components/ButtonLink/ButtonLink.tsx:99-113 | the element's click runs the wired handler: the click handler on an anchor, plain selection on a router link |
| ButtonLink.KeyPress | client/wildcard/src/components/ButtonLink/ButtonLink.tsx:100 | both forms run the key-press handler |
| ButtonLink.DisabledNeverSelects | client/wildcard/src/components/ButtonLink/ButtonLink.tsx:84-86 | a disabled element never selects: click and auxiliary click only prevent the default, key presses do nothing |
| ButtonLink.EnabledSelectsOnce | client/wildcard/src/components/ButtonLink/ButtonLink.tsx:74-99 | an enabled element selects exactly once per click in either form, and once per plain Enter press |
| ButtonLink.ModifiedEnterNeverSelects | client/wildcard/src/components/ButtonLink/ButtonLink.tsx:12-13 | Enter with Ctrl, Shift, Meta or Alt never selects |
| ButtonLink.DisabledClass | client/wildcard/src/components/ButtonLink/ButtonLink.tsx:93 | the `disabled` class is present iff disabled; an enabled element carries exactly the caller's class |
| Notices.AlertVariant | client/web/src/global/Notices.tsx:14-15 | the variant is `info` iff the location is `top`, none otherwise |
| Notices.NoticeAlert | client/web/src/global/Notices.tsx:23-39 | the alert shows the message with the given test id; dismissible iff the notice is, with storage key `notice.` + message |
| Notices.NoticeAlertClasses | client/web/src/global/Notices.tsx:29 | a top notice carries only the caller's class; others carry `bg transparent border` before it |
| Notices.Shown | client/web/src/global/Notices.tsx:68 | only notices for the location are kept |
| Notices.ShownSpec | client/web/src/global/Notices.tsx:68 | the kept notices are exactly those for the location, in order and multiplicity |
| Notices.RenderNotices | client/web/src/global/Notices.tsx:54-80 | nothing for invalid settings or a non-array; otherwise one alert per matching notice in order, container class from the style class and `className` |
| Notices.RenderedIff | client/web/src/global/Notices.tsx:60-71 | something is rendered iff the settings are valid, `notices` is an array, and some notice is for the location |
| Notices.RenderedAlertsAreConfigured | client/web/src/global/Notices.tsx:68-77 | every alert shows the message of a configured notice for the location, with test id `notice-alert` and its dismissibility |
| ImportNotebook.Select | client/web/src/search/notebook/listPage/ImportMarkdownNotebookButton.tsx:43-54 | accepted iff exactly one file of at most 1,000,000 bytes; otherwise the invalid-file error for a wrong count and the too-large error for an oversized file |
| ImportNotebook.SizeBoundary | client/web/src/search/notebook/listPage/ImportMarkdownNotebookButton.tsx:43-56 | a single file of any size is accepted iff its size is at most 1,000,000 bytes (the limit is inclusive), and is otherwise rejected as too large; any other number of files is rejected as invalid |
| ImportNotebook.Title | client/web/src/search/notebook/listPage/ImportMarkdownNotebookButton.tsx:69 | the title is the name's prefix up to the first `.snb.md`, or the whole name |
| ImportNotebook.TitleStripsSuffix | client/web/src/search/notebook/listPage/ImportMarkdownNotebookButton.tsx:69 | `name + ".snb.md"` gives `name` when the suffix does not start earlier |
| ImportNotebook.TitleOfDotFreeName | client/web/src/search/notebook/listPage/ImportMarkdownNotebookButton.tsx:69 | a dot-free name gets the suffix stripped exactly |
| ImportNotebook.TitleWithoutSuffix | client/web/src/search/notebook/listPage/ImportMarkdownNotebookButton.tsx:69 | a name without the suffix is its own title |
| ImportNotebook.NotebookFor | client/web/src/search/notebook/listPage/ImportMarkdownNotebookButton.tsx:65-73 | the notebook has that title, one block per converted block in order with the i-th generated id, is not public, and is in the user's namespace |
| ImportNotebook.ImportButton.ButtonLabel | client/web/src/search/notebook/listPage/ImportMarkdownNotebookButton.tsx:83-85 | the label is `Importing...` iff the button is disabled (loading), else `Import Markdown notebook` |
| ImportNotebook.ImportButton.OnFileInputChange | client/web/src/search/notebook/listPage/ImportMarkdownNotebookButton.tsx:43-76 | a rejected selection sets its error and reads nothing; an accepted one sets loading and starts reading that file; every file read is within the size limit |
| ImportNotebook.ImportButton.OnLoad | client/web/src/search/notebook/listPage/ImportMarkdownNotebookButton.tsx:60-74 | an unusable result sets the invalid-file error; text becomes one notebook handed over, with the state left unchanged |
| SavedSearch.Fallback | client/vscode/src/webview/search-panel/SavedSearchForm.tsx:36-40 | the fallback is `false` for the switches and the empty string otherwise, and is falsy |
| SavedSearch.InitialValues | client/vscode/src/webview/search-panel/SavedSearchForm.tsx:35-41 | the five form fields (no id); each holds its default when truthy and its fallback otherwise |
| SavedSearch.InitialWellTyped | client/vscode/src/webview/search-panel/SavedSearchForm.tsx:35-41 | defaults of the right types give a well-typed form, including a `null` webhook URL becoming `''` |
| SavedSearch.InitialIdempotent | client/vscode/src/webview/search-panel/SavedSearchForm.tsx:35-41 | building the initial state from an initial state changes nothing |
| SavedSearch.Changed | client/vscode/src/webview/search-panel/SavedSearchForm.tsx:48-56 | the changed field holds `checked` for a checkbox and `value` otherwise; every other field is unchanged |
| SavedSearch.BoundChangeWellTyped | client/vscode/src/webview/search-panel/SavedSearchForm.tsx:94-166 | the form's bound inputs keep it well typed, never touch the Slack switch and never add an id |
| SavedSearch.IsUnsupportedNotifyQuery | client/vscode/src/webview/search-panel/SavedSearchForm.tsx:66-69 | true iff some notification is on and the query contains neither `type:diff` nor `type:commit` |
| SavedSearch.View | client/vscode/src/webview/search-panel/SavedSearchForm.tsx:121-205 | the email section iff the default `notify` is truthy, the promotion otherwise; the Slack section, warnings, admin hint, submit and error alert by their conditions |
| SavedSearch.WarningsExclusive | client/vscode/src/webview/search-panel/SavedSearchForm.tsx:172-183 | with email notifications on, exactly one warning shows; with none on, neither |
| SavedSearch.CommitQuerySupported | client/vscode/src/webview/search-panel/SavedSearchForm.tsx:66-69 | a query mentioning `type:diff` or `type:commit` is never warned about |
| SavedSearch.EmailSectionFixed | client/vscode/src/webview/search-panel/SavedSearchForm.tsx:121-205 | editing a bound input never shows or hides the email section or the promotion |
| SavedSearch.SavedSearchForm.OnInputChange | client/vscode/src/webview/search-panel/SavedSearchForm.tsx:48-56 | the state becomes the changed state for that field |
| SavedSearch.SavedSearchForm.HandleSubmit | client/vscode/src/webview/search-panel/SavedSearchForm.tsx:58-61 | prevents the default submission, then submits the current values, changing nothing |

## Left out

- **Unsupported job kinds.** The printers panic on any other job kind, so the `Job` datatype has only the supported kinds and the panic branch cannot be reached.
- **Leaf jobs are their `Name()`.** `TimeoutJob` carries the text its duration's `String()` produces. Neither name nor duration formatting is modelled.
- **Printer counters are parameters.** The depth and id counters are closure variables in Go; here they are passed to each writer, and the Mermaid writer returns the next id, as the closure does. Go restores the depth on every path, so the buffer contents are the same.
- JobPrinters.PrettySexp: the balance and indentation guarantee holds only for jobs whose labels are non-empty, do not start with a space, and hold no parentheses or newlines. Leaf names and duration texts are unconstrained in the source.
- JobPrinterProofs.SexpBalanced: states balance only for labels without parentheses, for the same reason.
- **`bytes.Buffer` is only its contents.** Allocation and growth are not modelled.
- **ButtonLink's `rest` props are not modelled.** The source spreads them last, so they can override `onClick`, `role` and the other attributes.
- **ButtonLink's rendering and framework wiring are not modelled:** `ref` forwarding, children, the `Button` styling, the router's own navigation, and which handler `onSelect` actually is (it defaults to a no-op). Selection appears as an effect.
- **Notices rendering and storage are not modelled:** the Markdown rendering of a notice's message, how `DismissibleAlert` stores its dismissal, and React keys. `isSettingsValid` is a boolean parameter.
- **The import button's opening step is left out:** the telemetry call and the click on the hidden file input (`ImportMarkdownNotebookButton.tsx:38-41`).
- **Import file reading, ids and conversion are modelled only as inputs.**
  - The asynchronous reader is two methods: starting reads, and a load event for one of them. Load events may arrive in any order.
  - `uuid.v4`, the Markdown converter and the block serializer are function parameters.
  - The creation callback is recorded, not run.
- **The saved-search code-monitoring URL is left out** (`SavedSearchForm.tsx:71-76`). It needs `URLSearchParams` encoding.
- **The saved-search form's static markup is left out:** page header, labels and texts.
- **Webhook payload: only the repository part is modelled.** The other parts and `EventPayload.Dump` (formatted printing) are outside this model.
- Webhook.GetOwnerAndName: requires a slash in the full name. The source indexes the second piece unconditionally and panics without one.
