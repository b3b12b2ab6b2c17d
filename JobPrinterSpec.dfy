/** What the two search-job printers of internal/search/job/printers.go write,
    stated as pure functions of the job tree: the s-expression text of
    `SexpFormat` and the Mermaid flowchart of `PrettyMermaid`, the latter as a
    trace of node and edge items together with the next unused node id.
    The imperative printers in module JobPrinters are proved to write exactly
    these; module JobPrinterProofs proves what the output looks like. */
module JobPrinterSpec {

  import opened Strings

  /** A search job. The leaf kinds (repository search, text search, structural,
      commit and symbol search, excluded-repository computation, no-op) are
      printed only through their `Name()`, so a leaf is its name. `Timeout`
      carries the text of `timeout.String()`. Job kinds the printers do not
      support (they panic on them) are not part of this datatype. */
  datatype Job =
    | Leaf(name: string)
    | And(children: seq<Job>)
    | Or(children: seq<Job>)
    | Parallel(children: seq<Job>)
    | Priority(required: Job, optional: Job)
    | Timeout(timeout: string, child: Job)
    | Limit(limit: int, child: Job)
    | SubRepoPermsFilter(child: Job)

  /** What `writeSep` appends: the separator, then `indent` once per level of depth. */
  function SepText(sep: string, indent: string, depth: int): string
  {
    sep + Repeat(indent, depth)
  }

  // ---------------------------------------------------------------------------
  // S-expressions

  /** A parenthesised term: `"("`, the keyword, the inner text, `")"`. */
  function Wrap(keyword: string, inner: string): string
  {
    "(" + keyword + inner + ")"
  }

  /** The text `writeSexp` appends for job `j` when the depth counter is `d`. */
  function SexpAt(j: Job, sep: string, indent: string, d: int): string
    decreases j
  {
    match j
    case Leaf(name) => name
    case And(cs) => Wrap("AND", ChildrenAt(cs, sep, indent, d + 1))
    case Or(cs) => Wrap("OR", ChildrenAt(cs, sep, indent, d + 1))
    case Parallel(cs) => Wrap("PARALLEL", ChildrenAt(cs, sep, indent, d + 1))
    case Priority(r, o) => PriorityAt(SexpAt(r, sep, indent, d + 2), SexpAt(o, sep, indent, d + 2), sep, indent, d)
    case Timeout(t, c) => Wrap("TIMEOUT", ParamAt(t, SexpAt(c, sep, indent, d + 1), sep, indent, d + 1))
    case Limit(n, c) => Wrap("LIMIT", ParamAt(Itoa(n), SexpAt(c, sep, indent, d + 1), sep, indent, d + 1))
    case SubRepoPermsFilter(c) =>
      Wrap("FILTER", ParamAt("SubRepoPermissions", SexpAt(c, sep, indent, d + 1), sep, indent, d + 1))
  }

  /** A PRIORITY term at depth counter `d` whose parts print as `req` and `opt`:
      each part in its own REQUIRED or OPTIONAL term one level deeper. */
  function PriorityAt(req: string, opt: string, sep: string, indent: string, d: int): string
  {
    Wrap("PRIORITY",
      SepText(sep, indent, d + 1) + Wrap("REQUIRED", SepText(sep, indent, d + 2) + req)
      + SepText(sep, indent, d + 1) + Wrap("OPTIONAL", SepText(sep, indent, d + 2) + opt))
  }

  /** The inside of a one-parameter term: separator, parameter, separator, child. */
  function ParamAt(param: string, child: string, sep: string, indent: string, e: int): string
  {
    SepText(sep, indent, e) + param + SepText(sep, indent, e) + child
  }

  /** The text the loop over the children of an AND, OR or PARALLEL job
      appends, depth counter `e`: a separator before each child. */
  function ChildrenAt(cs: seq<Job>, sep: string, indent: string, e: int): string
    decreases cs
  {
    if cs == [] then ""
    else ChildrenAt(cs[..|cs| - 1], sep, indent, e) + SepText(sep, indent, e) + SexpAt(cs[|cs| - 1], sep, indent, e)
  }

  /** Reference form of the single-line s-expression, written the way one reads it:
      `(AND c1 c2)`, `(PRIORITY (REQUIRED r) (OPTIONAL o))`, `(LIMIT n c)`, ... */
  function Flat(j: Job): string
    decreases j
  {
    match j
    case Leaf(name) => name
    case And(cs) => "(AND" + FlatChildren(cs) + ")"
    case Or(cs) => "(OR" + FlatChildren(cs) + ")"
    case Parallel(cs) => "(PARALLEL" + FlatChildren(cs) + ")"
    case Priority(r, o) => "(PRIORITY (REQUIRED " + Flat(r) + ") (OPTIONAL " + Flat(o) + "))"
    case Timeout(t, c) => "(TIMEOUT " + t + " " + Flat(c) + ")"
    case Limit(n, c) => "(LIMIT " + Itoa(n) + " " + Flat(c) + ")"
    case SubRepoPermsFilter(c) => "(FILTER SubRepoPermissions " + Flat(c) + ")"
  }

  /** `" " + Flat(c)` for each child, in order. */
  function FlatChildren(cs: seq<Job>): string
    decreases cs
  {
    if cs == [] then "" else " " + Flat(cs[0]) + FlatChildren(cs[1..])
  }

  /** The opaque label strings of a job: leaf names and timeout texts. */
  function Labels(j: Job): set<string>
    decreases j
  {
    match j
    case Leaf(name) => {name}
    case And(cs) => ChildLabels(cs)
    case Or(cs) => ChildLabels(cs)
    case Parallel(cs) => ChildLabels(cs)
    case Priority(r, o) => Labels(r) + Labels(o)
    case Timeout(t, c) => {t} + Labels(c)
    case Limit(_, c) => Labels(c)
    case SubRepoPermsFilter(c) => Labels(c)
  }

  function ChildLabels(cs: seq<Job>): set<string>
    decreases cs
  {
    if cs == [] then {} else ChildLabels(cs[..|cs| - 1]) + Labels(cs[|cs| - 1])
  }

  // ---------------------------------------------------------------------------
  // Mermaid flowchart

  datatype NodeStyle = DefaultStyle | RoundedStyle

  /** One `writeNode` or `writeEdge` call, with the depth it was given. */
  datatype Item =
    | NodeItem(id: int, style: NodeStyle, text: string, depth: int)
    | EdgeItem(src: int, dst: int, depth: int)

  /** The text of one item: `id([label])` (rounded) or `id[label]` (default) for
      a node, `src---dst` for an edge, each followed by a newline and two
      spaces per level of depth. */
  function RenderItem(it: Item): string
  {
    match it
    case NodeItem(id, style, text, depth) =>
      var (open, close) := if style == RoundedStyle then ("([", "])") else ("[", "]");
      Itoa(id) + open + text + close + SepText("\n", "  ", depth)
    case EdgeItem(src, dst, depth) => Itoa(src) + "---" + Itoa(dst) + SepText("\n", "  ", depth)
  }

  /** The text of a trace of items, in order. */
  function Render(items: seq<Item>): string
  {
    ConcatMap(items, RenderItem)
  }

  /** The items a call of `writeMermaid` writes and the id it leaves behind. */
  datatype Trace = Trace(items: seq<Item>, next: int)

  /** What `writeMermaid` writes for job `j` with depth counter `d` and next id `n`. */
  function MermaidAt(j: Job, d: int, n: int): Trace
    decreases j, 1
  {
    match j
    case Leaf(name) => Trace([NodeItem(n, RoundedStyle, name, d)], n + 1)
    case And(cs) => NaryTrace("AND", cs, d + 1, n)
    case Or(cs) => NaryTrace("OR", cs, d + 1, n)
    case Parallel(cs) => NaryTrace("PARALLEL", cs, d + 1, n)
    case Priority(r, o) => PriorityTrace(r, o, d + 1, n)
    case Timeout(t, c) => ParamTrace("TIMEOUT", t, c, d + 1, n)
    case Limit(l, c) => ParamTrace("LIMIT", Itoa(l), c, d + 1, n)
    case SubRepoPermsFilter(c) => ParamTrace("FILTER", "SubRepoPermissions", c, d + 1, n)
  }

  /** A PRIORITY job, depth already incremented to `e`: its node, an edge to a
      REQUIRED node, an edge from there to the required job, then an edge from
      the PRIORITY node to an OPTIONAL node and from there to the optional job. */
  function PriorityTrace(r: Job, o: Job, e: int, n: int): Trace
    decreases Priority(r, o), 0
  {
    var req := MermaidAt(r, e, n + 2);
    var opt := MermaidAt(o, e, req.next + 1);
    Trace(PriorityItems(req, opt, e, n), opt.next)
  }

  /** The items of a PRIORITY node with id `n`, given the traces of its parts. */
  function PriorityItems(req: Trace, opt: Trace, e: int, n: int): seq<Item>
  {
    [NodeItem(n, RoundedStyle, "PRIORITY", e), EdgeItem(n, n + 1, e),
     NodeItem(n + 1, RoundedStyle, "REQUIRED", e), EdgeItem(n + 1, n + 2, e)]
    + req.items
    + [EdgeItem(n, req.next, e), NodeItem(req.next, RoundedStyle, "OPTIONAL", e), EdgeItem(req.next, req.next + 1, e)]
    + opt.items
  }

  /** An AND, OR or PARALLEL job, depth already incremented to `e`: its node,
      then an edge from it before each child. */
  function NaryTrace(name: string, cs: seq<Job>, e: int, n: int): Trace
    decreases cs, 2
  {
    var kids := ChildrenTrace(n, cs, e, n + 1);
    Trace([NodeItem(n, RoundedStyle, name, e)] + kids.items, kids.next)
  }

  /** The loop over children: before each child, an edge from `src` to the id
      the child's first node will get. */
  function ChildrenTrace(src: int, cs: seq<Job>, e: int, n: int): Trace
    decreases cs, 1
  {
    if cs == [] then Trace([], n)
    else
      var pre := ChildrenTrace(src, cs[..|cs| - 1], e, n);
      var last := MermaidAt(cs[|cs| - 1], e, pre.next);
      Trace(pre.items + [EdgeItem(src, pre.next, e)] + last.items, last.next)
  }

  /** A TIMEOUT, LIMIT or FILTER job, depth already incremented to `e`: its node,
      an edge to a square parameter node, an edge to the child. */
  function ParamTrace(name: string, param: string, c: Job, e: int, n: int): Trace
    decreases c, 2
  {
    var child := MermaidAt(c, e, n + 2);
    Trace(
      [NodeItem(n, RoundedStyle, name, e), EdgeItem(n, n + 1, e),
       NodeItem(n + 1, DefaultStyle, param, e), EdgeItem(n, n + 2, e)]
      + child.items,
      child.next)
  }

  /** How many nodes the flowchart of a job has: one per job, plus the REQUIRED
      and OPTIONAL nodes of a PRIORITY job and the parameter node of a TIMEOUT,
      LIMIT or FILTER job. */
  function NodeCount(j: Job): nat
    decreases j
  {
    match j
    case Leaf(_) => 1
    case And(cs) => 1 + NodeCountList(cs)
    case Or(cs) => 1 + NodeCountList(cs)
    case Parallel(cs) => 1 + NodeCountList(cs)
    case Priority(r, o) => 3 + NodeCount(r) + NodeCount(o)
    case Timeout(_, c) => 2 + NodeCount(c)
    case Limit(_, c) => 2 + NodeCount(c)
    case SubRepoPermsFilter(c) => 2 + NodeCount(c)
  }

  function NodeCountList(cs: seq<Job>): nat
    decreases cs
  {
    if cs == [] then 0 else NodeCountList(cs[..|cs| - 1]) + NodeCount(cs[|cs| - 1])
  }

  /** The ids of the node items of a trace, in the order they were written. */
  function NodeIds(items: seq<Item>): seq<int>
    decreases |items|
  {
    if items == [] then []
    else NodeIds(items[..|items| - 1]) + (if items[|items| - 1].NodeItem? then [items[|items| - 1].id] else [])
  }

  /** `n, n + 1, ..., n + k - 1`. */
  function Consecutive(n: int, k: nat): (r: seq<int>)
    ensures |r| == k && forall i :: 0 <= i < k ==> r[i] == n + i
  {
    seq(k, i => n + i)
  }

  /** Every edge `src---dst` is immediately followed by the node with id `dst`,
      and `src < dst`. */
  ghost predicate EdgesOrdered(items: seq<Item>)
  {
    forall k :: 0 <= k < |items| && items[k].EdgeItem? ==>
      k + 1 < |items| && items[k + 1].NodeItem? && items[k + 1].id == items[k].dst && items[k].src < items[k].dst
  }
}
