/** The printers of internal/search/job/printers.go as the imperative code they
    are: a byte buffer appended to, a depth counter the recursive writer bumps
    around each keyword term, and (for Mermaid) a node id counter bumped by every
    node. Each writer is proved to append exactly the text the functions of
    module JobPrinterSpec describe, so the properties of module
    JobPrinterProofs carry over to the printed strings. */
module JobPrinters {

  import opened Strings
  import opened JobPrinterSpec
  import opened JobPrinterProofs

  /** Go's `bytes.Buffer`, as far as the printers use it. */
  class Buffer {
    var contents: string

    constructor ()
      ensures contents == ""
    {
      contents := "";
    }

    method WriteString(s: string)
      modifies this
      ensures contents == old(contents) + s
    {
      contents := contents + s;
    }
  }

  /** `writeSep`: the separator, then `indent` once per level of `depth`; an
      empty `indent` returns straight after the separator. */
  method WriteSep(b: Buffer, sep: string, indent: string, depth: int)
    modifies b
    ensures b.contents == old(b.contents) + SepText(sep, indent, depth)
  {
    b.WriteString(sep);
    if indent == "" {
      RepeatEmpty(depth);
      return;
    }
    var i := 0;
    while i < depth
      invariant 0 <= i && (depth >= 0 ==> i <= depth) && (depth < 0 ==> i == 0)
      invariant b.contents == old(b.contents) + sep + Repeat(indent, i)
    {
      b.WriteString(indent);
      i := i + 1;
    }
  }

  // ---------------------------------------------------------------------------
  // S-expressions

  /** The buffer after `writeSexp(j)` starting from contents `acc` and depth
      counter `d`: the writer's own appends, in its order. */
  ghost function SexpWritten(acc: string, j: Job, sep: string, indent: string, d: int): string
    decreases j, 2
  {
    match j
    case Leaf(name) => acc + name
    case And(cs) => NaryWritten(acc, "AND", cs, sep, indent, d)
    case Or(cs) => NaryWritten(acc, "OR", cs, sep, indent, d)
    case Parallel(cs) => NaryWritten(acc, "PARALLEL", cs, sep, indent, d)
    case Priority(r, o) => PriorityWritten(acc, r, o, sep, indent, d)
    case Timeout(t, c) => ParamWritten(acc, "TIMEOUT", t, c, sep, indent, d)
    case Limit(n, c) => ParamWritten(acc, "LIMIT", Itoa(n), c, sep, indent, d)
    case SubRepoPermsFilter(c) => ParamWritten(acc, "FILTER", "SubRepoPermissions", c, sep, indent, d)
  }

  ghost function NaryWritten(acc: string, kw: string, cs: seq<Job>, sep: string, indent: string, d: int): string
    decreases cs, 1
  {
    ChildrenWritten(acc + ("(" + kw), cs, sep, indent, d + 1) + ")"
  }

  ghost function ChildrenWritten(acc: string, cs: seq<Job>, sep: string, indent: string, e: int): string
    decreases cs, 0
  {
    if cs == [] then acc
    else SexpWritten(ChildrenWritten(acc, cs[..|cs| - 1], sep, indent, e) + SepText(sep, indent, e), cs[|cs| - 1], sep, indent, e)
  }

  ghost function PriorityWritten(acc: string, r: Job, o: Job, sep: string, indent: string, d: int): string
    decreases Priority(r, o), 0
  {
    var a := GroupWritten(acc + "(PRIORITY", "(REQUIRED", r, sep, indent, d);
    GroupWritten(a, "(OPTIONAL", o, sep, indent, d) + ")"
  }

  /** One REQUIRED or OPTIONAL group of a PRIORITY term at depth counter `d`. */
  ghost function GroupWritten(acc: string, open: string, j: Job, sep: string, indent: string, d: int): string
    decreases j, 3
  {
    SexpWritten(acc + SepText(sep, indent, d + 1) + open + SepText(sep, indent, d + 2), j, sep, indent, d + 2) + ")"
  }

  ghost function ParamWritten(acc: string, kw: string, param: string, c: Job, sep: string, indent: string, d: int): string
    decreases c, 3
  {
    var s := SepText(sep, indent, d + 1);
    SexpWritten(acc + ("(" + kw) + s + param + s, c, sep, indent, d + 1) + ")"
  }

  // The `writeSexp` closure of `SexpFormat` shares the buffer, the two format
  // options and a depth counter that each keyword term bumps on entry and
  // restores on exit. The methods below take the counter's value on entry as
  // `depth` and hand the bumped value to what they call.

  /** `writeSexp`: appends the s-expression of `job`. */
  method WriteSexp(b: Buffer, sep: string, indent: string, depth: int, job: Job)
    modifies b
    ensures b.contents == SexpWritten(old(b.contents), job, sep, indent, depth)
    decreases job, 2
  {
    match job
    case Leaf(name) => b.WriteString(name);
    case And(cs) => WriteSexpNary(b, sep, indent, depth, "AND", cs);
    case Or(cs) => WriteSexpNary(b, sep, indent, depth, "OR", cs);
    case Parallel(cs) => WriteSexpNary(b, sep, indent, depth, "PARALLEL", cs);
    case Priority(r, o) => WriteSexpPriority(b, sep, indent, depth, r, o);
    case Timeout(t, c) => WriteSexpParam(b, sep, indent, depth, "TIMEOUT", t, c);
    case Limit(n, c) => WriteSexpParam(b, sep, indent, depth, "LIMIT", Itoa(n), c);
    case SubRepoPermsFilter(c) => WriteSexpParam(b, sep, indent, depth, "FILTER", "SubRepoPermissions", c);
  }

  /** The AND, OR and PARALLEL cases: the keyword, then a separator and the
      term of each child one level deeper, then the closing parenthesis. */
  method WriteSexpNary(b: Buffer, sep: string, indent: string, depth: int, kw: string, cs: seq<Job>)
    modifies b
    ensures b.contents == NaryWritten(old(b.contents), kw, cs, sep, indent, depth)
    decreases cs, 1
  {
    b.WriteString("(" + kw);
    ghost var c1 := b.contents;
    var i := 0;
    while i < |cs|
      invariant 0 <= i <= |cs|
      invariant b.contents == ChildrenWritten(c1, cs[..i], sep, indent, depth + 1)
    {
      WriteSep(b, sep, indent, depth + 1);
      WriteSexp(b, sep, indent, depth + 1, cs[i]);
      assert cs[..i + 1][..i] == cs[..i];
      i := i + 1;
    }
    assert cs[..|cs|] == cs;
    b.WriteString(")");
  }

  /** The PRIORITY case: REQUIRED and OPTIONAL terms one level deeper, each
      holding its part one more level deeper. */
  method WriteSexpPriority(b: Buffer, sep: string, indent: string, depth: int, r: Job, o: Job)
    modifies b
    ensures b.contents == PriorityWritten(old(b.contents), r, o, sep, indent, depth)
    decreases Priority(r, o), 0
  {
    b.WriteString("(PRIORITY");
    WriteGroup(b, sep, indent, depth, "(REQUIRED", r);
    WriteGroup(b, sep, indent, depth, "(OPTIONAL", o);
    b.WriteString(")");
  }

  /** A separator one level deeper, the group's opening, a separator two
      levels deeper, the part, and the group's closing parenthesis. */
  method WriteGroup(b: Buffer, sep: string, indent: string, depth: int, open: string, j: Job)
    modifies b
    ensures b.contents == GroupWritten(old(b.contents), open, j, sep, indent, depth)
    decreases j, 3
  {
    WriteSep(b, sep, indent, depth + 1);
    b.WriteString(open);
    WriteSep(b, sep, indent, depth + 2);
    WriteSexp(b, sep, indent, depth + 2, j);
    b.WriteString(")");
  }

  /** The TIMEOUT, LIMIT and FILTER cases: the keyword, then the parameter and
      the child one level deeper, each after a separator. */
  method WriteSexpParam(b: Buffer, sep: string, indent: string, depth: int, kw: string, param: string, c: Job)
    modifies b
    ensures b.contents == ParamWritten(old(b.contents), kw, param, c, sep, indent, depth)
    decreases c, 3
  {
    b.WriteString("(" + kw);
    WriteSep(b, sep, indent, depth + 1);
    b.WriteString(param);
    WriteSep(b, sep, indent, depth + 1);
    WriteSexp(b, sep, indent, depth + 1, c);
    b.WriteString(")");
  }

  /** What `writeSexp` appends is the job's s-expression, whatever the buffer held. */
  lemma {:induction false} SexpWrittenIs(acc: string, j: Job, sep: string, indent: string, d: int)
    ensures SexpWritten(acc, j, sep, indent, d) == acc + SexpAt(j, sep, indent, d)
    decreases j, 2
  {
    match j
    case Leaf(_) =>
    case And(cs) => NaryWrittenIs(acc, "AND", cs, sep, indent, d);
    case Or(cs) => NaryWrittenIs(acc, "OR", cs, sep, indent, d);
    case Parallel(cs) => NaryWrittenIs(acc, "PARALLEL", cs, sep, indent, d);
    case Priority(r, o) => PriorityWrittenIs(acc, r, o, sep, indent, d);
    case Timeout(t, c) => ParamWrittenIs(acc, "TIMEOUT", t, c, sep, indent, d);
    case Limit(n, c) => ParamWrittenIs(acc, "LIMIT", Itoa(n), c, sep, indent, d);
    case SubRepoPermsFilter(c) => ParamWrittenIs(acc, "FILTER", "SubRepoPermissions", c, sep, indent, d);
  }

  lemma {:induction false} NaryWrittenIs(acc: string, kw: string, cs: seq<Job>, sep: string, indent: string, d: int)
    ensures NaryWritten(acc, kw, cs, sep, indent, d) == acc + Wrap(kw, ChildrenAt(cs, sep, indent, d + 1))
    decreases cs, 1
  {
    ChildrenWrittenIs(acc + ("(" + kw), cs, sep, indent, d + 1);
    Prepend3(acc, "(" + kw, ChildrenAt(cs, sep, indent, d + 1), ")");
  }

  lemma {:induction false} ChildrenWrittenIs(acc: string, cs: seq<Job>, sep: string, indent: string, e: int)
    ensures ChildrenWritten(acc, cs, sep, indent, e) == acc + ChildrenAt(cs, sep, indent, e)
    decreases cs, 0
  {
    if cs == [] {
      assert acc + [] == acc;
    } else {
      var pre, last := cs[..|cs| - 1], cs[|cs| - 1];
      ChildrenWrittenIs(acc, pre, sep, indent, e);
      SexpWrittenIs(ChildrenWritten(acc, pre, sep, indent, e) + SepText(sep, indent, e), last, sep, indent, e);
      Prepend3(acc, ChildrenAt(pre, sep, indent, e), SepText(sep, indent, e), SexpAt(last, sep, indent, e));
    }
  }

  lemma {:induction false} PriorityWrittenIs(acc: string, r: Job, o: Job, sep: string, indent: string, d: int)
    ensures PriorityWritten(acc, r, o, sep, indent, d) == acc + SexpAt(Priority(r, o), sep, indent, d)
    decreases Priority(r, o), 0
  {
    var s1, s2 := SepText(sep, indent, d + 1), SepText(sep, indent, d + 2);
    var rq, op := SexpAt(r, sep, indent, d + 2), SexpAt(o, sep, indent, d + 2);
    var a0 := acc + "(PRIORITY" + s1 + "(REQUIRED" + s2;
    SexpWrittenIs(a0, r, sep, indent, d + 2);
    var a1 := a0 + rq + ")" + s1 + "(OPTIONAL" + s2;
    SexpWrittenIs(a1, o, sep, indent, d + 2);
    Prepend12(acc, "(PRIORITY", s1, "(REQUIRED", s2, rq, ")", s1, "(OPTIONAL", s2, op, ")", ")");
    PriorityPieces(rq, op, s1, s2, sep, indent, d);
  }

  lemma {:induction false} ParamWrittenIs(acc: string, kw: string, param: string, c: Job, sep: string, indent: string, d: int)
    ensures ParamWritten(acc, kw, param, c, sep, indent, d)
      == acc + Wrap(kw, ParamAt(param, SexpAt(c, sep, indent, d + 1), sep, indent, d + 1))
    decreases c, 3
  {
    var s, x := SepText(sep, indent, d + 1), SexpAt(c, sep, indent, d + 1);
    SexpWrittenIs(acc + ("(" + kw) + s + param + s, c, sep, indent, d + 1);
    Prepend6(acc, "(" + kw, s, param, s, x, ")");
    ParamPieces(kw, param, x, s);
  }

  /** `PRIORITY`'s text, piece by piece in the order the writer appends it. */
  lemma PriorityPieces(rq: string, op: string, s1: string, s2: string, sep: string, indent: string, d: int)
    requires s1 == SepText(sep, indent, d + 1) && s2 == SepText(sep, indent, d + 2)
    ensures PriorityAt(rq, op, sep, indent, d)
      == "(PRIORITY" + s1 + "(REQUIRED" + s2 + rq + ")" + s1 + "(OPTIONAL" + s2 + op + ")" + ")"
  {
    OpenKeywords();
    Regroup12(rq, op, s1, s2, "(PRIORITY", "(REQUIRED", "(OPTIONAL");
  }

  lemma OpenKeywords()
    ensures "(PRIORITY" == "(" + "PRIORITY" && "(REQUIRED" == "(" + "REQUIRED" && "(OPTIONAL" == "(" + "OPTIONAL"
  {
  }

  lemma Regroup12(rq: string, op: string, s1: string, s2: string, p: string, q: string, t: string)
    ensures p + (s1 + (q + (s2 + rq) + ")") + s1 + (t + (s2 + op) + ")")) + ")"
      == p + s1 + q + s2 + rq + ")" + s1 + t + s2 + op + ")" + ")"
  {
  }

  /** A one-parameter term's text, piece by piece in the order the writer appends it. */
  lemma ParamPieces(kw: string, param: string, x: string, s: string)
    ensures "(" + kw + (s + param + s + x) + ")" == "(" + kw + s + param + s + x + ")"
  {
  }

  // Appending pieces one by one appends their concatenation.
  lemma Prepend3(a: string, x1: string, x2: string, x3: string)
    ensures a + x1 + x2 + x3 == a + (x1 + x2 + x3)
  {
  }

  lemma Prepend5(a: string, x1: string, x2: string, x3: string, x4: string, x5: string)
    ensures a + x1 + x2 + x3 + x4 + x5 == a + (x1 + x2 + x3 + x4 + x5)
  {
  }

  lemma Prepend6(a: string, x1: string, x2: string, x3: string, x4: string, x5: string, x6: string)
    ensures a + x1 + x2 + x3 + x4 + x5 + x6 == a + (x1 + x2 + x3 + x4 + x5 + x6)
  {
  }

  lemma Prepend9(a: string, x1: string, x2: string, x3: string, x4: string, x5: string, x6: string,
                 x7: string, x8: string, x9: string)
    ensures a + x1 + x2 + x3 + x4 + x5 + x6 + x7 + x8 + x9 == a + (x1 + x2 + x3 + x4 + x5 + x6 + x7 + x8 + x9)
  {
  }

  lemma Prepend12(a: string, x1: string, x2: string, x3: string, x4: string, x5: string, x6: string,
                  x7: string, x8: string, x9: string, x10: string, x11: string, x12: string)
    ensures a + x1 + x2 + x3 + x4 + x5 + x6 + x7 + x8 + x9 + x10 + x11 + x12
         == a + (x1 + x2 + x3 + x4 + x5 + x6 + x7 + x8 + x9 + x10 + x11 + x12)
  {
  }

  /** `SexpFormat`: the s-expression of `job` with separator `sep` and
      indentation unit `indent`, written from depth 0. */
  method SexpFormat(job: Job, sep: string, indent: string) returns (s: string)
    ensures s == SexpAt(job, sep, indent, 0)
  {
    var b := new Buffer();
    WriteSexp(b, sep, indent, 0, job);
    s := b.contents;
    SexpWrittenIs("", job, sep, indent, 0);
    assert "" + SexpAt(job, sep, indent, 0) == SexpAt(job, sep, indent, 0);
  }

  /** `Sexp`: the single-line form, which reads as `(AND a b)`,
      `(PRIORITY (REQUIRED r) (OPTIONAL o))`, `(LIMIT 5 c)` and so on. */
  method Sexp(job: Job) returns (s: string)
    ensures s == Flat(job)
  {
    s := SexpFormat(job, " ", "");
    SexpIsFlat(job, 0);
  }

  /** `PrettySexp`: one term per line, indented by two spaces per level. When
      no label holds a newline or a parenthesis or starts with a space, the
      text is balanced and every newline is followed by two spaces for each
      parenthesis still open there. */
  method PrettySexp(job: Job) returns (s: string)
    ensures s == SexpAt(job, "\n", "  ", 0)
    ensures AllPlain(Labels(job)) ==> PrettyTerm(s, 0)
  {
    s := SexpFormat(job, "\n", "  ");
    if AllPlain(Labels(job)) {
      PrettyIndented(job, 0);
    }
  }

  // ---------------------------------------------------------------------------
  // Mermaid flowchart

  /** `writeEdge`: `src---dst`, then a newline indented to `depth`. */
  method WriteEdge(b: Buffer, depth: int, src: int, dst: int)
    modifies b
    ensures b.contents == old(b.contents) + RenderItem(EdgeItem(src, dst, depth))
  {
    ghost var c0 := b.contents;
    b.WriteString(Itoa(src));
    b.WriteString("---");
    b.WriteString(Itoa(dst));
    WriteSep(b, "\n", "  ", depth);
    Prepend3(c0, Itoa(src), "---", Itoa(dst));
    AppendAssoc(c0, Itoa(src) + "---" + Itoa(dst), SepText("\n", "  ", depth));
  }

  /** `writeNode`: the node `id` with its text in square or rounded brackets,
      then a newline indented to `depth`. The id counter passed by pointer is
      returned incremented. */
  method WriteNode(b: Buffer, depth: int, style: NodeStyle, id: int, text: string) returns (next: int)
    modifies b
    ensures b.contents == old(b.contents) + RenderItem(NodeItem(id, style, text, depth))
    ensures next == id + 1
  {
    ghost var c0 := b.contents;
    var left, right := "[", "]";
    if style == RoundedStyle {
      left, right := "([", "])";
    }
    b.WriteString(Itoa(id));
    b.WriteString(left);
    b.WriteString(text);
    b.WriteString(right);
    WriteSep(b, "\n", "  ", depth);
    Prepend5(c0, Itoa(id), left, text, right, SepText("\n", "  ", depth));
    next := id + 1;
  }

  /** The buffer and next id after a call of `writeMermaid`. */
  datatype Written = Written(text: string, next: int)

  /** The buffer and the id counter after `writeMermaid(j)` starting from
      contents `acc`, depth counter `d` and id `n`: the writer's own appends, in
      its order. */
  ghost function MermaidWritten(acc: string, j: Job, d: int, n: int): Written
    decreases j, 2
  {
    match j
    case Leaf(name) => Written(acc + RenderItem(NodeItem(n, RoundedStyle, name, d)), n + 1)
    case And(cs) => NaryMermaidWritten(acc, "AND", cs, d + 1, n)
    case Or(cs) => NaryMermaidWritten(acc, "OR", cs, d + 1, n)
    case Parallel(cs) => NaryMermaidWritten(acc, "PARALLEL", cs, d + 1, n)
    case Priority(r, o) => PriorityMermaidWritten(acc, r, o, d + 1, n)
    case Timeout(t, c) => ParamMermaidWritten(acc, "TIMEOUT", t, c, d + 1, n)
    case Limit(l, c) => ParamMermaidWritten(acc, "LIMIT", Itoa(l), c, d + 1, n)
    case SubRepoPermsFilter(c) => ParamMermaidWritten(acc, "FILTER", "SubRepoPermissions", c, d + 1, n)
  }

  ghost function NaryMermaidWritten(acc: string, kw: string, cs: seq<Job>, e: int, n: int): Written
    decreases cs, 1
  {
    EdgesWritten(acc + RenderItem(NodeItem(n, RoundedStyle, kw, e)), n, cs, e, n + 1)
  }

  ghost function EdgesWritten(acc: string, src: int, cs: seq<Job>, e: int, n: int): Written
    decreases cs, 0
  {
    if cs == [] then Written(acc, n)
    else
      var pre := EdgesWritten(acc, src, cs[..|cs| - 1], e, n);
      MermaidWritten(pre.text + RenderItem(EdgeItem(src, pre.next, e)), cs[|cs| - 1], e, pre.next)
  }

  ghost function PriorityMermaidWritten(acc: string, r: Job, o: Job, e: int, n: int): Written
    decreases Priority(r, o), 0
  {
    var req := RequiredMermaidWritten(acc, r, e, n);
    OptionalMermaidWritten(req.text, n, o, e, req.next)
  }

  /** The first half of the PRIORITY case: the PRIORITY node `n`, an edge to
      the REQUIRED node, an edge from there, and the required job. */
  ghost function RequiredMermaidWritten(acc: string, r: Job, e: int, n: int): Written
    decreases r, 3
  {
    MermaidWritten(
      acc + RenderItem(NodeItem(n, RoundedStyle, "PRIORITY", e)) + RenderItem(EdgeItem(n, n + 1, e))
      + RenderItem(NodeItem(n + 1, RoundedStyle, "REQUIRED", e)) + RenderItem(EdgeItem(n + 1, n + 2, e)),
      r, e, n + 2)
  }

  /** The second half: an edge from the PRIORITY node `src` to the OPTIONAL
      node `m`, an edge from there, and the optional job. */
  ghost function OptionalMermaidWritten(acc: string, src: int, o: Job, e: int, m: int): Written
    decreases o, 3
  {
    MermaidWritten(
      acc + RenderItem(EdgeItem(src, m, e)) + RenderItem(NodeItem(m, RoundedStyle, "OPTIONAL", e))
      + RenderItem(EdgeItem(m, m + 1, e)),
      o, e, m + 1)
  }

  ghost function ParamMermaidWritten(acc: string, kw: string, param: string, c: Job, e: int, n: int): Written
    decreases c, 3
  {
    MermaidWritten(
      acc + RenderItem(NodeItem(n, RoundedStyle, kw, e)) + RenderItem(EdgeItem(n, n + 1, e))
      + RenderItem(NodeItem(n + 1, DefaultStyle, param, e)) + RenderItem(EdgeItem(n, n + 2, e)),
      c, e, n + 2)
  }

  // The `writeMermaid` closure of `PrettyMermaid` shares the buffer, a depth
  // counter restored on exit from every case, and the node id counter, which
  // only grows. The methods below take both counters' values on entry and
  // return the id counter's value on exit, as `writeMermaid` does.

  /** `writeMermaid`: appends the flowchart of `job` and returns the id counter
      past the job's last node. */
  method WriteMermaid(b: Buffer, depth: int, id: int, job: Job) returns (next: int)
    modifies b
    ensures Written(b.contents, next) == MermaidWritten(old(b.contents), job, depth, id)
    decreases job, 2
  {
    match job {
      case Leaf(name) => next := WriteNode(b, depth, RoundedStyle, id, name);
      case And(cs) => next := WriteMermaidNary(b, depth, id, "AND", cs);
      case Or(cs) => next := WriteMermaidNary(b, depth, id, "OR", cs);
      case Parallel(cs) => next := WriteMermaidNary(b, depth, id, "PARALLEL", cs);
      case Priority(r, o) => next := WriteMermaidPriority(b, depth, id, r, o);
      case Timeout(t, c) => next := WriteMermaidParam(b, depth, id, "TIMEOUT", t, c);
      case Limit(l, c) => next := WriteMermaidParam(b, depth, id, "LIMIT", Itoa(l), c);
      case SubRepoPermsFilter(c) => next := WriteMermaidParam(b, depth, id, "FILTER", "SubRepoPermissions", c);
    }
  }

  /** The AND, OR and PARALLEL cases: the keyword node one level deeper, then
      for each child an edge from that node and the child's flowchart. */
  method WriteMermaidNary(b: Buffer, depth: int, id: int, kw: string, cs: seq<Job>) returns (next: int)
    modifies b
    ensures Written(b.contents, next) == NaryMermaidWritten(old(b.contents), kw, cs, depth + 1, id)
    decreases cs, 1
  {
    var srcId := id;
    next := WriteNode(b, depth + 1, RoundedStyle, id, kw);
    ghost var c1 := b.contents;
    var i := 0;
    while i < |cs|
      invariant 0 <= i <= |cs|
      invariant Written(b.contents, next) == EdgesWritten(c1, srcId, cs[..i], depth + 1, srcId + 1)
    {
      WriteEdge(b, depth + 1, srcId, next);
      next := WriteMermaid(b, depth + 1, next, cs[i]);
      assert cs[..i + 1][..i] == cs[..i];
      i := i + 1;
    }
    assert cs[..|cs|] == cs;
  }

  /** The PRIORITY case: its node one level deeper, an edge to a REQUIRED node
      and from there to the required job's flowchart, then the same for an
      OPTIONAL node and the optional job. */
  method WriteMermaidPriority(b: Buffer, depth: int, id: int, r: Job, o: Job) returns (next: int)
    modifies b
    ensures Written(b.contents, next) == PriorityMermaidWritten(old(b.contents), r, o, depth + 1, id)
    decreases Priority(r, o), 0
  {
    var srcId := id;
    next := WriteMermaidRequired(b, depth, id, r);
    next := WriteMermaidOptional(b, depth, srcId, next, o);
  }

  // The PRIORITY case up to and including the required job.
  method WriteMermaidRequired(b: Buffer, depth: int, id: int, r: Job) returns (next: int)
    modifies b
    ensures Written(b.contents, next) == RequiredMermaidWritten(old(b.contents), r, depth + 1, id)
    decreases r, 3
  {
    var srcId := id;
    next := WriteNode(b, depth + 1, RoundedStyle, id, "PRIORITY");
    var requiredId := next;
    WriteEdge(b, depth + 1, srcId, requiredId);
    next := WriteNode(b, depth + 1, RoundedStyle, next, "REQUIRED");
    WriteEdge(b, depth + 1, requiredId, next);
    next := WriteMermaid(b, depth + 1, next, r);
  }

  // The rest of the PRIORITY case, from the edge to the OPTIONAL node.
  method WriteMermaidOptional(b: Buffer, depth: int, srcId: int, id: int, o: Job) returns (next: int)
    modifies b
    ensures Written(b.contents, next) == OptionalMermaidWritten(old(b.contents), srcId, o, depth + 1, id)
    decreases o, 3
  {
    var optionalId := id;
    WriteEdge(b, depth + 1, srcId, optionalId);
    next := WriteNode(b, depth + 1, RoundedStyle, id, "OPTIONAL");
    WriteEdge(b, depth + 1, optionalId, next);
    next := WriteMermaid(b, depth + 1, next, o);
  }

  /** The TIMEOUT, LIMIT and FILTER cases: its node one level deeper, an edge
      to a square node holding the parameter, an edge to the child's flowchart. */
  method WriteMermaidParam(b: Buffer, depth: int, id: int, kw: string, param: string, c: Job) returns (next: int)
    modifies b
    ensures Written(b.contents, next) == ParamMermaidWritten(old(b.contents), kw, param, c, depth + 1, id)
    decreases c, 3
  {
    var srcId := id;
    next := WriteNode(b, depth + 1, RoundedStyle, id, kw);
    WriteEdge(b, depth + 1, srcId, next);
    next := WriteNode(b, depth + 1, DefaultStyle, next, param);
    WriteEdge(b, depth + 1, srcId, next);
    next := WriteMermaid(b, depth + 1, next, c);
  }

  /** What `writeMermaid` appends is the text of the job's trace, and it leaves
      the id counter at the trace's next id, whatever the buffer held. */
  lemma {:induction false} MermaidWrittenIs(acc: string, j: Job, d: int, n: int)
    ensures MermaidWritten(acc, j, d, n) == Written(acc + Render(MermaidAt(j, d, n).items), MermaidAt(j, d, n).next)
    decreases j, 2
  {
    match j
    case Leaf(_) =>
      ConcatMapSingle(NodeItem(n, RoundedStyle, j.name, d), RenderItem);
    case And(_) => NaryCaseWrittenIs(j, acc, d, n);
    case Or(_) => NaryCaseWrittenIs(j, acc, d, n);
    case Parallel(_) => NaryCaseWrittenIs(j, acc, d, n);
    case Priority(_, _) => PriorityCaseWrittenIs(j, acc, d, n);
    case Timeout(_, _) => ParamCaseWrittenIs(j, acc, d, n);
    case Limit(_, _) => ParamCaseWrittenIs(j, acc, d, n);
    case SubRepoPermsFilter(_) => ParamCaseWrittenIs(j, acc, d, n);
  }

  lemma {:induction false} NaryCaseWrittenIs(j: Job, acc: string, d: int, n: int)
    requires j.And? || j.Or? || j.Parallel?
    ensures MermaidWritten(acc, j, d, n) == Written(acc + Render(MermaidAt(j, d, n).items), MermaidAt(j, d, n).next)
    decreases j, 1
  {
    var kw := if j.And? then "AND" else if j.Or? then "OR" else "PARALLEL";
    NaryMermaidWrittenIs(acc, kw, j.children, d + 1, n);
  }

  lemma {:induction false} PriorityCaseWrittenIs(j: Job, acc: string, d: int, n: int)
    requires j.Priority?
    ensures MermaidWritten(acc, j, d, n) == Written(acc + Render(MermaidAt(j, d, n).items), MermaidAt(j, d, n).next)
    decreases j, 1
  {
    PriorityMermaidWrittenIs(acc, j.required, j.optional, d + 1, n);
  }

  lemma {:induction false} ParamCaseWrittenIs(j: Job, acc: string, d: int, n: int)
    requires j.Timeout? || j.Limit? || j.SubRepoPermsFilter?
    ensures MermaidWritten(acc, j, d, n) == Written(acc + Render(MermaidAt(j, d, n).items), MermaidAt(j, d, n).next)
    decreases j, 1
  {
    var kw := if j.Timeout? then "TIMEOUT" else if j.Limit? then "LIMIT" else "FILTER";
    var p := if j.Timeout? then j.timeout else if j.Limit? then Itoa(j.limit) else "SubRepoPermissions";
    ParamMermaidWrittenIs(acc, kw, p, j.child, d + 1, n);
  }

  lemma {:induction false} NaryMermaidWrittenIs(acc: string, kw: string, cs: seq<Job>, e: int, n: int)
    ensures NaryMermaidWritten(acc, kw, cs, e, n)
      == Written(acc + Render(NaryTrace(kw, cs, e, n).items), NaryTrace(kw, cs, e, n).next)
    decreases cs, 1
  {
    var x := NodeItem(n, RoundedStyle, kw, e);
    var kids := ChildrenTrace(n, cs, e, n + 1);
    EdgesWrittenIs(acc + RenderItem(x), n, cs, e, n + 1);
    ConcatMapAppend([x], kids.items, RenderItem);
    ConcatMapSingle(x, RenderItem);
    AppendAssoc(acc, RenderItem(x), Render(kids.items));
  }

  lemma {:induction false} EdgesWrittenIs(acc: string, src: int, cs: seq<Job>, e: int, n: int)
    ensures EdgesWritten(acc, src, cs, e, n)
      == Written(acc + Render(ChildrenTrace(src, cs, e, n).items), ChildrenTrace(src, cs, e, n).next)
    decreases cs, 0
  {
    if cs == [] {
      assert acc + [] == acc;
    } else {
      var pre := ChildrenTrace(src, cs[..|cs| - 1], e, n);
      var x := EdgeItem(src, pre.next, e);
      var last := MermaidAt(cs[|cs| - 1], e, pre.next);
      EdgesWrittenIs(acc, src, cs[..|cs| - 1], e, n);
      MermaidWrittenIs(acc + Render(pre.items) + RenderItem(x), cs[|cs| - 1], e, pre.next);
      ChildText(pre.items, x, last.items, RenderItem);
      Prepend3(acc, Render(pre.items), RenderItem(x), Render(last.items));
    }
  }

  lemma {:induction false} PriorityMermaidWrittenIs(acc: string, r: Job, o: Job, e: int, n: int)
    ensures PriorityMermaidWritten(acc, r, o, e, n)
      == Written(acc + Render(PriorityTrace(r, o, e, n).items), PriorityTrace(r, o, e, n).next)
    decreases Priority(r, o), 0
  {
    var req := MermaidAt(r, e, n + 2);
    var opt := MermaidAt(o, e, req.next + 1);
    var reqW := RequiredMermaidWritten(acc, r, e, n);
    RequiredWrittenIs(acc, r, e, n);
    var optW := OptionalMermaidWritten(reqW.text, n, o, e, reqW.next);
    OptionalWrittenIs(reqW.text, n, o, e, req.next);
    PriorityWrittenFinish(acc, r, o, e, n, req, opt, reqW, optW);
  }

  lemma {:induction false} RequiredWrittenIs(acc: string, r: Job, e: int, n: int)
    ensures RequiredMermaidWritten(acc, r, e, n)
      == Written(acc + RenderItem(NodeItem(n, RoundedStyle, "PRIORITY", e)) + RenderItem(EdgeItem(n, n + 1, e))
        + RenderItem(NodeItem(n + 1, RoundedStyle, "REQUIRED", e)) + RenderItem(EdgeItem(n + 1, n + 2, e))
        + Render(MermaidAt(r, e, n + 2).items), MermaidAt(r, e, n + 2).next)
    decreases r, 3
  {
    MermaidWrittenIs(acc + RenderItem(NodeItem(n, RoundedStyle, "PRIORITY", e)) + RenderItem(EdgeItem(n, n + 1, e))
      + RenderItem(NodeItem(n + 1, RoundedStyle, "REQUIRED", e)) + RenderItem(EdgeItem(n + 1, n + 2, e)), r, e, n + 2);
  }

  lemma {:induction false} OptionalWrittenIs(acc: string, src: int, o: Job, e: int, m: int)
    ensures OptionalMermaidWritten(acc, src, o, e, m)
      == Written(acc + RenderItem(EdgeItem(src, m, e)) + RenderItem(NodeItem(m, RoundedStyle, "OPTIONAL", e))
        + RenderItem(EdgeItem(m, m + 1, e)) + Render(MermaidAt(o, e, m + 1).items), MermaidAt(o, e, m + 1).next)
    decreases o, 3
  {
    MermaidWrittenIs(acc + RenderItem(EdgeItem(src, m, e)) + RenderItem(NodeItem(m, RoundedStyle, "OPTIONAL", e))
      + RenderItem(EdgeItem(m, m + 1, e)), o, e, m + 1);
  }

  // The PRIORITY case's text, once both parts are known to be written as
  // their traces.
  lemma PriorityWrittenFinish(acc: string, r: Job, o: Job, e: int, n: int, req: Trace, opt: Trace, reqW: Written, optW: Written)
    requires req == MermaidAt(r, e, n + 2) && opt == MermaidAt(o, e, req.next + 1)
    requires reqW == Written(acc + RenderItem(NodeItem(n, RoundedStyle, "PRIORITY", e)) + RenderItem(EdgeItem(n, n + 1, e))
      + RenderItem(NodeItem(n + 1, RoundedStyle, "REQUIRED", e)) + RenderItem(EdgeItem(n + 1, n + 2, e))
      + Render(req.items), req.next)
    requires optW == Written(reqW.text + RenderItem(EdgeItem(n, req.next, e))
      + RenderItem(NodeItem(req.next, RoundedStyle, "OPTIONAL", e)) + RenderItem(EdgeItem(req.next, req.next + 1, e))
      + Render(opt.items), opt.next)
    ensures optW == Written(acc + Render(PriorityTrace(r, o, e, n).items), PriorityTrace(r, o, e, n).next)
  {
    PriorityTraceOf(r, o, e, n, req, opt);
    var x1, x2, x3, x4 := RenderItem(NodeItem(n, RoundedStyle, "PRIORITY", e)), RenderItem(EdgeItem(n, n + 1, e)),
      RenderItem(NodeItem(n + 1, RoundedStyle, "REQUIRED", e)), RenderItem(EdgeItem(n + 1, n + 2, e));
    var y1, y2, y3 := RenderItem(EdgeItem(n, req.next, e)), RenderItem(NodeItem(req.next, RoundedStyle, "OPTIONAL", e)),
      RenderItem(EdgeItem(req.next, req.next + 1, e));
    PriorityText(req, opt, e, n, RenderItem);
    Prepend9(acc, x1, x2, x3, x4, Render(req.items), y1, y2, y3, Render(opt.items));
  }

  lemma {:induction false} ParamMermaidWrittenIs(acc: string, kw: string, param: string, c: Job, e: int, n: int)
    ensures ParamMermaidWritten(acc, kw, param, c, e, n)
      == Written(acc + Render(ParamTrace(kw, param, c, e, n).items), ParamTrace(kw, param, c, e, n).next)
    decreases c, 3
  {
    var child := MermaidAt(c, e, n + 2);
    var x1, x2, x3, x4 := RenderItem(NodeItem(n, RoundedStyle, kw, e)), RenderItem(EdgeItem(n, n + 1, e)),
      RenderItem(NodeItem(n + 1, DefaultStyle, param, e)), RenderItem(EdgeItem(n, n + 2, e));
    MermaidWrittenIs(acc + x1 + x2 + x3 + x4, c, e, n + 2);
    ParamText(kw, param, child, e, n, RenderItem);
    Prepend5(acc, x1, x2, x3, x4, Render(child.items));
  }

  /** `PrettyMermaid`: a `flowchart TB` header, then the job's flowchart from
      depth 0 and id 0. Its nodes are numbered 0, 1, 2, ... in the order they
      are written, one per job plus the REQUIRED, OPTIONAL and parameter nodes,
      and every edge `src---dst` is followed right away by node `dst`, which is
      numbered after `src`. */
  method PrettyMermaid(job: Job) returns (s: string)
    ensures s == "flowchart TB\n" + Render(MermaidAt(job, 0, 0).items)
    ensures NodeIds(MermaidAt(job, 0, 0).items) == Consecutive(0, NodeCount(job))
    ensures EdgesOrdered(MermaidAt(job, 0, 0).items)
  {
    var b := new Buffer();
    b.WriteString("flowchart TB\n");
    assert b.contents == "flowchart TB\n";
    var _ := WriteMermaid(b, 0, 0, job);
    s := b.contents;
    MermaidWrittenIs("flowchart TB\n", job, 0, 0);
    MermaidIds(job, 0, 0);
    MermaidEdges(job, 0, 0);
  }

  // ---------------------------------------------------------------------------
  // The text of a trace, one write at a time. Each lemma is stated for any
  // item text `f`, so that it is read with `f := RenderItem`.

  // One more child: an edge, then the child's items.
  lemma ChildText(pre: seq<Item>, x: Item, last: seq<Item>, f: Item -> string)
    ensures ConcatMap(pre + [x] + last, f) == ConcatMap(pre, f) + f(x) + ConcatMap(last, f)
  {
    ConcatMapAppend(pre + [x], last, f);
    ConcatMapAppend(pre, [x], f);
    ConcatMapSingle(x, f);
  }

  // The items of a short literal list, one by one.
  lemma Text4(x1: Item, x2: Item, x3: Item, x4: Item, f: Item -> string)
    ensures ConcatMap([x1, x2, x3, x4], f) == f(x1) + f(x2) + f(x3) + f(x4)
  {
    Text3(x1, x2, x3, f);
    ConcatMapSnoc([x1, x2, x3], x4, f);
    assert [x1, x2, x3] + [x4] == [x1, x2, x3, x4];
  }

  lemma Text3(y1: Item, y2: Item, y3: Item, f: Item -> string)
    ensures ConcatMap([y1, y2, y3], f) == f(y1) + f(y2) + f(y3)
  {
    ConcatMapSingle(y1, f);
    ConcatMapSnoc([y1], y2, f);
    assert [y1] + [y2] == [y1, y2];
    ConcatMapSnoc([y1, y2], y3, f);
    assert [y1, y2] + [y3] == [y1, y2, y3];
  }

  lemma ConcatMapSnoc(xs: seq<Item>, x: Item, f: Item -> string)
    ensures ConcatMap(xs + [x], f) == ConcatMap(xs, f) + f(x)
  {
    assert (xs + [x])[..|xs|] == xs;
  }

  lemma PriorityText(req: Trace, opt: Trace, e: int, n: int, f: Item -> string)
    ensures ConcatMap(PriorityItems(req, opt, e, n), f)
      == f(NodeItem(n, RoundedStyle, "PRIORITY", e)) + f(EdgeItem(n, n + 1, e))
      + f(NodeItem(n + 1, RoundedStyle, "REQUIRED", e)) + f(EdgeItem(n + 1, n + 2, e))
      + ConcatMap(req.items, f)
      + f(EdgeItem(n, req.next, e)) + f(NodeItem(req.next, RoundedStyle, "OPTIONAL", e))
      + f(EdgeItem(req.next, req.next + 1, e))
      + ConcatMap(opt.items, f)
  {
    var x1, x2, x3, x4 := NodeItem(n, RoundedStyle, "PRIORITY", e), EdgeItem(n, n + 1, e),
      NodeItem(n + 1, RoundedStyle, "REQUIRED", e), EdgeItem(n + 1, n + 2, e);
    var y1, y2, y3 := EdgeItem(n, req.next, e), NodeItem(req.next, RoundedStyle, "OPTIONAL", e),
      EdgeItem(req.next, req.next + 1, e);
    var h, m := [x1, x2, x3, x4], [y1, y2, y3];
    Text4(x1, x2, x3, x4, f);
    Text3(y1, y2, y3, f);
    ConcatMapAppend(h, req.items, f);
    ConcatMapAppend(h + req.items, m, f);
    ConcatMapAppend(h + req.items + m, opt.items, f);
    var a := f(x1) + f(x2) + f(x3) + f(x4) + ConcatMap(req.items, f);
    AppendAssoc(a, f(y1) + f(y2), f(y3));
    AppendAssoc(a, f(y1), f(y2));
  }

  lemma ParamText(kw: string, param: string, child: Trace, e: int, n: int, f: Item -> string)
    ensures ConcatMap([NodeItem(n, RoundedStyle, kw, e), EdgeItem(n, n + 1, e),
                       NodeItem(n + 1, DefaultStyle, param, e), EdgeItem(n, n + 2, e)] + child.items, f)
      == f(NodeItem(n, RoundedStyle, kw, e)) + f(EdgeItem(n, n + 1, e))
      + f(NodeItem(n + 1, DefaultStyle, param, e)) + f(EdgeItem(n, n + 2, e))
      + ConcatMap(child.items, f)
  {
    var x1, x2, x3, x4 := NodeItem(n, RoundedStyle, kw, e), EdgeItem(n, n + 1, e),
      NodeItem(n + 1, DefaultStyle, param, e), EdgeItem(n, n + 2, e);
    Text4(x1, x2, x3, x4, f);
    ConcatMapAppend([x1, x2, x3, x4], child.items, f);
  }
}
