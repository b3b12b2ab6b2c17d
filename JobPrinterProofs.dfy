/** What the job printers' output looks like, proved about the specification
    functions of module JobPrinterSpec:
    - the single-line s-expression is the reference form `Flat`;
    - parentheses are balanced whenever the labels hold none;
    - in the pretty form every newline is followed by exactly two spaces per
      level of parenthesis nesting at that point;
    - Mermaid node ids are consecutive in the order the nodes are written,
      their number is `NodeCount`, and every edge is followed by its target. */
module JobPrinterProofs {

  import opened Strings
  import opened JobPrinterSpec

  // ---------------------------------------------------------------------------
  // The single-line form

  lemma SepTextNoIndent(sep: string, e: int)
    ensures SepText(sep, "", e) == sep
  {
    RepeatEmpty(e);
  }

  // Appending a child to the reference children text.
  lemma {:induction false} FlatChildrenSnoc(cs: seq<Job>, c: Job)
    ensures FlatChildren(cs + [c]) == FlatChildren(cs) + " " + Flat(c)
    decreases |cs|
  {
    if cs == [] {
      assert cs + [c] == [c];
    } else {
      assert (cs + [c])[1..] == cs[1..] + [c];
      FlatChildrenSnoc(cs[1..], c);
    }
  }

  /** `Sexp` (separator `" "`, no indentation) prints the reference form, at any
      depth: `(AND c1 ... cn)` with a space before each child and `(AND)` for
      none, `(PRIORITY (REQUIRED r) (OPTIONAL o))`, `(TIMEOUT t c)`,
      `(LIMIT n c)`, `(FILTER SubRepoPermissions c)`, and a leaf's bare name. */
  lemma {:induction false} SexpIsFlat(j: Job, d: int)
    ensures SexpAt(j, " ", "", d) == Flat(j)
    decreases j
  {
    match j
    case Leaf(_) =>
    case And(cs) =>
      ChildrenFlat(cs, d + 1);
      FlatNary(j, d);
    case Or(cs) =>
      ChildrenFlat(cs, d + 1);
      FlatNary(j, d);
    case Parallel(cs) =>
      ChildrenFlat(cs, d + 1);
      FlatNary(j, d);
    case Priority(r, o) =>
      SexpIsFlat(r, d + 2);
      SexpIsFlat(o, d + 2);
      FlatPriority(r, o, d);
    case Timeout(_, c) =>
      SexpIsFlat(c, d + 1);
      FlatParam(j, d);
    case Limit(_, c) =>
      SexpIsFlat(c, d + 1);
      FlatParam(j, d);
    case SubRepoPermsFilter(c) =>
      SexpIsFlat(c, d + 1);
      FlatParam(j, d);
  }

  lemma FlatNary(j: Job, d: int)
    requires j.And? || j.Or? || j.Parallel?
    requires ChildrenAt(j.children, " ", "", d + 1) == FlatChildren(j.children)
    ensures SexpAt(j, " ", "", d) == Flat(j)
  {
  }

  lemma FlatPriority(r: Job, o: Job, d: int)
    requires SexpAt(r, " ", "", d + 2) == Flat(r) && SexpAt(o, " ", "", d + 2) == Flat(o)
    ensures SexpAt(Priority(r, o), " ", "", d) == Flat(Priority(r, o))
  {
    PriorityAtFlat(Flat(r), Flat(o), d);
  }

  lemma PriorityAtFlat(x: string, y: string, d: int)
    ensures PriorityAt(x, y, " ", "", d) == "(PRIORITY (REQUIRED " + x + ") (OPTIONAL " + y + "))"
  {
    SepTextNoIndent(" ", d + 1);
    SepTextNoIndent(" ", d + 2);
    PriorityLiterals();
    PriorityShape(x, y, "PRIORITY", "REQUIRED", "OPTIONAL", "(PRIORITY (REQUIRED ", ") (OPTIONAL ", "))");
  }

  lemma PriorityLiterals()
    ensures "(PRIORITY (REQUIRED " == "(" + "PRIORITY" + " " + "(" + "REQUIRED" + " "
    ensures ") (OPTIONAL " == ")" + " " + "(" + "OPTIONAL" + " "
    ensures "))" == ")" + ")"
  {
  }

  // The single-line PRIORITY term, regrouped around its two parts.
  lemma PriorityShape(x: string, y: string, p: string, q: string, t: string, l1: string, l2: string, l3: string)
    requires l1 == "(" + p + " " + "(" + q + " " && l2 == ")" + " " + "(" + t + " " && l3 == ")" + ")"
    ensures Wrap(p, " " + Wrap(q, " " + x) + " " + Wrap(t, " " + y)) == l1 + x + l2 + y + l3
  {
  }

  lemma FlatParam(j: Job, d: int)
    requires j.Timeout? || j.Limit? || j.SubRepoPermsFilter?
    requires SexpAt(j.child, " ", "", d + 1) == Flat(j.child)
    ensures SexpAt(j, " ", "", d) == Flat(j)
  {
    SepTextNoIndent(" ", d + 1);
    var x := Flat(j.child);
    match j
    case Timeout(t, _) =>
      TimeoutLiteral();
      Regroup("(", "TIMEOUT", t, x);
    case Limit(n, _) =>
      LimitLiteral();
      Regroup("(", "LIMIT", Itoa(n), x);
    case SubRepoPermsFilter(_) =>
      FilterLiteral();
      Regroup("(", "FILTER", "SubRepoPermissions", x);
  }

  lemma TimeoutLiteral()
    ensures "(TIMEOUT " == "(" + "TIMEOUT" + " "
  {
  }

  lemma LimitLiteral()
    ensures "(LIMIT " == "(" + "LIMIT" + " "
  {
  }

  lemma FilterLiteral()
    ensures "(FILTER SubRepoPermissions " == "(" + "FILTER" + " " + "SubRepoPermissions" + " "
  {
    assert "(FILTER SubRepoPermissions " == "(FILTER " + "SubRepoPermissions ";
    assert "(FILTER " == "(" + "FILTER" + " ";
    assert "SubRepoPermissions " == "SubRepoPermissions" + " ";
  }

  // Moving the parentheses of a one-parameter term.
  lemma Regroup(open: string, kw: string, p: string, x: string)
    ensures open + kw + (" " + p + " " + x) + ")" == open + kw + " " + p + " " + x + ")"
  {
  }

  lemma {:induction false} ChildrenFlat(cs: seq<Job>, e: int)
    ensures ChildrenAt(cs, " ", "", e) == FlatChildren(cs)
    decreases cs
  {
    if cs != [] {
      var pre, last := cs[..|cs| - 1], cs[|cs| - 1];
      ChildrenFlat(pre, e);
      SexpIsFlat(last, e);
      SepTextNoIndent(" ", e);
      assert cs == pre + [last];
      FlatChildrenSnoc(pre, last);
    }
  }

  // ---------------------------------------------------------------------------
  // Balanced parentheses

  function Weight(c: char): int
  {
    if c == '(' then 1 else if c == ')' then -1 else 0
  }

  /** The number of `(` minus the number of `)` in `s`. */
  function Net(s: string): int
    decreases |s|
  {
    if s == [] then 0 else Net(s[..|s| - 1]) + Weight(s[|s| - 1])
  }

  predicate ParenFree(s: string)
  {
    forall k :: 0 <= k < |s| ==> s[k] != '(' && s[k] != ')'
  }

  function Min(a: int, b: int): int
  {
    if a <= b then a else b
  }

  /** The lowest value `Net` takes on a prefix of `s`, the empty prefix included. */
  function Low(s: string): int
    decreases |s|
  {
    if s == [] then 0 else Min(Low(s[..|s| - 1]), Net(s))
  }

  /** As many `)` as `(`, and no prefix closes more than it opened. */
  predicate Balanced(s: string)
  {
    Net(s) == 0 && Low(s) >= 0
  }

  /** `Low` is the least `Net` over the prefixes: `Balanced` says what its
      comment says. */
  lemma {:induction false} LowPrefixes(s: string)
    ensures Low(s) >= 0 <==> forall k :: 0 <= k <= |s| ==> Net(s[..k]) >= 0
    decreases |s|
  {
    if s != [] {
      var pre := s[..|s| - 1];
      LowPrefixes(pre);
      assert s[..|s|] == s;
      assert forall k :: 0 <= k < |s| ==> s[..k] == pre[..k];
    }
  }

  lemma {:induction false} NetConcat(a: string, b: string)
    ensures Net(a + b) == Net(a) + Net(b)
    decreases |b|
  {
    if b == [] {
      assert a + b == a;
    } else {
      NetConcat(a, b[..|b| - 1]);
      assert (a + b)[..|a + b| - 1] == a + b[..|b| - 1];
      assert (a + b)[|a + b| - 1] == b[|b| - 1];
    }
  }

  lemma {:induction false} LowConcat(a: string, b: string)
    ensures Low(a + b) == Min(Low(a), Net(a) + Low(b))
    decreases |b|
  {
    if b == [] {
      assert a + b == a;
      assert Low(a) <= Net(a);
    } else {
      LowConcat(a, b[..|b| - 1]);
      NetConcat(a, b);
      assert (a + b)[..|a + b| - 1] == a + b[..|b| - 1];
    }
  }

  lemma {:induction false} ParenFreeNet(s: string)
    requires ParenFree(s)
    ensures Net(s) == 0 && Low(s) == 0
    decreases |s|
  {
    if s != [] {
      ParenFreeNet(s[..|s| - 1]);
    }
  }

  lemma ParenFreeBalanced(s: string)
    requires ParenFree(s)
    ensures Balanced(s)
  {
    ParenFreeNet(s);
  }

  lemma BalancedConcat(a: string, b: string)
    requires Balanced(a) && Balanced(b)
    ensures Balanced(a + b)
  {
    NetConcat(a, b);
    LowConcat(a, b);
  }

  // `"(" + keyword` opens exactly one parenthesis, and none of its prefixes closes one.
  lemma OpenNet(kw: string)
    requires ParenFree(kw)
    ensures Net("(" + kw) == 1 && Low("(" + kw) == 0
  {
    ParenFreeNet(kw);
    assert Net("(") == 1 && Low("(") == 0 by { assert "("[..0] == []; }
    NetConcat("(", kw);
    LowConcat("(", kw);
  }

  lemma BalancedWrap(kw: string, x: string)
    requires ParenFree(kw) && Balanced(x)
    ensures Balanced(Wrap(kw, x))
  {
    var open := "(" + kw;
    OpenNet(kw);
    assert Wrap(kw, x) == open + x + ")";
    NetConcat(open, x);
    LowConcat(open, x);
    NetConcat(open + x, ")");
    LowConcat(open + x, ")");
    assert Net(")") == -1 && Low(")") == -1 by { assert ")"[..0] == []; }
  }

  lemma SepTextParenFree(sep: string, indent: string, e: int)
    requires ParenFree(sep) && ParenFree(indent)
    ensures ParenFree(SepText(sep, indent, e))
  {
    RepeatChars(indent, e);
  }

  lemma ItoaParenFree(n: int)
    ensures ParenFree(Itoa(n))
  {
    ItoaDigits(n);
  }

  // The keywords the printers write hold no parenthesis and no newline.
  lemma KeywordsPlain()
    ensures ParenFree("AND") && ParenFree("OR") && ParenFree("PARALLEL") && ParenFree("PRIORITY")
    ensures ParenFree("REQUIRED") && ParenFree("OPTIONAL") && ParenFree("TIMEOUT") && ParenFree("LIMIT")
    ensures ParenFree("FILTER") && ParenFree("SubRepoPermissions")
    ensures '\n' !in "AND" && '\n' !in "OR" && '\n' !in "PARALLEL" && '\n' !in "PRIORITY"
    ensures '\n' !in "REQUIRED" && '\n' !in "OPTIONAL" && '\n' !in "TIMEOUT" && '\n' !in "LIMIT"
    ensures '\n' !in "FILTER" && '\n' !in "SubRepoPermissions"
  {
    OperatorKeywordsPlain();
    PartKeywordsPlain();
    ParamKeywordsPlain();
  }

  lemma OperatorKeywordsPlain()
    ensures ParenFree("AND") && ParenFree("OR") && ParenFree("PARALLEL") && ParenFree("PRIORITY")
    ensures '\n' !in "AND" && '\n' !in "OR" && '\n' !in "PARALLEL" && '\n' !in "PRIORITY"
  {
  }

  lemma PartKeywordsPlain()
    ensures ParenFree("REQUIRED") && ParenFree("OPTIONAL") && ParenFree("TIMEOUT") && ParenFree("LIMIT")
    ensures '\n' !in "REQUIRED" && '\n' !in "OPTIONAL" && '\n' !in "TIMEOUT" && '\n' !in "LIMIT"
  {
  }

  lemma ParamKeywordsPlain()
    ensures ParenFree("FILTER") && ParenFree("SubRepoPermissions")
    ensures '\n' !in "FILTER" && '\n' !in "SubRepoPermissions"
  {
  }

  // The parameter of a FILTER term is a plain label.
  lemma FilterParamPlain()
    ensures PlainLabel("SubRepoPermissions")
  {
    KeywordsPlain();
  }

  /** Given separators and labels without parentheses, every s-expression the
      printer writes is balanced: each composite case opens one keyword term
      and closes it once. */
  lemma {:induction false} SexpBalanced(j: Job, sep: string, indent: string, d: int)
    requires ParenFree(sep) && ParenFree(indent)
    requires forall l :: l in Labels(j) ==> ParenFree(l)
    ensures Balanced(SexpAt(j, sep, indent, d))
    decreases j
  {
    KeywordsPlain();
    match j
    case Leaf(name) =>
      ParenFreeBalanced(name);
    case And(cs) =>
      ChildrenBalanced(cs, sep, indent, d + 1);
      BalancedWrap("AND", ChildrenAt(cs, sep, indent, d + 1));
    case Or(cs) =>
      ChildrenBalanced(cs, sep, indent, d + 1);
      BalancedWrap("OR", ChildrenAt(cs, sep, indent, d + 1));
    case Parallel(cs) =>
      ChildrenBalanced(cs, sep, indent, d + 1);
      BalancedWrap("PARALLEL", ChildrenAt(cs, sep, indent, d + 1));
    case Priority(r, o) =>
      SexpBalanced(r, sep, indent, d + 2);
      SexpBalanced(o, sep, indent, d + 2);
      PriorityBalanced(SexpAt(r, sep, indent, d + 2), SexpAt(o, sep, indent, d + 2), sep, indent, d);
    case Timeout(t, c) =>
      SexpBalanced(c, sep, indent, d + 1);
      ParamTermBalanced("TIMEOUT", t, SexpAt(c, sep, indent, d + 1), sep, indent, d + 1);
    case Limit(n, c) =>
      SexpBalanced(c, sep, indent, d + 1);
      ItoaParenFree(n);
      ParamTermBalanced("LIMIT", Itoa(n), SexpAt(c, sep, indent, d + 1), sep, indent, d + 1);
    case SubRepoPermsFilter(c) =>
      SexpBalanced(c, sep, indent, d + 1);
      ParamTermBalanced("FILTER", "SubRepoPermissions", SexpAt(c, sep, indent, d + 1), sep, indent, d + 1);
  }

  lemma ParamTermBalanced(kw: string, param: string, child: string, sep: string, indent: string, e: int)
    requires ParenFree(kw) && ParenFree(param) && ParenFree(sep) && ParenFree(indent)
    requires Balanced(child)
    ensures Balanced(Wrap(kw, ParamAt(param, child, sep, indent, e)))
  {
    ParamAtBalanced(param, child, sep, indent, e);
    BalancedWrap(kw, ParamAt(param, child, sep, indent, e));
  }

  lemma PriorityBalanced(rq: string, op: string, sep: string, indent: string, d: int)
    requires ParenFree(sep) && ParenFree(indent)
    requires Balanced(rq) && Balanced(op)
    ensures Balanced(PriorityAt(rq, op, sep, indent, d))
  {
    var s1, s2 := SepText(sep, indent, d + 1), SepText(sep, indent, d + 2);
    SepTextParenFree(sep, indent, d + 1);
    SepTextParenFree(sep, indent, d + 2);
    ParenFreeBalanced(s1);
    ParenFreeBalanced(s2);
    BalancedConcat(s2, rq);
    BalancedConcat(s2, op);
    KeywordsPlain();
    BalancedWrap("REQUIRED", s2 + rq);
    BalancedWrap("OPTIONAL", s2 + op);
    var wr, wo := Wrap("REQUIRED", s2 + rq), Wrap("OPTIONAL", s2 + op);
    BalancedConcat(s1, wr);
    BalancedConcat(s1 + wr, s1);
    BalancedConcat(s1 + wr + s1, wo);
    BalancedWrap("PRIORITY", s1 + wr + s1 + wo);
  }

  lemma ParamAtBalanced(param: string, child: string, sep: string, indent: string, e: int)
    requires ParenFree(param) && ParenFree(sep) && ParenFree(indent)
    requires Balanced(child)
    ensures Balanced(ParamAt(param, child, sep, indent, e))
  {
    var s := SepText(sep, indent, e);
    SepTextParenFree(sep, indent, e);
    ParenFreeBalanced(s);
    ParenFreeBalanced(param);
    BalancedConcat(s, param);
    BalancedConcat(s + param, s);
    BalancedConcat(s + param + s, child);
  }

  lemma {:induction false} ChildrenBalanced(cs: seq<Job>, sep: string, indent: string, e: int)
    requires ParenFree(sep) && ParenFree(indent)
    requires forall l :: l in ChildLabels(cs) ==> ParenFree(l)
    ensures Balanced(ChildrenAt(cs, sep, indent, e))
    decreases cs
  {
    if cs == [] {
      ParenFreeBalanced("");
    } else {
      var pre, last := cs[..|cs| - 1], cs[|cs| - 1];
      ChildrenBalanced(pre, sep, indent, e);
      SexpBalanced(last, sep, indent, e);
      SepTextParenFree(sep, indent, e);
      ParenFreeBalanced(SepText(sep, indent, e));
      BalancedConcat(ChildrenAt(pre, sep, indent, e), SepText(sep, indent, e));
      BalancedConcat(ChildrenAt(pre, sep, indent, e) + SepText(sep, indent, e), SexpAt(last, sep, indent, e));
    }
  }

  // ---------------------------------------------------------------------------
  // Indentation of the pretty form

  /** `s`, the text after a newline, starts with exactly `d` two-space
      indents followed by a character other than a space. */
  ghost predicate Indented(s: string, d: int)
  {
    0 <= d && 2 * d < |s| && s[..2 * d] == Repeat("  ", d) && s[2 * d] != ' '
  }

  /** Placed where `base` parentheses are open, every newline of `s` is
      followed by exactly two spaces per parenthesis open at that point, and
      then by the start of a term (read from left to right, each `(` opens one
      more level and each `)` closes one). */
  ghost predicate NewlinesIndented(s: string, base: int)
    decreases |s|
  {
    s == [] || ((s[0] == '\n' ==> Indented(s[1..], base)) && NewlinesIndented(s[1..], base + Weight(s[0])))
  }

  /** A label that prints as one well-formed term: non-empty, not starting with
      a space, without newlines and parentheses. */
  ghost predicate PlainLabel(s: string)
  {
    s != [] && s[0] != ' ' && '\n' !in s && ParenFree(s)
  }

  lemma IndentedLeft(a: string, b: string, d: int)
    requires Indented(a, d)
    ensures Indented(a + b, d)
  {
    assert (a + b)[..2 * d] == a[..2 * d];
    assert (a + b)[2 * d] == a[2 * d];
  }

  lemma NetCons(c: char, s: string)
    ensures Net([c] + s) == Weight(c) + Net(s)
  {
    NetConcat([c], s);
    assert [c][..0] == [];
  }

  lemma {:induction false} NewlinesIndentedConcat(a: string, b: string, base: int)
    requires NewlinesIndented(a, base) && NewlinesIndented(b, base + Net(a))
    ensures NewlinesIndented(a + b, base)
    decreases |a|
  {
    if a == [] {
      assert a + b == b;
    } else {
      var ab := a + b;
      assert ab[0] == a[0];
      assert ab[1..] == a[1..] + b;
      assert a == [a[0]] + a[1..];
      NetCons(a[0], a[1..]);
      NewlinesIndentedConcat(a[1..], b, base + Weight(a[0]));
      if a[0] == '\n' {
        IndentedLeft(a[1..], b, base);
      }
    }
  }

  lemma {:induction false} NoNewlineIndented(s: string, base: int)
    requires '\n' !in s
    ensures NewlinesIndented(s, base)
    decreases |s|
  {
    if s != [] {
      assert '\n' !in s[1..] by {
        forall k | 0 <= k < |s[1..]| ensures s[1..][k] != '\n' { assert s[1..][k] == s[k + 1]; }
      }
      NoNewlineIndented(s[1..], base + Weight(s[0]));
    }
  }

  // A separator at depth `e` followed by a term placed at nesting `e`.
  lemma IndentedTerm(t: string, e: int)
    requires e >= 0 && t != [] && t[0] != ' ' && NewlinesIndented(t, e)
    ensures NewlinesIndented(SepText("\n", "  ", e) + t, e)
  {
    var sp := Repeat("  ", e);
    SpacesIndented(e);
    NewlinesIndentedConcat(sp, t, e);
    SpacesThen(t, e);
    NewlineCons(sp + t, e);
    AppendAssoc("\n", sp, t);
  }

  // The indentation itself is balanced and holds no newline.
  lemma SpacesIndented(e: int)
    requires e >= 0
    ensures Net(Repeat("  ", e)) == 0 && NewlinesIndented(Repeat("  ", e), e)
  {
    RepeatChars("  ", e);
    assert ParenFree(Repeat("  ", e));
    ParenFreeNet(Repeat("  ", e));
    NoNewlineIndented(Repeat("  ", e), e);
  }

  // After `e` indents, a text not starting with a space is indented to `e`.
  lemma SpacesThen(t: string, e: int)
    requires e >= 0 && t != [] && t[0] != ' '
    ensures Indented(Repeat("  ", e) + t, e)
  {
    var sp := Repeat("  ", e);
    RepeatLength("  ", e);
    assert (sp + t)[..2 * e] == sp;
    assert (sp + t)[2 * e] == t[0];
  }

  lemma NewlineCons(s: string, base: int)
    requires Indented(s, base) && NewlinesIndented(s, base)
    ensures NewlinesIndented("\n" + s, base)
  {
    var p := "\n" + s;
    assert p[0] == '\n' && p[1..] == s;
  }

  /** A term of the pretty form placed at depth `d`: non-empty, not starting
      with a space, with balanced parentheses, and every newline in it
      indented to the depth of the term that follows. */
  ghost predicate PrettyTerm(s: string, d: int)
  {
    s != [] && s[0] != ' ' && Balanced(s) && NewlinesIndented(s, d)
  }

  ghost predicate AllPlain(ls: set<string>)
  {
    forall l :: l in ls ==> PlainLabel(l)
  }

  lemma PlainTerm(l: string, d: int)
    requires PlainLabel(l)
    ensures PrettyTerm(l, d)
  {
    NoNewlineIndented(l, d);
    ParenFreeBalanced(l);
  }

  lemma IndentedWrap(kw: string, x: string, d: int)
    requires ParenFree(kw) && '\n' !in kw && NewlinesIndented(x, d + 1) && Balanced(x)
    ensures PrettyTerm(Wrap(kw, x), d)
  {
    var open := "(" + kw;
    OpenNet(kw);
    NoNewlineIndented(open, d);
    NewlinesIndentedConcat(open, x, d);
    NoNewlineIndented(")", d + Net(open + x));
    NewlinesIndentedConcat(open + x, ")", d);
    assert Wrap(kw, x) == open + x + ")";
    BalancedWrap(kw, x);
  }

  lemma ItoaPlain(n: int)
    ensures PlainLabel(Itoa(n))
  {
    ItoaDigits(n);
  }

  lemma IndentedParam(kw: string, param: string, child: string, d: int)
    requires d >= 0 && ParenFree(kw) && '\n' !in kw && PlainLabel(param)
    requires PrettyTerm(child, d + 1)
    ensures PrettyTerm(Wrap(kw, ParamAt(param, child, "\n", "  ", d + 1)), d)
  {
    ParamAtIndented(param, child, d + 1);
    ParamAtBalanced(param, child, "\n", "  ", d + 1);
    IndentedWrap(kw, ParamAt(param, child, "\n", "  ", d + 1), d);
  }

  // The inside of a one-parameter term: both separators are followed by
  // the indentation of nesting `e`.
  lemma ParamAtIndented(param: string, child: string, e: int)
    requires e >= 0 && PlainLabel(param) && PrettyTerm(child, e)
    ensures NewlinesIndented(ParamAt(param, child, "\n", "  ", e), e)
  {
    var s := SepText("\n", "  ", e);
    NoNewlineIndented(param, e);
    IndentedTerm(param, e);
    IndentedTerm(child, e);
    NetConcat(s, param);
    SepTextParenFree("\n", "  ", e);
    ParenFreeNet(s);
    ParenFreeNet(param);
    NewlinesIndentedConcat(s + param, s + child, e);
    AppendAssoc(s + param, s, child);
  }

  /** `PrettySexp` layout: placed at depth `d`, a job whose labels are plain
      prints as a pretty term: non-empty, not starting with a space, balanced,
      and every newline in it is followed by exactly `2 * (d + n)` spaces, where
      `n` is the number of parentheses open at that newline inside the text,
      i.e. by the indentation of the depth of the term that follows. */
  lemma {:induction false} PrettyIndented(j: Job, d: int)
    requires d >= 0
    requires AllPlain(Labels(j))
    ensures PrettyTerm(SexpAt(j, "\n", "  ", d), d)
    decreases j, 1
  {
    match j
    case Leaf(name) =>
      assert name in Labels(j);
      PlainTerm(name, d);
    case And(cs) => PrettyNary(j, d);
    case Or(cs) => PrettyNary(j, d);
    case Parallel(cs) => PrettyNary(j, d);
    case Priority(r, o) =>
      AllPlainParts(r, o);
      PrettyPriority(r, o, d);
    case Timeout(t, c) =>
      TimeoutLabels(t, c);
      PrettyTimeout(t, c, d);
    case Limit(n, c) => PrettyLimit(n, c, d);
    case SubRepoPermsFilter(c) => PrettyFilter(c, d);
  }

  lemma {:induction false} PrettyNary(j: Job, d: int)
    requires d >= 0 && (j.And? || j.Or? || j.Parallel?)
    requires AllPlain(Labels(j))
    ensures PrettyTerm(SexpAt(j, "\n", "  ", d), d)
    decreases j, 0
  {
    ChildrenIndented(j.children, d + 1);
    var x := ChildrenAt(j.children, "\n", "  ", d + 1);
    var kw := if j.And? then "AND" else if j.Or? then "OR" else "PARALLEL";
    assert SexpAt(j, "\n", "  ", d) == Wrap(kw, x);
    KeywordsPlain();
    IndentedWrap(kw, x, d);
  }

  lemma {:induction false} PrettyPriority(r: Job, o: Job, d: int)
    requires d >= 0
    requires AllPlain(Labels(r)) && AllPlain(Labels(o))
    ensures PrettyTerm(SexpAt(Priority(r, o), "\n", "  ", d), d)
    decreases Priority(r, o), 0
  {
    PrettyIndented(r, d + 2);
    PrettyIndented(o, d + 2);
    PriorityTerm(r, o, d);
  }

  lemma AllPlainParts(r: Job, o: Job)
    requires AllPlain(Labels(Priority(r, o)))
    ensures AllPlain(Labels(r)) && AllPlain(Labels(o))
  {
    assert Labels(Priority(r, o)) == Labels(r) + Labels(o);
  }

  lemma TimeoutLabels(t: string, c: Job)
    requires AllPlain(Labels(Timeout(t, c)))
    ensures PlainLabel(t) && AllPlain(Labels(c))
  {
    assert t in Labels(Timeout(t, c));
  }

  // The PRIORITY job's text, once its two parts print as pretty terms.
  lemma PriorityTerm(r: Job, o: Job, d: int)
    requires d >= 0
    requires PrettyTerm(SexpAt(r, "\n", "  ", d + 2), d + 2) && PrettyTerm(SexpAt(o, "\n", "  ", d + 2), d + 2)
    ensures PrettyTerm(SexpAt(Priority(r, o), "\n", "  ", d), d)
  {
    var rq, op := SexpAt(r, "\n", "  ", d + 2), SexpAt(o, "\n", "  ", d + 2);
    PriorityIndented(rq, op, d);
    assert SexpAt(Priority(r, o), "\n", "  ", d) == PriorityAt(rq, op, "\n", "  ", d);
  }

  lemma {:induction false} PrettyTimeout(t: string, c: Job, d: int)
    requires d >= 0
    requires PlainLabel(t) && AllPlain(Labels(c))
    ensures PrettyTerm(SexpAt(Timeout(t, c), "\n", "  ", d), d)
    decreases Timeout(t, c), 0
  {
    var x := SexpAt(c, "\n", "  ", d + 1);
    PrettyIndented(c, d + 1);
    KeywordsPlain();
    IndentedParam("TIMEOUT", t, x, d);
    assert SexpAt(Timeout(t, c), "\n", "  ", d) == Wrap("TIMEOUT", ParamAt(t, x, "\n", "  ", d + 1));
  }

  lemma {:induction false} PrettyLimit(n: int, c: Job, d: int)
    requires d >= 0
    requires AllPlain(Labels(c))
    ensures PrettyTerm(SexpAt(Limit(n, c), "\n", "  ", d), d)
    decreases Limit(n, c), 0
  {
    var x := SexpAt(c, "\n", "  ", d + 1);
    PrettyIndented(c, d + 1);
    LimitTerm(n, x, d);
    assert SexpAt(Limit(n, c), "\n", "  ", d) == Wrap("LIMIT", ParamAt(Itoa(n), x, "\n", "  ", d + 1));
  }

  lemma LimitTerm(n: int, child: string, d: int)
    requires d >= 0 && PrettyTerm(child, d + 1)
    ensures PrettyTerm(Wrap("LIMIT", ParamAt(Itoa(n), child, "\n", "  ", d + 1)), d)
  {
    ItoaPlain(n);
    KeywordsPlain();
    IndentedParam("LIMIT", Itoa(n), child, d);
  }

  lemma {:induction false} PrettyFilter(c: Job, d: int)
    requires d >= 0
    requires AllPlain(Labels(c))
    ensures PrettyTerm(SexpAt(SubRepoPermsFilter(c), "\n", "  ", d), d)
    decreases SubRepoPermsFilter(c), 0
  {
    var x := SexpAt(c, "\n", "  ", d + 1);
    PrettyIndented(c, d + 1);
    FilterTerm(x, d);
    assert SexpAt(SubRepoPermsFilter(c), "\n", "  ", d) == Wrap("FILTER", ParamAt("SubRepoPermissions", x, "\n", "  ", d + 1));
  }

  lemma FilterTerm(child: string, d: int)
    requires d >= 0 && PrettyTerm(child, d + 1)
    ensures PrettyTerm(Wrap("FILTER", ParamAt("SubRepoPermissions", child, "\n", "  ", d + 1)), d)
  {
    KeywordsPlain();
    FilterParamPlain();
    IndentedParam("FILTER", "SubRepoPermissions", child, d);
  }

  // One `(REQUIRED x)` or `(OPTIONAL x)` group of a PRIORITY term at nesting `e`.
  lemma IndentedGroup(kw: string, x: string, e: int)
    requires e >= 0 && ParenFree(kw) && '\n' !in kw
    requires PrettyTerm(x, e + 1)
    ensures NewlinesIndented(Group(kw, x, e), e) && Balanced(Group(kw, x, e))
  {
    var s1, s2 := SepText("\n", "  ", e), SepText("\n", "  ", e + 1);
    SepTextParenFree("\n", "  ", e);
    SepTextParenFree("\n", "  ", e + 1);
    ParenFreeBalanced(s1);
    ParenFreeBalanced(s2);
    BalancedConcat(s2, x);
    IndentedTerm(x, e + 1);
    IndentedWrap(kw, s2 + x, e);
    IndentedTerm(Wrap(kw, s2 + x), e);
    BalancedConcat(s1, Wrap(kw, s2 + x));
  }

  function Group(kw: string, x: string, e: int): string
  {
    SepText("\n", "  ", e) + Wrap(kw, SepText("\n", "  ", e + 1) + x)
  }

  lemma BalancedIndentedConcat(a: string, b: string, base: int)
    requires NewlinesIndented(a, base) && Balanced(a) && NewlinesIndented(b, base) && Balanced(b)
    ensures NewlinesIndented(a + b, base) && Balanced(a + b)
  {
    NewlinesIndentedConcat(a, b, base);
    BalancedConcat(a, b);
  }

  // A PRIORITY term whose two parts are pretty terms two levels deeper.
  lemma PriorityIndented(rq: string, op: string, d: int)
    requires d >= 0 && PrettyTerm(rq, d + 2) && PrettyTerm(op, d + 2)
    ensures PrettyTerm(PriorityAt(rq, op, "\n", "  ", d), d)
  {
    GroupsIndented(rq, op, d);
    KeywordsPlain();
    IndentedWrap("PRIORITY", Groups(rq, op, d), d);
    var s1, s2 := SepText("\n", "  ", d + 1), SepText("\n", "  ", d + 2);
    var w1, w2 := Wrap("REQUIRED", s2 + rq), Wrap("OPTIONAL", s2 + op);
    assert s1 + w1 + s1 + w2 == Groups(rq, op, d);
  }

  function Groups(rq: string, op: string, d: int): string
  {
    Group("REQUIRED", rq, d + 1) + Group("OPTIONAL", op, d + 1)
  }

  lemma GroupsIndented(rq: string, op: string, d: int)
    requires d >= 0 && PrettyTerm(rq, d + 2) && PrettyTerm(op, d + 2)
    ensures NewlinesIndented(Groups(rq, op, d), d + 1) && Balanced(Groups(rq, op, d))
  {
    KeywordsPlain();
    IndentedGroup("REQUIRED", rq, d + 1);
    IndentedGroup("OPTIONAL", op, d + 1);
    BalancedIndentedConcat(Group("REQUIRED", rq, d + 1), Group("OPTIONAL", op, d + 1), d + 1);
  }

  lemma {:induction false} ChildrenIndented(cs: seq<Job>, e: int)
    requires e >= 1
    requires AllPlain(ChildLabels(cs))
    ensures NewlinesIndented(ChildrenAt(cs, "\n", "  ", e), e) && Balanced(ChildrenAt(cs, "\n", "  ", e))
    decreases cs
  {
    if cs == [] {
      ParenFreeBalanced("");
    } else {
      var pre, last := cs[..|cs| - 1], cs[|cs| - 1];
      ChildrenIndented(pre, e);
      PrettyIndented(last, e);
      ChildStep(ChildrenAt(pre, "\n", "  ", e), SexpAt(last, "\n", "  ", e), e);
    }
  }

  // Appending a separator and one more child term to the children's text.
  lemma ChildStep(c: string, t: string, e: int)
    requires e >= 1 && NewlinesIndented(c, e) && Balanced(c) && PrettyTerm(t, e)
    ensures NewlinesIndented(c + SepText("\n", "  ", e) + t, e) && Balanced(c + SepText("\n", "  ", e) + t)
  {
    var s := SepText("\n", "  ", e);
    IndentedTerm(t, e);
    SepTextParenFree("\n", "  ", e);
    ParenFreeBalanced(s);
    BalancedConcat(s, t);
    BalancedIndentedConcat(c, s + t, e);
    assert c + s + t == c + (s + t);
  }

  // ---------------------------------------------------------------------------
  // Mermaid node ids and edges

  lemma RenderConcat(a: seq<Item>, b: seq<Item>)
    ensures Render(a + b) == Render(a) + Render(b)
  {
    ConcatMapAppend(a, b, RenderItem);
  }

  lemma {:induction false} NodeIdsConcat(a: seq<Item>, b: seq<Item>)
    ensures NodeIds(a + b) == NodeIds(a) + NodeIds(b)
    decreases |b|
  {
    if b == [] {
      assert a + b == a;
    } else {
      NodeIdsConcat(a, b[..|b| - 1]);
      assert (a + b)[..|a + b| - 1] == a + b[..|b| - 1];
      assert (a + b)[|a + b| - 1] == b[|b| - 1];
    }
  }

  lemma ConsecutiveConcat(n: int, a: nat, b: nat)
    ensures Consecutive(n, a) + Consecutive(n + a, b) == Consecutive(n, a + b)
  {
  }

  lemma NodeIdsSingle(x: Item)
    ensures NodeIds([x]) == if x.NodeItem? then [x.id] else []
  {
    assert [x][..0] == [];
  }

  lemma NodeIdsOfHead(x: Item, y: Item, z: Item, w: Item)
    requires x.NodeItem? && y.EdgeItem? && z.NodeItem? && w.EdgeItem?
    ensures NodeIds([x, y, z, w]) == [x.id, z.id]
  {
    NodeIdsSingle(x);
    NodeIdsSingle(y);
    NodeIdsSingle(z);
    NodeIdsSingle(w);
    NodeIdsConcat([x], [y]);
    NodeIdsConcat([x, y], [z]);
    NodeIdsConcat([x, y, z], [w]);
    assert [x] + [y] == [x, y];
    assert [x, y] + [z] == [x, y, z];
    assert [x, y, z] + [w] == [x, y, z, w];
  }

  /** Node ids: writing job `j` with next id `n` writes the nodes `n, n + 1, ...`
      in this order (preorder), `NodeCount(j)` of them, and leaves the id at
      `n + NodeCount(j)`, the next unused one, which `writeMermaid` returns. */
  lemma {:induction false} MermaidIds(j: Job, d: int, n: int)
    ensures NodeIds(MermaidAt(j, d, n).items) == Consecutive(n, NodeCount(j))
    ensures MermaidAt(j, d, n).next == n + NodeCount(j)
    decreases j, 2
  {
    match j
    case Leaf(_) =>
      assert MermaidAt(j, d, n).items[..0] == [];
    case And(_) => NaryCaseIds(j, d, n);
    case Or(_) => NaryCaseIds(j, d, n);
    case Parallel(_) => NaryCaseIds(j, d, n);
    case Priority(_, _) => PriorityCaseIds(j, d, n);
    case Timeout(_, _) => ParamCaseIds(j, d, n);
    case Limit(_, _) => ParamCaseIds(j, d, n);
    case SubRepoPermsFilter(_) => ParamCaseIds(j, d, n);
  }

  lemma {:induction false} NaryCaseIds(j: Job, d: int, n: int)
    requires j.And? || j.Or? || j.Parallel?
    ensures NodeIds(MermaidAt(j, d, n).items) == Consecutive(n, NodeCount(j))
    ensures MermaidAt(j, d, n).next == n + NodeCount(j)
    decreases j, 1
  {
    var kw := if j.And? then "AND" else if j.Or? then "OR" else "PARALLEL";
    NaryIds(kw, j.children, d + 1, n);
  }

  lemma {:induction false} PriorityCaseIds(j: Job, d: int, n: int)
    requires j.Priority?
    ensures NodeIds(MermaidAt(j, d, n).items) == Consecutive(n, NodeCount(j))
    ensures MermaidAt(j, d, n).next == n + NodeCount(j)
    decreases j, 1
  {
    PriorityIds(j.required, j.optional, d + 1, n);
  }

  lemma {:induction false} ParamCaseIds(j: Job, d: int, n: int)
    requires j.Timeout? || j.Limit? || j.SubRepoPermsFilter?
    ensures NodeIds(MermaidAt(j, d, n).items) == Consecutive(n, NodeCount(j))
    ensures MermaidAt(j, d, n).next == n + NodeCount(j)
    decreases j, 1
  {
    var kw := if j.Timeout? then "TIMEOUT" else if j.Limit? then "LIMIT" else "FILTER";
    var p := if j.Timeout? then j.timeout else if j.Limit? then Itoa(j.limit) else "SubRepoPermissions";
    ParamIds(kw, p, j.child, d + 1, n);
  }

  lemma {:induction false} PriorityIds(r: Job, o: Job, e: int, n: int)
    ensures NodeIds(PriorityTrace(r, o, e, n).items) == Consecutive(n, 3 + NodeCount(r) + NodeCount(o))
    ensures PriorityTrace(r, o, e, n).next == n + 3 + NodeCount(r) + NodeCount(o)
    decreases Priority(r, o), 0
  {
    var req := MermaidAt(r, e, n + 2);
    MermaidIds(r, e, n + 2);
    var opt := MermaidAt(o, e, req.next + 1);
    MermaidIds(o, e, req.next + 1);
    PriorityTraceOf(r, o, e, n, req, opt);
    PriorityItemIds(req, opt, e, n, NodeCount(r), NodeCount(o));
  }

  // A PRIORITY trace in terms of the traces of its parts.
  lemma PriorityTraceOf(r: Job, o: Job, e: int, n: int, req: Trace, opt: Trace)
    requires req == MermaidAt(r, e, n + 2) && opt == MermaidAt(o, e, req.next + 1)
    ensures PriorityTrace(r, o, e, n) == Trace(PriorityItems(req, opt, e, n), opt.next)
  {
  }

  lemma PriorityItemIds(req: Trace, opt: Trace, e: int, n: int, cr: nat, co: nat)
    requires NodeIds(req.items) == Consecutive(n + 2, cr) && req.next == n + 2 + cr
    requires NodeIds(opt.items) == Consecutive(req.next + 1, co)
    ensures NodeIds(PriorityItems(req, opt, e, n)) == Consecutive(n, 3 + cr + co)
  {
    var head := [NodeItem(n, RoundedStyle, "PRIORITY", e), EdgeItem(n, n + 1, e),
                 NodeItem(n + 1, RoundedStyle, "REQUIRED", e), EdgeItem(n + 1, n + 2, e)];
    var mid := [EdgeItem(n, req.next, e), NodeItem(req.next, RoundedStyle, "OPTIONAL", e), EdgeItem(req.next, req.next + 1, e)];
    NodeIdsOfHead(head[0], head[1], head[2], head[3]);
    NodeIdsOfMid(mid[0], mid[1], mid[2]);
    NodeIdsConcat(head, req.items);
    NodeIdsConcat(head + req.items, mid);
    NodeIdsConcat(head + req.items + mid, opt.items);
    assert Consecutive(n, 2) == [n, n + 1];
    ConsecutiveConcat(n, 2, cr);
    ConsecutiveConcat(n, 2 + cr, 1);
    ConsecutiveConcat(n, 3 + cr, co);
    assert PriorityItems(req, opt, e, n) == head + req.items + mid + opt.items;
  }

  lemma NodeIdsOfMid(x: Item, y: Item, z: Item)
    requires x.EdgeItem? && y.NodeItem? && z.EdgeItem?
    ensures NodeIds([x, y, z]) == [y.id]
  {
    NodeIdsSingle(x);
    NodeIdsSingle(y);
    NodeIdsSingle(z);
    NodeIdsConcat([x], [y]);
    NodeIdsConcat([x, y], [z]);
    assert [x] + [y] == [x, y];
    assert [x, y] + [z] == [x, y, z];
  }

  lemma {:induction false} NaryIds(name: string, cs: seq<Job>, e: int, n: int)
    ensures NodeIds(NaryTrace(name, cs, e, n).items) == Consecutive(n, 1 + NodeCountList(cs))
    ensures NaryTrace(name, cs, e, n).next == n + 1 + NodeCountList(cs)
    decreases cs, 2
  {
    var kids := ChildrenTrace(n, cs, e, n + 1);
    ChildrenIds(n, cs, e, n + 1);
    var head := [NodeItem(n, RoundedStyle, name, e)];
    assert NodeIds(head) == [n] by { assert head[..0] == []; }
    NodeIdsConcat(head, kids.items);
    ConsecutiveConcat(n, 1, NodeCountList(cs));
  }

  lemma {:induction false} ChildrenIds(src: int, cs: seq<Job>, e: int, n: int)
    ensures NodeIds(ChildrenTrace(src, cs, e, n).items) == Consecutive(n, NodeCountList(cs))
    ensures ChildrenTrace(src, cs, e, n).next == n + NodeCountList(cs)
    decreases cs, 1
  {
    if cs != [] {
      var pre := ChildrenTrace(src, cs[..|cs| - 1], e, n);
      ChildrenIds(src, cs[..|cs| - 1], e, n);
      var last := MermaidAt(cs[|cs| - 1], e, pre.next);
      MermaidIds(cs[|cs| - 1], e, pre.next);
      ChildrenTraceOf(src, cs, e, n, pre, last);
      ChildItemIds(pre.items, EdgeItem(src, pre.next, e), last.items, n,
        NodeCountList(cs[..|cs| - 1]), NodeCount(cs[|cs| - 1]));
    }
  }

  // A non-empty children trace in terms of the trace of all but the last
  // child and the trace of the last child.
  lemma ChildrenTraceOf(src: int, cs: seq<Job>, e: int, n: int, pre: Trace, last: Trace)
    requires cs != [] && pre == ChildrenTrace(src, cs[..|cs| - 1], e, n)
    requires last == MermaidAt(cs[|cs| - 1], e, pre.next)
    ensures ChildrenTrace(src, cs, e, n) == Trace(pre.items + [EdgeItem(src, pre.next, e)] + last.items, last.next)
    ensures NodeCountList(cs) == NodeCountList(cs[..|cs| - 1]) + NodeCount(cs[|cs| - 1])
  {
  }

  // The node ids of one more child: those of the earlier children, none for
  // the edge, those of the child.
  lemma ChildItemIds(pre: seq<Item>, edge: Item, last: seq<Item>, n: int, a: nat, b: nat)
    requires edge.EdgeItem? && NodeIds(pre) == Consecutive(n, a) && NodeIds(last) == Consecutive(n + a, b)
    ensures NodeIds(pre + [edge] + last) == Consecutive(n, a + b)
  {
    NodeIdsSingle(edge);
    NodeIdsConcat(pre, [edge]);
    NodeIdsConcat(pre + [edge], last);
    ConsecutiveConcat(n, a, b);
  }

  lemma {:induction false} ParamIds(name: string, param: string, c: Job, e: int, n: int)
    ensures NodeIds(ParamTrace(name, param, c, e, n).items) == Consecutive(n, 2 + NodeCount(c))
    ensures ParamTrace(name, param, c, e, n).next == n + 2 + NodeCount(c)
    decreases c, 3
  {
    var child := MermaidAt(c, e, n + 2);
    MermaidIds(c, e, n + 2);
    var head := [NodeItem(n, RoundedStyle, name, e), EdgeItem(n, n + 1, e),
                 NodeItem(n + 1, DefaultStyle, param, e), EdgeItem(n, n + 2, e)];
    NodeIdsOfHead(head[0], head[1], head[2], head[3]);
    NodeIdsConcat(head, child.items);
    assert Consecutive(n, 2) == [n, n + 1];
    ConsecutiveConcat(n, 2, NodeCount(c));
  }

  lemma EdgesOrderedConcat(a: seq<Item>, b: seq<Item>)
    requires EdgesOrdered(a) && EdgesOrdered(b)
    ensures EdgesOrdered(a + b)
  {
    forall k | 0 <= k < |a + b| && (a + b)[k].EdgeItem?
      ensures k + 1 < |a + b| && (a + b)[k + 1].NodeItem? && (a + b)[k + 1].id == (a + b)[k].dst
        && (a + b)[k].src < (a + b)[k].dst
    {
      if k < |a| {
        assert (a + b)[k] == a[k] && (a + b)[k + 1] == a[k + 1];
      } else {
        assert (a + b)[k] == b[k - |a|] && (a + b)[k + 1] == b[k + 1 - |a|];
      }
    }
  }

  // An edge placed right before a part that starts with the edge's target.
  lemma EdgeBefore(x: Item, b: seq<Item>)
    requires x.EdgeItem? && x.src < x.dst
    requires b != [] && b[0].NodeItem? && b[0].id == x.dst && EdgesOrdered(b)
    ensures EdgesOrdered([x] + b)
  {
    var c := [x] + b;
    forall k | 0 <= k < |c| && c[k].EdgeItem?
      ensures k + 1 < |c| && c[k + 1].NodeItem? && c[k + 1].id == c[k].dst && c[k].src < c[k].dst
    {
      if k > 0 {
        assert c[k] == b[k - 1] && c[k + 1] == b[k];
      }
    }
  }

  /** Edges: every edge `src---dst` of a job's flowchart is written right
      before the node with id `dst`, and `src < dst`; the first item is the
      job's own node, with id `n`. */
  lemma {:induction false} MermaidEdges(j: Job, d: int, n: int)
    ensures EdgesOrdered(MermaidAt(j, d, n).items)
    ensures MermaidAt(j, d, n).items != [] && MermaidAt(j, d, n).items[0].NodeItem?
      && MermaidAt(j, d, n).items[0].id == n
    decreases j, 2
  {
    match j
    case Leaf(_) =>
    case And(_) => NaryCaseEdges(j, d, n);
    case Or(_) => NaryCaseEdges(j, d, n);
    case Parallel(_) => NaryCaseEdges(j, d, n);
    case Priority(_, _) => PriorityCaseEdges(j, d, n);
    case Timeout(_, _) => ParamCaseEdges(j, d, n);
    case Limit(_, _) => ParamCaseEdges(j, d, n);
    case SubRepoPermsFilter(_) => ParamCaseEdges(j, d, n);
  }

  lemma {:induction false} NaryCaseEdges(j: Job, d: int, n: int)
    requires j.And? || j.Or? || j.Parallel?
    ensures EdgesOrdered(MermaidAt(j, d, n).items)
    ensures MermaidAt(j, d, n).items != [] && MermaidAt(j, d, n).items[0].NodeItem?
      && MermaidAt(j, d, n).items[0].id == n
    decreases j, 1
  {
    var kw := if j.And? then "AND" else if j.Or? then "OR" else "PARALLEL";
    NaryEdges(kw, j.children, d + 1, n);
  }

  lemma {:induction false} PriorityCaseEdges(j: Job, d: int, n: int)
    requires j.Priority?
    ensures EdgesOrdered(MermaidAt(j, d, n).items)
    ensures MermaidAt(j, d, n).items != [] && MermaidAt(j, d, n).items[0].NodeItem?
      && MermaidAt(j, d, n).items[0].id == n
    decreases j, 1
  {
    PriorityEdges(j.required, j.optional, d + 1, n);
  }

  lemma {:induction false} ParamCaseEdges(j: Job, d: int, n: int)
    requires j.Timeout? || j.Limit? || j.SubRepoPermsFilter?
    ensures EdgesOrdered(MermaidAt(j, d, n).items)
    ensures MermaidAt(j, d, n).items != [] && MermaidAt(j, d, n).items[0].NodeItem?
      && MermaidAt(j, d, n).items[0].id == n
    decreases j, 1
  {
    var kw := if j.Timeout? then "TIMEOUT" else if j.Limit? then "LIMIT" else "FILTER";
    var p := if j.Timeout? then j.timeout else if j.Limit? then Itoa(j.limit) else "SubRepoPermissions";
    ParamEdges(kw, p, j.child, d + 1, n);
  }

  lemma {:induction false} PriorityEdges(r: Job, o: Job, e: int, n: int)
    ensures EdgesOrdered(PriorityTrace(r, o, e, n).items)
    ensures PriorityTrace(r, o, e, n).items[0] == NodeItem(n, RoundedStyle, "PRIORITY", e)
    decreases Priority(r, o), 0
  {
    var req := MermaidAt(r, e, n + 2);
    MermaidEdges(r, e, n + 2);
    MermaidIds(r, e, n + 2);
    var opt := MermaidAt(o, e, req.next + 1);
    MermaidEdges(o, e, req.next + 1);
    PriorityTraceOf(r, o, e, n, req, opt);
    PriorityItemEdges(req, opt, e, n);
  }

  // The edges of a PRIORITY node, given those of its parts.
  lemma PriorityItemEdges(req: Trace, opt: Trace, e: int, n: int)
    requires EdgesOrdered(req.items) && req.items != [] && req.items[0].NodeItem? && req.items[0].id == n + 2
    requires EdgesOrdered(opt.items) && opt.items != [] && opt.items[0].NodeItem? && opt.items[0].id == req.next + 1
    requires n + 2 < req.next + 1
    ensures EdgesOrdered(PriorityItems(req, opt, e, n))
    ensures PriorityItems(req, opt, e, n)[0] == NodeItem(n, RoundedStyle, "PRIORITY", e)
  {
    var t2 := OptionalPart(req, opt, e, n);
    OptionalPartEdges(req, opt, e, n);
    var p := NodeItem(n, RoundedStyle, "PRIORITY", e);
    var rq := NodeItem(n + 1, RoundedStyle, "REQUIRED", e);
    EdgesOrderedConcat(req.items, t2);
    EdgeBefore(EdgeItem(n + 1, n + 2, e), req.items + t2);
    var t3 := [EdgeItem(n + 1, n + 2, e)] + (req.items + t2);
    EdgesOrderedConcat([rq], t3);
    EdgeBefore(EdgeItem(n, n + 1, e), [rq] + t3);
    var t4 := [EdgeItem(n, n + 1, e)] + ([rq] + t3);
    EdgesOrderedConcat([p], t4);
    assert PriorityItems(req, opt, e, n) == [p] + t4;
  }

  // The items after the required part: the edge to the OPTIONAL node, that node,
  // the edge to the optional part, the optional part.
  function OptionalPart(req: Trace, opt: Trace, e: int, n: int): seq<Item>
  {
    [EdgeItem(n, req.next, e), NodeItem(req.next, RoundedStyle, "OPTIONAL", e), EdgeItem(req.next, req.next + 1, e)] + opt.items
  }

  lemma OptionalPartEdges(req: Trace, opt: Trace, e: int, n: int)
    requires EdgesOrdered(opt.items) && opt.items != [] && opt.items[0].NodeItem? && opt.items[0].id == req.next + 1
    requires n < req.next
    ensures EdgesOrdered(OptionalPart(req, opt, e, n))
  {
    var op := NodeItem(req.next, RoundedStyle, "OPTIONAL", e);
    EdgeBefore(EdgeItem(req.next, req.next + 1, e), opt.items);
    var t1 := [EdgeItem(req.next, req.next + 1, e)] + opt.items;
    EdgesOrderedConcat([op], t1);
    EdgeBefore(EdgeItem(n, req.next, e), [op] + t1);
    assert OptionalPart(req, opt, e, n) == [EdgeItem(n, req.next, e)] + ([op] + t1);
  }

  lemma {:induction false} NaryEdges(name: string, cs: seq<Job>, e: int, n: int)
    ensures EdgesOrdered(NaryTrace(name, cs, e, n).items)
    ensures NaryTrace(name, cs, e, n).items[0] == NodeItem(n, RoundedStyle, name, e)
    decreases cs, 2
  {
    ChildrenEdges(n, cs, e, n + 1);
    EdgesOrderedConcat([NodeItem(n, RoundedStyle, name, e)], ChildrenTrace(n, cs, e, n + 1).items);
  }

  lemma {:induction false} ChildrenEdges(src: int, cs: seq<Job>, e: int, n: int)
    requires src < n
    ensures EdgesOrdered(ChildrenTrace(src, cs, e, n).items)
    decreases cs, 1
  {
    if cs != [] {
      var pre := ChildrenTrace(src, cs[..|cs| - 1], e, n);
      ChildrenEdges(src, cs[..|cs| - 1], e, n);
      ChildrenIds(src, cs[..|cs| - 1], e, n);
      var last := MermaidAt(cs[|cs| - 1], e, pre.next);
      MermaidEdges(cs[|cs| - 1], e, pre.next);
      var edge := EdgeItem(src, pre.next, e);
      EdgeBefore(edge, last.items);
      EdgesOrderedConcat(pre.items, [edge] + last.items);
      assert ChildrenTrace(src, cs, e, n).items == pre.items + ([edge] + last.items);
    }
  }

  lemma {:induction false} ParamEdges(name: string, param: string, c: Job, e: int, n: int)
    ensures EdgesOrdered(ParamTrace(name, param, c, e, n).items)
    ensures ParamTrace(name, param, c, e, n).items[0] == NodeItem(n, RoundedStyle, name, e)
    decreases c, 3
  {
    var child := MermaidAt(c, e, n + 2);
    MermaidEdges(c, e, n + 2);
    var x := NodeItem(n + 1, DefaultStyle, param, e);
    EdgeBefore(EdgeItem(n, n + 2, e), child.items);
    var t1 := [EdgeItem(n, n + 2, e)] + child.items;
    EdgesOrderedConcat([x], t1);
    EdgeBefore(EdgeItem(n, n + 1, e), [x] + t1);
    var t2 := [EdgeItem(n, n + 1, e)] + ([x] + t1);
    EdgesOrderedConcat([NodeItem(n, RoundedStyle, name, e)], t2);
    assert ParamTrace(name, param, c, e, n).items == [NodeItem(n, RoundedStyle, name, e)] + t2;
  }
}
