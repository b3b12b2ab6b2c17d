/** The `classnames` helper the components use to build a `class` attribute:
    falsy arguments (`undefined`, `false`, the empty string) are dropped and
    the remaining class names are joined with single spaces. A falsy
    argument is written here as the empty string. */
module Classes {

  import opened Strings
  import opened Seqs

  /** A truthy class argument. */
  predicate Given(a: string)
  {
    a != ""
  }

  /** The arguments that contribute a class name, in order. */
  function Present(args: seq<string>): (r: seq<string>)
    ensures forall k :: 0 <= k < |r| ==> r[k] != ""
  {
    Filter(args, Given)
  }

  /** `classNames(...args)`. */
  function ClassNames(args: seq<string>): (r: string)
    ensures r == "" <==> forall k :: 0 <= k < |args| ==> args[k] == ""
  {
    var names := Present(args);
    PresentEmpty(args);
    if names == [] then "" else
      assert |Join(names, ' ')| >= |names[0]| by { JoinLength(names, ' '); }
      Join(names, ' ')
  }

  // No argument contributes exactly when all of them are falsy.
  lemma PresentEmpty(args: seq<string>)
    ensures Present(args) == [] <==> forall k :: 0 <= k < |args| ==> args[k] == ""
  {
    FilterMembership(args, Given);
    if Present(args) != [] {
      assert Present(args)[0] in Present(args);
    } else {
      forall k | 0 <= k < |args| ensures args[k] == "" {
        assert args[k] in args;
      }
    }
  }

  // The joined text is at least as long as its first piece.
  lemma JoinLength(parts: seq<string>, sep: char)
    requires |parts| >= 1
    ensures |Join(parts, sep)| >= |parts[0]|
  {
  }

  /** One argument: the class attribute is that argument. */
  lemma ClassNamesSingle(a: string)
    ensures ClassNames([a]) == a
  {
    assert [a][1..] == [];
  }

  /** Two arguments: both when both are given, one of them otherwise. */
  lemma ClassNamesPair(a: string, b: string)
    ensures ClassNames([a, b]) == if a == "" then b else if b == "" then a else a + " " + b
  {
    assert [a, b][1..] == [b];
    assert [b][1..] == [];
    assert Present([b]) == if b == "" then [] else [b];
    assert Present([a, b]) == if a == "" then Present([b]) else [a] + Present([b]);
    if a != "" && b != "" {
      assert Join([a, b], ' ') == a + [' '] + Join([b], ' ');
    }
  }

  /** When no argument holds a space, splitting the class attribute on
      spaces gives back exactly the given class names, in order. */
  lemma {:induction false} ClassNamesSplit(args: seq<string>)
    requires exists k :: 0 <= k < |args| && args[k] != ""
    requires forall k :: 0 <= k < |args| ==> ' ' !in args[k]
    ensures Split(ClassNames(args), ' ') == Present(args)
  {
    FilterMembership(args, Given);
    PresentEmpty(args);
    var names := Present(args);
    forall k | 0 <= k < |names| ensures ' ' !in names[k] {
      assert names[k] in names;
    }
    JoinSplit(names, ' ');
  }
}
