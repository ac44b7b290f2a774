/** Checking that every aggregate a having clause refers to is among the
    query's aggregations. A nested clause is walked with an explicit
    worklist through its AND/OR combinators. */
module Having {
  import opened Common
  import opened SnubaTypes

  // ---------------------------------------------------------------------
  // Sizes, for termination of the walk
  // ---------------------------------------------------------------------

  function ArgSize(a: HavingArg): nat
    decreases a, 0
  {
    match a
    case Call(_) => 1
    case Combinator(_, operands) => 1 + ListsSize(operands)
  }

  function ListsSize(ls: seq<ArgList>): nat
    decreases ls
  {
    if ls == [] then 0 else ListsSize(ls[..|ls| - 1]) + ListSize(ls[|ls| - 1])
  }

  function ListSize(l: ArgList): nat
    decreases l
  {
    1 + ArgsSize(l.args)
  }

  function ArgsSize(args: seq<HavingArg>): nat
    decreases args
  {
    if args == [] then 0 else ArgsSize(args[..|args| - 1]) + ArgSize(args[|args| - 1])
  }

  lemma {:induction false} ListsSizeAppend(a: seq<ArgList>, b: seq<ArgList>)
    ensures ListsSize(a + b) == ListsSize(a) + ListsSize(b)
    decreases |b|
  {
    if b == [] {
      assert a + b == a;
    } else {
      assert (a + b)[..|a + b| - 1] == a + b[..|b| - 1];
      ListsSizeAppend(a, b[..|b| - 1]);
    }
  }

  // ---------------------------------------------------------------------
  // One pass over an argument list, and the whole walk
  // ---------------------------------------------------------------------

  /** What one argument adds to the missing list: the alias of a function
      call whose arguments are a list, when no aggregation carries it. */
  function Leaf(a: HavingArg, aliases: set<string>): seq<string>
  {
    if a.Call? && a.firstArg.Some? && a.firstArg.value !in aliases then [a.firstArg.value] else []
  }

  /** What one argument adds to the worklist: a combinator's operand lists. */
  function Children(a: HavingArg): seq<ArgList>
  {
    if a.Combinator? then a.operands else []
  }

  /** The aliases one pass over `args` appends, in order. */
  function Emit(args: seq<HavingArg>, aliases: set<string>): seq<string>
  {
    if args == [] then [] else Emit(args[..|args| - 1], aliases) + Leaf(args[|args| - 1], aliases)
  }

  /** The lists one pass over `args` pushes, in order. */
  function Push(args: seq<HavingArg>): seq<ArgList>
  {
    if args == [] then [] else Push(args[..|args| - 1]) + Children(args[|args| - 1])
  }

  lemma {:induction false} PushSmaller(args: seq<HavingArg>)
    ensures ListsSize(Push(args)) <= ArgsSize(args)
  {
    if args != [] {
      PushSmaller(args[..|args| - 1]);
      ListsSizeAppend(Push(args[..|args| - 1]), Children(args[|args| - 1]));
    }
  }

  /** The missing aliases in the order the worklist loop finds them: pop the
      last list, scan it, push the operands of its combinators, repeat. */
  function Walk(stack: seq<ArgList>, aliases: set<string>): seq<string>
    decreases ListsSize(stack)
  {
    if stack == [] then []
    else
      var args := stack[|stack| - 1].args;
      var rest := stack[..|stack| - 1];
      PushSmaller(args);
      ListsSizeAppend(rest, Push(args));
      assert ListsSize(stack) == ListsSize(rest) + ListSize(stack[|stack| - 1]);
      Emit(args, aliases) + Walk(rest + Push(args), aliases)
  }

  // ---------------------------------------------------------------------
  // Reference definitions: the missing leaves, and reachability
  // ---------------------------------------------------------------------

  /** The aliases of the function calls under `a`, through any number of
      combinators, that no aggregation carries, with multiplicity. */
  function MissingInArg(a: HavingArg, aliases: set<string>): multiset<string>
    decreases a, 0
  {
    match a
    case Call(x) => if x.Some? && x.value !in aliases then multiset{x.value} else multiset{}
    case Combinator(_, operands) => MissingInLists(operands, aliases)
  }

  function MissingInLists(ls: seq<ArgList>, aliases: set<string>): multiset<string>
    decreases ls
  {
    if ls == [] then multiset{} else MissingInLists(ls[..|ls| - 1], aliases) + MissingInList(ls[|ls| - 1], aliases)
  }

  function MissingInList(l: ArgList, aliases: set<string>): multiset<string>
    decreases l
  {
    MissingInArgs(l.args, aliases)
  }

  function MissingInArgs(args: seq<HavingArg>, aliases: set<string>): multiset<string>
    decreases args
  {
    if args == [] then multiset{} else MissingInArgs(args[..|args| - 1], aliases) + MissingInArg(args[|args| - 1], aliases)
  }

  /** The alias `x` is the first argument of some function call under `a`. */
  ghost predicate Reaches(a: HavingArg, x: string)
    decreases a, 0
  {
    match a
    case Call(y) => y == Some(x)
    case Combinator(_, operands) => ReachesInLists(operands, x)
  }

  ghost predicate ReachesInLists(ls: seq<ArgList>, x: string)
    decreases ls
  {
    exists i :: 0 <= i < |ls| && ReachesInArgs(ls[i].args, x)
  }

  ghost predicate ReachesInArgs(args: seq<HavingArg>, x: string)
    decreases args
  {
    exists j :: 0 <= j < |args| && Reaches(args[j], x)
  }

  lemma {:induction false} MissingInListsAppend(a: seq<ArgList>, b: seq<ArgList>, aliases: set<string>)
    ensures MissingInLists(a + b, aliases) == MissingInLists(a, aliases) + MissingInLists(b, aliases)
    decreases |b|
  {
    if b == [] {
      assert a + b == a;
    } else {
      assert (a + b)[..|a + b| - 1] == a + b[..|b| - 1];
      MissingInListsAppend(a, b[..|b| - 1], aliases);
    }
  }

  /** One pass accounts for exactly the missing leaves of the scanned
      arguments: those it emits plus those under what it pushes. */
  lemma {:induction false} EmitPush(args: seq<HavingArg>, aliases: set<string>)
    ensures multiset(Emit(args, aliases)) + MissingInLists(Push(args), aliases) == MissingInArgs(args, aliases)
  {
    if args != [] {
      var p := args[..|args| - 1];
      var a := args[|args| - 1];
      EmitPush(p, aliases);
      MissingInListsAppend(Push(p), Children(a), aliases);
    }
  }

  /** The walk finds every missing leaf, each as often as it occurs. */
  lemma {:induction false} WalkFindsMissing(stack: seq<ArgList>, aliases: set<string>)
    ensures multiset(Walk(stack, aliases)) == MissingInLists(stack, aliases)
    decreases ListsSize(stack)
  {
    if stack != [] {
      var args := stack[|stack| - 1].args;
      var rest := stack[..|stack| - 1];
      PushSmaller(args);
      ListsSizeAppend(rest, Push(args));
      assert ListsSize(stack) == ListsSize(rest) + ListSize(stack[|stack| - 1]);
      WalkFindsMissing(rest + Push(args), aliases);
      MissingInListsAppend(rest, Push(args), aliases);
      EmitPush(args, aliases);
    }
  }

  /** A leaf is missing exactly when it is reachable and no aggregation carries it. */
  lemma {:induction false} MissingIffReaches(a: HavingArg, aliases: set<string>, x: string)
    ensures x in MissingInArg(a, aliases) <==> Reaches(a, x) && x !in aliases
    decreases a, 0
  {
    match a
    case Call(_) =>
    case Combinator(_, operands) => MissingListsIffReaches(operands, aliases, x);
  }

  lemma {:induction false} MissingListsIffReaches(ls: seq<ArgList>, aliases: set<string>, x: string)
    ensures x in MissingInLists(ls, aliases) <==> ReachesInLists(ls, x) && x !in aliases
    decreases ls
  {
    if ls != [] {
      var p := ls[..|ls| - 1];
      var l := ls[|ls| - 1];
      MissingListsIffReaches(p, aliases, x);
      MissingArgsIffReaches(l.args, aliases, x);
      if ReachesInLists(ls, x) {
        var i :| 0 <= i < |ls| && ReachesInArgs(ls[i].args, x);
        if i < |p| { assert p[i] == ls[i]; }
      }
      if ReachesInLists(p, x) {
        var i :| 0 <= i < |p| && ReachesInArgs(p[i].args, x);
        assert ls[i] == p[i];
      }
    }
  }

  lemma {:induction false} MissingArgsIffReaches(args: seq<HavingArg>, aliases: set<string>, x: string)
    ensures x in MissingInArgs(args, aliases) <==> ReachesInArgs(args, x) && x !in aliases
    decreases args
  {
    if args != [] {
      var p := args[..|args| - 1];
      var a := args[|args| - 1];
      MissingArgsIffReaches(p, aliases, x);
      MissingIffReaches(a, aliases, x);
      if ReachesInArgs(args, x) {
        var j :| 0 <= j < |args| && Reaches(args[j], x);
        if j < |p| { assert p[j] == args[j]; }
      }
      if ReachesInArgs(p, x) {
        var j :| 0 <= j < |p| && Reaches(p[j], x);
        assert args[j] == p[j];
      }
    }
  }

  // ---------------------------------------------------------------------
  // The worklist loop
  // ---------------------------------------------------------------------

  /** The start of the walk of a nested clause: one list holding the clause's
      function expression. */
  function Start(root: HavingArg): seq<ArgList>
  {
    [ArgList([root])]
  }

  /** The missing aliases of a nested clause, in the order the walk finds them. */
  function NestedMissing(root: HavingArg, aliases: set<string>): seq<string>
  {
    Walk(Start(root), aliases)
  }

  /** `conditions_not_in_aggregations`: pop a list off the worklist, push the
      operands of every combinator in it, and record the alias of every
      other function call whose arguments are a list and that no
      aggregation carries. */
  method MissingAliases(root: HavingArg, aggregations: seq<Aggregation>) returns (missing: seq<string>)
    ensures missing == NestedMissing(root, AggregateAliases(aggregations))
  {
    ghost var aliases := AggregateAliases(aggregations);
    var stack := Start(root);
    missing := [];
    while |stack| > 0
      invariant missing + Walk(stack, aliases) == NestedMissing(root, aliases)
      decreases ListsSize(stack)
    {
      var args := stack[|stack| - 1].args;
      ghost var rest := stack[..|stack| - 1];
      PushSmaller(args);
      ListsSizeAppend(rest, Push(args));
      assert ListsSize(stack) == ListsSize(rest) + ListSize(stack[|stack| - 1]);
      assert Walk(stack, aliases) == Emit(args, aliases) + Walk(rest + Push(args), aliases);
      AppendAssoc(missing, Emit(args, aliases), Walk(rest + Push(args), aliases));
      stack, missing := ScanArgs(args, aggregations, stack[..|stack| - 1], missing);
    }
  }

  /** One `for arg in args` pass of the worklist loop. */
  method ScanArgs(args: seq<HavingArg>, aggregations: seq<Aggregation>, stack0: seq<ArgList>, missing0: seq<string>)
    returns (stack: seq<ArgList>, missing: seq<string>)
    ensures stack == stack0 + Push(args)
    ensures missing == missing0 + Emit(args, AggregateAliases(aggregations))
  {
    ghost var aliases := AggregateAliases(aggregations);
    stack, missing := stack0, missing0;
    var j := 0;
    while j < |args|
      invariant 0 <= j <= |args|
      invariant missing == missing0 + Emit(args[..j], aliases)
      invariant stack == stack0 + Push(args[..j])
    {
      ScanStep(args, j, aliases);
      AppendAssoc(missing0, Emit(args[..j], aliases), Leaf(args[j], aliases));
      AppendAssoc(stack0, Push(args[..j]), Children(args[j]));
      var arg := args[j];
      match arg {
        case Combinator(_, operands) =>
          stack := stack + operands;
        case Call(first) =>
          if first.Some? && !(exists i :: 0 <= i < |aggregations| && aggregations[i].alias == first.value) {
            missing := missing + [first.value];
          }
      }
      j := j + 1;
    }
    assert args[..|args|] == args;
  }

  lemma ScanStep(args: seq<HavingArg>, j: int, aliases: set<string>)
    requires 0 <= j < |args|
    ensures Emit(args[..j + 1], aliases) == Emit(args[..j], aliases) + Leaf(args[j], aliases)
    ensures Push(args[..j + 1]) == Push(args[..j]) + Children(args[j])
  {
    assert args[..j + 1][..j] == args[..j];
  }

  /** The walk of a nested clause reports exactly its missing leaves. */
  lemma NestedMissingMeaning(root: HavingArg, aliases: set<string>, x: string)
    ensures multiset(NestedMissing(root, aliases)) == MissingInArg(root, aliases)
    ensures x in NestedMissing(root, aliases) <==> Reaches(root, x) && x !in aliases
  {
    WalkFindsMissing(Start(root), aliases);
    var l := ArgList([root]);
    assert Start(root)[..0] == [];
    assert [root][..0] == [];
    assert MissingInLists(Start(root), aliases) == MissingInList(l, aliases);
    assert MissingInArgs(l.args, aliases) == MissingInArg(root, aliases);
    MissingIffReaches(root, aliases, x);
    assert x in NestedMissing(root, aliases) <==> x in multiset(NestedMissing(root, aliases));
  }

  // ---------------------------------------------------------------------
  // Validating the clauses
  // ---------------------------------------------------------------------

  /** The error one having clause raises, if any. */
  function ClauseError(c: HavingClause, aliases: set<string>, autoAggregations: bool): Option<Invalid>
  {
    match c.lhs
    case AliasRef(a) => if a in aliases then None else Some(AggregateNotSelected(a, autoAggregations))
    case Nested(e) =>
      var m := NestedMissing(e, aliases);
      if m == [] then None else Some(AggregatesNotSelected(m, autoAggregations))
  }

  /** The error of the first failing clause, if any. */
  function CheckHaving(having: seq<HavingClause>, aliases: set<string>, autoAggregations: bool): (r: Option<Invalid>)
    ensures r.None? <==> forall i :: 0 <= i < |having| ==> ClauseError(having[i], aliases, autoAggregations).None?
    ensures r.Some? ==> exists i :: 0 <= i < |having| && r == ClauseError(having[i], aliases, autoAggregations) &&
                          forall j :: 0 <= j < i ==> ClauseError(having[j], aliases, autoAggregations).None?
  {
    if having == [] then None
    else
      var e := ClauseError(having[0], aliases, autoAggregations);
      if e.Some? then e
      else
        var r := CheckHaving(having[1..], aliases, autoAggregations);
        assert forall i :: 1 <= i < |having| ==> having[i] == having[1..][i - 1];
        if r.Some? then
          var i :| 0 <= i < |having[1..]| && r == ClauseError(having[1..][i], aliases, autoAggregations) &&
              forall j :: 0 <= j < i ==> ClauseError(having[1..][j], aliases, autoAggregations).None?;
          assert forall j :: 0 <= j < i + 1 ==> ClauseError(having[j], aliases, autoAggregations).None? by {
            forall j | 0 <= j < i + 1 ensures ClauseError(having[j], aliases, autoAggregations).None? {
              if j > 0 { assert having[j] == having[1..][j - 1]; }
            }
          }
          r
        else r
  }

  /** The validation loop over the filter's having clauses. */
  method ValidateHaving(having: seq<HavingClause>, aggregations: seq<Aggregation>, autoAggregations: bool)
    returns (err: Option<Invalid>)
    ensures err == CheckHaving(having, AggregateAliases(aggregations), autoAggregations)
  {
    ghost var aliases := AggregateAliases(aggregations);
    var i := 0;
    while i < |having|
      invariant 0 <= i <= |having|
      invariant CheckHaving(having, aliases, autoAggregations) == CheckHaving(having[i..], aliases, autoAggregations)
    {
      assert having[i..][1..] == having[i + 1..];
      var clause := having[i];
      match clause.lhs {
        case Nested(e) =>
          var missing := MissingAliases(e, aggregations);
          if |missing| > 0 {
            return Some(AggregatesNotSelected(missing, autoAggregations));
          }
        case AliasRef(a) =>
          var found := exists k :: 0 <= k < |aggregations| && aggregations[k].alias == a;
          if !found {
            return Some(AggregateNotSelected(a, autoAggregations));
          }
      }
      i := i + 1;
    }
    return None;
  }

  /** A nested clause fails exactly when some alias reached through the
      combinators is carried by no aggregation, and its message names every
      such alias. */
  lemma NestedClauseFails(e: HavingArg, aliases: set<string>, autoAggregations: bool, x: string)
    ensures ClauseError(HavingClause(Nested(e), "=", VInt(1)), aliases, autoAggregations).Some?
            <==> exists y :: y in NestedMissing(e, aliases)
    ensures Reaches(e, x) && x !in aliases ==>
              var err := ClauseError(HavingClause(Nested(e), "=", VInt(1)), aliases, autoAggregations);
              err.Some? && err.value.AggregatesNotSelected? && Contains(Message(err.value), x)
  {
    NestedMissingMeaning(e, aliases, x);
    var m := NestedMissing(e, aliases);
    if m != [] {
      assert m[0] in m;
    }
    if x in m {
      MessageNamesAlias(m, autoAggregations, x);
    }
  }

  /** The combined message names each of the missing aliases. */
  lemma MessageNamesAlias(m: seq<string>, autoAggregations: bool, x: string)
    requires x in m
    ensures Contains(Message(AggregatesNotSelected(m, autoAggregations)), x)
  {
    var i :| 0 <= i < |m| && m[i] == x;
    JoinContainsParts(m, ", ", i);
    ContainsMiddle("Aggregate(s) ", Join(m, ", "),
      " used in a condition but are not in the selected columns" + AutoAggregationsExtra(autoAggregations) + ".", x);
  }

  /** A flat clause fails exactly on its own alias, and the message names it. */
  lemma FlatClauseFails(c: HavingClause, aliases: set<string>, autoAggregations: bool)
    requires c.lhs.AliasRef?
    ensures ClauseError(c, aliases, autoAggregations).Some? <==> c.lhs.alias !in aliases
    ensures c.lhs.alias !in aliases ==>
              Contains(Message(ClauseError(c, aliases, autoAggregations).value), c.lhs.alias)
  {
    var a := c.lhs.alias;
    if a !in aliases {
      assert OccursAt(a, a, 0);
      ContainsMiddle("Aggregate ", a,
        " used in a condition but is not a selected column" + AutoAggregationsExtra(autoAggregations) + ".", a);
    }
  }
}
