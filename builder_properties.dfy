/**
 * What src/Builder.ts promises about its steps, proved of the interpreter in
 * module BuilderSpec: chains compose, buffers only grow, the scope only
 * gains aliases, aliases stay visible across composite boundaries and across
 * siblings, children are spliced in input order, and the separator rule yields
 * single dots between units.
 */
module BuilderProperties {
  import opened Wrappers
  import opened Common
  import opened Render
  import opened Fragments
  import opened BuilderSpec

  /** Running `p1` then `p2` is running `p1 + p2`: the chain stops at the first throw. */
  lemma {:induction false} ExecProgAppend(p1: Program, p2: Program, q: string, sc: Scope)
    ensures ExecProg(p1 + p2, q, sc)
         == (var o := ExecProg(p1, q, sc); if o.error.Some? then o else ExecProg(p2, o.query, o.scope))
    decreases |p1|
  {
    if p1 == [] {
      assert p1 + p2 == p2;
    } else {
      assert (p1 + p2)[0] == p1[0];
      assert (p1 + p2)[1..] == p1[1..] + p2;
      var o := ExecStep(p1[0], q, sc);
      if o.error.None? {
        ExecProgAppend(p1[1..], p2, o.query, o.scope);
      }
    }
  }

  /** A step only ever appends: the old buffer is a prefix of the new one. */
  lemma ExecStepExtends(s: Step, q: string, sc: Scope)
    ensures q <= ExecStep(s, q, sc).query
  {
  }

  /** A chain only ever appends, also when it throws part-way. */
  lemma {:induction false} ExecProgExtends(p: Program, q: string, sc: Scope)
    ensures q <= ExecProg(p, q, sc).query
    decreases |p|
  {
    if p != [] {
      var o := ExecStep(p[0], q, sc);
      ExecStepExtends(p[0], q, sc);
      if o.error.None? {
        ExecProgExtends(p[1..], o.query, o.scope);
      }
    }
  }

  /** A step that throws changes nothing in the buffer; one without callbacks changes nothing in the scope either. */
  lemma FailureLeavesQuery(s: Step, q: string, sc: Scope)
    requires ExecStep(s, q, sc).error.Some?
    ensures ExecStep(s, q, sc).query == q
    ensures !(s.And? || s.Not? || s.Where? || s.SideEffect? || s.Project?) ==> ExecStep(s, q, sc).scope == sc
  {
  }

  /** How a scope may evolve: vocabulary and flags fixed, aliases only appended, and never duplicated. */
  ghost predicate Grows(sc: Scope, sc': Scope) {
    sc'.edges == sc.edges && sc'.disableEdges == sc.disableEdges && sc'.disableAliases == sc.disableAliases
    && sc.aliases <= sc'.aliases
    && (sc.disableAliases ==> sc'.aliases == sc.aliases)
    && (Distinct(sc.aliases) ==> Distinct(sc'.aliases))
  }

  lemma StepGrows(s: Step, q: string, sc: Scope)
    ensures Grows(sc, ExecStep(s, q, sc).scope)
    decreases StepSize(s), 1
  {
    match s
    case And(input) => AndGrows(input, q, sc);
    case Not(cb) => ProgGrows(cb.body, "", sc);
    case Where(cb) => ProgGrows(cb.body, "", sc);
    case SideEffect(cb) => ProgGrows(cb.body, "", sc);
    case Project(parts) => ProjectGrows(parts, q, sc);
    case _ => SimpleGrows(s, q, sc);
  }

  /** The steps without callbacks: only `as` and `aggregate` touch the scope. */
  lemma SimpleGrows(s: Step, q: string, sc: Scope)
    requires !(s.And? || s.Not? || s.Where? || s.SideEffect? || s.Project?)
    ensures Grows(sc, ExecStep(s, q, sc).scope)
    ensures !(s.As? || s.Aggregate?) ==> ExecStep(s, q, sc).scope == sc
  {
    if (s.Aggregate? || s.As?) && Distinct(sc.aliases) {
      var a := if s.Aggregate? then s.alias else s.name;
      if AddAlias(sc, a).Success? {
        AddAliasKeepsDistinct(sc, a);
      }
    }
  }

  lemma AndGrows(input: AndInput, q: string, sc: Scope)
    ensures Grows(sc, ExecAnd(input, q, sc).scope)
    decreases StepSize(And(input)), 0
  {
    match input
    case OneCallback(cb) => ProgGrows(cb.body, "", sc);
    case Callbacks(cs) => ChildrenGrows(cs, sc);
    case _ =>
  }

  lemma ProjectGrows(parts: PartsInput, q: string, sc: Scope)
    ensures Grows(sc, ExecProject(parts, q, sc).scope)
    decreases StepSize(Project(parts)), 0
  {
    if parts.PartList? {
      PartsSizeBodies(parts.list);
      ChildrenGrows(Bodies(parts.list), sc);
    }
  }

  /** Edges and flags never change and aliases are only ever appended, to any depth of nesting. */
  lemma ProgGrows(p: Program, q: string, sc: Scope)
    ensures Grows(sc, ExecProg(p, q, sc).scope)
    decreases ProgSize(p), 2
  {
    if p != [] {
      var o := ExecStep(p[0], q, sc);
      StepGrows(p[0], q, sc);
      if o.error.None? {
        ProgGrows(p[1..], o.query, o.scope);
      }
    }
  }

  lemma ChildrenGrows(cs: seq<Callback>, sc: Scope)
    ensures Grows(sc, ExecChildren(cs, sc).scope)
    decreases CallbacksSize(cs), 3
  {
    if cs != [] {
      var o := ExecProg(cs[0].body, "", sc);
      ProgGrows(cs[0].body, "", sc);
      if o.error.None? {
        ChildrenGrows(cs[1..], o.scope);
      }
    }
  }

  /** `select` passes exactly when alias checks are off or the alias is known; a failing `select` changes nothing. */
  lemma SelectGate(a: string, q: string, sc: Scope)
    ensures ExecStep(Select(a), q, sc).error.None? <==> sc.disableAliases || a in sc.aliases
    ensures ExecStep(Select(a), q, sc).error.Some? ==>
      ExecStep(Select(a), q, sc) == Outcome(q, sc, Some(AliasNotFound(a)))
  {
  }

  /** The edge steps pass exactly when edge checks are off or the edge is known. */
  lemma EdgeGate(s: Step, q: string, sc: Scope)
    requires s.E? || s.In? || s.InE? || s.Out? || s.OutE?
    ensures ExecStep(s, q, sc).error.None? <==> sc.disableEdges || s.edge in sc.edges
    ensures ExecStep(s, q, sc).error.Some? ==> ExecStep(s, q, sc) == Outcome(q, sc, Some(EdgeNotFound(s.edge)))
  {
  }

  /** `and` given neither `undefined`, a function nor an array throws and changes nothing. */
  lemma AndShapeError(q: string, sc: Scope)
    ensures ExecStep(And(OtherInput), q, sc) == Outcome(q, sc, Some(InvalidAndInput))
  {
  }

  /** `project` given a non-array throws and changes nothing. */
  lemma ProjectShapeError(q: string, sc: Scope)
    ensures ExecStep(Project(NotAnArray), q, sc) == Outcome(q, sc, Some(PartsNotArray))
  {
  }

  /** `elementMap` given a truthy non-array throws and changes nothing. */
  lemma ElementMapShapeError(q: string, sc: Scope)
    ensures ExecStep(ElementMap(OtherKeys), q, sc) == Outcome(q, sc, Some(KeysNotArray))
  {
  }

  /** `hasLabel` given neither a string nor an array appends nothing, not even a separator. */
  lemma HasLabelOtherIsNoop(q: string, sc: Scope)
    ensures ExecStep(HasLabel(OtherLabels), q, sc) == Outcome(q, sc, None)
  {
  }

  /**
   * Alias round trip: once an alias is registered, a `select` of it anywhere
   * later over the same scope passes, however many composite steps lie between,
   * because aliases are never removed.
   */
  lemma {:induction false} AliasStaysSelectable(p1: Program, p2: Program, a: string, q: string, sc: Scope)
    requires ExecProg(p1, q, sc).error.None?
    requires sc.disableAliases || a in ExecProg(p1, q, sc).scope.aliases
    requires ExecProg(p1 + p2, q, sc).error.None?
    ensures var m := ExecProg(p1 + p2, q, sc);
      ExecProg(p1 + p2 + [Select(a)], q, sc) == Outcome(Append(m.query, Template(Select(a))), m.scope, None)
  {
    var o1 := ExecProg(p1, q, sc);
    ExecProgAppend(p1, p2, q, sc);
    var m := ExecProg(p1 + p2, q, sc);
    assert m == ExecProg(p2, o1.query, o1.scope);
    ProgGrows(p1, q, sc);
    ProgGrows(p2, o1.query, o1.scope);
    assert m.scope.disableAliases || a in m.scope.aliases;
    ExecProgAppend(p1 + p2, [Select(a)], q, sc);
    ExecProgSingle(Select(a), m.query, m.scope);
    SelectGate(a, m.query, m.scope);
  }

  /** `as(a)` anywhere before, with any successful steps in between, makes a later `select(a)` pass. */
  lemma AsThenSelect(pre: Program, mid: Program, a: string, q: string, sc: Scope)
    requires ExecProg(pre + [As(a)] + mid, q, sc).error.None?
    ensures ExecProg(pre + [As(a)] + mid + [Select(a)], q, sc).error.None?
  {
    var p1 := pre + [As(a)];
    ExecProgAppend(p1, mid, q, sc);
    ExecProgAppend(pre, [As(a)], q, sc);
    var o := ExecProg(pre, q, sc);
    ProgGrows(pre, q, sc);
    AliasStaysSelectable(p1, mid, a, q, sc);
  }

  /** With alias tracking on, registering a known alias again throws and changes nothing. */
  lemma {:induction false} DuplicateRejected(p: Program, a: string, q: string, sc: Scope)
    requires !sc.disableAliases
    requires ExecProg(p, q, sc).error.None? && a in ExecProg(p, q, sc).scope.aliases
    ensures var o := ExecProg(p, q, sc);
      ExecProg(p + [As(a)], q, sc) == Outcome(o.query, o.scope, Some(DuplicateAlias(a)))
      && ExecProg(p + [Aggregate(a)], q, sc) == Outcome(o.query, o.scope, Some(DuplicateAlias(a)))
  {
    ExecProgAppend(p, [As(a)], q, sc);
    ExecProgAppend(p, [Aggregate(a)], q, sc);
    ProgGrows(p, q, sc);
  }

  /** The children of a composite step run one after another over the threaded scope. */
  lemma {:induction false} ExecChildrenSplit(cs: seq<Callback>, k: nat, sc: Scope)
    requires k <= |cs|
    ensures ExecChildren(cs, sc)
         == (var a := ExecChildren(cs[..k], sc);
             if a.error.Some? then a
             else var b := ExecChildren(cs[k..], a.scope); Children(a.texts + b.texts, b.scope, b.error))
    decreases k
  {
    if k == 0 {
      assert cs[k..] == cs;
    } else {
      assert cs[..k][0] == cs[0] && cs[..k][1..] == cs[1..][..k - 1];
      assert cs[k..] == cs[1..][k - 1..];
      var o := ExecProg(cs[0].body, "", sc);
      if o.error.None? {
        ExecChildrenSplit(cs[1..], k - 1, o.scope);
      }
    }
  }

  /** Children that all succeed give one whitespace-free text per callback. */
  lemma {:induction false} ChildrenComplete(cs: seq<Callback>, sc: Scope)
    requires ExecChildren(cs, sc).error.None?
    ensures |ExecChildren(cs, sc).texts| == |cs|
    ensures forall i :: 0 <= i < |cs| ==> NoWhitespace(ExecChildren(cs, sc).texts[i])
    decreases |cs|
  {
    if cs != [] {
      var o := ExecProg(cs[0].body, "", sc);
      CompactSpec(o.query);
      ChildrenComplete(cs[1..], o.scope);
    }
  }

  /**
   * Input order: the i-th text is the i-th callback's `toString`, run over the
   * scope the callbacks before it left, so an alias registered by one child is
   * visible to every later sibling.
   */
  lemma ChildrenInOrder(cs: seq<Callback>, sc: Scope, i: nat)
    requires ExecChildren(cs, sc).error.None?
    requires i < |cs|
    ensures |ExecChildren(cs, sc).texts| == |cs|
    ensures ExecChildren(cs[..i], sc).error.None?
    ensures var before := ExecChildren(cs[..i], sc).scope;
      ExecProg(cs[i].body, "", before).error.None?
      && ExecChildren(cs, sc).texts[i] == Compact(ExecProg(cs[i].body, "", before).query)
  {
    ChildrenComplete(cs, sc);
    ExecChildrenSplit(cs, i, sc);
    var a := ExecChildren(cs[..i], sc);
    ChildrenComplete(cs[..i], sc);
    assert cs[i..][0] == cs[i];
  }

  /** `ChildrenInOrder` for every index at once. */
  lemma AllChildrenInOrder(cs: seq<Callback>, sc: Scope)
    requires ExecChildren(cs, sc).error.None?
    ensures |ExecChildren(cs, sc).texts| == |cs|
    ensures forall i :: 0 <= i < |cs| ==>
      ExecChildren(cs, sc).texts[i] == Compact(ExecProg(cs[i].body, "", ExecChildren(cs[..i], sc).scope).query)
  {
    ChildrenComplete(cs, sc);
    forall i | 0 <= i < |cs|
      ensures ExecChildren(cs, sc).texts[i] == Compact(ExecProg(cs[i].body, "", ExecChildren(cs[..i], sc).scope).query)
    {
      ChildrenInOrder(cs, sc, i);
    }
  }

  /** A one-step chain is that step. */
  lemma ExecProgSingle(s: Step, q: string, sc: Scope)
    ensures ExecProg([s], q, sc) == ExecStep(s, q, sc)
  {
    assert [s][1..] == [];
  }

  /** `and([c1, c2])`: the second callback runs over the scope the first left, and the texts appear in that order. */
  lemma AndTwoCallbacks(c1: Callback, c2: Callback, q: string, sc: Scope)
    ensures var o1 := ExecProg(c1.body, "", sc);
      var o2 := ExecProg(c2.body, "", o1.scope);
      o1.error.None? && o2.error.None? ==>
        ExecStep(And(Callbacks([c1, c2])), q, sc)
        == Outcome(Append(q, Call("and", Compact(o1.query) + "," + Compact(o2.query))), o2.scope, None)
  {
    var o1 := ExecProg(c1.body, "", sc);
    var o2 := ExecProg(c2.body, "", o1.scope);
    if o1.error.None? && o2.error.None? {
      ChildrenPair(c1, c2, sc);
      AndCallbacksStep([c1, c2], q, sc);
      var ts := [Compact(o1.query), Compact(o2.query)];
      assert ts[1..] == [Compact(o2.query)];
      assert Join(ts, ",") == Compact(o1.query) + "," + Compact(o2.query);
    }
  }

  /** `and([...])` spelled out. */
  lemma AndCallbacksStep(cs: seq<Callback>, q: string, sc: Scope)
    ensures ExecStep(And(Callbacks(cs)), q, sc)
         == (var c := ExecChildren(cs, sc);
             if c.error.Some? then Outcome(q, c.scope, c.error)
             else Outcome(Append(q, Call("and", Join(c.texts, ","))), c.scope, None))
  {
  }

  /** Two children: the second runs over the scope the first left. */
  lemma ChildrenPair(c1: Callback, c2: Callback, sc: Scope)
    ensures var o1 := ExecProg(c1.body, "", sc);
      var o2 := ExecProg(c2.body, "", o1.scope);
      o1.error.None? && o2.error.None? ==>
        ExecChildren([c1, c2], sc) == Children([Compact(o1.query), Compact(o2.query)], o2.scope, None)
  {
    var o1 := ExecProg(c1.body, "", sc);
    var o2 := ExecProg(c2.body, "", o1.scope);
    if o1.error.None? && o2.error.None? {
      var cs := [c1, c2];
      assert cs[0] == c1 && cs[1..] == [c2];
      assert [c2][0] == c2 && [c2][1..] == [];
      var r3 := ExecChildren([], o2.scope);
      assert r3 == Children([], o2.scope, None);
      assert [Compact(o2.query)] + r3.texts == [Compact(o2.query)];
      var r2 := ExecChildren([c2], o1.scope);
      assert r2 == Children([Compact(o2.query)] + r3.texts, r3.scope, r3.error);
      assert r2 == Children([Compact(o2.query)], o2.scope, None);
      assert ExecChildren(cs, sc) == Children([Compact(o1.query)] + r2.texts, r2.scope, r2.error);
    }
  }

  /** An alias declared in an earlier sibling is selectable in a later one, and the parent sees it afterwards. */
  lemma SiblingSeesAlias(a: string, q: string, sc: Scope)
    requires !sc.disableAliases && a !in sc.aliases
    ensures var r := ExecStep(And(Callbacks([Callback([As(a)]), Callback([Select(a)])])), q, sc);
      r.error.None? && r.scope.aliases == sc.aliases + [a]
  {
    var c1, c2 := Callback([As(a)]), Callback([Select(a)]);
    ExecProgSingle(As(a), "", sc);
    var o1 := ExecProg(c1.body, "", sc);
    assert o1.error.None? && o1.scope.aliases == sc.aliases + [a];
    ExecProgSingle(Select(a), "", o1.scope);
    var o2 := ExecProg(c2.body, "", o1.scope);
    assert o2.error.None? && o2.scope == o1.scope;
    AndTwoCallbacks(c1, c2, q, sc);
  }

  /** The same two callbacks the other way round: the `select` runs first and the alias is not found. */
  lemma SiblingOrderMatters(a: string, q: string, sc: Scope)
    requires !sc.disableAliases && a !in sc.aliases
    ensures ExecStep(And(Callbacks([Callback([Select(a)]), Callback([As(a)])])), q, sc)
         == Outcome(q, sc, Some(AliasNotFound(a)))
  {
    var cs := [Callback([Select(a)]), Callback([As(a)])];
    ExecProgSingle(Select(a), "", sc);
    assert ExecProg(cs[0].body, "", sc) == Outcome("", sc, Some(AliasNotFound(a)));
    assert ExecChildren(cs, sc) == Children([], sc, Some(AliasNotFound(a)));
  }

  /** A single-callback composite hands the child's scope back to the parent. */
  lemma ChildScopeReachesParent(s: Step, q: string, sc: Scope)
    requires s.Not? || s.Where? || s.SideEffect?
    ensures ExecStep(s, q, sc).scope == ExecProg(s.callback.body, "", sc).scope
  {
  }

  /**
   * `project`: the names quoted and comma-separated in input order, then one
   * `.by(child)` per part in the same order.
   */
  lemma ProjectInOrder(ps: seq<Part>, q: string, sc: Scope)
    requires ExecStep(Project(PartList(ps)), q, sc).error.None?
    ensures var c := ExecChildren(Bodies(ps), sc);
      |c.texts| == |ps|
      && ExecStep(Project(PartList(ps)), q, sc).query
         == Append(q, Call("project", Join(QuoteAll(Names(ps)), ", ")) + ByClauses(c.texts))
      && forall i :: 0 <= i < |ps| ==>
           c.texts[i] == Compact(ExecProg(ps[i].byCallback.body, "", ExecChildren(Bodies(ps)[..i], sc).scope).query)
  {
    var c := ExecChildren(Bodies(ps), sc);
    assert ExecStep(Project(PartList(ps)), q, sc).error == c.error;
    AllChildrenInOrder(Bodies(ps), sc);
  }

  /** The templates of a chain of simple steps. */
  function Templates(p: Program): (ts: seq<string>)
    requires forall i :: 0 <= i < |p| ==> HasTemplate(p[i])
    ensures |ts| == |p|
  {
    seq(|p|, i requires 0 <= i < |p| => Template(p[i]))
  }

  /** A non-throwing chain of simple steps appends their templates one after another. */
  lemma {:induction false} SimpleChainAppends(p: Program, q: string, sc: Scope)
    requires forall i :: 0 <= i < |p| ==> HasTemplate(p[i])
    requires ExecProg(p, q, sc).error.None?
    ensures ExecProg(p, q, sc).query == AppendAll(q, Templates(p))
    decreases |p|
  {
    if p != [] {
      var o := ExecStep(p[0], q, sc);
      assert o.query == Append(q, Template(p[0]));
      assert Templates(p)[1..] == Templates(p[1..]);
      SimpleChainAppends(p[1..], o.query, o.scope);
    }
  }

  /**
   * Separator correctness: a non-throwing chain of steps that each append one
   * closed unit, started on an empty builder, renders as the units joined by
   * exactly one dot, none before the first and none after the last.
   */
  lemma SeparatorCorrect(p: Program, sc: Scope)
    requires forall i :: 0 <= i < |p| ==> HasTemplate(p[i]) && Closed(Template(p[i]))
    requires ExecProg(p, "", sc).error.None?
    ensures ExecProg(p, "", sc).query == Join(Templates(p), ".")
  {
    SimpleChainAppends(p, "", sc);
    ChainOfUnits(Templates(p));
  }

  /** Running a program is running its first call, then the rest from where that call left off. */
  lemma ExecProgCons(s: Step, p: Program, q: string, sc: Scope)
    ensures ExecProg([s] + p, q, sc)
         == (var o := ExecStep(s, q, sc); if o.error.Some? then o else ExecProg(p, o.query, o.scope))
  {
    assert ([s] + p)[0] == s && ([s] + p)[1..] == p;
  }

  /** `V('123')` on `g.`: no separator after the dot. */
  lemma TraversalV(sc: Scope)
    ensures ExecStep(V("123"), "g.", sc) == Outcome("g.V('123')", sc, None)
  {
    assert Append("g.", Call("V", Quote("123"))) == "g.V('123')";
  }

  /** `as('a')` on a default scope registers `a` behind one dot. */
  lemma TraversalAsA()
    ensures ExecStep(As("a"), "g.V('123')", Scope([], true, [], false))
         == Outcome("g.V('123').as('a')", Scope([], true, ["a"], false), None)
  {
    assert [] + ["a"] == ["a"];
    assert AddAlias(Scope([], true, [], false), "a") == Success(Scope([], true, ["a"], false));
    assert Append("g.V('123')", Call("as", Quote("a"))) == "g.V('123').as('a')";
  }

  /** `out('knows')` with edge checks off. */
  lemma TraversalOut(sc: Scope)
    requires sc.disableEdges
    ensures ExecStep(Out("knows"), "g.V('123').as('a')", sc) == Outcome("g.V('123').as('a').out('knows')", sc, None)
  {
    assert Append("g.V('123').as('a')", Call("out", Quote("knows"))) == "g.V('123').as('a').out('knows')";
  }

  /** `as('b')` after `a` registers `b` behind it. */
  lemma TraversalAsB()
    ensures ExecStep(As("b"), "g.V('123').as('a').out('knows')", Scope([], true, ["a"], false))
         == Outcome("g.V('123').as('a').out('knows').as('b')", Scope([], true, ["a", "b"], false), None)
  {
    assert "b" !in ["a"] && ["a"] + ["b"] == ["a", "b"];
    assert AddAlias(Scope([], true, ["a"], false), "b") == Success(Scope([], true, ["a", "b"], false));
    assert Append("g.V('123').as('a').out('knows')", Call("as", Quote("b"))) == "g.V('123').as('a').out('knows').as('b')";
  }

  /** `select('a')` passes, since `a` is registered. */
  lemma TraversalSelect()
    ensures ExecStep(Select("a"), "g.V('123').as('a').out('knows').as('b')", Scope([], true, ["a", "b"], false))
         == Outcome("g.V('123').as('a').out('knows').as('b').select('a')", Scope([], true, ["a", "b"], false), None)
  {
    assert "a" in ["a", "b"];
    assert Append("g.V('123').as('a').out('knows').as('b')", Call("select", Quote("a")))
        == "g.V('123').as('a').out('knows').as('b').select('a')";
  }

  /**
   * Steps that each succeed from where the previous one left off make a
   * successful program: step i takes buffer `qs[i]` and scope `scs[i]` to
   * `qs[i + 1]` and `scs[i + 1]`.
   */
  lemma {:induction false} SuccessfulSteps(p: Program, qs: seq<string>, scs: seq<Scope>)
    requires |qs| == |scs| == |p| + 1
    requires forall i :: 0 <= i < |p| ==> ExecStep(p[i], qs[i], scs[i]) == Outcome(qs[i + 1], scs[i + 1], None)
    ensures ExecProg(p, qs[0], scs[0]) == Outcome(qs[|p|], scs[|p|], None)
    decreases |p|
  {
    if p != [] {
      assert ExecStep(p[0], qs[0], scs[0]) == Outcome(qs[1], scs[1], None);
      forall i | 0 <= i < |p[1..]|
        ensures ExecStep(p[1..][i], qs[1..][i], scs[1..][i]) == Outcome(qs[1..][i + 1], scs[1..][i + 1], None)
      {
        assert p[1..][i] == p[i + 1] && qs[1..][i] == qs[i + 1] && scs[1..][i] == scs[i + 1];
        assert qs[1..][i + 1] == qs[i + 2] && scs[1..][i + 1] == scs[i + 2];
      }
      SuccessfulSteps(p[1..], qs[1..], scs[1..]);
    }
  }

  /**
   * The traversal of the builder's tests: on a default factory,
   * `g.V('123').as('a').out('knows').as('b').select('a')` succeeds, registers
   * `a` and `b`, and renders exactly that text.
   */
  lemma DocumentedTraversal()
    ensures ExecProg([G, V("123"), As("a"), Out("knows"), As("b"), Select("a")], "", InitialScope(None))
         == Outcome("g.V('123').as('a').out('knows').as('b').select('a')", Scope([], true, ["a", "b"], false), None)
  {
    var sc0 := Scope([], true, [], false);
    var sc1 := Scope([], true, ["a"], false);
    var sc2 := Scope([], true, ["a", "b"], false);
    var p := [G, V("123"), As("a"), Out("knows"), As("b"), Select("a")];
    var qs := ["", "g.", "g.V('123')", "g.V('123').as('a')", "g.V('123').as('a').out('knows')",
      "g.V('123').as('a').out('knows').as('b')", "g.V('123').as('a').out('knows').as('b').select('a')"];
    var scs := [sc0, sc0, sc0, sc1, sc1, sc2, sc2];
    TraversalV(sc0);
    TraversalAsA();
    TraversalOut(sc1);
    TraversalAsB();
    TraversalSelect();
    assert ExecStep(G, "", sc0) == Outcome("g.", sc0, None);
    SuccessfulSteps(p, qs, scs);
  }
}
