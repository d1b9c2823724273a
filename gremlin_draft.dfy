/**
 * src/Gremlin.ts: the earlier, self-contained builder. It keeps aliases and
 * edges in insertion-ordered sets (modelled as duplicate-free sequences), and
 * both `disable` switches default to true. Its alias gating runs the other way
 * round from src/Builder.ts: aliases are recorded and looked up only while
 * `disableAliases` is true, so by default alias checks are on and edge checks
 * are off.
 */
module GremlinDraft {
  import opened Wrappers
  import opened Common
  import opened Render
  import opened Fragments
  import BuilderSpec

  /** The optional constructor argument; an absent field takes its default. */
  datatype DraftConfig = DraftConfig(
    aliases: Option<seq<string>>,
    edges: Option<seq<string>>,
    disableAliases: Option<bool>,
    disableEdges: Option<bool>)

  /** What the `config` getter reports: the sets spread into arrays, and both flags. */
  datatype Settings = Settings(aliases: seq<string>, edges: seq<string>, disableAliases: bool, disableEdges: bool)

  /** `new Set(xs)` spread back into an array: first occurrences, in order. */
  function Dedup(xs: seq<string>): (r: seq<string>)
    ensures Distinct(r)
    ensures forall x :: x in r <==> x in xs
    ensures Distinct(xs) ==> r == xs
    decreases |xs|
  {
    if xs == [] then []
    else
      var init, last := xs[..|xs| - 1], xs[|xs| - 1];
      assert xs == init + [last];
      var r := Dedup(init);
      if last in r then r else r + [last]
  }

  /** The state a new `Gremlin` starts in: given collections deduplicated, missing ones empty, missing flags true. */
  function InitialSettings(config: DraftConfig): (st: Settings)
    ensures Distinct(st.aliases) && Distinct(st.edges)
    ensures forall a :: a in st.aliases <==> config.aliases.Some? && a in config.aliases.value
    ensures forall e :: e in st.edges <==> config.edges.Some? && e in config.edges.value
    ensures st.disableAliases == config.disableAliases.GetOr(true)
    ensures st.disableEdges == config.disableEdges.GetOr(true)
  {
    Settings(
      if config.aliases.Some? then Dedup(config.aliases.value) else [],
      if config.edges.Some? then Dedup(config.edges.value) else [],
      config.disableAliases.GetOr(true),
      config.disableEdges.GetOr(true))
  }

  /** `_addAlias`, as written: a no-op unless `disableAliases` is true; then a duplicate throws and a new alias is added. */
  function AddAlias(st: Settings, alias: string): (r: Result<Settings, Error>)
    ensures r.Failure? <==> st.disableAliases && alias in st.aliases
    ensures r.Failure? ==> r.error == DuplicateAlias(alias)
    ensures r.Success? && !st.disableAliases ==> r.value == st
    ensures r.Success? && st.disableAliases ==> r.value == st.(aliases := st.aliases + [alias])
  {
    if !st.disableAliases then Success(st)
    else if alias in st.aliases then Failure(DuplicateAlias(alias))
    else Success(st.(aliases := st.aliases + [alias]))
  }

  /** `_validateAlias`, as written: throws only when `disableAliases` is true and the alias is unknown. */
  function ValidateAlias(st: Settings, alias: string): (r: Option<Error>)
    ensures r.Some? <==> st.disableAliases && alias !in st.aliases
    ensures r.Some? ==> r.value == AliasNotFound(alias)
  {
    if st.disableAliases && alias !in st.aliases then Some(AliasNotFound(alias)) else None
  }

  /** `_validateEdge`: a no-op when edge checks are off, otherwise an unknown edge throws. */
  function ValidateEdge(st: Settings, edge: string): (r: Option<Error>)
    ensures r.None? <==> st.disableEdges || edge in st.edges
    ensures r.Some? ==> r.value == EdgeNotFound(edge)
  {
    if st.disableEdges || edge in st.edges then None else Some(EdgeNotFound(edge))
  }

  lemma AddAliasKeepsDistinct(st: Settings, alias: string)
    requires Distinct(st.aliases)
    requires AddAlias(st, alias).Success?
    ensures Distinct(AddAlias(st, alias).value.aliases)
  {
  }

  /** The first components of `project`'s pairs. */
  function Firsts(pairs: seq<(string, string)>): (r: seq<string>)
    ensures |r| == |pairs|
    ensures forall i :: 0 <= i < |pairs| ==> r[i] == pairs[i].0
  {
    seq(|pairs|, i requires 0 <= i < |pairs| => pairs[i].0)
  }

  /** The second components of `project`'s pairs. */
  function Seconds(pairs: seq<(string, string)>): (r: seq<string>)
    ensures |r| == |pairs|
    ensures forall i :: 0 <= i < |pairs| ==> r[i] == pairs[i].1
  {
    seq(|pairs|, i requires 0 <= i < |pairs| => pairs[i].1)
  }

  /**
   * The unit `project(pairs)` appends: the quoted first components joined by
   * the default array-to-string comma, then one `.by(b)` per pair with the second
   * component verbatim.
   */
  function ProjectText(pairs: seq<(string, string)>): string {
    Call("project", Join(QuoteAll(Firsts(pairs)), ",")) + BuilderSpec.ByClauses(Seconds(pairs))
  }

  class Gremlin {
    var query: string
    var aliases: seq<string>
    var edges: seq<string>
    var disableAliases: bool
    var disableEdges: bool

    /** The sets hold no duplicates. */
    ghost predicate Valid()
      reads this
    {
      Distinct(aliases) && Distinct(edges)
    }

    /** A new draft builder: empty buffer, the configured collections as sets, both switches true unless configured. */
    constructor (config: DraftConfig := DraftConfig(None, None, None, None))
      ensures Valid() && query == "" && Config() == InitialSettings(config)
    {
      query := "";
      var st := InitialSettings(config);
      aliases := st.aliases;
      edges := st.edges;
      disableAliases := st.disableAliases;
      disableEdges := st.disableEdges;
    }

    /** The `config` getter. */
    function Config(): Settings
      reads this
    {
      Settings(aliases, edges, disableAliases, disableEdges)
    }

    /** The `g` getter: `g.` with no separator. */
    method G() returns (r: Gremlin)
      modifies this`query
      ensures r == this && query == old(query) + "g."
    {
      query := query + "g.";
      return this;
    }

    /** `toString`: the buffer with every whitespace character removed. */
    function ToString(): (r: string)
      reads this
      ensures NoWhitespace(r)
      ensures NoWhitespace(query) ==> r == query
    {
      CompactSpec(query);
      Compact(query)
    }

    /** `raw`: a line break after every `).`; removing those gives back the buffer. */
    function Raw(): (r: string)
      reads this
      ensures BreaksAfterClosing(r)
      ensures Unpretty(r) == query
      ensures Compact(r) == ToString()
    {
      PrettyBreaksAfterClosing(query);
      UnprettyPretty(query);
      CompactPretty(query);
      Pretty(query)
    }

    method AddAliasTo(alias: string := "") returns (err: Option<Error>)
      requires Valid()
      modifies this`aliases
      ensures Valid()
      ensures var r := AddAlias(old(Config()), alias);
        (r.Failure? ==> err == Some(r.error) && aliases == old(aliases))
        && (r.Success? ==> err.None? && Config() == r.value)
    {
      if !disableAliases {
        return None;
      }
      if alias in aliases {
        return Some(DuplicateAlias(alias));
      }
      aliases := aliases + [alias];
      return None;
    }

    /** `_validateEdge`; the logging of the edge set is not modelled. */
    method CheckEdge(edge: string := "") returns (err: Option<Error>)
      ensures err == ValidateEdge(Config(), edge)
    {
      if disableEdges {
        return None;
      }
      if edge !in edges {
        return Some(EdgeNotFound(edge));
      }
      return None;
    }

    method CheckAlias(alias: string := "") returns (err: Option<Error>)
      ensures err == ValidateAlias(Config(), alias)
    {
      if disableAliases && alias !in aliases {
        return Some(AliasNotFound(alias));
      }
      return None;
    }

    method As(name: string := "") returns (r: Result<Gremlin, Error>)
      requires Valid()
      modifies this`query, this`aliases
      ensures Valid()
      ensures var a := AddAlias(old(Config()), name);
        (a.Failure? ==> r == Failure(a.error) && query == old(query) && aliases == old(aliases))
        && (a.Success? ==> r == Success(this) && Config() == a.value
                           && query == Append(old(query), Call("as", Quote(name))))
    {
      var err := AddAliasTo(name);
      if err.Some? {
        return Failure(err.value);
      }
      query := Append(query, Call("as", Quote(name)));
      return Success(this);
    }

    method Custom(queryString: string := "") returns (r: Gremlin)
      modifies this`query
      ensures r == this && query == Append(old(query), queryString)
    {
      query := Append(query, queryString);
      return this;
    }

    method E(edge: string := "") returns (r: Result<Gremlin, Error>)
      modifies this`query
      ensures var v := ValidateEdge(Config(), edge);
        (v.Some? ==> r == Failure(v.value) && query == old(query))
        && (v.None? ==> r == Success(this) && query == Append(old(query), Call("E", Quote(edge))))
    {
      var err := CheckEdge(edge);
      if err.Some? {
        return Failure(err.value);
      }
      query := Append(query, Call("E", Quote(edge)));
      return Success(this);
    }

    /** `fold`; its options argument is ignored. */
    method Fold() returns (r: Gremlin)
      modifies this`query
      ensures r == this && query == Append(old(query), "fold()")
    {
      query := Append(query, "fold()");
      return this;
    }

    method In(edge: string := "") returns (r: Result<Gremlin, Error>)
      modifies this`query
      ensures var v := ValidateEdge(Config(), edge);
        (v.Some? ==> r == Failure(v.value) && query == old(query))
        && (v.None? ==> r == Success(this) && query == Append(old(query), Call("in", Quote(edge))))
    {
      var err := CheckEdge(edge);
      if err.Some? {
        return Failure(err.value);
      }
      query := Append(query, Call("in", Quote(edge)));
      return Success(this);
    }

    method InE(edge: string := "") returns (r: Result<Gremlin, Error>)
      modifies this`query
      ensures var v := ValidateEdge(Config(), edge);
        (v.Some? ==> r == Failure(v.value) && query == old(query))
        && (v.None? ==> r == Success(this) && query == Append(old(query), Call("inE", Quote(edge))))
    {
      var err := CheckEdge(edge);
      if err.Some? {
        return Failure(err.value);
      }
      query := Append(query, Call("inE", Quote(edge)));
      return Success(this);
    }

    method Out(edge: string := "") returns (r: Result<Gremlin, Error>)
      modifies this`query
      ensures var v := ValidateEdge(Config(), edge);
        (v.Some? ==> r == Failure(v.value) && query == old(query))
        && (v.None? ==> r == Success(this) && query == Append(old(query), Call("out", Quote(edge))))
    {
      var err := CheckEdge(edge);
      if err.Some? {
        return Failure(err.value);
      }
      query := Append(query, Call("out", Quote(edge)));
      return Success(this);
    }

    method OutE(edge: string := "") returns (r: Result<Gremlin, Error>)
      modifies this`query
      ensures var v := ValidateEdge(Config(), edge);
        (v.Some? ==> r == Failure(v.value) && query == old(query))
        && (v.None? ==> r == Success(this) && query == Append(old(query), Call("outE", Quote(edge))))
    {
      var err := CheckEdge(edge);
      if err.Some? {
        return Failure(err.value);
      }
      query := Append(query, Call("outE", Quote(edge)));
      return Success(this);
    }

    method Project(parts: seq<(string, string)> := []) returns (r: Gremlin)
      modifies this`query
      ensures r == this && query == Append(old(query), ProjectText(parts))
    {
      query := Append(query, ProjectText(parts));
      return this;
    }

    method Select(alias: string := "") returns (r: Result<Gremlin, Error>)
      modifies this`query
      ensures var v := ValidateAlias(Config(), alias);
        (v.Some? ==> r == Failure(v.value) && query == old(query))
        && (v.None? ==> r == Success(this) && query == Append(old(query), Call("select", Quote(alias))))
    {
      var err := CheckAlias(alias);
      if err.Some? {
        return Failure(err.value);
      }
      query := Append(query, Call("select", Quote(alias)));
      return Success(this);
    }

    method V(id: string := "") returns (r: Gremlin)
      modifies this`query
      ensures r == this && query == Append(old(query), Call("V", Quote(id)))
    {
      query := Append(query, Call("V", Quote(id)));
      return this;
    }

    method Values(value: string := "") returns (r: Gremlin)
      modifies this`query
      ensures r == this && query == Append(old(query), Call("values", Quote(value)))
    {
      query := Append(query, Call("values", Quote(value)));
      return this;
    }
  }

  /** Registering then selecting the same alias never throws, whichever way the flag is set. */
  lemma AliasRoundTrip(st: Settings, a: string)
    requires AddAlias(st, a).Success?
    ensures ValidateAlias(AddAlias(st, a).value, a).None?
  {
  }

  /**
   * The draft's gating is the mirror image of src/Builder.ts: for an unknown
   * alias and the same flag value, exactly one of the two `select`s throws, and
   * for a known alias exactly one of the two registrations does.
   */
  lemma GatingInverted(st: Settings, a: string)
    ensures var sc := BuilderSpec.Scope(st.edges, st.disableEdges, st.aliases, st.disableAliases);
      (a !in st.aliases ==> (ValidateAlias(st, a).Some? <==> !BuilderSpec.ValidateAlias(sc, a).Some?))
      && (a in st.aliases ==> (AddAlias(st, a).Failure? <==> !BuilderSpec.AddAlias(sc, a).Failure?))
  {
  }

  /** Removing the blank after each comma: `Join(xs, ", ")` and `Join(xs, ",")` compact alike. */
  lemma {:induction false} CompactJoinSpace(xs: seq<string>)
    ensures Compact(Join(xs, ", ")) == Compact(Join(xs, ","))
    decreases |xs|
  {
    if |xs| > 1 {
      CompactJoinSpace(xs[1..]);
      assert Compact(", ") == Compact(",") by {
        assert ", " == [','] + [' '];
        CompactAppend([','], [' ']);
      }
      CompactAppend(xs[0] + ", ", Join(xs[1..], ", "));
      CompactAppend(xs[0], ", ");
      CompactAppend(xs[0] + ",", Join(xs[1..], ","));
      CompactAppend(xs[0], ",");
    }
  }

  /**
   * Once whitespace is removed, the draft's `project` unit is the one
   * src/Builder.ts emits for parts with those names whose children rendered the
   * given texts: the two differ only in the blank after each comma.
   */
  lemma ProjectAgreesWithBuilder(pairs: seq<(string, string)>)
    ensures Compact(ProjectText(pairs))
         == Compact(Call("project", Join(QuoteAll(Firsts(pairs)), ", ")) + BuilderSpec.ByClauses(Seconds(pairs)))
  {
    CallCompactsAlike("project", QuoteAll(Firsts(pairs)), BuilderSpec.ByClauses(Seconds(pairs)));
  }

  /** A comma-joined argument list and a comma-blank-joined one compact alike inside any call. */
  lemma CallCompactsAlike(name: string, xs: seq<string>, tail: string)
    ensures Compact(Call(name, Join(xs, ",")) + tail) == Compact(Call(name, Join(xs, ", ")) + tail)
  {
    CompactJoinSpace(xs);
    CompactInContext(name + "(", Join(xs, ","), Join(xs, ", "), ")" + tail);
    assert Call(name, Join(xs, ",")) + tail == name + "(" + Join(xs, ",") + (")" + tail);
    assert Call(name, Join(xs, ", ")) + tail == name + "(" + Join(xs, ", ") + (")" + tail);
  }

  /** Strings that compact alike still do so inside the same surrounding text. */
  lemma CompactInContext(a: string, x: string, y: string, b: string)
    requires Compact(x) == Compact(y)
    ensures Compact(a + x + b) == Compact(a + y + b)
  {
    CompactAppend(a + x, b);
    CompactAppend(a, x);
    CompactAppend(a + y, b);
    CompactAppend(a, y);
  }
}
