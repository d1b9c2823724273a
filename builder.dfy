/**
 * src/Builder.ts: the `Factory` that holds the shared alias and edge bookkeeping,
 * and the fluent `Builder` that grows a query buffer one step at a time. Every
 * method is proved to leave the objects where the interpreter of module
 * BuilderSpec says the corresponding step leaves its query and scope.
 */
module QueryBuilder {
  import opened Wrappers
  import opened Common
  import opened Separator
  import opened Render
  import opened Fragments
  import opened BuilderSpec

  /** The scope shared by every builder created from it. */
  class Factory {
    var edges: seq<string>
    var disableEdges: bool
    var aliases: seq<string>
    var disableAliases: bool

    /** Missing configuration fields default to no edges, no aliases, edge checks off and alias checks on. */
    constructor (config: Option<FactoryConfig> := None)
      ensures Config() == InitialScope(config)
    {
      edges := if config.Some? && config.value.edges.Some? then config.value.edges.value else [];
      disableEdges := if config.Some? && config.value.disableEdges.Some? then config.value.disableEdges.value else true;
      aliases := if config.Some? && config.value.aliases.Some? then config.value.aliases.value else [];
      disableAliases := if config.Some? && config.value.disableAliases.Some? then config.value.disableAliases.value else false;
    }

    /** `config`: a snapshot of the four fields (sequences are values, so the arrays it returns are copies). */
    function Config(): Scope
      reads this
    {
      Scope(edges, disableEdges, aliases, disableAliases)
    }

    /** `Factory.from`: a new builder over the given factory itself, or over a fresh default one. */
    static method From(factory: Factory? := null) returns (b: Builder)
      ensures fresh(b) && b.query == ""
      ensures factory != null ==> b.factory == factory
      ensures factory == null ==> fresh(b.factory) && b.factory.Config() == InitialScope(None)
    {
      b := new Builder(factory);
    }

    /** Passes when alias checks are off or the alias is known; changes nothing. */
    method ValidateAlias(alias: string := "") returns (err: Option<Error>)
      ensures err.None? <==> disableAliases || alias in aliases
      ensures err.Some? ==> err.value == AliasNotFound(alias)
    {
      if disableAliases {
        return None;
      }
      if alias !in aliases {
        return Some(AliasNotFound(alias));
      }
      return None;
    }

    /** Skipped when alias checks are off; otherwise a duplicate is refused and a new alias is pushed. */
    method AddAlias(alias: string := "") returns (err: Option<Error>)
      modifies this`aliases
      ensures disableAliases ==> err.None? && aliases == old(aliases)
      ensures !disableAliases && alias in old(aliases) ==> err == Some(DuplicateAlias(alias)) && aliases == old(aliases)
      ensures !disableAliases && alias !in old(aliases) ==> err.None? && aliases == old(aliases) + [alias]
    {
      if disableAliases {
        return None;
      }
      if alias in aliases {
        return Some(DuplicateAlias(alias));
      }
      aliases := aliases + [alias];
      return None;
    }

    /** `create`: a new builder over this very factory. */
    method Create() returns (b: Builder)
      ensures fresh(b) && b.factory == this && b.query == ""
    {
      b := new Builder(this);
    }

    /** Passes when edge checks are off or the edge is known; changes nothing. */
    method ValidateEdge(edge: string := "") returns (err: Option<Error>)
      ensures err.None? <==> disableEdges || edge in edges
      ensures err.Some? ==> err.value == EdgeNotFound(edge)
    {
      if disableEdges {
        return None;
      }
      if edge !in edges {
        return Some(EdgeNotFound(edge));
      }
      return None;
    }
  }

  /** A query buffer over one (shared) factory. */
  class Builder {
    var query: string
    const factory: Factory

    constructor (factory: Factory? := null)
      ensures query == ""
      ensures factory != null ==> this.factory == factory
      ensures factory == null ==> fresh(this.factory) && this.factory.Config() == InitialScope(None)
    {
      if factory == null {
        var f := new Factory();
        this.factory := f;
      } else {
        this.factory := factory;
      }
      query := "";
    }

    /** The builder and its factory are where outcome `o` says, and `r` is this builder or the thrown error. */
    ghost predicate Reflects(o: Outcome, r: Result<Builder, Error>)
      reads this, factory
    {
      query == o.query && factory.Config() == o.scope
      && (if o.error.Some? then r == Failure(o.error.value) else r == Success(this))
    }

    /** `config`: the factory's snapshot. */
    function Config(): Scope
      reads this, factory
    {
      factory.Config()
    }

    /** `_dot()`: the separator for the next step. */
    function Dot(): (r: string)
      reads this
      ensures r == "" || r == "."
      ensures r == "" <==> |query| == 0 || query[|query| - 1] == '(' || query[|query| - 1] == '.'
    {
      CheckDot(query)
    }

    /** `toString`: the buffer without whitespace. */
    function ToString(): (r: string)
      reads this
      ensures NoWhitespace(r)
      ensures NoWhitespace(query) ==> r == query
    {
      CompactSpec(query);
      Compact(query)
    }

    /** `raw`: the buffer with a line break after every `).`; nothing else differs. */
    function Raw(): (r: string)
      reads this
      ensures BreaksAfterClosing(r)
      ensures Unpretty(r) == query
      ensures Compact(r) == ToString()
    {
      PrettyBreaksAfterClosing(query);
      UnprettyPretty(query);
      CompactPretty(query);
      Pretty(query)
    }

    /** `g`: the traversal source, `g.`, with no separator. */
    method G() returns (r: Builder)
      modifies this
      ensures r == this && query == old(query) + "g."
    {
      query := query + "g.";
      r := this;
    }

    /** `__`: the anonymous traversal marker. */
    method Anonymous() returns (r: Builder)
      modifies this
      ensures r == this && query == Append(old(query), Template(Step.Anonymous))
    {
      query := Append(query, "__.");
      r := this;
    }

    method Aggregate(alias: string := "") returns (r: Result<Builder, Error>)
      modifies this, factory
      ensures Reflects(ExecStep(Step.Aggregate(alias), old(query), old(factory.Config())), r)
    {
      var err := factory.AddAlias(alias);
      if err.Some? {
        return Failure(err.value);
      }
      query := Append(query, Call("aggregate", Quote(alias)));
      r := Success(this);
    }

    method And(input: AndInput := NoCallback) returns (r: Result<Builder, Error>)
      modifies this, factory
      decreases StepSize(Step.And(input)), 0
      ensures Reflects(ExecStep(Step.And(input), old(query), old(factory.Config())), r)
    {
      match input
      case NoCallback =>
        query := Append(query, "and()");
        r := Success(this);
      case OneCallback(cb) =>
        var child := Factory.From(factory);
        var res := child.Run(cb.body);
        if res.Failure? {
          return Failure(res.error);
        }
        query := Append(query, Call("and", child.ToString()));
        r := Success(this);
      case Callbacks(cs) =>
        var texts, err := RunChildren(cs);
        if err.Some? {
          return Failure(err.value);
        }
        query := Append(query, Call("and", Join(texts, ",")));
        r := Success(this);
      case OtherInput =>
        r := Failure(InvalidAndInput);
    }

    method As(name: string := "") returns (r: Result<Builder, Error>)
      modifies this, factory
      ensures Reflects(ExecStep(Step.As(name), old(query), old(factory.Config())), r)
    {
      var err := factory.AddAlias(name);
      if err.Some? {
        return Failure(err.value);
      }
      query := Append(query, Call("as", Quote(name)));
      r := Success(this);
    }

    method Count() returns (r: Builder)
      modifies this
      ensures r == this && query == Append(old(query), Template(Step.Count))
    {
      query := Append(query, "count()");
      r := this;
    }

    /** `custom`: the fragment verbatim behind the separator. */
    method Custom(queryString: string := "") returns (r: Builder)
      modifies this
      ensures r == this && query == Append(old(query), Template(Step.Custom(queryString)))
    {
      query := Append(query, queryString);
      r := this;
    }

    method Dedup() returns (r: Builder)
      modifies this
      ensures r == this && query == Append(old(query), Template(Step.Dedup))
    {
      query := Append(query, "dedup()");
      r := this;
    }

    method E(edge: string := "") returns (r: Result<Builder, Error>)
      modifies this
      ensures Reflects(ExecStep(Step.E(edge), old(query), old(factory.Config())), r)
    {
      var err := factory.ValidateEdge(edge);
      if err.Some? {
        return Failure(err.value);
      }
      query := Append(query, Call("E", Quote(edge)));
      r := Success(this);
    }

    method ElementMap(keys: KeysInput := NoKeys) returns (r: Result<Builder, Error>)
      modifies this
      ensures Reflects(ExecStep(Step.ElementMap(keys), old(query), old(factory.Config())), r)
    {
      match keys
      case KeyList(ks) =>
        query := Append(query, Call("elementMap", Join(QuoteAll(ks), ", ")));
        r := Success(this);
      case NoKeys =>
        query := Append(query, "elementMap()");
        r := Success(this);
      case OtherKeys =>
        r := Failure(KeysNotArray);
    }

    /** `fold`: its two arguments are ignored. */
    method Fold() returns (r: Builder)
      modifies this
      ensures r == this && query == Append(old(query), Template(Step.Fold))
    {
      query := Append(query, "fold()");
      r := this;
    }

    /** `has(key, value)`: the value is interpolated raw, after a comma and a space. */
    method Has(key: string := "", value: Value := Flag(true)) returns (r: Builder)
      modifies this
      ensures r == this && query == Append(old(query), Template(Step.Has(key, value)))
    {
      query := Append(query, Call("has", Quote(key) + ", " + ValueText(value)));
      r := this;
    }

    /** `hasLabel`: a string or an array of labels; any other argument appends nothing. */
    method HasLabel(labels: LabelsInput) returns (r: Builder)
      modifies this
      ensures r == this && query == ExecStep(Step.HasLabel(labels), old(query), factory.Config()).query
    {
      match labels {
        case OneLabel(l) =>
          query := Append(query, Call("hasLabel", Quote(l)));
        case LabelList(ls) =>
          query := Append(query, Call("hasLabel", Join(QuoteAll(ls), ",")));
        case OtherLabels =>
      }
      r := this;
    }

    method Id() returns (r: Builder)
      modifies this
      ensures r == this && query == Append(old(query), Template(Step.Id))
    {
      query := Append(query, "id()");
      r := this;
    }

    method In(edge: string := "") returns (r: Result<Builder, Error>)
      modifies this
      ensures Reflects(ExecStep(Step.In(edge), old(query), old(factory.Config())), r)
    {
      var err := factory.ValidateEdge(edge);
      if err.Some? {
        return Failure(err.value);
      }
      query := Append(query, Call("in", Quote(edge)));
      r := Success(this);
    }

    method InE(edge: string := "") returns (r: Result<Builder, Error>)
      modifies this
      ensures Reflects(ExecStep(Step.InE(edge), old(query), old(factory.Config())), r)
    {
      var err := factory.ValidateEdge(edge);
      if err.Some? {
        return Failure(err.value);
      }
      query := Append(query, Call("inE", Quote(edge)));
      r := Success(this);
    }

    method InV() returns (r: Builder)
      modifies this
      ensures r == this && query == Append(old(query), Template(Step.InV))
    {
      query := Append(query, "inV()");
      r := this;
    }

    /** `is(operator)`: the operand is interpolated raw. */
    method Is(operator: Value) returns (r: Builder)
      modifies this
      ensures r == this && query == Append(old(query), Template(Step.Is(operator)))
    {
      query := Append(query, Call("is", ValueText(operator)));
      r := this;
    }

    method Not(callback: Callback) returns (r: Result<Builder, Error>)
      modifies this, factory
      decreases StepSize(Step.Not(callback)), 0
      ensures Reflects(ExecStep(Step.Not(callback), old(query), old(factory.Config())), r)
    {
      var child := Factory.From(factory);
      var res := child.Run(callback.body);
      if res.Failure? {
        return Failure(res.error);
      }
      query := Append(query, Call("not", child.ToString()));
      r := Success(this);
    }

    method Out(edge: string := "") returns (r: Result<Builder, Error>)
      modifies this
      ensures Reflects(ExecStep(Step.Out(edge), old(query), old(factory.Config())), r)
    {
      var err := factory.ValidateEdge(edge);
      if err.Some? {
        return Failure(err.value);
      }
      query := Append(query, Call("out", Quote(edge)));
      r := Success(this);
    }

    method OutE(edge: string := "") returns (r: Result<Builder, Error>)
      modifies this
      ensures Reflects(ExecStep(Step.OutE(edge), old(query), old(factory.Config())), r)
    {
      var err := factory.ValidateEdge(edge);
      if err.Some? {
        return Failure(err.value);
      }
      query := Append(query, Call("outE", Quote(edge)));
      r := Success(this);
    }

    method OutV() returns (r: Builder)
      modifies this
      ensures r == this && query == Append(old(query), Template(Step.OutV))
    {
      query := Append(query, "outV()");
      r := this;
    }

    method Project(parts: PartsInput) returns (r: Result<Builder, Error>)
      modifies this, factory
      decreases StepSize(Step.Project(parts)), 0
      ensures Reflects(ExecStep(Step.Project(parts), old(query), old(factory.Config())), r)
    {
      match parts
      case NotAnArray =>
        r := Failure(PartsNotArray);
      case PartList(ps) =>
        PartsSizeBodies(ps);
        var texts, err := RunChildren(Bodies(ps));
        if err.Some? {
          return Failure(err.value);
        }
        query := Append(query, Call("project", Join(QuoteAll(Names(ps)), ", ")) + ByClauses(texts));
        r := Success(this);
    }

    method Select(alias: string := "") returns (r: Result<Builder, Error>)
      modifies this
      ensures Reflects(ExecStep(Step.Select(alias), old(query), old(factory.Config())), r)
    {
      var err := factory.ValidateAlias(alias);
      if err.Some? {
        return Failure(err.value);
      }
      query := Append(query, Call("select", Quote(alias)));
      r := Success(this);
    }

    method SideEffect(callback: Callback) returns (r: Result<Builder, Error>)
      modifies this, factory
      decreases StepSize(Step.SideEffect(callback)), 0
      ensures Reflects(ExecStep(Step.SideEffect(callback), old(query), old(factory.Config())), r)
    {
      var child := Factory.From(factory);
      var res := child.Run(callback.body);
      if res.Failure? {
        return Failure(res.error);
      }
      query := Append(query, Call("sideEffect", child.ToString()));
      r := Success(this);
    }

    method Unfold() returns (r: Builder)
      modifies this
      ensures r == this && query == Append(old(query), Template(Step.Unfold))
    {
      query := Append(query, "unfold()");
      r := this;
    }

    method V(id: string := "") returns (r: Builder)
      modifies this
      ensures r == this && query == Append(old(query), Template(Step.V(id)))
    {
      query := Append(query, Call("V", Quote(id)));
      r := this;
    }

    method ValueMap() returns (r: Builder)
      modifies this
      ensures r == this && query == Append(old(query), Template(Step.ValueMap))
    {
      query := Append(query, "valueMap()");
      r := this;
    }

    method Values(value: string := "") returns (r: Builder)
      modifies this
      ensures r == this && query == Append(old(query), Template(Step.Values(value)))
    {
      query := Append(query, Call("values", Quote(value)));
      r := this;
    }

    method Where(callback: Callback) returns (r: Result<Builder, Error>)
      modifies this, factory
      decreases StepSize(Step.Where(callback)), 0
      ensures Reflects(ExecStep(Step.Where(callback), old(query), old(factory.Config())), r)
    {
      var child := Factory.From(factory);
      var res := child.Run(callback.body);
      if res.Failure? {
        return Failure(res.error);
      }
      query := Append(query, Call("where", child.ToString()));
      r := Success(this);
    }

    /**
     * The callbacks of `and([...])` and `project`, in input order, each on a new
     * builder over this builder's factory; the children's `toString` texts are kept.
     */
    method RunChildren(callbacks: seq<Callback>) returns (texts: seq<string>, err: Option<Error>)
      modifies factory
      decreases CallbacksSize(callbacks), 3
      ensures var c := ExecChildren(callbacks, old(factory.Config()));
        texts == c.texts && err == c.error && factory.Config() == c.scope
    {
      ghost var sc0 := factory.Config();
      texts := [];
      var i := 0;
      while i < |callbacks|
        invariant 0 <= i <= |callbacks|
        invariant var c := ExecChildren(callbacks[i..], factory.Config());
          ExecChildren(callbacks, sc0) == Children(texts + c.texts, c.scope, c.error)
      {
        CallbackSizeBound(callbacks, i);
        assert callbacks[i..][0] == callbacks[i] && callbacks[i..][1..] == callbacks[i + 1..];
        var child := new Builder(factory);
        var res := child.Run(callbacks[i].body);
        if res.Failure? {
          return texts, Some(res.error);
        }
        texts := texts + [child.ToString()];
        i := i + 1;
      }
      err := None;
    }

    /** One step descriptor: the call of the matching step method. */
    method Perform(s: Step) returns (r: Result<Builder, Error>)
      modifies this, factory
      decreases StepSize(s), 1
      ensures Reflects(ExecStep(s, old(query), old(factory.Config())), r)
    {
      match s
      case G => var b := G(); r := Success(b);
      case Aggregate(a) => r := Aggregate(a);
      case As(n) => r := As(n);
      case Select(a) => r := Select(a);
      case E(e) => r := E(e);
      case In(e) => r := In(e);
      case InE(e) => r := InE(e);
      case Out(e) => r := Out(e);
      case OutE(e) => r := OutE(e);
      case ElementMap(ks) => r := ElementMap(ks);
      case And(input) => r := And(input);
      case Not(cb) => r := Not(cb);
      case Where(cb) => r := Where(cb);
      case SideEffect(cb) => r := SideEffect(cb);
      case Project(parts) => r := Project(parts);
      case _ => var b := PerformPlain(s); r := Success(b);
    }

    /** The step methods that cannot throw and do not touch the factory. */
    method PerformPlain(s: Step) returns (r: Builder)
      requires !(s.G? || s.Aggregate? || s.As? || s.Select? || s.E? || s.In? || s.InE? || s.Out? || s.OutE?
                 || s.ElementMap? || s.And? || s.Not? || s.Where? || s.SideEffect? || s.Project?)
      modifies this
      ensures r == this && ExecStep(s, old(query), factory.Config()) == Outcome(query, factory.Config(), None)
    {
      if s.HasLabel? && s.labels.OtherLabels? {
        r := HasLabel(s.labels);
        return;
      }
      PlainStep(s, query, factory.Config());
      match s
      case Anonymous => r := Anonymous();
      case V(id) => r := V(id);
      case Values(v) => r := Values(v);
      case Count => r := Count();
      case Dedup => r := Dedup();
      case Fold => r := Fold();
      case Id => r := Id();
      case InV => r := InV();
      case OutV => r := OutV();
      case Unfold => r := Unfold();
      case ValueMap => r := ValueMap();
      case Custom(t) => r := Custom(t);
      case Has(k, v) => r := Has(k, v);
      case HasLabel(ls) => r := HasLabel(ls);
      case Is(v) => r := Is(v);
    }

    /** A callback's body run on this builder: its steps in order, stopping at the first throw. */
    method Run(p: Program) returns (r: Result<Builder, Error>)
      modifies this, factory
      decreases ProgSize(p), 2
      ensures Reflects(ExecProg(p, old(query), old(factory.Config())), r)
    {
      ghost var q0, sc0 := query, factory.Config();
      var i := 0;
      while i < |p|
        invariant 0 <= i <= |p|
        invariant ExecProg(p, q0, sc0) == ExecProg(p[i..], query, factory.Config())
      {
        StepSizeBound(p, i);
        assert p[i..][0] == p[i] && p[i..][1..] == p[i + 1..];
        var res := Perform(p[i]);
        if res.Failure? {
          return res;
        }
        i := i + 1;
      }
      r := Success(this);
    }
  }

  /**
   * Builders created from one factory share its alias list: an alias one of them
   * registers is visible through the `config` of any builder created later.
   */
  method SharedAliases(alias: string) returns (visible: bool, later: Result<Builder, Error>)
    ensures visible && later.Success?
  {
    var f := new Factory();
    var b := f.Create();
    var registered := b.As(alias);
    var b2 := Factory.From(f);
    visible := alias in b2.Config().aliases;
    later := b2.Select(alias);
  }
}
