/**
 * The meaning of src/Builder.ts as pure functions: the factory's state (`Scope`,
 * what `config` returns), its checks, step descriptors standing for the step
 * methods and for the callbacks handed to the composite steps, and an interpreter
 * that runs them against one shared scope. The classes in module QueryBuilder are
 * proved to do what these functions say.
 */
module BuilderSpec {
  import opened Wrappers
  import opened Common
  import opened Separator
  import opened Render
  import opened Fragments

  /** The factory's state: exactly the fields `config` copies out. */
  datatype Scope = Scope(edges: seq<string>, disableEdges: bool, aliases: seq<string>, disableAliases: bool)

  /** The constructor's configuration object; an absent field is `undefined`. */
  datatype FactoryConfig = FactoryConfig(
    edges: Option<seq<string>>,
    disableEdges: Option<bool>,
    aliases: Option<seq<string>>,
    disableAliases: Option<bool>)

  /** The scope `new Factory(config)` starts with. */
  function InitialScope(config: Option<FactoryConfig>): (sc: Scope)
    ensures config.None? ==> sc == Scope([], true, [], false)
    ensures config.Some? && config.value.edges.Some? ==> sc.edges == config.value.edges.value
    ensures config.Some? && config.value.aliases.Some? ==> sc.aliases == config.value.aliases.value
    ensures config.Some? && config.value.disableEdges.Some? ==> sc.disableEdges == config.value.disableEdges.value
    ensures config.Some? && config.value.disableAliases.Some? ==> sc.disableAliases == config.value.disableAliases.value
  {
    match config
    case None => Scope([], true, [], false)
    case Some(c) => Scope(c.edges.GetOr([]), c.disableEdges.GetOr(true), c.aliases.GetOr([]), c.disableAliases.GetOr(false))
  }

  /** Every field the configuration leaves out gets its default: no edges, no aliases, edge checks off, alias checks on. */
  lemma DefaultsWhenAbsent(c: FactoryConfig)
    ensures c.edges.None? ==> InitialScope(Some(c)).edges == []
    ensures c.aliases.None? ==> InitialScope(Some(c)).aliases == []
    ensures c.disableEdges.None? ==> InitialScope(Some(c)).disableEdges
    ensures c.disableAliases.None? ==> !InitialScope(Some(c)).disableAliases
  {
  }

  /** `Factory.addAlias`: skipped when alias tracking is off, otherwise a duplicate throws and a new alias is pushed. */
  function AddAlias(sc: Scope, alias: string): (r: Result<Scope, Error>)
    ensures r.Failure? <==> !sc.disableAliases && alias in sc.aliases
    ensures r.Failure? ==> r.error == DuplicateAlias(alias)
    ensures r.Success? ==> r.value.edges == sc.edges
    ensures r.Success? ==> r.value.disableEdges == sc.disableEdges && r.value.disableAliases == sc.disableAliases
    ensures r.Success? && sc.disableAliases ==> r.value.aliases == sc.aliases
    ensures r.Success? && !sc.disableAliases ==> r.value.aliases == sc.aliases + [alias]
  {
    if sc.disableAliases then Success(sc)
    else if alias in sc.aliases then Failure(DuplicateAlias(alias))
    else Success(sc.(aliases := sc.aliases + [alias]))
  }

  /** Registering keeps the aliases duplicate-free, and afterwards the alias is known whenever tracking is on. */
  lemma AddAliasKeepsDistinct(sc: Scope, alias: string)
    requires Distinct(sc.aliases)
    requires AddAlias(sc, alias).Success?
    ensures Distinct(AddAlias(sc, alias).value.aliases)
    ensures !sc.disableAliases ==> alias in AddAlias(sc, alias).value.aliases
  {
  }

  /** `Factory.validateAlias`: passes when alias checks are off or the alias is known. */
  function ValidateAlias(sc: Scope, alias: string): (r: Option<Error>)
    ensures r.None? <==> sc.disableAliases || alias in sc.aliases
    ensures r.Some? ==> r.value == AliasNotFound(alias)
  {
    if sc.disableAliases || alias in sc.aliases then None else Some(AliasNotFound(alias))
  }

  /** `Factory.validateEdge`: passes when edge checks are off or the edge is known. */
  function ValidateEdge(sc: Scope, edge: string): (r: Option<Error>)
    ensures r.None? <==> sc.disableEdges || edge in sc.edges
    ensures r.Some? ==> r.value == EdgeNotFound(edge)
  {
    if sc.disableEdges || edge in sc.edges then None else Some(EdgeNotFound(edge))
  }

  /**
   * The integers JavaScript writes out in plain decimal: `String(n)` switches to
   * exponent notation (`1e+21`) once the magnitude reaches 10^21.
   */
  type PlainInteger = n: int | -1_000_000_000_000_000_000_000 < n < 1_000_000_000_000_000_000_000

  /** The `string | number | boolean` arguments that `has` and `is` interpolate raw. */
  datatype Value = Text(s: string) | Number(n: PlainInteger) | Flag(b: bool)

  /** A program: one step method call after another. */
  type Program = seq<Step>

  /** A `(builder) => void` callback, given by the steps it calls on its builder. */
  datatype Callback = Callback(body: Program)

  /** One call of a `Builder` step method, with its arguments. */
  datatype Step =
    | G
    | Anonymous
    | Aggregate(alias: string)
    | As(name: string)
    | Select(alias: string)
    | E(edge: string)
    | In(edge: string)
    | InE(edge: string)
    | Out(edge: string)
    | OutE(edge: string)
    | V(id: string)
    | Values(property: string)
    | Count
    | Dedup
    | Fold
    | Id
    | InV
    | OutV
    | Unfold
    | ValueMap
    | Custom(text: string)
    | Has(key: string, value: Value)
    | HasLabel(labels: LabelsInput)
    | ElementMap(keys: KeysInput)
    | Is(operand: Value)
    | And(input: AndInput)
    | Not(callback: Callback)
    | Where(callback: Callback)
    | SideEffect(callback: Callback)
    | Project(parts: PartsInput)

  /** What `and` may be given: `undefined`, one callback, an array of callbacks, or anything else. */
  datatype AndInput = NoCallback | OneCallback(single: Callback) | Callbacks(callbacks: seq<Callback>) | OtherInput

  /** One `{ name, by }` part of `project`; `by` is a keyword here. */
  datatype Part = Part(name: string, byCallback: Callback)

  /** What `project` may be given: an array of parts or anything else. */
  datatype PartsInput = PartList(list: seq<Part>) | NotAnArray

  /** What `elementMap` may be given: an array, a falsy value, or a truthy non-array. */
  datatype KeysInput = KeyList(keys: seq<string>) | NoKeys | OtherKeys

  /** What `hasLabel` may be given: a string, an array, or anything else. */
  datatype LabelsInput = OneLabel(text: string) | LabelList(labelList: seq<string>) | OtherLabels

  function Names(ps: seq<Part>): seq<string> {
    seq(|ps|, i requires 0 <= i < |ps| => ps[i].name)
  }

  function Bodies(ps: seq<Part>): seq<Callback> {
    seq(|ps|, i requires 0 <= i < |ps| => ps[i].byCallback)
  }

  // Sizes bounding the mutual recursion of the interpreter.

  function StepSize(s: Step): nat {
    match s
    case And(OneCallback(c)) => 1 + ProgSize(c.body)
    case And(Callbacks(cs)) => 1 + CallbacksSize(cs)
    case Not(c) => 1 + ProgSize(c.body)
    case Where(c) => 1 + ProgSize(c.body)
    case SideEffect(c) => 1 + ProgSize(c.body)
    case Project(PartList(ps)) => 1 + PartsSize(ps)
    case _ => 1
  }

  function ProgSize(p: Program): nat {
    if p == [] then 0 else StepSize(p[0]) + ProgSize(p[1..])
  }

  function CallbacksSize(cs: seq<Callback>): nat {
    if cs == [] then 0 else 1 + ProgSize(cs[0].body) + CallbacksSize(cs[1..])
  }

  function PartsSize(ps: seq<Part>): nat {
    if ps == [] then 0 else 1 + ProgSize(ps[0].byCallback.body) + PartsSize(ps[1..])
  }

  lemma {:induction false} PartsSizeBodies(ps: seq<Part>)
    ensures PartsSize(ps) == CallbacksSize(Bodies(ps))
  {
    if ps != [] {
      assert Bodies(ps)[1..] == Bodies(ps[1..]);
      PartsSizeBodies(ps[1..]);
    }
  }

  lemma {:induction false} StepSizeBound(p: Program, i: nat)
    requires i < |p|
    ensures StepSize(p[i]) <= ProgSize(p)
  {
    if i > 0 {
      StepSizeBound(p[1..], i - 1);
    }
  }

  lemma {:induction false} CallbackSizeBound(cs: seq<Callback>, i: nat)
    requires i < |cs|
    ensures ProgSize(cs[i].body) < CallbacksSize(cs)
  {
    if i > 0 {
      CallbackSizeBound(cs[1..], i - 1);
    }
  }

  /** JavaScript's `${n}` for an integral number. */
  function IntText(n: int): string {
    if n < 0 then "-" + NatText(-n) else NatText(n)
  }

  function NatText(n: nat): string
    decreases n
  {
    if n < 10 then [Digit(n)] else NatText(n / 10) + [Digit(n % 10)]
  }

  function Digit(d: nat): char
    requires d < 10
  {
    "0123456789"[d]
  }

  /** `${value}`: a string verbatim, a number in decimal, a boolean as `true`/`false`. */
  function ValueText(v: Value): string {
    match v
    case Text(s) => s
    case Number(n) => IntText(n)
    case Flag(b) => if b then "true" else "false"
  }

  /** Steps whose method appends one fixed template behind the separator. */
  predicate HasTemplate(s: Step) {
    !(s.G? || s.And? || s.Not? || s.Where? || s.SideEffect? || s.Project?
      || (s.HasLabel? && s.labels.OtherLabels?) || (s.ElementMap? && s.keys.OtherKeys?))
  }

  /** The template a simple step appends after `_dot()`. */
  function Template(s: Step): string
    requires HasTemplate(s)
  {
    match s
    case Anonymous => "__."
    case Aggregate(a) => Call("aggregate", Quote(a))
    case As(n) => Call("as", Quote(n))
    case Select(a) => Call("select", Quote(a))
    case E(e) => Call("E", Quote(e))
    case In(e) => Call("in", Quote(e))
    case InE(e) => Call("inE", Quote(e))
    case Out(e) => Call("out", Quote(e))
    case OutE(e) => Call("outE", Quote(e))
    case V(id) => Call("V", Quote(id))
    case Values(v) => Call("values", Quote(v))
    case Count => "count()"
    case Dedup => "dedup()"
    case Fold => "fold()"
    case Id => "id()"
    case InV => "inV()"
    case OutV => "outV()"
    case Unfold => "unfold()"
    case ValueMap => "valueMap()"
    case Custom(t) => t
    case Has(k, v) => Call("has", Quote(k) + ", " + ValueText(v))
    case HasLabel(OneLabel(l)) => Call("hasLabel", Quote(l))
    case HasLabel(LabelList(ls)) => Call("hasLabel", Join(QuoteAll(ls), ","))
    case ElementMap(KeyList(ks)) => Call("elementMap", Join(QuoteAll(ks), ", "))
    case ElementMap(NoKeys) => "elementMap()"
    case Is(v) => Call("is", ValueText(v))
  }

  /** Where a step, a program or the children of a composite step leave the builder. */
  datatype Outcome = Outcome(query: string, scope: Scope, error: Option<Error>)

  /** The whitespace-free texts of the children run so far, and where they left the scope. */
  datatype Children = Children(texts: seq<string>, scope: Scope, error: Option<Error>)

  /** The `.by(child)` clauses of `project`, in order. */
  function ByClauses(texts: seq<string>): string {
    if texts == [] then "" else ".by(" + texts[0] + ")" + ByClauses(texts[1..])
  }

  /** A checked step: the check runs first and a failing check leaves query and scope alone. */
  function Checked(check: Option<Error>, s: Step, q: string, sc: Scope): Outcome
    requires HasTemplate(s)
  {
    match check
    case Some(e) => Outcome(q, sc, Some(e))
    case None => Outcome(Append(q, Template(s)), sc, None)
  }

  /** A registering step (`as`, `aggregate`): `addAlias` first, then the template. */
  function Registered(alias: string, s: Step, q: string, sc: Scope): Outcome
    requires HasTemplate(s)
  {
    match AddAlias(sc, alias)
    case Failure(e) => Outcome(q, sc, Some(e))
    case Success(sc') => Outcome(Append(q, Template(s)), sc', None)
  }

  /** A single-callback composite: the child's outcome spliced as `name(child)`. */
  function Wrapped(name: string, child: Outcome, q: string): Outcome {
    if child.error.Some? then Outcome(q, child.scope, child.error)
    else Outcome(Append(q, Call(name, Compact(child.query))), child.scope, None)
  }

  /** One step method called on a builder whose buffer is `q` and whose factory holds `sc`. */
  function ExecStep(s: Step, q: string, sc: Scope): Outcome
    decreases StepSize(s), 1
  {
    match s
    case G => Outcome(q + "g.", sc, None)
    case Aggregate(a) => Registered(a, s, q, sc)
    case As(n) => Registered(n, s, q, sc)
    case Select(a) => Checked(ValidateAlias(sc, a), s, q, sc)
    case E(_) | In(_) | InE(_) | Out(_) | OutE(_) => Checked(ValidateEdge(sc, s.edge), s, q, sc)
    case HasLabel(OtherLabels) => Outcome(q, sc, None)
    case ElementMap(OtherKeys) => Outcome(q, sc, Some(KeysNotArray))
    case And(input) => ExecAnd(input, q, sc)
    case Not(cb) => Wrapped("not", ExecProg(cb.body, "", sc), q)
    case Where(cb) => Wrapped("where", ExecProg(cb.body, "", sc), q)
    case SideEffect(cb) => Wrapped("sideEffect", ExecProg(cb.body, "", sc), q)
    case Project(parts) => ExecProject(parts, q, sc)
    case _ => Outcome(Append(q, Template(s)), sc, None)
  }

  /** `and`, by the shape of its argument. */
  function ExecAnd(input: AndInput, q: string, sc: Scope): Outcome
    decreases StepSize(And(input)), 0
  {
    match input
    case NoCallback => Outcome(Append(q, "and()"), sc, None)
    case OneCallback(cb) => Wrapped("and", ExecProg(cb.body, "", sc), q)
    case Callbacks(cs) =>
      var c := ExecChildren(cs, sc);
      if c.error.Some? then Outcome(q, c.scope, c.error)
      else Outcome(Append(q, Call("and", Join(c.texts, ","))), c.scope, None)
    case OtherInput => Outcome(q, sc, Some(InvalidAndInput))
  }

  /** `project`, by the shape of its argument. */
  function ExecProject(parts: PartsInput, q: string, sc: Scope): Outcome
    decreases StepSize(Project(parts)), 0
  {
    match parts
    case NotAnArray => Outcome(q, sc, Some(PartsNotArray))
    case PartList(ps) =>
      PartsSizeBodies(ps);
      var c := ExecChildren(Bodies(ps), sc);
      if c.error.Some? then Outcome(q, c.scope, c.error)
      else Outcome(Append(q, Call("project", Join(QuoteAll(Names(ps)), ", ")) + ByClauses(c.texts)), c.scope, None)
  }

  /** The steps that consult nothing: each appends its template behind the separator. */
  predicate Plain(s: Step) {
    HasTemplate(s) && !(s.Aggregate? || s.As? || s.Select? || s.E? || s.In? || s.InE? || s.Out? || s.OutE?)
  }

  lemma PlainStep(s: Step, q: string, sc: Scope)
    requires Plain(s)
    ensures ExecStep(s, q, sc) == Outcome(Append(q, Template(s)), sc, None)
  {
  }

  /** A chain of step calls; the first throw ends it. */
  function ExecProg(p: Program, q: string, sc: Scope): Outcome
    decreases ProgSize(p), 2
  {
    if p == [] then Outcome(q, sc, None)
    else
      var o := ExecStep(p[0], q, sc);
      if o.error.Some? then o else ExecProg(p[1..], o.query, o.scope)
  }

  /**
   * The children of `and([...])` and `project`: each callback runs on a fresh
   * builder over the same scope, in input order, and each child's `toString` is kept.
   */
  function ExecChildren(cs: seq<Callback>, sc: Scope): Children
    decreases CallbacksSize(cs), 3
  {
    if cs == [] then Children([], sc, None)
    else
      var o := ExecProg(cs[0].body, "", sc);
      if o.error.Some? then Children([], o.scope, o.error)
      else
        var rest := ExecChildren(cs[1..], o.scope);
        Children([Compact(o.query)] + rest.texts, rest.scope, rest.error)
  }
}
