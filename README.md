# gremlin-query-builder in Dafny

A model of the query builders of gremlin-query-builder. The library builds
Gremlin traversal text (Apache TinkerPop 3.7.3 step vocabulary) by fluent
method chaining.

- **`src/Builder.ts`** holds the main builder.
  - A `Factory` holds the bookkeeping that all its builders share: the known edges, the declared aliases, and two switches that turn the edge and alias checks off.
  - A `Builder` grows a query buffer one step at a time. Most steps validate first, then append `_dot()` and their unit. `g` appends `g.` with no separator, and `hasLabel` given neither a string nor an array appends nothing.
  - The composite steps are `and`, `not`, `where`, `sideEffect` and `project`. They run their callbacks on child builders over the same factory, so an alias a child declares is visible to later siblings and to the parent. Each child's whitespace-free text is spliced into the parent.
- **`src/Gremlin.ts`** is an earlier, self-contained draft.
  - It keeps sets instead of arrays.
  - Both switches default to on.
  - Its alias gating runs the other way round.
- **`lib/queryBuilders`** holds the plain query object of `gremlin.js` and the one-step functions of `V.js`, `E.js`, `in.js`, `inE.js`, `out.js`, `select.js` and `as.js`. These validate nothing.

Files and modules:

- `wrappers.dfy` (`Wrappers`): `Option` and `Result`.
- `common.dfy` (`Common`): the thrown errors, with their exact message texts, and the `Distinct` predicate.
- `check_dot.dfy` (`Separator`): `checkDot`, which `_dot()` in src/Builder.ts repeats.
- `render.dfy` (`Render`): `toString`, modelled as removal of every ECMAScript `\s` character, and `raw`, modelled as a line break after every `).`.
- `fragments.dfy` (`Fragments`): the append primitive, quoting, `Array.prototype.join`, and the separator lemmas.
- `builder_spec.dfy` (`BuilderSpec`): the meaning of src/Builder.ts as pure functions.
  - `Scope` is what `config` returns.
  - The factory checks.
  - A `Step` datatype, one constructor per step method and its arguments.
  - Callbacks, given as the programs of steps they call on their builder.
  - An interpreter: `ExecStep`, `ExecProg` and `ExecChildren`.
- `builder.dfy` (`QueryBuilder`): the classes `Factory` and `Builder`.
  - They hold their fields and have one method per source method.
  - Each method is proved to leave the builder and the shared factory where the interpreter says.
  - The composite methods create their child builders over `this.factory` and run the callbacks through `Run`.
- `builder_properties.dfy` (`BuilderProperties`): what the builder promises, proved of the interpreter, covering:
  - chains compose;
  - buffers only grow;
  - the scope only gains aliases;
  - alias round trips;
  - sibling order;
  - `project` order;
  - the separator rule.
- `gremlin_draft.dfy` (`GremlinDraft`): the class `Gremlin` of src/Gremlin.ts, and its gating compared with src/Builder.ts.
- `query_builders.dfy` (`QueryBuilders`): the object of lib/queryBuilders/gremlin.js and the one-step functions.

JavaScript `throw` is a `Failure` result. A step that throws is modelled as writing nothing to the buffer, which is what the source does, since every check runs before `this.query +=`.

## Model

| member | source | states |
|---|---|---|
| Separator.CheckDot | lib/queryBuilders/checkDot.js:7-9 | the separator is `""` or `"."`, and it is `""` exactly when the string is empty or ends with `(` or `.` |
| Separator.DefaultIsEmpty | lib/queryBuilders/checkDot.js:7 | with its default argument the separator is empty |
| Render.CompactSpec | src/Builder.ts:93-95 | the stripped text contains no whitespace, is no longer than the input, and equals an input that had none |
| Render.CompactClean | src/Builder.ts:93-95 | no character of the stripped text is whitespace |
| Render.CompactKeepsClean | src/Builder.ts:93-95 | a text without whitespace is left as it is |
| Render.CompactAppend | src/Builder.ts:93-95 | stripping whitespace distributes over concatenation |
| Render.CompactIdempotent | src/Builder.ts:93-95 | stripping twice is stripping once |
| Render.Compact | src/Builder.ts:93-95 | `toString`: the buffer with every ECMAScript whitespace character deleted; its properties are the lemmas below |
| Render.Pretty | src/Builder.ts:97-99 | inserting line breaks never shortens the text and keeps its first character |
| Render.PrettyBreaksAfterClosing | src/Builder.ts:97-99 | wherever `raw`'s text shows `).`, a line break follows it |
| Render.UnprettyPretty | src/Builder.ts:97-99 | removing the line breaks `raw` inserts after each `).` gives back the buffer |
| Render.CompactPretty | src/Builder.ts:93-99 | `raw` and the buffer have the same whitespace-free text |
| Render.CompactClosing | src/Builder.ts:97-99 | the `).` that `raw` keeps contains no whitespace |
| Render.CompactLineBreak | src/Builder.ts:97-99 | stripping drops exactly the line break `raw` inserts after `).` |
| Fragments.Append | src/Builder.ts:113-115 | `this.query += this._dot() + unit`: the unit goes behind the separator `checkDot` picks; its properties are the lemmas below |
| Fragments.Join | src/Builder.ts:135 | `Array.prototype.join` with the given separator |
| Fragments.QuoteAll | src/Builder.ts:181 | quoting keeps the length, and element i is `'xs[i]'` |
| Fragments.AppendCases | src/Builder.ts:113-115 | no separator on an empty buffer or after `(` or `.`, exactly one dot otherwise |
| Fragments.AppendExtends | src/Builder.ts:113-115 | appending keeps the old buffer as a prefix, and a closed unit leaves the buffer closed |
| Fragments.ChainOfUnits | src/Builder.ts:113-115 | closed units appended one by one to an empty buffer give the units joined by single dots |
| Fragments.ChainAfterUnit | src/Builder.ts:113-115 | after a closed buffer, each further unit is preceded by exactly one dot |
| Fragments.AppendNoDoubleDot | src/Builder.ts:113-115 | appending a unit free of `..` that does not start with a dot never produces `..` |
| BuilderSpec.InitialScope | src/Builder.ts:10-15 | with no configuration: no edges, no aliases, edge checks off, alias checks on; given fields are taken as given |
| BuilderSpec.DefaultsWhenAbsent | src/Builder.ts:10-15 | each missing configuration field gets its own default independently |
| BuilderSpec.AddAlias | src/Builder.ts:46-52 | fails exactly when tracking is on and the alias is known, with the duplicate error; otherwise the alias is pushed, or nothing changes when tracking is off; edges and flags never change |
| BuilderSpec.AddAliasKeepsDistinct | src/Builder.ts:46-52 | registering keeps the alias list duplicate-free, and the alias is then known |
| BuilderSpec.ValidateAlias | src/Builder.ts:36-41 | passes exactly when alias checks are off or the alias is known; otherwise the "was not found" error |
| BuilderSpec.ValidateEdge | src/Builder.ts:67-72 | passes exactly when edge checks are off or the edge is known; otherwise the edge error |
| BuilderSpec.Template | src/Builder.ts:152-337 | the unit each step without callbacks writes, one case per step method |
| BuilderSpec.ExecStep | src/Builder.ts:117-345 | one step method call: its checks, its unit behind the separator, the scope it leaves and the error it throws |
| BuilderSpec.ExecAnd | src/Builder.ts:125-142 | `and` by input shape: `and()`, one child, an array of children joined by `,`, or the input error |
| BuilderSpec.ExecProject | src/Builder.ts:283-298 | `project`: the parts error for a non-array, otherwise the children run in order and the quoted names and `.by` clauses appended |
| BuilderSpec.ExecProg | src/Builder.ts:129-130 | a callback's calls run in order on its builder, stopping at the first throw |
| BuilderSpec.ExecChildren | src/Builder.ts:133-135 | an array's callbacks run in order over the shared factory, keeping each child's `toString` |
| BuilderSpec.PlainStep | src/Builder.ts:152-169 | a step that consults nothing appends its template behind the separator and leaves the scope alone |
| QueryBuilder.Factory.constructor | src/Builder.ts:10-15 | the new factory's `config` is `InitialScope(config)` |
| QueryBuilder.Factory.Config | src/Builder.ts:17-24 | `config`: the four fields as a `Scope` value, so the arrays it gives are copies |
| QueryBuilder.Factory.From | src/Builder.ts:26-28 | a fresh empty builder over the given factory itself, or over a fresh factory with the defaults |
| QueryBuilder.Factory.ValidateAlias | src/Builder.ts:36-41 | passes exactly when alias checks are off or the alias is in `aliases`; otherwise `AliasNotFound` |
| QueryBuilder.Factory.AddAlias | src/Builder.ts:46-52 | three cases: tracking off leaves `aliases` alone; a duplicate fails and leaves it alone; a new alias is pushed at the end |
| QueryBuilder.Factory.Create | src/Builder.ts:58-60 | a fresh empty builder sharing this factory |
| QueryBuilder.Factory.ValidateEdge | src/Builder.ts:67-72 | passes exactly when edge checks are off or the edge is in `edges`; otherwise `EdgeNotFound` |
| QueryBuilder.Builder.constructor | src/Builder.ts:79-82 | empty buffer, over the given factory or a fresh default one |
| QueryBuilder.Builder.Config | src/Builder.ts:84-86 | `config`: the shared factory's snapshot |
| QueryBuilder.Builder.Dot | src/Builder.ts:113-115 | `_dot()` is `""` exactly when the buffer is empty or ends with `(` or `.`, and `"."` otherwise |
| QueryBuilder.Builder.ToString | src/Builder.ts:93-95 | the text has no whitespace and is the buffer itself when that had none |
| QueryBuilder.Builder.Raw | src/Builder.ts:97-99 | every `).` in the text is followed by a line break; removing the inserted line breaks gives back the buffer; and `raw` has the same whitespace-free text as `toString` |
| QueryBuilder.Builder.G | src/Builder.ts:88-91 | appends `g.` with no separator |
| QueryBuilder.Builder.Anonymous | src/Builder.ts:105-108 | appends `__.` behind the separator |
| QueryBuilder.Builder.Aggregate | src/Builder.ts:118-122 | registers the alias first; on a duplicate it throws with buffer and factory unchanged; otherwise appends `aggregate('a')` |
| QueryBuilder.Builder.And | src/Builder.ts:125-142 | the four input shapes: `and()`; one callback spliced as `and(child)`; an array run in order over the shared factory and joined by `,`; anything else throws. A throwing child leaves the parent buffer alone |
| QueryBuilder.Builder.As | src/Builder.ts:145-149 | like `aggregate`, with `as('n')` |
| QueryBuilder.Builder.Count | src/Builder.ts:152-155 | appends `count()` behind the separator |
| QueryBuilder.Builder.Custom | src/Builder.ts:160-163 | appends the given text verbatim behind the separator |
| QueryBuilder.Builder.Dedup | src/Builder.ts:166-169 | appends `dedup()` |
| QueryBuilder.Builder.E | src/Builder.ts:172-176 | validates the edge first; an unknown edge throws with nothing changed; otherwise appends `E('e')` |
| QueryBuilder.Builder.ElementMap | src/Builder.ts:179-191 | an array gives the quoted keys joined by `, `; a falsy argument gives `elementMap()`; anything else throws "Keys must be an array or undefined" |
| QueryBuilder.Builder.Fold | src/Builder.ts:194-197 | appends `fold()`; the arguments are ignored |
| QueryBuilder.Builder.Has | src/Builder.ts:200-203 | appends `has('k', v)` with the value interpolated raw; the default value is `true` |
| QueryBuilder.Builder.HasLabel | src/Builder.ts:206-220 | a string gives `hasLabel('l')`; an array gives the quoted labels joined by `,`; anything else appends nothing, not even a separator |
| QueryBuilder.Builder.Id | src/Builder.ts:223-226 | appends `id()` |
| QueryBuilder.Builder.In | src/Builder.ts:229-233 | edge-checked `in('e')` |
| QueryBuilder.Builder.InE | src/Builder.ts:236-240 | edge-checked `inE('e')` |
| QueryBuilder.Builder.InV | src/Builder.ts:243-246 | appends `inV()` |
| QueryBuilder.Builder.Is | src/Builder.ts:249-252 | appends `is(v)` with the operand interpolated raw |
| QueryBuilder.Builder.Not | src/Builder.ts:255-260 | runs the callback on a new builder over the same factory, then appends `not(child)` with the child's whitespace-free text; a throwing child leaves the buffer alone |
| QueryBuilder.Builder.Out | src/Builder.ts:263-267 | edge-checked `out('e')` |
| QueryBuilder.Builder.OutE | src/Builder.ts:270-274 | edge-checked `outE('e')` |
| QueryBuilder.Builder.OutV | src/Builder.ts:277-280 | appends `outV()` |
| QueryBuilder.Builder.Project | src/Builder.ts:283-298 | a non-array throws "Parts must be an array"; otherwise the parts' callbacks run in order over the shared factory, then it appends `project('n1', 'n2', …)` followed by one `.by(child)` per part |
| QueryBuilder.Builder.Select | src/Builder.ts:301-305 | validates the alias first; an unknown alias throws with nothing changed; otherwise appends `select('a')` |
| QueryBuilder.Builder.SideEffect | src/Builder.ts:308-313 | like `not`, with `sideEffect(child)` |
| QueryBuilder.Builder.Unfold | src/Builder.ts:316-319 | appends `unfold()` |
| QueryBuilder.Builder.V | src/Builder.ts:322-325 | appends `V('id')` |
| QueryBuilder.Builder.ValueMap | src/Builder.ts:328-331 | appends `valueMap()` |
| QueryBuilder.Builder.Values | src/Builder.ts:334-337 | appends `values('p')` |
| QueryBuilder.Builder.Where | src/Builder.ts:340-345 | like `not`, with `where(child)` |
| QueryBuilder.Builder.RunChildren | src/Builder.ts:133-135 | the array's callbacks run one after another, each on a new builder over this factory; the texts come back in input order and the factory ends where the last child left it; the first throw stops the run |
| QueryBuilder.Builder.Perform | src/Builder.ts:117-345 | calling the step method a descriptor names leaves builder and factory where `ExecStep` says |
| QueryBuilder.Builder.PerformPlain | src/Builder.ts:152-252 | the step methods that cannot throw append their template and do not touch the factory |
| QueryBuilder.Builder.Run | src/Builder.ts:129-130 | a callback's calls run in order on its builder and stop at the first throw, as `ExecProg` says |
| QueryBuilder.SharedAliases | src/Builder.ts:58-60 | an alias registered through one builder is in the `config`, and passes `select`, of a builder created later from the same factory |
| BuilderProperties.ExecProgAppend | src/Builder.ts:125-142 | running `p1 ++ p2` is running `p1`, then `p2` from where it stopped, unless `p1` threw |
| BuilderProperties.ExecStepExtends | src/Builder.ts:117-345 | every step only appends to the buffer |
| BuilderProperties.ExecProgExtends | src/Builder.ts:117-345 | a callback's chain only appends, even when it throws part-way |
| BuilderProperties.FailureLeavesQuery | src/Builder.ts:117-345 | a throwing step leaves the buffer unchanged, and a throwing step without callbacks leaves the scope unchanged too |
| BuilderProperties.StepGrows | src/Builder.ts:46-52 | one step, to any nesting depth: edges and flags fixed, aliases only appended, none appended while tracking is off, and no duplicates created |
| BuilderProperties.SimpleGrows | src/Builder.ts:46-52 | the same for a step without callbacks, and every such step other than `as` and `aggregate` leaves the scope exactly as it was |
| BuilderProperties.AndGrows | src/Builder.ts:125-142 | the same for `and`, whatever its input shape |
| BuilderProperties.ProjectGrows | src/Builder.ts:283-298 | the same for `project` |
| BuilderProperties.ProgGrows | src/Builder.ts:46-52 | the same for a whole chain |
| BuilderProperties.ChildrenGrows | src/Builder.ts:133-135 | the same for the children of `and([...])` and `project` |
| BuilderProperties.SelectGate | src/Builder.ts:301-305 | `select` passes exactly when alias checks are off or the alias is known; on failure nothing changes |
| BuilderProperties.EdgeGate | src/Builder.ts:172-176 | `E`, `in`, `inE`, `out` and `outE` pass exactly when edge checks are off or the edge is known; on failure nothing changes |
| BuilderProperties.AndShapeError | src/Builder.ts:137-139 | `and` given neither `undefined`, a function nor an array throws its input error and changes nothing |
| BuilderProperties.ProjectShapeError | src/Builder.ts:284-286 | `project` given a non-array throws "Parts must be an array" and changes nothing |
| BuilderProperties.ElementMapShapeError | src/Builder.ts:190 | `elementMap` given a truthy non-array throws "Keys must be an array or undefined" and changes nothing |
| BuilderProperties.HasLabelOtherIsNoop | src/Builder.ts:206-220 | `hasLabel` with neither a string nor an array leaves buffer and factory as they were |
| BuilderProperties.AliasStaysSelectable | src/Builder.ts:301-305 | once an alias is known, `select` of it passes after any further successful steps, including nested composites |
| BuilderProperties.AsThenSelect | src/Builder.ts:145-149 | `as(a)`, then any successful steps, then `select(a)` never fails |
| BuilderProperties.DuplicateRejected | src/Builder.ts:46-52 | with tracking on, a second `as(a)` or `aggregate(a)` throws the duplicate error and changes nothing |
| BuilderProperties.ExecChildrenSplit | src/Builder.ts:133-135 | the children run as a prefix and then the rest, over the scope the prefix left |
| BuilderProperties.ChildrenComplete | src/Builder.ts:133-135 | children that all succeed give exactly one whitespace-free text per callback |
| BuilderProperties.ChildrenInOrder | src/Builder.ts:133-136 | text i is callback i's `toString`, run over the scope callbacks 0 to i-1 left |
| BuilderProperties.AllChildrenInOrder | src/Builder.ts:133-136 | the same for every i at once |
| BuilderProperties.ExecProgSingle | src/Builder.ts:117-345 | a one-call callback is that call |
| BuilderProperties.AndTwoCallbacks | src/Builder.ts:132-136 | `and([c1, c2])` renders `and(t1,t2)`, with `c2` run over the scope `c1` left |
| BuilderProperties.AndCallbacksStep | src/Builder.ts:132-136 | `and` with an array runs the callbacks as siblings and, when none throws, appends their texts joined by `,` |
| BuilderProperties.ChildrenPair | src/Builder.ts:133-135 | two callbacks that both succeed give their two whitespace-free texts, in order, and the scope the second left |
| BuilderProperties.SiblingSeesAlias | src/Builder.ts:132-136 | `and([b => b.as(a), b => b.select(a)])` succeeds and leaves `a` registered in the parent's factory |
| BuilderProperties.SiblingOrderMatters | src/Builder.ts:132-136 | the same two callbacks the other way round throw "Alias 'a' was not found" and leave buffer and factory unchanged |
| BuilderProperties.ChildScopeReachesParent | src/Builder.ts:255-260 | after `not`, `where` or `sideEffect`, the factory is where the child left it |
| BuilderProperties.ProjectInOrder | src/Builder.ts:283-298 | a successful `project` has one `.by` text per part, in input order, each rendered over the scope the earlier parts left, after the quoted names joined by `, ` |
| BuilderProperties.Templates | src/Builder.ts:117-345 | one template per step |
| BuilderProperties.SimpleChainAppends | src/Builder.ts:117-345 | a successful chain of simple steps appends their templates one after another |
| BuilderProperties.SeparatorCorrect | src/Builder.ts:113-115 | a successful chain of single-unit steps started on an empty builder gives the units joined by exactly one dot, with none at either end |
| BuilderProperties.ExecProgCons | src/Builder.ts:129-130 | a callback runs its first call, then the rest from where that call left off |
| BuilderProperties.SuccessfulSteps | src/Builder.ts:117-345 | calls that each succeed from where the previous one left off make a successful chain ending at the last call's buffer and scope |
| BuilderProperties.TraversalV | src/Builder.ts:322-325 | `V('123')` right after `g.` gets no separator |
| BuilderProperties.TraversalAsA | src/Builder.ts:145-149 | on a default factory `as('a')` registers `a` and appends `.as('a')` |
| BuilderProperties.TraversalOut | src/Builder.ts:263-267 | with edge checks off, `out('knows')` appends `.out('knows')` |
| BuilderProperties.TraversalAsB | src/Builder.ts:145-149 | `as('b')` after `a` registers `b` behind it |
| BuilderProperties.TraversalSelect | src/Builder.ts:301-305 | `select('a')` passes once `a` is registered |
| BuilderProperties.DocumentedTraversal | src/__tests__/Builder.test.js:58-62 | on a default factory, `g.V('123').as('a').out('knows').as('b').select('a')` succeeds, leaves aliases `a` and `b`, and builds exactly that text |
| GremlinDraft.Dedup | src/Gremlin.ts:13-14 | `new Set(xs)` has no duplicates and the same members, and is `xs` itself when that had none |
| GremlinDraft.InitialSettings | src/Gremlin.ts:11-17 | duplicate-free sets with exactly the configured members (empty when absent); both switches default to `true` |
| GremlinDraft.AddAlias | src/Gremlin.ts:41-47 | as written: a no-op while `disableAliases` is false; while it is true a known alias throws the duplicate error and a new one is added |
| GremlinDraft.AddAliasKeepsDistinct | src/Gremlin.ts:41-47 | the set stays duplicate-free |
| GremlinDraft.ValidateAlias | src/Gremlin.ts:57-61 | as written: throws exactly when `disableAliases` is true and the alias is unknown |
| GremlinDraft.ValidateEdge | src/Gremlin.ts:49-55 | passes exactly when edge checks are off or the edge is known |
| GremlinDraft.Firsts | src/Gremlin.ts:111 | element i is the first component of pair i |
| GremlinDraft.Seconds | src/Gremlin.ts:113 | element i is the second component of pair i |
| GremlinDraft.ProjectText | src/Gremlin.ts:109-115 | the draft's `project` unit: the quoted first components joined by `,`, then one `.by(b)` per pair |
| GremlinDraft.Gremlin.Config | src/Gremlin.ts:24-31 | `config`: the two sets and the two switches as a `Settings` value |
| GremlinDraft.Gremlin.constructor | src/Gremlin.ts:11-17 | empty buffer, sets without duplicates, `config` equal to `InitialSettings(config)` |
| GremlinDraft.Gremlin.G | src/Gremlin.ts:19-22 | appends `g.` with no separator |
| GremlinDraft.Gremlin.ToString | src/Gremlin.ts:33-35 | no whitespace, and the buffer itself when that had none |
| GremlinDraft.Gremlin.Raw | src/Gremlin.ts:37-39 | every `).` in the text is followed by a line break; removing the inserted line breaks gives back the buffer; same whitespace-free text as `toString` |
| GremlinDraft.Gremlin.AddAliasTo | src/Gremlin.ts:41-47 | `_addAlias` leaves the settings where `AddAlias` says and keeps the set duplicate-free |
| GremlinDraft.Gremlin.CheckEdge | src/Gremlin.ts:49-55 | `_validateEdge` throws exactly as `ValidateEdge` says |
| GremlinDraft.Gremlin.CheckAlias | src/Gremlin.ts:57-61 | `_validateAlias` throws exactly as `ValidateAlias` says |
| GremlinDraft.Gremlin.As | src/Gremlin.ts:63-67 | registers as `_addAlias` says; a throw changes nothing; otherwise appends `as('n')` |
| GremlinDraft.Gremlin.Custom | src/Gremlin.ts:69-72 | appends the text verbatim behind the separator |
| GremlinDraft.Gremlin.E | src/Gremlin.ts:74-78 | edge-checked `E('e')`; a throw changes nothing |
| GremlinDraft.Gremlin.Fold | src/Gremlin.ts:80-83 | appends `fold()` |
| GremlinDraft.Gremlin.In | src/Gremlin.ts:85-89 | edge-checked `in('e')` |
| GremlinDraft.Gremlin.InE | src/Gremlin.ts:91-95 | edge-checked `inE('e')` |
| GremlinDraft.Gremlin.Out | src/Gremlin.ts:97-101 | edge-checked `out('e')` |
| GremlinDraft.Gremlin.OutE | src/Gremlin.ts:103-107 | edge-checked `outE('e')` |
| GremlinDraft.Gremlin.Project | src/Gremlin.ts:109-115 | appends `project('a1','a2',…)` followed by `.by(b)` for each pair, with `b` verbatim and in order |
| GremlinDraft.Gremlin.Select | src/Gremlin.ts:117-121 | alias-checked as `_validateAlias` says; then `select('a')` |
| GremlinDraft.Gremlin.V | src/Gremlin.ts:123-126 | appends `V('id')` |
| GremlinDraft.Gremlin.Values | src/Gremlin.ts:128-131 | appends `values('v')` |
| GremlinDraft.AliasRoundTrip | src/Gremlin.ts:41-61 | after a successful `_addAlias(a)`, `_validateAlias(a)` passes, whichever way the switch is set |
| GremlinDraft.GatingInverted | src/Gremlin.ts:57-61 | for the same switch value, the draft's `select` of an unknown alias throws exactly when src/Builder.ts's does not, and likewise for re-registering a known alias |
| GremlinDraft.CompactJoinSpace | src/Gremlin.ts:111 | a `,`-joined list and a `, `-joined list have the same whitespace-free text |
| GremlinDraft.CallCompactsAlike | src/Gremlin.ts:110-112 | the same holds inside any call with any following text |
| GremlinDraft.CompactInContext | src/Gremlin.ts:110-113 | texts with the same whitespace-free form keep it inside the same context |
| GremlinDraft.ProjectAgreesWithBuilder | src/Gremlin.ts:109-115 | the draft's `project` unit and src/Builder.ts's differ only in whitespace |
| QueryBuilders.Unit | lib/queryBuilders/gremlin.js:21-51 | every unit except `push` ends with `)` and does not start with a dot; `push` appends its argument verbatim |
| QueryBuilders.Units | lib/queryBuilders/gremlin.js:21-51 | one unit per call, in order |
| QueryBuilders.UnitsAgreeWithBuilder | lib/queryBuilders/gremlin.js:21-51 | each call renders the same unit as the corresponding step of src/Builder.ts |
| QueryBuilders.Chain | lib/queryBuilders/gremlin.js:21-48 | a chain of calls other than `push` on a new object gives the units joined by single dots |
| QueryBuilders.NoDoubleDotAfterCall | lib/queryBuilders/checkDot.js:7-9 | a call never creates `..` when buffer and argument have none |
| QueryBuilders.QueryObject.constructor | lib/queryBuilders/gremlin.js:10-12 | the object starts with an empty `query` |
| QueryBuilders.QueryObject.G | lib/queryBuilders/gremlin.js:13-16 | appends `g.` with no separator |
| QueryBuilders.QueryObject.ToString | lib/queryBuilders/gremlin.js:17-19 | the buffer as it is, without stripping whitespace; it agrees with src/Builder.ts's `toString` when the buffer has no whitespace |
| QueryBuilders.QueryObject.V | lib/queryBuilders/gremlin.js:20 | delegates to the function of V.js |
| QueryBuilders.QueryObject.E | lib/queryBuilders/gremlin.js:21-24 | `E('id')` behind the separator |
| QueryBuilders.QueryObject.In | lib/queryBuilders/gremlin.js:25-28 | `in('e')` behind the separator |
| QueryBuilders.QueryObject.InE | lib/queryBuilders/gremlin.js:29-32 | `inE('e')` behind the separator |
| QueryBuilders.QueryObject.Out | lib/queryBuilders/gremlin.js:33-36 | `out('e')` behind the separator |
| QueryBuilders.QueryObject.OutE | lib/queryBuilders/gremlin.js:37-40 | `outE('e')` behind the separator |
| QueryBuilders.QueryObject.As | lib/queryBuilders/gremlin.js:41-44 | `as('n')` behind the separator, unchecked |
| QueryBuilders.QueryObject.Select | lib/queryBuilders/gremlin.js:45-48 | `select('n')` behind the separator, unchecked |
| QueryBuilders.QueryObject.Push | lib/queryBuilders/gremlin.js:49-52 | the text verbatim behind the separator |
| QueryBuilders.Gremlin | lib/queryBuilders/gremlin.js:9-12 | a fresh object with an empty `query` |
| QueryBuilders.VStep | lib/queryBuilders/V.js:9-12 | appends `V('id')` to the receiver's query and returns the receiver |
| QueryBuilders.EStep | lib/queryBuilders/E.js:9-12 | appends `E('id')` to the receiver's query and returns the receiver |
| QueryBuilders.InStep | lib/queryBuilders/in.js:9-12 | appends `in('e')` to the receiver's query and returns the receiver |
| QueryBuilders.InEStep | lib/queryBuilders/inE.js:9-12 | appends `inE('e')` to the receiver's query and returns the receiver |
| QueryBuilders.OutStep | lib/queryBuilders/out.js:9-12 | appends `out('e')` to the receiver's query and returns the receiver |
| QueryBuilders.SelectStep | lib/queryBuilders/select.js:9-12 | appends `select('a')` to the receiver's query and returns the receiver |
| QueryBuilders.AsStep | lib/queryBuilders/as.js:9-12 | appends `as('n')` to the receiver's query and returns the receiver |

## Left out

- Callbacks are general JavaScript functions in the source. Here they are data: the sequence of step calls they make on the builder they are given.
  - A callback that does anything else is not modelled: calling methods of the parent builder, ignoring its argument, or throwing a `TypeError` (a `project` part without `by`, for example).
- `and([...])` and `project` create all their child builders before running any callback. The model creates each child just before its callback runs. The builders are empty and share one factory, so nothing observable differs.
- Aliasing of the caller's configuration arrays: `new Factory({ aliases })` keeps the caller's array, and `addAlias` pushes onto it. Sequences are values here, so the caller's copy does not change.
- `config` returning copies is implicit: sequences are values.
- `has` and `is` interpolate non-integers, objects and other JavaScript values with `String(...)`. The model covers strings, booleans and the integers that JavaScript writes in plain decimal. Floating point is not modelled.
- QueryBuilder.Builder.Has: a number argument is an integer of magnitude below 10^21, the range in which `String(n)` writes plain decimal digits; larger numbers, which JavaScript writes as `1e+21` and so on, are not modelled. The range still admits integers above 2^53 that no JavaScript number holds exactly.
- QueryBuilder.Builder.Is: the same number range as `has`.
- The `toString` and `raw` texts of the tests' example traversal are not worked out as concrete strings. `DocumentedTraversal` gives its buffer, and the lemmas in `render.dfy` characterise `Compact` and `Pretty`.
- The trailing `.trim()` of `toString` is not modelled, because nothing is left for it to remove once all whitespace is deleted.
- `console.log(this._edges)` in `_validateEdge` of src/Gremlin.ts is output only and is not modelled.
- The `checkDot` and configuration-interface modules imported by src/Gremlin.ts are not part of this model. The draft uses the separator rule of lib/queryBuilders/checkDot.js.
- The top-level gremlin.js, index.js, lib/index.js, lib/*.js, src/index.ts and the type declaration files are not part of this model.
- JavaScript's default arguments apply only to `undefined`. They are modelled as Dafny default parameter values. Argument types other than the declared ones (for example a number passed as an edge name) are not modelled, except where the source branches on them (`and`, `project`, `elementMap`, `hasLabel`).
- GremlinDraft.Gremlin.AddAliasTo, CheckEdge and CheckAlias are `_addAlias`, `_validateEdge` and `_validateAlias`. They are renamed so as not to clash with the pure module functions of the same meaning.
- The tests were written against other versions of the code. Where they disagree with the code, the code is followed:
  - `and([])` is accepted and renders `and()`;
  - the factory's `disableAliases` defaults to `false`;
  - `has` interpolates its value unquoted.
