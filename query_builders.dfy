/**
 * lib/queryBuilders: the plain query object of gremlin.js and the one-step
 * functions of V.js, E.js, in.js, inE.js, out.js, select.js and as.js. None of
 * them validates anything: each appends the separator of checkDot.js and its
 * unit to the receiver's `query` and returns the receiver.
 */
module QueryBuilders {
  import opened Fragments
  import opened Render
  import BuilderSpec

  /** One call of the query object, with its argument. */
  datatype LibCall =
    | V(id: string)
    | E(id: string)
    | In(edge: string)
    | InE(edge: string)
    | Out(edge: string)
    | OutE(edge: string)
    | As(name: string)
    | Select(alias: string)
    | Push(queryString: string)

  /** The text a call appends behind the separator; `push` appends its argument verbatim. */
  function Unit(c: LibCall): (r: string)
    ensures !c.Push? ==> Closed(r) && r[0] != '.'
    ensures c.Push? ==> r == c.queryString
  {
    match c
    case V(id) => Call("V", Quote(id))
    case E(id) => Call("E", Quote(id))
    case In(edge) => Call("in", Quote(edge))
    case InE(edge) => Call("inE", Quote(edge))
    case Out(edge) => Call("out", Quote(edge))
    case OutE(edge) => Call("outE", Quote(edge))
    case As(name) => Call("as", Quote(name))
    case Select(alias) => Call("select", Quote(alias))
    case Push(s) => s
  }

  /** The step of src/Builder.ts that renders the same unit. */
  function BuilderStep(c: LibCall): BuilderSpec.Step {
    match c
    case V(id) => BuilderSpec.V(id)
    case E(id) => BuilderSpec.E(id)
    case In(edge) => BuilderSpec.In(edge)
    case InE(edge) => BuilderSpec.InE(edge)
    case Out(edge) => BuilderSpec.Out(edge)
    case OutE(edge) => BuilderSpec.OutE(edge)
    case As(name) => BuilderSpec.As(name)
    case Select(alias) => BuilderSpec.Select(alias)
    case Push(s) => BuilderSpec.Custom(s)
  }

  /** The units of a sequence of calls. */
  function Units(cs: seq<LibCall>): (us: seq<string>)
    ensures |us| == |cs|
    ensures forall i :: 0 <= i < |cs| ==> us[i] == Unit(cs[i])
  {
    seq(|cs|, i requires 0 <= i < |cs| => Unit(cs[i]))
  }

  /** Every call renders exactly the unit the corresponding src/Builder.ts step renders. */
  lemma UnitsAgreeWithBuilder(c: LibCall)
    ensures BuilderSpec.HasTemplate(BuilderStep(c)) && Unit(c) == BuilderSpec.Template(BuilderStep(c))
  {
  }

  /**
   * Separator correctness: calls other than `push`, made one after another on
   * a new query object, leave the units joined by single dots.
   */
  lemma Chain(cs: seq<LibCall>)
    requires forall i :: 0 <= i < |cs| ==> !cs[i].Push?
    ensures AppendAll("", Units(cs)) == Join(Units(cs), ".")
  {
    ChainOfUnits(Units(cs));
  }

  /** A call other than `push` never produces `..`, whatever its argument, as long as the argument has none. */
  lemma NoDoubleDotAfterCall(query: string, c: LibCall)
    requires NoDoubleDot(query) && NoDoubleDot(Unit(c))
    requires c.Push? ==> |c.queryString| == 0 || c.queryString[0] != '.'
    ensures NoDoubleDot(Append(query, Unit(c)))
  {
    AppendNoDoubleDot(query, Unit(c));
  }

  /** The object `gremlin()` returns. */
  class QueryObject {
    var query: string

    constructor ()
      ensures query == ""
    {
      query := "";
    }

    /** The `g` getter: `g.` with no separator. */
    method G() returns (r: QueryObject)
      modifies this
      ensures r == this && query == old(query) + "g."
    {
      query := query + "g.";
      return this;
    }

    /** The `toString` getter: the buffer itself, which is what src/Builder.ts prints when it holds no whitespace. */
    function ToString(): (r: string)
      reads this
      ensures r == query
      ensures NoWhitespace(query) ==> r == Compact(query)
    {
      CompactSpec(query);
      query
    }

    /** `V`: the object's method is the default export of V.js. */
    method V(id: string := "") returns (r: QueryObject)
      modifies this
      ensures r == this && query == Append(old(query), Unit(LibCall.V(id)))
    {
      r := VStep(this, id);
    }

    method E(id: string := "") returns (r: QueryObject)
      modifies this
      ensures r == this && query == Append(old(query), Unit(LibCall.E(id)))
    {
      query := Append(query, Call("E", Quote(id)));
      return this;
    }

    method In(edge: string := "") returns (r: QueryObject)
      modifies this
      ensures r == this && query == Append(old(query), Unit(LibCall.In(edge)))
    {
      query := Append(query, Call("in", Quote(edge)));
      return this;
    }

    method InE(edge: string := "") returns (r: QueryObject)
      modifies this
      ensures r == this && query == Append(old(query), Unit(LibCall.InE(edge)))
    {
      query := Append(query, Call("inE", Quote(edge)));
      return this;
    }

    method Out(edge: string := "") returns (r: QueryObject)
      modifies this
      ensures r == this && query == Append(old(query), Unit(LibCall.Out(edge)))
    {
      query := Append(query, Call("out", Quote(edge)));
      return this;
    }

    method OutE(edge: string := "") returns (r: QueryObject)
      modifies this
      ensures r == this && query == Append(old(query), Unit(LibCall.OutE(edge)))
    {
      query := Append(query, Call("outE", Quote(edge)));
      return this;
    }

    method As(name: string := "") returns (r: QueryObject)
      modifies this
      ensures r == this && query == Append(old(query), Unit(LibCall.As(name)))
    {
      query := Append(query, Call("as", Quote(name)));
      return this;
    }

    method Select(name: string := "") returns (r: QueryObject)
      modifies this
      ensures r == this && query == Append(old(query), Unit(LibCall.Select(name)))
    {
      query := Append(query, Call("select", Quote(name)));
      return this;
    }

    method Push(queryString: string := "") returns (r: QueryObject)
      modifies this
      ensures r == this && query == Append(old(query), Unit(LibCall.Push(queryString)))
    {
      query := Append(query, queryString);
      return this;
    }
  }

  /** `gremlin()`: a new query object with an empty buffer. */
  method Gremlin() returns (o: QueryObject)
    ensures fresh(o) && o.query == ""
  {
    o := new QueryObject();
  }

  /** The default export of V.js, called with the receiver as `this`. */
  method VStep(self: QueryObject, id: string := "") returns (r: QueryObject)
    modifies self
    ensures r == self && self.query == Append(old(self.query), Unit(LibCall.V(id)))
  {
    self.query := Append(self.query, Call("V", Quote(id)));
    return self;
  }

  /** The default export of E.js. */
  method EStep(self: QueryObject, id: string := "") returns (r: QueryObject)
    modifies self
    ensures r == self && self.query == Append(old(self.query), Unit(LibCall.E(id)))
  {
    self.query := Append(self.query, Call("E", Quote(id)));
    return self;
  }

  /** The default export of in.js. */
  method InStep(self: QueryObject, edge: string := "") returns (r: QueryObject)
    modifies self
    ensures r == self && self.query == Append(old(self.query), Unit(LibCall.In(edge)))
  {
    self.query := Append(self.query, Call("in", Quote(edge)));
    return self;
  }

  /** The default export of inE.js. */
  method InEStep(self: QueryObject, edge: string := "") returns (r: QueryObject)
    modifies self
    ensures r == self && self.query == Append(old(self.query), Unit(LibCall.InE(edge)))
  {
    self.query := Append(self.query, Call("inE", Quote(edge)));
    return self;
  }

  /** The default export of out.js. */
  method OutStep(self: QueryObject, edge: string := "") returns (r: QueryObject)
    modifies self
    ensures r == self && self.query == Append(old(self.query), Unit(LibCall.Out(edge)))
  {
    self.query := Append(self.query, Call("out", Quote(edge)));
    return self;
  }

  /** The default export of select.js. */
  method SelectStep(self: QueryObject, alias: string := "") returns (r: QueryObject)
    modifies self
    ensures r == self && self.query == Append(old(self.query), Unit(LibCall.Select(alias)))
  {
    self.query := Append(self.query, Call("select", Quote(alias)));
    return self;
  }

  /** The default export of as.js. */
  method AsStep(self: QueryObject, name: string := "") returns (r: QueryObject)
    modifies self
    ensures r == self && self.query == Append(old(self.query), Unit(LibCall.As(name)))
  {
    self.query := Append(self.query, Call("as", Quote(name)));
    return self;
  }
}
