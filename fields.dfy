/** Field declarations of a reporting model (opinionated_reporting/fields.py):
    how a field's keyword arguments are split between the reporting layer and
    the storage column, how a field's value is resolved from a source record,
    and the descriptor that wraps a stored value. */
module Fields {
  import opened Values

  /** A keyword argument given to a field declaration: either something
      callable (a user function of the source record, which may raise) or a
      plain value. */
  datatype Arg = Callable(fn: Source -> Result<Value, Error>) | Literal(v: Value)

  predicate ArgTruthy(a: Arg) {
    a.Callable? || Truthy(a.v)
  }

  /** What kind of dimension table a field points at, if any. */
  datatype DimKind = NotDimension | DateDim | HourDim | GenericDim(table: string)

  /** A declared reporting field: its attribute name, the optional computed
      function, the optional alias (kept as given, it is only tested for
      truthiness) and the dimension it refers to. */
  datatype FieldSpec = FieldSpec(name: string, computed: Option<Source -> Result<Value, Error>>, alias: Option<Arg>, dim: DimKind)

  /** The keyword arguments the reporting layer consumes, in the order it
      consumes them. */
  const HandledArgs: seq<string> := ["alias", "computed"]

  /** The field that HandleFieldArgs leaves behind for the given keyword
      arguments: each handled argument is read with a default of None, and a
      `computed` value that is not callable is dropped. */
  function ParsedField(name: string, dim: DimKind, kwargs: map<string, Arg>): FieldSpec {
    FieldSpec(
      name,
      if "computed" in kwargs && kwargs["computed"].Callable? then Some(kwargs["computed"].fn) else None,
      if "alias" in kwargs then Some(kwargs["alias"]) else None,
      dim)
  }

  /** HandleFieldArgs.__init__: takes `alias` and `computed` out of the
      keyword arguments, records them on the field and passes the rest on to
      the storage column's own constructor. */
  method HandleFieldArgs(name: string, dim: DimKind, kwargs: map<string, Arg>)
    returns (field: FieldSpec, passed: map<string, Arg>)
    ensures field == ParsedField(name, dim, kwargs)
    ensures passed == kwargs - {"alias", "computed"}
  {
    var rest := kwargs;
    var attrs: map<string, Option<Arg>> := map[];
    var i := 0;
    while i < |HandledArgs|
      invariant 0 <= i <= |HandledArgs|
      invariant rest == kwargs - (set j | 0 <= j < i :: HandledArgs[j])
      invariant forall j :: 0 <= j < i ==>
        HandledArgs[j] in attrs &&
        attrs[HandledArgs[j]] == (if HandledArgs[j] in kwargs then Some(kwargs[HandledArgs[j]]) else None)
    {
      var key := HandledArgs[i];
      attrs := attrs[key := if key in rest then Some(rest[key]) else None];
      if key in rest {
        rest := rest - {key};
      }
      i := i + 1;
    }
    assert HandledArgs[0] == "alias" && HandledArgs[1] == "computed";
    assert (set j | 0 <= j < |HandledArgs| :: HandledArgs[j]) == {"alias", "computed"};
    // computed must be a callable
    var computed: Option<Source -> Result<Value, Error>> := None;
    if attrs["computed"].Some? && attrs["computed"].value.Callable? {
      computed := Some(attrs["computed"].value.fn);
    }
    field := FieldSpec(name, computed, attrs["alias"], dim);
    passed := rest;
  }

  /** value_from_instance: the value a field takes from a source record. A
      computed function wins over an alias, and an alias (when truthy) wins
      over the field's own attribute name. A computed function that raises
      makes the lookup raise. */
  function ValueFromInstance(field: FieldSpec, s: Source): (r: Result<Value, Error>)
    ensures field.computed.Some? ==> r == field.computed.value(s)
    ensures field.computed.None? && field.alias.Some? && ArgTruthy(field.alias.value) ==>
      if field.alias.value.Literal? && field.alias.value.v.Text?
      then (r.Ok? <==> field.alias.value.v.s in s.attrs) && (r.Ok? ==> r.value == s.attrs[field.alias.value.v.s])
      else r == Err(AliasNotText)
    ensures field.computed.None? && (field.alias.None? || !ArgTruthy(field.alias.value)) ==>
      (r.Ok? <==> field.name in s.attrs) && (r.Ok? ==> r.value == s.attrs[field.name])
  {
    if field.computed.Some? then
      field.computed.value(s)
    else if field.alias.Some? && ArgTruthy(field.alias.value) then
      match field.alias.value
      case Literal(Text(a)) => GetAttr(s, a)
      case _ => Err(AliasNotText)
    else
      GetAttr(s, field.name)
  }

  /** A computed function, when set, decides the value whatever alias is declared. */
  lemma ComputedWinsOverAlias(field: FieldSpec, alias: Option<Arg>, s: Source)
    requires field.computed.Some?
    ensures ValueFromInstance(field.(alias := alias), s) == ValueFromInstance(field, s)
    ensures ValueFromInstance(field, s) == field.computed.value(s)
  {
  }

  /** A `computed` argument that is not callable is dropped, so a field
      declared with one resolves as if `computed` had not been given. */
  lemma NonCallableComputedFallsBack(name: string, dim: DimKind, kwargs: map<string, Arg>, s: Source)
    requires "computed" in kwargs && kwargs["computed"].Literal?
    ensures ValueFromInstance(ParsedField(name, dim, kwargs), s)
         == ValueFromInstance(ParsedField(name, dim, kwargs - {"computed"}), s)
    ensures ParsedField(name, dim, kwargs).computed.None?
  {
  }

  /** DescriptionFieldOperations: the object a described field yields when
      read on an instance; it holds the value read at that moment. */
  datatype Operations = Operations(value: Value, name: string, field: FieldSpec) {
    /** to_python */
    function ToPython(): Value { value }

    /** __eq__: compares the other operand with the wrapped value. */
    predicate Equals(other: Value) { other == ToPython() }
  }

  /** A model instance, reduced to its attribute dictionary `__dict__`. */
  class Instance {
    var dict: map<string, Value>

    constructor (dict: map<string, Value>)
      ensures this.dict == dict
    {
      this.dict := dict;
    }
  }

  /** DescriptionFieldWrapper: the descriptor installed on the model class in
      place of a described field. */
  class DescriptionFieldWrapper {
    const field: FieldSpec

    constructor (field: FieldSpec)
      ensures this.field == field
    {
      this.field := field;
    }

    /** __get__: on the class (no instance) it yields nothing; on an instance
        it wraps the value stored under the field's name, which must be there. */
    function Get(inst: Instance?): (r: Result<Option<Operations>, Error>)
      reads inst
      ensures inst == null <==> r == Ok(None)
      ensures inst != null && field.name in inst.dict ==>
        r.Ok? && r.value.Some? && r.value.value.ToPython() == inst.dict[field.name] &&
        r.value.value.name == field.name
      ensures inst != null && field.name !in inst.dict ==> r == Err(MissingKey(field.name))
    {
      if inst == null then Ok(None)
      else if field.name in inst.dict then Ok(Some(Operations(inst.dict[field.name], field.name, field)))
      else Err(MissingKey(field.name))
    }

    /** __set__: stores the value under the field's name; reading the field
        back yields an object that unwraps to, and compares equal with,
        exactly that value. */
    method Set(inst: Instance, v: Value)
      modifies inst
      ensures inst.dict == old(inst.dict)[field.name := v]
      ensures Get(inst).Ok? && Get(inst).value.Some? && Get(inst).value.value.ToPython() == v
      ensures forall w :: Get(inst).value.value.Equals(w) <==> w == v
    {
      inst.dict := inst.dict[field.name := v];
    }
  }

  /** The `null` argument is given and truthy. */
  predicate NullGiven(kwargs: map<string, Arg>) {
    "null" in kwargs && ArgTruthy(kwargs["null"])
  }

  /** DimensionForeignKey.__init__: a dimension reference must be declared
      nullable, because the first, dirty row of a fact carries only its unique
      identifier. The remaining arguments are then handled as for any
      described field, as the reporting layer intends (the class as written
      does not derive from HandleFieldArgs; see DimensionForeignKeyAsWritten). */
  method DimensionForeignKey(name: string, target: DimKind, kwargs: map<string, Arg>)
    returns (r: Result<(FieldSpec, map<string, Arg>), ConfigError>)
    requires !target.NotDimension?
    ensures r.Err? <==> !NullGiven(kwargs)
    ensures r.Err? ==> r.error == NullRequired(name)
    ensures r.Ok? ==> r.value.0 == ParsedField(name, target, kwargs)
    ensures r.Ok? ==> r.value.1 == kwargs - {"alias", "computed"} && "null" in r.value.1
  {
    if !NullGiven(kwargs) {
      return Err(NullRequired(name));
    }
    var field, passed := HandleFieldArgs(name, target, kwargs);
    return Ok((field, passed));
  }

  /** DimensionForeignKey.__init__ as written: the class derives from the
      ORM's ForeignKey alone, so after the null check every keyword argument
      goes to ForeignKey's constructor, which accepts neither `alias` nor
      `computed` and raises; without them the field records neither. */
  function DimensionForeignKeyAsWritten(name: string, target: DimKind, kwargs: map<string, Arg>)
    : (r: Result<(FieldSpec, map<string, Arg>), ConfigError>)
    requires !target.NotDimension?
    ensures !NullGiven(kwargs) ==> r == Err(NullRequired(name))
    ensures NullGiven(kwargs) ==>
      (r.Err? <==> "alias" in kwargs || "computed" in kwargs)
    ensures NullGiven(kwargs) && r.Err? ==>
      r.error.UnexpectedArgument? && r.error.field == name &&
      r.error.arg in kwargs && r.error.arg in {"alias", "computed"}
    ensures r.Ok? ==> r.value.0.name == name && r.value.0.dim == target
    ensures r.Ok? ==> r.value.0.computed.None? && r.value.0.alias.None? && r.value.1 == kwargs
  {
    if !NullGiven(kwargs) then Err(NullRequired(name))
    else if "alias" in kwargs then Err(UnexpectedArgument(name, "alias"))
    else if "computed" in kwargs then Err(UnexpectedArgument(name, "computed"))
    else Ok((FieldSpec(name, None, None, target), kwargs))
  }

  /** As written, a nullable dimension reference declared with an alias is
      refused by the ORM; the intended declaration records the alias, and the
      field reads the aliased attribute. */
  lemma AsWrittenDimensionKeyRefusesAlias(name: string, target: DimKind, kwargs: map<string, Arg>, s: Source)
    requires !target.NotDimension? && NullGiven(kwargs) && "computed" !in kwargs
    requires "alias" in kwargs && kwargs["alias"].Literal? && kwargs["alias"].v.Text? && kwargs["alias"].v.s != ""
    ensures DimensionForeignKeyAsWritten(name, target, kwargs) == Err(UnexpectedArgument(name, "alias"))
    ensures var intended := ParsedField(name, target, kwargs);
      intended.alias == Some(kwargs["alias"]) && ValueFromInstance(intended, s) == GetAttr(s, kwargs["alias"].v.s)
  {
  }

  /** Without `alias` and `computed` the two declarations agree: the field as
      written is the intended one, and the same arguments are passed on. */
  lemma DimensionKeysAgreeWithoutHandledArgs(name: string, target: DimKind, kwargs: map<string, Arg>)
    requires !target.NotDimension? && NullGiven(kwargs) && "alias" !in kwargs && "computed" !in kwargs
    ensures DimensionForeignKeyAsWritten(name, target, kwargs) == Ok((ParsedField(name, target, kwargs), kwargs - {"alias", "computed"}))
  {
    assert kwargs - {"alias", "computed"} == kwargs;
  }
}
