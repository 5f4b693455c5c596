/** Shared vocabulary of the reporting model: optional values, results that
    stand for Python exceptions, the attribute values a source record carries,
    and the errors the engine and the schema declaration can raise. */
module Values {

  datatype Option<+T> = None | Some(value: T)

  /** A result of an operation that may raise instead of returning. */
  datatype Result<+T, +E> = Ok(value: T) | Err(error: E) {
    predicate IsFailure() { Err? }

    function PropagateFailure<U>(): Result<U, E>
      requires Err?
    {
      Err(error)
    }

    function Extract(): T
      requires Ok?
    {
      value
    }
  }

  /** An attribute value of a source record or a fact row. Decimal, float and
      datetime values are not modelled. A reference from a source record to a
      related source record (a foreign key, such as an order's customer) is
      modelled by the related record's identifier; a reference to a dimension
      row is the dimension table's name and the row's unique identifier. */
  datatype Value =
    | Null
    | Bool(b: bool)
    | Int(i: int)
    | Text(s: string)
    | DimRow(table: string, key: Value)

  /** Python truthiness of a value (`if value:`). */
  predicate Truthy(v: Value) {
    match v
    case Null => false
    case Bool(b) => b
    case Int(i) => i != 0
    case Text(s) => s != ""
    case DimRow(_, _) => true
  }

  /** A source (business) record: the name of its model class and its attributes. */
  datatype Source = Source(model: string, attrs: map<string, Value>)

  /** Errors raised while handling one source record. */
  datatype Error =
    | TypeMismatch(expected: string, got: string)   // the isinstance assertion on the source record
    | MissingAttribute(name: string)                // getattr on an attribute the record lacks
    | MissingColumn(name: string)                   // getattr on a fact attribute the reporting model never got
    | AliasNotText                                  // getattr with an alias that is not a string
    | MissingKey(name: string)                      // instance.__dict__[name] without that key
    | DimensionMissing(table: string, key: Value)   // a dimension row lookup that finds nothing

  /** Errors raised once, when a reporting model or field is declared. */
  datatype ConfigError =
    | MissingReportingMeta
    | MissingUniqueIdentifier
    | MissingModel
    | NullRequired(field: string)
    | UnexpectedArgument(field: string, arg: string) // a keyword the ORM field's constructor does not accept

  /** `getattr(instance, name)` on a source record. */
  function GetAttr(s: Source, name: string): (r: Result<Value, Error>)
    ensures r.Ok? <==> name in s.attrs
    ensures r.Ok? ==> r.value == s.attrs[name]
    ensures r.Err? ==> r.error == MissingAttribute(name)
  {
    if name in s.attrs then Ok(s.attrs[name]) else Err(MissingAttribute(name))
  }
}
