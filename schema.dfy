/** Declaration-time checks and column derivation of a reporting model
    (UpdatingModelMeta.__new__ in opinionated_reporting/models.py): a concrete
    reporting model must name its source model and unique identifier, and
    gets one storage column per listed source field of a supported kind. */
module Schema {
  import opened Values

  /** The class of a source model's field. Subclass relations of the ORM are
      folded in: EmailField is a CharField, the integer kinds are separate tags. */
  datatype FieldClass =
    | AutoField
    | ForeignKey
    | DateTimeField
    | DateField
    | IntegerField
    | BigIntegerField
    | PositiveIntegerField
    | FloatField
    | PositiveSmallIntegerField
    | SmallIntegerField
    | TextField
    | SlugField
    | DecimalField
    | CharField
    | EmailField
    | BooleanField
    | OtherField(className: string)

  /** A field of the source model with the size arguments the derivation may copy. */
  datatype SourceField = SourceField(
    name: string,
    cls: FieldClass,
    maxLength: Option<nat>,
    allowUnicode: bool,
    maxDigits: Option<nat>,
    decimalPlaces: Option<nat>)

  datatype SourceModel = SourceModel(name: string, fields: seq<SourceField>)

  /** The inner ReportingMeta class; an empty unique identifier is as good as none. */
  datatype ReportingMeta = ReportingMeta(uniqueIdentifier: Option<string>, model: Option<SourceModel>, fields: seq<string>)

  /** A reporting model class being declared: whether it is abstract, its
      ReportingMeta (if any) and the attribute names it already defines. */
  datatype FactClass = FactClass(isAbstract: bool, reportingMeta: Option<ReportingMeta>, defined: set<string>)

  /** The keyword arguments copied into a derived column. */
  datatype ColumnArgs =
    | NoArgs
    | SlugArgs(maxLength: Option<nat>, allowUnicode: bool)
    | DecimalArgs(maxDigits: Option<nat>, decimalPlaces: Option<nat>)
    | CharArgs(maxLength: Option<nat>)

  /** A column added to the reporting model: its name, the source field's class and the copied arguments. */
  datatype Column = Column(name: string, cls: FieldClass, args: ColumnArgs)

  const UniqueIdentifierColumn: string := "_unique_identifier"

  /** The field kinds that are copied without any argument. */
  predicate CopiesNothing(cls: FieldClass) {
    cls.DateTimeField? || cls.DateField? || cls.IntegerField? || cls.BigIntegerField? ||
    cls.PositiveIntegerField? || cls.FloatField? || cls.PositiveSmallIntegerField? ||
    cls.SmallIntegerField? || cls.TextField?
  }

  /** The arguments a derived column gets from its source field, or None when
      the source field is skipped: foreign keys must be linked by hand and
      kinds outside the handled list are ignored. */
  function ColumnArgsFor(f: SourceField): (r: Option<ColumnArgs>)
    ensures r.None? <==> !(CopiesNothing(f.cls) || f.cls.SlugField? || f.cls.DecimalField? || f.cls.CharField? || f.cls.EmailField?)
    ensures f.cls.ForeignKey? || f.cls.AutoField? || f.cls.BooleanField? || f.cls.OtherField? ==> r.None?
    ensures CopiesNothing(f.cls) ==> r == Some(NoArgs)
    ensures f.cls.SlugField? ==> r == Some(SlugArgs(f.maxLength, f.allowUnicode))
    ensures f.cls.DecimalField? ==> r == Some(DecimalArgs(f.maxDigits, f.decimalPlaces))
    ensures f.cls.CharField? || f.cls.EmailField? ==> r == Some(CharArgs(f.maxLength))
  {
    if f.cls.ForeignKey? then None
    else if CopiesNothing(f.cls) then Some(NoArgs)
    else if f.cls.SlugField? then Some(SlugArgs(f.maxLength, f.allowUnicode))
    else if f.cls.DecimalField? then Some(DecimalArgs(f.maxDigits, f.decimalPlaces))
    else if f.cls.CharField? || f.cls.EmailField? then Some(CharArgs(f.maxLength))
    else None
  }

  /** The first field of the source model with the given name. */
  function FindSourceField(fields: seq<SourceField>, name: string): Option<SourceField> {
    if fields == [] then None
    else if fields[0].name == name then Some(fields[0])
    else FindSourceField(fields[1..], name)
  }

  /** The column name a listed field gets: the unique identifier is renamed. */
  function AddName(field: string, uid: string): string {
    if field == uid then UniqueIdentifierColumn else field
  }

  /** The columns added for the listed field names, in order. `defined` holds
      the attribute names the class has at that point; every added column's
      name joins it. */
  function Derived(names: seq<string>, uid: string, source: seq<SourceField>, defined: set<string>): seq<Column>
    decreases |names|
  {
    if names == [] then []
    else
      var f := names[0];
      if f in defined then Derived(names[1..], uid, source, defined)
      else match FindSourceField(source, f)
        case None => Derived(names[1..], uid, source, defined)
        case Some(sf) =>
          match ColumnArgsFor(sf)
          case None => Derived(names[1..], uid, source, defined)
          case Some(args) =>
            [Column(AddName(f, uid), sf.cls, args)] + Derived(names[1..], uid, source, defined + {AddName(f, uid)})
  }

  /** UpdatingModelMeta.__new__: abstract classes are left alone; a concrete
      class without ReportingMeta, a unique identifier or a source model is
      refused; otherwise the listed fields are added as columns one by one. */
  method DeriveColumns(c: FactClass) returns (r: Result<seq<Column>, ConfigError>)
    ensures c.isAbstract ==> r == Ok([])
    ensures !c.isAbstract && c.reportingMeta.None? ==> r == Err(MissingReportingMeta)
    ensures (!c.isAbstract && c.reportingMeta.Some? &&
             (c.reportingMeta.value.uniqueIdentifier.None? || c.reportingMeta.value.uniqueIdentifier.value == ""))
            ==> r == Err(MissingUniqueIdentifier)
    ensures (!c.isAbstract && c.reportingMeta.Some? &&
             c.reportingMeta.value.uniqueIdentifier.Some? && c.reportingMeta.value.uniqueIdentifier.value != "" &&
             c.reportingMeta.value.model.None?)
            ==> r == Err(MissingModel)
    ensures (!c.isAbstract && c.reportingMeta.Some? &&
             c.reportingMeta.value.uniqueIdentifier.Some? && c.reportingMeta.value.uniqueIdentifier.value != "" &&
             c.reportingMeta.value.model.Some?)
            ==> var meta := c.reportingMeta.value;
                r == Ok(Derived(meta.fields, meta.uniqueIdentifier.value, meta.model.value.fields, c.defined))
  {
    if c.isAbstract {
      return Ok([]);
    }
    if c.reportingMeta.None? {
      return Err(MissingReportingMeta);
    }
    var meta := c.reportingMeta.value;
    if meta.uniqueIdentifier.None? || meta.uniqueIdentifier.value == "" {
      return Err(MissingUniqueIdentifier);
    }
    var uid := meta.uniqueIdentifier.value;
    if meta.model.None? {
      return Err(MissingModel);
    }
    var source := meta.model.value.fields;
    var columns: seq<Column> := [];
    var defined := c.defined;
    var i := 0;
    while i < |meta.fields|
      invariant 0 <= i <= |meta.fields|
      invariant columns + Derived(meta.fields[i..], uid, source, defined) == Derived(meta.fields, uid, source, c.defined)
    {
      var name := meta.fields[i];
      assert meta.fields[i..][0] == name && meta.fields[i..][1..] == meta.fields[i + 1..];
      if name !in defined {  // the class may already have it, declared by hand
        var sf := FindSourceField(source, name);
        if sf.Some? {
          var args := ColumnArgsFor(sf.value);
          if args.Some? {
            var addName := AddName(name, uid);
            columns := columns + [Column(addName, sf.value.cls, args.value)];
            defined := defined + {addName};
          }
        }
      }
      i := i + 1;
    }
    assert meta.fields[i..] == [];
    assert columns == Derived(meta.fields, uid, source, c.defined);
    return Ok(columns);
  }

  /** Where a derived column comes from: a listed field, not defined on the
      class beforehand, whose source field has a supported kind; the column
      copies that field's class and arguments and takes its name (renamed
      for the unique identifier). */
  ghost predicate ComesFrom(c: Column, names: seq<string>, uid: string, source: seq<SourceField>, defined: set<string>) {
    exists i :: 0 <= i < |names| && names[i] !in defined &&
      FindSourceField(source, names[i]).Some? &&
      ColumnArgsFor(FindSourceField(source, names[i]).value) == Some(c.args) &&
      c.cls == FindSourceField(source, names[i]).value.cls &&
      c.name == AddName(names[i], uid)
  }

  /** Every derived column comes from a listed, not yet defined field of a
      supported kind; in particular no foreign key and no field the class
      already declares gets a column. */
  lemma {:induction false} DerivedColumnsSound(names: seq<string>, uid: string, source: seq<SourceField>, defined: set<string>)
    ensures forall c :: c in Derived(names, uid, source, defined) ==> ComesFrom(c, names, uid, source, defined)
    decreases |names|
  {
    if names != [] {
      var f := names[0];
      var rest := names[1..];
      forall c | c in Derived(names, uid, source, defined)
        ensures ComesFrom(c, names, uid, source, defined)
      {
        if f in defined || FindSourceField(source, f).None? || ColumnArgsFor(FindSourceField(source, f).value).None? {
          assert Derived(names, uid, source, defined) == Derived(rest, uid, source, defined);
          DerivedColumnsSound(rest, uid, source, defined);
          var i :| 0 <= i < |rest| && rest[i] !in defined &&
            FindSourceField(source, rest[i]).Some? &&
            ColumnArgsFor(FindSourceField(source, rest[i]).value) == Some(c.args) &&
            c.cls == FindSourceField(source, rest[i]).value.cls &&
            c.name == AddName(rest[i], uid);
          assert names[i + 1] == rest[i];
        } else {
          var sf := FindSourceField(source, f).value;
          var added := AddName(f, uid);
          var tail := Derived(rest, uid, source, defined + {added});
          assert Derived(names, uid, source, defined) == [Column(added, sf.cls, ColumnArgsFor(sf).value)] + tail;
          if c == Column(added, sf.cls, ColumnArgsFor(sf).value) {
            assert names[0] == f;
          } else {
            assert c in tail;
            DerivedColumnsSound(rest, uid, source, defined + {added});
            var i :| 0 <= i < |rest| && rest[i] !in defined + {added} &&
              FindSourceField(source, rest[i]).Some? &&
              ColumnArgsFor(FindSourceField(source, rest[i]).value) == Some(c.args) &&
              c.cls == FindSourceField(source, rest[i]).value.cls &&
              c.name == AddName(rest[i], uid);
            assert names[i + 1] == rest[i];
          }
        }
      }
    }
  }

  predicate NoDuplicates(names: seq<string>) {
    forall i, j :: 0 <= i < j < |names| ==> names[i] != names[j]
  }

  /** Conversely, when the listed names are distinct and none of them is the
      renamed identifier column itself, every listed field that the class does
      not already define and whose source field has a supported kind gets its
      column; the unique identifier's column is named `_unique_identifier`. */
  lemma {:induction false} DerivedColumnsComplete(names: seq<string>, uid: string, source: seq<SourceField>, defined: set<string>)
    requires NoDuplicates(names) && UniqueIdentifierColumn !in names
    ensures forall i :: (0 <= i < |names| && names[i] !in defined &&
                         FindSourceField(source, names[i]).Some? && ColumnArgsFor(FindSourceField(source, names[i]).value).Some?)
                        ==> Column(AddName(names[i], uid), FindSourceField(source, names[i]).value.cls,
             ColumnArgsFor(FindSourceField(source, names[i]).value).value) in Derived(names, uid, source, defined)
    decreases |names|
  {
    if names != [] {
      var f := names[0];
      var rest := names[1..];
      assert NoDuplicates(rest) && UniqueIdentifierColumn !in rest by {
        forall i, j | 0 <= i < j < |rest| ensures rest[i] != rest[j] {
          assert rest[i] == names[i + 1] && rest[j] == names[j + 1];
        }
        assert forall k :: 0 <= k < |rest| ==> rest[k] == names[k + 1];
      }
      forall i | 0 <= i < |names| && names[i] !in defined &&
        FindSourceField(source, names[i]).Some? && ColumnArgsFor(FindSourceField(source, names[i]).value).Some?
        ensures Column(AddName(names[i], uid), FindSourceField(source, names[i]).value.cls,
                       ColumnArgsFor(FindSourceField(source, names[i]).value).value) in Derived(names, uid, source, defined)
      {
        if i == 0 {
          // the head of the list is added first
        } else {
          assert names[i] == rest[i - 1];
          assert names[i] != f;
          if f in defined || FindSourceField(source, f).None? || ColumnArgsFor(FindSourceField(source, f).value).None? {
            DerivedColumnsComplete(rest, uid, source, defined);
          } else {
            var added := AddName(f, uid);
            assert names[i] != added;
            DerivedColumnsComplete(rest, uid, source, defined + {added});
          }
        }
      }
    }
  }

  /** The column derivation as the source writes it: for each listed field,
      the inner loop runs over ALL fields of the source model and adds each
      supported one under the listed field's name. */
  function ColumnsAsWritten(names: seq<string>, uid: string, source: seq<SourceField>, defined: set<string>): (r: seq<Column>)
    ensures forall c :: c in r ==> exists i :: 0 <= i < |names| && c.name == AddName(names[i], uid)
    decreases |names|
  {
    if names == [] then []
    else
      var f := names[0];
      if f in defined then ColumnsAsWritten(names[1..], uid, source, defined)
      else
        var added := EveryFieldAs(AddName(f, uid), source);
        added + ColumnsAsWritten(names[1..], uid, source, if added == [] then defined else defined + {AddName(f, uid)})
  }

  /** The inner loop as written: every supported source field, each as a column named `name`. */
  function EveryFieldAs(name: string, source: seq<SourceField>): (r: seq<Column>)
    ensures forall c :: c in r ==> c.name == name
  {
    if source == [] then []
    else match ColumnArgsFor(source[0])
      case None => EveryFieldAs(name, source[1..])
      case Some(args) => [Column(name, source[0].cls, args)] + EveryFieldAs(name, source[1..])
  }

  /** The column a name ends up with when columns are added in order: the last one wins. */
  function LastColumnNamed(columns: seq<Column>, name: string): Option<Column> {
    if columns == [] then None
    else if columns[|columns| - 1].name == name then Some(columns[|columns| - 1])
    else LastColumnNamed(columns[..|columns| - 1], name)
  }

  /** The customer model of the test fixtures, in declaration order: the
      implicit AutoField `id`, an EmailField `email` (default length 254) and
      a CharField `name` of length 256. */
  const CustomerFields: seq<SourceField> := [
    SourceField("id", AutoField, None, false, None, None),
    SourceField("email", EmailField, Some(254), false, None, None),
    SourceField("name", CharField, Some(256), false, None, None)
  ]

  /** As written, listing `name` and `email` gives the reporting model an
      `email` column that ends up as the customer's CharField `name` with its
      length, where the intended derivation copies the EmailField itself. */
  lemma AsWrittenColumnTakesAnotherFieldsType()
    ensures LastColumnNamed(ColumnsAsWritten(["name", "email"], "id", CustomerFields, {}), "email")
         == Some(Column("email", CharField, CharArgs(Some(256))))
    ensures Derived(["name", "email"], "id", CustomerFields, {})
         == [Column("name", CharField, CharArgs(Some(256))), Column("email", EmailField, CharArgs(Some(254)))]
  {
    assert CustomerFields[1..][1..][1..] == [];
    assert EveryFieldAs("email", CustomerFields) ==
      [Column("email", EmailField, CharArgs(Some(254))), Column("email", CharField, CharArgs(Some(256)))];
    assert EveryFieldAs("name", CustomerFields) ==
      [Column("name", EmailField, CharArgs(Some(254))), Column("name", CharField, CharArgs(Some(256)))];
    assert ["name", "email"][1..] == ["email"] && ["email"][1..] == [];
  }
}
