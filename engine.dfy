/** The reconciliation engine of a reporting model (UpdatingModel in
    opinionated_reporting/models.py): one fact row per source record, keyed by
    the record's unique identifier, with a dirty flag and a frozen flag.

    The table of rows is a map from unique identifier to row. Each operation
    is given twice: as a function from the old table to the new one (used to
    state and prove what several operations do together) and as a method of
    the class UpdatingModel that performs the same steps on its `rows` field
    and is proved to agree with the function. */
module Engine {
  import opened Values
  import opened Fields

  /** A fact row: its `_unique_identifier`, `_is_dirty`, `_is_frozen`,
      whether it has been saved (has a primary key), and its materialised fields. */
  datatype Fact = Fact(uid: Value, dirty: bool, frozen: bool, saved: bool, fields: map<string, Value>)

  /** The saved rows of one reporting model, by unique identifier. */
  type Store = map<Value, Fact>

  /** The dimension tables the generic dimension lookup may consult: the unique
      identifiers of the rows of each table. */
  type Catalog = map<string, set<Value>>

  /** A reporting model's configuration: its source model, the source attribute
      that identifies a record, the listed fields (ReportingMeta.fields), the
      described fields declared on the class, the attribute names the fact
      has as columns (those the metaclass derived for it, Schema.Derived), and
      the delete predicate if the class has one. The delete predicate is a
      user function of the record and may raise. */
  datatype FactSchema = FactSchema(
    model: string,
    uniqueIdentifier: string,
    fields: seq<string>,
    specs: map<string, FieldSpec>,
    columns: set<string>,
    deleteWhen: Option<Source -> Result<bool, Error>>)

  /** BaseFact.delete_when: facts are never deleted unless a subclass says so. */
  const BaseFactDeleteWhen: Option<Source -> Result<bool, Error>> := Some((s: Source) => Ok(false))

  /** Every saved row sits under its own unique identifier and has been saved. */
  predicate Consistent(store: Store) {
    forall id :: id in store ==> store[id].uid == id && store[id].saved
  }

  /** get_reporting_fact_id: the source record must be of the declared model;
      its unique-identifier attribute is the row's key. */
  function ReportingFactId(schema: FactSchema, s: Source): (r: Result<Value, Error>)
    ensures r.Ok? <==> s.model == schema.model && schema.uniqueIdentifier in s.attrs
    ensures r.Ok? ==> r.value == s.attrs[schema.uniqueIdentifier]
    ensures s.model != schema.model ==> r == Err(TypeMismatch(schema.model, s.model))
  {
    if s.model != schema.model then Err(TypeMismatch(schema.model, s.model))
    else GetAttr(s, schema.uniqueIdentifier)
  }

  /** get_reporting_fact_id as the source writes it: the assert_instance
      decorator returns a wrapper that checks the record's type and then
      returns None without calling the decorated function. */
  function ReportingFactIdAsWritten(schema: FactSchema, s: Source): (r: Result<Option<Value>, Error>)
    ensures r.Ok? <==> s.model == schema.model
    ensures r.Ok? ==> r.value.None?
  {
    if s.model != schema.model then Err(TypeMismatch(schema.model, s.model)) else Ok(None)
  }

  /** The wrapper drops the identifier: for every record the intended lookup
      identifies, the written one yields nothing. */
  lemma AssertInstanceDropsIdentifier(schema: FactSchema, s: Source)
    requires ReportingFactId(schema, s).Ok?
    ensures ReportingFactIdAsWritten(schema, s) == Ok(None)
    ensures ReportingFactId(schema, s) == Ok(s.attrs[schema.uniqueIdentifier])
  {
  }

  /** The unsaved row get_reporting_fact makes up for an identifier with no row. */
  function NewFact(id: Value): Fact {
    Fact(id, true, false, false, map[])
  }

  function FactFor(store: Store, id: Value): Fact {
    if id in store then store[id] else NewFact(id)
  }

  /** get_reporting_fact: the stored row for the record, or a new unsaved dirty
      row carrying only the identifier. Nothing is stored. */
  function GetReportingFact(schema: FactSchema, store: Store, s: Source): (r: Result<Fact, Error>)
    ensures r.Ok? <==> ReportingFactId(schema, s).Ok?
    ensures r.Err? ==> r.error == ReportingFactId(schema, s).error
    ensures r.Ok? ==>
      var id := ReportingFactId(schema, s).value;
      (id in store ==> r.value == store[id]) &&
      (id !in store ==> r.value.uid == id && r.value.dirty && !r.value.frozen && !r.value.saved && r.value.fields == map[])
  {
    var id :- ReportingFactId(schema, s);
    Ok(FactFor(store, id))
  }

  /** needs_update: a record needs an update exactly when it has no row yet or
      its row is dirty. */
  function NeedsUpdate(schema: FactSchema, store: Store, s: Source): (r: Result<bool, Error>)
    ensures r.Ok? <==> ReportingFactId(schema, s).Ok?
    ensures r.Ok? ==>
      var id := ReportingFactId(schema, s).value;
      (r.value <==> id !in store || store[id].dirty)
  {
    var fact :- GetReportingFact(schema, store, s);
    Ok(fact.dirty)
  }

  /** mark_dirty: sets the dirty flag of the record's row, if there is one, and
      changes nothing else: no other row, no other field, no new row. */
  function AfterMarkDirty(schema: FactSchema, store: Store, s: Source): (r: Result<Store, Error>)
    ensures r.Ok? <==> ReportingFactId(schema, s).Ok?
    ensures r.Ok? ==>
      var id := ReportingFactId(schema, s).value;
      r.value.Keys == store.Keys &&
      (forall k :: k in store && k != id ==> r.value[k] == store[k]) &&
      (id in store ==> r.value[id] == store[id].(dirty := true))
    ensures r.Ok? && Consistent(store) ==> Consistent(r.value)
  {
    var id :- ReportingFactId(schema, s);
    if id in store then Ok(store[id := store[id].(dirty := true)]) else Ok(store)
  }

  /** freeze: the record's row (the stored one or a new one) is marked frozen
      and saved; every other row is left alone. */
  function AfterFreeze(schema: FactSchema, store: Store, s: Source): (r: Result<Store, Error>)
    ensures r.Ok? <==> ReportingFactId(schema, s).Ok?
    ensures r.Ok? ==>
      var id := ReportingFactId(schema, s).value;
      r.value.Keys == store.Keys + {id} &&
      (forall k :: k in store && k != id ==> r.value[k] == store[k]) &&
      r.value[id] == FactFor(store, id).(frozen := true, saved := true)
    ensures r.Ok? && Consistent(store) ==> Consistent(r.value)
  {
    var id :- ReportingFactId(schema, s);
    Ok(store[id := FactFor(store, id).(frozen := true, saved := true)])
  }

  /** The answer of the delete predicate for the record: false when the
      reporting model has none, its error when it raises. */
  function DeleteOutcome(schema: FactSchema, s: Source): (r: Result<bool, Error>)
    ensures schema.deleteWhen.None? ==> r == Ok(false)
    ensures schema.deleteWhen.Some? ==> r == schema.deleteWhen.value(s)
  {
    if schema.deleteWhen.None? then Ok(false) else schema.deleteWhen.value(s)
  }

  /** Whether the reporting model has a delete predicate and it holds for the record. */
  predicate DeleteApplies(schema: FactSchema, s: Source) {
    DeleteOutcome(schema, s) == Ok(true)
  }

  /** What one listed field contributes when a row is recomputed: a value to
      store, nothing (leave the field as it is), or an error. */
  function FieldUpdate(schema: FactSchema, name: string, s: Source, catalog: Catalog): (r: Result<Option<Value>, Error>)
    // a listed name that is neither described nor a column of the fact is not an attribute of it
    ensures name !in schema.specs && name !in schema.columns ==> r == Err(MissingColumn(name))
    // a plain field copies the source attribute of the same name
    ensures name !in schema.specs && name in schema.columns ==>
      (r.Ok? <==> name in s.attrs) && (r.Ok? ==> r.value == Some(s.attrs[name]))
    // a described field takes the value its resolution rule gives
    ensures name in schema.specs && schema.specs[name].dim.NotDimension? ==>
      var v := ValueFromInstance(schema.specs[name], s);
      (r.Ok? <==> v.Ok?) && (r.Ok? ==> r.value == Some(v.value))
    // date and hour dimension fields are resolved but left as they are
    ensures name in schema.specs && (schema.specs[name].dim.DateDim? || schema.specs[name].dim.HourDim?) ==>
      (r.Ok? <==> ValueFromInstance(schema.specs[name], s).Ok?) && (r.Ok? ==> r.value == None)
    // a generic dimension field points at the row whose identifier is the resolved value; no such row is an error
    ensures name in schema.specs && schema.specs[name].dim.GenericDim? ==>
      var v := ValueFromInstance(schema.specs[name], s);
      var table := schema.specs[name].dim.table;
      (r.Ok? <==> v.Ok? && table in catalog && v.value in catalog[table]) &&
      (r.Ok? ==> r.value == Some(DimRow(table, v.value))) &&
      (v.Ok? && !(table in catalog && v.value in catalog[table]) ==> r == Err(DimensionMissing(table, v.value)))
  {
    if name in schema.specs then
      var field := schema.specs[name];
      var val :- ValueFromInstance(field, s);
      match field.dim
      case NotDimension => Ok(Some(val))
      case DateDim => Ok(None)
      case HourDim => Ok(None)
      case GenericDim(table) =>
        if table in catalog && val in catalog[table] then Ok(Some(DimRow(table, val)))
        else Err(DimensionMissing(table, val))
    else if name !in schema.columns then Err(MissingColumn(name))
    else
      var val :- GetAttr(s, name);
      Ok(Some(val))
  }

  /** One listed field as _record_update is written: `getattr(self, name)` on
      the fact yields the descriptor's wrapper or the related row, never a
      HandleFieldArgs, so every field takes the plain branch and copies the
      source attribute of the same name; a name the fact has neither as a
      described field nor as a column is not an attribute of it. */
  function FieldUpdateAsWritten(schema: FactSchema, name: string, s: Source, catalog: Catalog): (r: Result<Option<Value>, Error>)
    ensures name !in schema.specs && name !in schema.columns ==> r == Err(MissingColumn(name))
    ensures (name in schema.specs || name in schema.columns) ==>
      (r.Ok? <==> name in s.attrs) && (r.Ok? ==> r.value == Some(s.attrs[name]))
  {
    if name !in schema.specs && name !in schema.columns then Err(MissingColumn(name))
    else
      var val :- GetAttr(s, name);
      Ok(Some(val))
  }

  /** The fields of a row after the listed fields have been recomputed in
      order, starting from `acc`; the first failing field aborts. */
  function Recompute(schema: FactSchema, names: seq<string>, acc: map<string, Value>, s: Source, catalog: Catalog): Result<map<string, Value>, Error>
    decreases |names|
  {
    if names == [] then Ok(acc)
    else
      var update :- FieldUpdate(schema, names[0], s, catalog);
      var acc' := if update.Some? then acc[names[0] := update.value] else acc;
      Recompute(schema, names[1..], acc', s, catalog)
  }

  /** _record_update: a frozen row keeps its fields; otherwise the listed fields are recomputed. */
  function RecordedFields(schema: FactSchema, fact: Fact, s: Source, catalog: Catalog): Result<map<string, Value>, Error> {
    if fact.frozen then Ok(fact.fields) else Recompute(schema, schema.fields, fact.fields, s, catalog)
  }

  /** record_update: a frozen row is left alone; the delete predicate is
      asked next, and its raising aborts the call; a saved row whose record it
      selects is removed; otherwise a dirty or forced row is recomputed and
      saved, and a clean unforced row is left alone. */
  function AfterRecordUpdate(schema: FactSchema, store: Store, s: Source, force: bool, catalog: Catalog): (r: Result<Store, Error>)
    ensures ReportingFactId(schema, s).Err? ==> r == Err(ReportingFactId(schema, s).error)
    ensures (ReportingFactId(schema, s).Ok? && FactFor(store, ReportingFactId(schema, s).value).frozen) ==> r == Ok(store)
    ensures (ReportingFactId(schema, s).Ok? && !FactFor(store, ReportingFactId(schema, s).value).frozen &&
             DeleteOutcome(schema, s).Err?) ==> r == Err(DeleteOutcome(schema, s).error)
    ensures (ReportingFactId(schema, s).Ok? && ReportingFactId(schema, s).value in store &&
             !store[ReportingFactId(schema, s).value].frozen && store[ReportingFactId(schema, s).value].saved &&
             DeleteApplies(schema, s)) ==> r == Ok(store - {ReportingFactId(schema, s).value})
    ensures r.Ok? ==>
      var id := ReportingFactId(schema, s).value;
      forall k :: k != id ==> (k in r.value <==> k in store) && (k in store ==> r.value[k] == store[k])
    ensures r.Ok? && Consistent(store) ==> Consistent(r.value)
  {
    var id :- ReportingFactId(schema, s);
    var fact := FactFor(store, id);
    if fact.frozen then Ok(store)
    else
      var selected :- DeleteOutcome(schema, s);
      if selected && fact.saved then Ok(store - {id})
      else if fact.dirty || force then
        var fields :- RecordedFields(schema, fact, s, catalog);
        Ok(store[id := fact.(fields := fields, saved := true)])
      else Ok(store)
  }

  /** _record_update, step by step: each listed field is written into the
      row's field map in turn. */
  method RecordFields(schema: FactSchema, fact: Fact, s: Source, catalog: Catalog) returns (r: Result<map<string, Value>, Error>)
    ensures r == RecordedFields(schema, fact, s, catalog)
  {
    if fact.frozen {
      return Ok(fact.fields);
    }
    var fields := fact.fields;
    var i := 0;
    while i < |schema.fields|
      invariant 0 <= i <= |schema.fields|
      invariant Recompute(schema, schema.fields[i..], fields, s, catalog) == Recompute(schema, schema.fields, fact.fields, s, catalog)
    {
      var name := schema.fields[i];
      assert schema.fields[i..][0] == name && schema.fields[i..][1..] == schema.fields[i + 1..];
      if name in schema.specs {
        var field := schema.specs[name];
        var val := ValueFromInstance(field, s);
        if val.Err? {
          return Err(val.error);
        }
        match field.dim {
          case NotDimension =>
            fields := fields[name := val.value];
          case DateDim =>
            // time zone handling and truncation to the date are not written in the source
          case HourDim =>
            // likewise for the hour
          case GenericDim(table) =>
            if !(table in catalog && val.value in catalog[table]) {
              return Err(DimensionMissing(table, val.value));
            }
            fields := fields[name := DimRow(table, val.value)];
        }
      } else if name !in schema.columns {
        return Err(MissingColumn(name));
      } else {
        var val := GetAttr(s, name);
        if val.Err? {
          return Err(val.error);
        }
        fields := fields[name := val.value];
      }
      i := i + 1;
    }
    return Ok(fields);
  }

  /** The rows of one reporting model and the operations of UpdatingModel on them. */
  class UpdatingModel {
    const schema: FactSchema
    var rows: Store

    ghost predicate Valid()
      reads this
    {
      Consistent(rows)
    }

    constructor (schema: FactSchema)
      ensures Valid() && this.schema == schema && rows == map[]
    {
      this.schema := schema;
      rows := map[];
    }

    /** freeze */
    method Freeze(s: Source) returns (failure: Option<Error>)
      requires Valid()
      modifies this
      ensures Valid()
      ensures var r := AfterFreeze(schema, old(rows), s);
        (r.Ok? ==> failure.None? && rows == r.value) &&
        (r.Err? ==> failure == Some(r.error) && rows == old(rows))
    {
      var got := GetReportingFact(schema, rows, s);
      if got.Err? {
        return Some(got.error);
      }
      var fact := got.value;
      fact := fact.(frozen := true);
      rows := rows[fact.uid := fact.(saved := true)];
      return None;
    }

    /** mark_dirty: a bulk update of the dirty flag on the rows with the record's identifier. */
    method MarkDirty(s: Source) returns (failure: Option<Error>)
      requires Valid()
      modifies this
      ensures Valid()
      ensures var r := AfterMarkDirty(schema, old(rows), s);
        (r.Ok? ==> failure.None? && rows == r.value) &&
        (r.Err? ==> failure == Some(r.error) && rows == old(rows))
    {
      var uniqueId := ReportingFactId(schema, s);
      if uniqueId.Err? {
        return Some(uniqueId.error);
      }
      var id := uniqueId.value;
      if id in rows {
        rows := rows[id := rows[id].(dirty := true)];
      }
      return None;
    }

    /** record_update */
    method RecordUpdate(s: Source, force: bool, catalog: Catalog) returns (failure: Option<Error>)
      requires Valid()
      modifies this
      ensures Valid()
      ensures var r := AfterRecordUpdate(schema, old(rows), s, force, catalog);
        (r.Ok? ==> failure.None? && rows == r.value) &&
        (r.Err? ==> failure == Some(r.error) && rows == old(rows))
    {
      var got := GetReportingFact(schema, rows, s);
      if got.Err? {
        return Some(got.error);
      }
      var fact := got.value;
      if fact.frozen {
        return None;  // refuse to make any changes
      }
      if schema.deleteWhen.Some? {
        var selected := schema.deleteWhen.value(s);
        if selected.Err? {
          return Some(selected.error);
        }
        if selected.value {
          if fact.saved {  // may not be saved yet
            rows := rows - {fact.uid};
            return None;
          }
        }
      }
      if fact.dirty || force {
        var fields := RecordFields(schema, fact, s, catalog);
        if fields.Err? {
          return Some(fields.error);
        }
        rows := rows[fact.uid := fact.(fields := fields.value, saved := true)];
      }
      return None;
    }
  }
}
