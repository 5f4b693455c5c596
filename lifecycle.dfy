/** What the reconciliation engine guarantees over its whole life: what a
    recomputation writes, when record_update succeeds, that repeating it
    changes nothing, that frozen rows never change again, how the delete
    predicate acts on saved and on never-saved rows, and that the dirty flag
    is never cleared. */
module Lifecycle {
  import opened Values
  import opened Fields
  import opened Engine

  /** Every listed field can be resolved against the record and the dimension tables. */
  predicate AllResolve(schema: FactSchema, names: seq<string>, s: Source, catalog: Catalog) {
    forall i :: 0 <= i < |names| ==> FieldUpdate(schema, names[i], s, catalog).Ok?
  }

  /** The value a recomputation over `names` stores under `k`, if it stores one. */
  function Written(schema: FactSchema, names: seq<string>, s: Source, catalog: Catalog, k: string): Option<Value> {
    if k in names && FieldUpdate(schema, k, s, catalog).Ok? then FieldUpdate(schema, k, s, catalog).value else None
  }

  /** A recomputation fails exactly when one of the listed fields fails to resolve. */
  lemma {:induction false} RecomputeSucceedsIff(schema: FactSchema, names: seq<string>, acc: map<string, Value>, s: Source, catalog: Catalog)
    ensures Recompute(schema, names, acc, s, catalog).Ok? <==> AllResolve(schema, names, s, catalog)
    decreases |names|
  {
    if names != [] {
      var rest := names[1..];
      assert forall i :: 0 <= i < |rest| ==> rest[i] == names[i + 1];
      var update := FieldUpdate(schema, names[0], s, catalog);
      if update.Ok? {
        var acc' := if update.value.Some? then acc[names[0] := update.value.value] else acc;
        RecomputeSucceedsIff(schema, rest, acc', s, catalog);
        if AllResolve(schema, rest, s, catalog) {
          forall i | 0 <= i < |names| ensures FieldUpdate(schema, names[i], s, catalog).Ok? {
            if i > 0 { assert names[i] == rest[i - 1]; }
          }
        }
      }
    }
  }

  /** What a successful recomputation stores: every listed field that yields a
      value holds that value; every other field keeps what it had, and no
      other field appears. */
  lemma {:induction false} RecomputeWrites(schema: FactSchema, names: seq<string>, acc: map<string, Value>, s: Source, catalog: Catalog)
    requires Recompute(schema, names, acc, s, catalog).Ok?
    ensures var m := Recompute(schema, names, acc, s, catalog).value;
      forall k :: (k in m <==> k in acc || Written(schema, names, s, catalog, k).Some?) &&
                  (k in m ==> m[k] == if Written(schema, names, s, catalog, k).Some? then Written(schema, names, s, catalog, k).value else acc[k])
    decreases |names|
  {
    if names != [] {
      var n := names[0];
      var rest := names[1..];
      assert names == [n] + rest;
      var update := FieldUpdate(schema, n, s, catalog);
      var acc' := if update.value.Some? then acc[n := update.value.value] else acc;
      RecomputeWrites(schema, rest, acc', s, catalog);
      var m := Recompute(schema, names, acc, s, catalog).value;
      assert m == Recompute(schema, rest, acc', s, catalog).value;
      forall k
        ensures (k in m <==> k in acc || Written(schema, names, s, catalog, k).Some?) &&
                (k in m ==> m[k] == if Written(schema, names, s, catalog, k).Some? then Written(schema, names, s, catalog, k).value else acc[k])
      {
        if k != n {
          assert (k in names) <==> (k in rest);
          assert Written(schema, names, s, catalog, k) == Written(schema, rest, s, catalog, k);
        } else {
          assert Written(schema, names, s, catalog, k) == update.value;
          assert Written(schema, rest, s, catalog, k).Some? ==> Written(schema, rest, s, catalog, k) == update.value;
        }
      }
    }
  }

  /** Recomputing again from the result of a recomputation gives the same fields. */
  lemma RecomputeIdempotent(schema: FactSchema, names: seq<string>, acc: map<string, Value>, s: Source, catalog: Catalog)
    requires Recompute(schema, names, acc, s, catalog).Ok?
    ensures Recompute(schema, names, Recompute(schema, names, acc, s, catalog).value, s, catalog)
         == Recompute(schema, names, acc, s, catalog)
  {
    var m := Recompute(schema, names, acc, s, catalog).value;
    RecomputeSucceedsIff(schema, names, acc, s, catalog);
    RecomputeSucceedsIff(schema, names, m, s, catalog);
    RecomputeWrites(schema, names, acc, s, catalog);
    RecomputeWrites(schema, names, m, s, catalog);
    var m2 := Recompute(schema, names, m, s, catalog).value;
    assert m2.Keys == m.Keys;
    assert m2 == m;
  }

  /** A dirty or forced row that is neither frozen nor due for deletion, and
      whose record the delete predicate answers without raising, is
      recomputed and saved: it keeps its identifier, stays unfrozen, keeps its
      dirty flag (the flag is not cleared), and holds the resolved values. */
  lemma UpdateRecomputesRow(schema: FactSchema, store: Store, s: Source, force: bool, catalog: Catalog)
    requires ReportingFactId(schema, s).Ok?
    requires var fact := FactFor(store, ReportingFactId(schema, s).value);
      !fact.frozen && !(DeleteApplies(schema, s) && fact.saved) && (fact.dirty || force)
    requires DeleteOutcome(schema, s).Ok? && AllResolve(schema, schema.fields, s, catalog)
    ensures var id := ReportingFactId(schema, s).value;
      var fact := FactFor(store, id);
      var r := AfterRecordUpdate(schema, store, s, force, catalog);
      r.Ok? && id in r.value &&
      r.value[id].uid == fact.uid && !r.value[id].frozen && r.value[id].saved && r.value[id].dirty == fact.dirty &&
      forall k :: (k in r.value[id].fields <==> k in fact.fields || Written(schema, schema.fields, s, catalog, k).Some?) &&
                  (k in r.value[id].fields ==>
                     r.value[id].fields[k] ==
                       if Written(schema, schema.fields, s, catalog, k).Some? then Written(schema, schema.fields, s, catalog, k).value
                       else fact.fields[k])
  {
    var id := ReportingFactId(schema, s).value;
    var fact := FactFor(store, id);
    RecomputeSucceedsIff(schema, schema.fields, fact.fields, s, catalog);
    RecomputeWrites(schema, schema.fields, fact.fields, s, catalog);
  }

  /** A generic dimension field whose resolved value has no dimension row makes
      record_update of a dirty or forced row fail, so nothing is written. */
  lemma MissingDimensionRowAbortsUpdate(schema: FactSchema, store: Store, s: Source, force: bool, catalog: Catalog, i: nat)
    requires ReportingFactId(schema, s).Ok?
    requires var fact := FactFor(store, ReportingFactId(schema, s).value);
      !fact.frozen && !(DeleteApplies(schema, s) && fact.saved) && (fact.dirty || force)
    requires i < |schema.fields| && schema.fields[i] in schema.specs
    requires var field := schema.specs[schema.fields[i]];
      field.dim.GenericDim? && ValueFromInstance(field, s).Ok? &&
      !(field.dim.table in catalog && ValueFromInstance(field, s).value in catalog[field.dim.table])
    ensures AfterRecordUpdate(schema, store, s, force, catalog).Err?
  {
    var fact := FactFor(store, ReportingFactId(schema, s).value);
    RecomputeSucceedsIff(schema, schema.fields, fact.fields, s, catalog);
  }

  /** Calling record_update again on an unchanged record, when the delete
      predicate does not select it, changes nothing more. */
  lemma RecordUpdateIdempotent(schema: FactSchema, store: Store, s: Source, force: bool, catalog: Catalog)
    requires Consistent(store) && !DeleteApplies(schema, s)
    requires AfterRecordUpdate(schema, store, s, force, catalog).Ok?
    ensures var once := AfterRecordUpdate(schema, store, s, force, catalog).value;
      AfterRecordUpdate(schema, once, s, force, catalog) == Ok(once)
  {
    var id := ReportingFactId(schema, s).value;
    var fact := FactFor(store, id);
    var once := AfterRecordUpdate(schema, store, s, force, catalog).value;
    if !fact.frozen && (fact.dirty || force) {
      var m := Recompute(schema, schema.fields, fact.fields, s, catalog).value;
      assert once == store[id := fact.(fields := m, saved := true)];
      RecomputeIdempotent(schema, schema.fields, fact.fields, s, catalog);
      assert FactFor(once, id) == fact.(fields := m, saved := true);
      assert once[id := fact.(fields := m, saved := true)] == once;
    }
  }

  /** Once frozen, a row is not changed by record_update, whatever the record
      has become meanwhile, with or without force, delete predicate or not. */
  lemma FreezeThenRecordUpdateChangesNothing(schema: FactSchema, store: Store, s: Source, later: Source, force: bool, catalog: Catalog)
    requires AfterFreeze(schema, store, s).Ok?
    requires ReportingFactId(schema, later) == ReportingFactId(schema, s)
    ensures var frozen := AfterFreeze(schema, store, s).value;
      AfterRecordUpdate(schema, frozen, later, force, catalog) == Ok(frozen)
  {
  }

  /** Freezing twice is the same as freezing once. */
  lemma FreezeIsIdempotent(schema: FactSchema, store: Store, s: Source)
    requires AfterFreeze(schema, store, s).Ok?
    ensures AfterFreeze(schema, AfterFreeze(schema, store, s).value, s) == AfterFreeze(schema, store, s)
  {
    var id := ReportingFactId(schema, s).value;
    var once := AfterFreeze(schema, store, s).value;
    assert once[id := FactFor(once, id).(frozen := true, saved := true)] == once;
  }

  /** A saved, unfrozen row whose record the delete predicate selects is
      removed by record_update, and no other row is touched. */
  lemma DeleteRemovesExactlyThatRow(schema: FactSchema, store: Store, s: Source, force: bool, catalog: Catalog)
    requires Consistent(store) && DeleteApplies(schema, s)
    requires ReportingFactId(schema, s).Ok? && ReportingFactId(schema, s).value in store
    requires !store[ReportingFactId(schema, s).value].frozen
    ensures AfterRecordUpdate(schema, store, s, force, catalog) == Ok(store - {ReportingFactId(schema, s).value})
  {
  }

  /** A record the delete predicate selects but whose row was never saved is
      not skipped: record_update falls through, and since a new row is dirty
      it is recomputed and saved. The next record_update then deletes it, so
      two calls leave the table as it was. */
  lemma SelectedNewRowIsSavedThenDeleted(schema: FactSchema, store: Store, s: Source, force: bool, catalog: Catalog)
    requires Consistent(store) && DeleteApplies(schema, s)
    requires ReportingFactId(schema, s).Ok? && ReportingFactId(schema, s).value !in store
    requires AllResolve(schema, schema.fields, s, catalog)
    ensures var id := ReportingFactId(schema, s).value;
      var once := AfterRecordUpdate(schema, store, s, force, catalog);
      once.Ok? && id in once.value && once.value[id].saved && once.value[id].dirty &&
      AfterRecordUpdate(schema, once.value, s, force, catalog) == Ok(store)
  {
    var id := ReportingFactId(schema, s).value;
    RecomputeSucceedsIff(schema, schema.fields, NewFact(id).fields, s, catalog);
    var once := AfterRecordUpdate(schema, store, s, force, catalog).value;
    assert once - {id} == store;
  }

  /** A clean row that is not forced, whose record the delete predicate
      answers with false, stays as it is. */
  lemma CleanUnforcedRowIsLeftAlone(schema: FactSchema, store: Store, s: Source, catalog: Catalog)
    requires ReportingFactId(schema, s).Ok? && ReportingFactId(schema, s).value in store
    requires !store[ReportingFactId(schema, s).value].dirty && DeleteOutcome(schema, s) == Ok(false)
    ensures AfterRecordUpdate(schema, store, s, false, catalog) == Ok(store)
  {
  }

  /** With BaseFact's delete_when, record_update never removes a row. */
  lemma BaseFactNeverDeletes(schema: FactSchema, store: Store, s: Source, force: bool, catalog: Catalog)
    requires schema.deleteWhen == BaseFactDeleteWhen
    requires AfterRecordUpdate(schema, store, s, force, catalog).Ok?
    ensures store.Keys <= AfterRecordUpdate(schema, store, s, force, catalog).value.Keys
  {
    assert !DeleteApplies(schema, s);
  }

  /** After mark_dirty a record needs an update, whether or not it had a row. */
  lemma MarkDirtyThenNeedsUpdate(schema: FactSchema, store: Store, s: Source)
    requires AfterMarkDirty(schema, store, s).Ok?
    ensures NeedsUpdate(schema, AfterMarkDirty(schema, store, s).value, s) == Ok(true)
  {
  }

  /** One call of the engine on a source record. */
  datatype Call =
    | MarkDirtyCall(s: Source)
    | FreezeCall(s: Source)
    | RecordUpdateCall(s: Source, force: bool, catalog: Catalog)

  /** The table after one call; a call that raises leaves it as it was. */
  function Apply(schema: FactSchema, store: Store, call: Call): Store {
    var r := match call
      case MarkDirtyCall(s) => AfterMarkDirty(schema, store, s)
      case FreezeCall(s) => AfterFreeze(schema, store, s)
      case RecordUpdateCall(s, force, catalog) => AfterRecordUpdate(schema, store, s, force, catalog);
    if r.Ok? then r.value else store
  }

  /** The table after a sequence of calls, in order. */
  function Run(schema: FactSchema, store: Store, calls: seq<Call>): Store
    decreases |calls|
  {
    if calls == [] then store else Run(schema, Apply(schema, store, calls[0]), calls[1..])
  }

  /** A frozen row survives any one call with its identifier, its fields and
      its frozen flag; only mark_dirty may set its dirty flag. */
  lemma FrozenRowSurvivesCall(schema: FactSchema, store: Store, call: Call, id: Value)
    requires id in store && store[id].frozen
    ensures var after := Apply(schema, store, call);
      id in after && after[id].frozen && after[id].uid == store[id].uid && after[id].fields == store[id].fields &&
      (store[id].dirty ==> after[id].dirty)
  {
    match call
    case MarkDirtyCall(s) =>
    case FreezeCall(s) =>
    case RecordUpdateCall(s, force, catalog) =>
      var r := AfterRecordUpdate(schema, store, s, force, catalog);
      if r.Ok? && ReportingFactId(schema, s).value == id {
        assert r.value == store;
      }
  }

  /** Whatever sequence of calls follows, a frozen row stays in the table,
      frozen, with the same identifier and fields. */
  lemma {:induction false} FrozenRowsStayFrozen(schema: FactSchema, store: Store, calls: seq<Call>, id: Value)
    requires id in store && store[id].frozen
    ensures var end := Run(schema, store, calls);
      id in end && end[id].frozen && end[id].uid == store[id].uid && end[id].fields == store[id].fields
    decreases |calls|
  {
    if calls != [] {
      FrozenRowSurvivesCall(schema, store, calls[0], id);
      FrozenRowsStayFrozen(schema, Apply(schema, store, calls[0]), calls[1..], id);
    }
  }

  /** No call clears a dirty flag: a row that is dirty stays dirty while it
      is in the table, and a row a call creates is dirty. */
  lemma DirtyFlagSurvivesCall(schema: FactSchema, store: Store, call: Call, id: Value)
    requires Consistent(store) && (id in store ==> store[id].dirty)
    ensures var after := Apply(schema, store, call);
      id in after ==> after[id].dirty
  {
    match call
    case MarkDirtyCall(s) =>
    case FreezeCall(s) =>
    case RecordUpdateCall(s, force, catalog) =>
      var r := AfterRecordUpdate(schema, store, s, force, catalog);
      if r.Ok? && ReportingFactId(schema, s).value == id && id in r.value {
        assert FactFor(store, id).dirty;
      }
  }

  /** Consistency of the table is kept by every call. */
  lemma ApplyKeepsConsistent(schema: FactSchema, store: Store, call: Call)
    requires Consistent(store)
    ensures Consistent(Apply(schema, store, call))
  {
  }

  /** Over any sequence of calls, no row is ever made clean: a row that is
      dirty (or absent) at the start is dirty whenever it is in the table. So
      starting from an empty table, every row the engine ever holds is dirty. */
  lemma {:induction false} DirtyRowsStayDirty(schema: FactSchema, store: Store, calls: seq<Call>, id: Value)
    requires Consistent(store) && (id in store ==> store[id].dirty)
    ensures var end := Run(schema, store, calls);
      id in end ==> end[id].dirty
    decreases |calls|
  {
    if calls != [] {
      DirtyFlagSurvivesCall(schema, store, calls[0], id);
      ApplyKeepsConsistent(schema, store, calls[0]);
      DirtyRowsStayDirty(schema, Apply(schema, store, calls[0]), calls[1..], id);
    }
  }
}
