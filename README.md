# opinionated_reporting, modelled in Dafny

opinionated_reporting keeps a star schema of reporting tables alongside a
Django application. Each reporting model (a fact or a dimension, both
`UpdatingModel`s) mirrors one business model. Each business record has at most
one reporting row, identified by the record's unique identifier. The row keeps
three flags: `_is_dirty` (out of date), `_is_frozen` (never to change again) and
whether it is saved. The reconciliation engine brings rows up to date:

* `get_reporting_fact` fetches a row, or makes up an unsaved dirty one.
* `mark_dirty` flags a row.
* `freeze` freezes a row.
* `record_update` recomputes a row's listed fields from the record, or deletes
  the row when the fact's `delete_when` selects the record.

Field declarations decide where each listed field's value comes from:

* a `computed` function;
* an `alias` attribute;
* the field's own name.

Dimension foreign keys point at rows of dimension tables. When a reporting
class is declared, a metaclass checks its `ReportingMeta`. It then adds a
storage column for every listed source field that the class did not declare
by hand.

The project has seven modules:

* `Values` (values.dfy): the dynamic values of a record, Python truthiness,
  attribute lookup and the error kinds.
* `Fields` (fields.dfy): `HandleFieldArgs`, value resolution, the
  `DescriptionFieldWrapper` descriptor and its `DescriptionFieldOperations`
  result, and the nullability check of `DimensionForeignKey`.
* `Schema` (schema.dfy): the metaclass's validation and column derivation.
* `Engine` (engine.dfy): the table of reporting rows, as pure transition
  functions (`AfterMarkDirty`, `AfterFreeze`, `AfterRecordUpdate`) and as the
  class `UpdatingModel`, whose methods update the field `rows` and are proved
  to match those functions.
* `Lifecycle` (lifecycle.dfy): properties that span several operations or
  whole call sequences.
* `Dates` (dates.dfy): the quarter label of `DateDimension` and its
  day-of-week constants.
* `Scenarios` (scenarios.dfy): the fixture model `OrderedFact` and the
  situations the repository's tests exercise.

Modelling decisions where the code cannot run as written, or where the code
and its documentation part ways:

* `assert_instance` (opinionated_reporting/models.py:57-61) never calls the
  function it decorates. The model keeps that behaviour as
  `ReportingFactIdAsWritten` and uses the evident intent: check the record's
  type, then delegate. The type check is modelled as equality of model names.
* `get_reporting_fact_id` calls `cls.check_instance()` (models.py:99), which
  is defined nowhere. The model leaves the call out.
* `record_update` calls `fact._record_update()` without the instance
  (models.py:93) that the method requires (models.py:117). The model passes
  the record.
* The fixtures name the business model `business_model` (tests/models.py:48,
  114), while the code reads `ReportingMeta.model` (models.py:21). The model
  calls it the source model.
* The code looks rows up through the manager of `ReportingMeta.model`
  (models.py:78, 107, 109), which is the business model. The model looks
  them up in the reporting model's own table, as intended.
* The metaclass iterates `reporting_model.fields` (models.py:26), which is an
  attribute Django models do not have. The model iterates
  `ReportingMeta.fields`.
* `isinstance(field.related_model, DateDimension)` (models.py:128) tests a
  class as if it were an instance. The next test (models.py:130) names
  `TimeDimension`, which is defined nowhere; the hour dimension is
  `HourDimension` (models.py:219). As written, reaching that line raises
  NameError for every non-date dimension field. The model reads the two tests
  as "the field refers to a date dimension" and "the field refers to an hour
  dimension".
* `DimensionForeignKey` derives from the ORM's `ForeignKey` alone
  (fields.py:90), so `alias` and `computed` given to it go to
  `ForeignKey.__init__` unprocessed (fields.py:101). `ForeignKey` accepts
  neither keyword, so such a declaration raises TypeError even with
  `null=True`. The model keeps this as `DimensionForeignKeyAsWritten`, which
  refuses them with `UnexpectedArgument` (see Findings). It treats a dimension
  reference as a described field, as the fixtures' alias arguments intend.
* `_record_update`'s test `isinstance(field, DimensionForeignKey)`
  (models.py:124) sits inside a test for `HandleFieldArgs` that a dimension
  reference never passes.
* models.py imports nothing from fields.py, so `DimensionForeignKey` is not a
  name in models.py (models.py:124). The test at models.py:122 is against
  models.py's own copy of `HandleFieldArgs` (models.py:144-160), from which
  no field class in fields.py derives. The model reads both tests as being
  about the field classes of fields.py, with one `HandleFieldArgs`.
* The fixtures declare no dimension reference with `null=True`
  (tests/models.py:68-74, 103-107), so each declaration is refused
  (fields.py:99-100). `null=True` alone does not make the aliased hour
  declarations (tests/models.py:105, 107) valid: they are still refused for
  their `alias` (`AliasedDeclarationsStillRefused`). The scenarios use the
  fixture models as the intended `DimensionForeignKey` reads them once
  `null=True` is added (see Findings).
* The refusal's message formats the field object (fields.py:100) before the
  field has been given a name. The model's `NullRequired` error carries the
  name the field is declared under instead.
* `UpdatingModelMeta.__new__` never returns the class it builds
  (models.py:10-54), so `UpdatingModel` is bound to None and the declaration
  `class BaseDimension(UpdatingModel)` (models.py:163) fails when models.py
  is imported. The model takes the evident intent: `__new__` returns the
  class.
* `DateDimension` and `HourDimension` (models.py:170, 219) declare neither an
  abstract `Meta` nor a `ReportingMeta`, so the metaclass refuses them
  (models.py:15-17). The model nonetheless treats the date and hour dimension
  tables as existing, as the dimension references to them intend.
* `computed` functions and `delete_when` are user code that can raise, such
  as `instance.order.id` (tests/models.py:70) on an item without an order.
  They are modelled as functions returning a result or an error. The error
  propagates: out of value resolution, and out of `record_update`, which then
  saves nothing.
* `hasattr(new_class, field_name)` (models.py:27) is read as "the class
  already declares this field".
* `mark_dirty` is a bulk update that ignores `_is_frozen`, so the model sets
  the dirty flag on frozen rows too.
* `record_update` deletes only a saved row. A never-saved row that the
  delete predicate selects falls through, is recomputed and is saved.
* Nothing in the code ever clears `_is_dirty`, and the model keeps it set.
* A generic dimension whose row is missing raises `DoesNotExist`. The model
  returns an error and leaves the table unchanged.
* Date and hour dimension fields are resolved and then left as they are,
  because the code only passes in those branches.

Inputs that the code obtains from the database or the environment become
parameters:

* the business record, as a `Source` with a map of attributes;
* the contents of the dimension tables, as a `Catalog` of identifiers per
  table;
* the force flag;
* the attribute names the fact has as columns, as the `columns` of its
  `FactSchema`; for the fixtures they are those the metaclass derives
  (`OrderedFactColumnsAreDerived`). Reading a listed name the fact has
  neither as a described field nor as a column (`getattr(self, field_name)`,
  models.py:121) raises, as `MissingColumn`.

## Model

| member | source | states |
|---|---|---|
| Values.GetAttr | opinionated_reporting/fields.py:84-86 | `getattr` succeeds exactly when the record has the attribute, and yields its value; otherwise the error names the attribute |
| Fields.HandleFieldArgs | opinionated_reporting/fields.py:6-16 | the field records `alias` as given and `computed` only when it is callable; the arguments passed on are exactly the given ones without `alias` and `computed` |
| Fields.ValueFromInstance | opinionated_reporting/fields.py:79-87 | a computed function decides the value, and its raising makes the lookup raise; otherwise a truthy alias names the attribute read; otherwise the field's own name does; a missing attribute is an error |
| Fields.ComputedWinsOverAlias | opinionated_reporting/fields.py:81-84 | with a computed function set, the value does not depend on the alias |
| Fields.NonCallableComputedFallsBack | opinionated_reporting/fields.py:13-15 | a non-callable `computed` is dropped, and the field resolves as if `computed` had not been given |
| Fields.DescriptionFieldWrapper.Get | opinionated_reporting/fields.py:47-50 | on the class it yields None; on an instance it yields an object that unwraps to the stored value under the field's name, and it fails when nothing is stored |
| Fields.DescriptionFieldWrapper.Set | opinionated_reporting/fields.py:44-45 | stores the value under the field's name, changes no other attribute, and a later read unwraps to and compares equal with exactly that value |
| Fields.DimensionForeignKey | opinionated_reporting/fields.py:90-101 | the intended declaration: it fails exactly when `null` is not given truthy (the error carries the declared name); otherwise the arguments are handled as by HandleFieldArgs and `null` is passed on |
| Fields.DimensionForeignKeyAsWritten | opinionated_reporting/fields.py:90-101 | as written: the same null check first; then a given `alias` or `computed` reaches `ForeignKey` and is refused as an unexpected argument; otherwise the field records neither and every argument is passed on |
| Fields.AsWrittenDimensionKeyRefusesAlias | opinionated_reporting/fields.py:90-101 | a nullable dimension reference with a text alias is refused as written for its `alias`; the intended field records the alias and reads the aliased attribute |
| Fields.DimensionKeysAgreeWithoutHandledArgs | opinionated_reporting/fields.py:90-101 | with `null` given and neither `alias` nor `computed`, the declaration as written and the intended one give the same field and pass on the same arguments |
| Schema.ColumnArgsFor | opinionated_reporting/models.py:34-53 | date-time, date, integer, float and text fields copy no arguments; slug fields copy length and unicode flag; decimal fields copy digits and places; char fields copy the length; every other kind, foreign keys and time fields included, gets no column |
| Schema.DeriveColumns | opinionated_reporting/models.py:10-54 | abstract classes are left alone; a missing ReportingMeta, unique identifier or model is refused with its own error; a class that has all three succeeds, and its columns are the derivation `Derived` over the listed fields |
| Schema.DerivedColumnsSound | opinionated_reporting/models.py:26-54 | every derived column comes from a listed field not declared by hand, with a supported source field whose class and arguments it copies, renamed to `_unique_identifier` for the identifier |
| Schema.DerivedColumnsComplete | opinionated_reporting/models.py:26-54 | for distinct listed names, every listed field not declared by hand whose source field is supported gets its column |
| Schema.ColumnsAsWritten | opinionated_reporting/models.py:26-54 | the derivation as written adds every supported source field under each listed name, so every column it adds is named after a listed field whatever type it copies (see Findings) |
| Schema.AsWrittenColumnTakesAnotherFieldsType | tests/models.py:14-16 | for the customer fixture, the derivation as written gives the `email` column the CharField type and length of `name`; the intended derivation copies each field's own type |
| Engine.ReportingFactId | opinionated_reporting/models.py:96-100 | the identifier is the record's unique-identifier attribute; a record of another model or without that attribute is an error |
| Engine.ReportingFactIdAsWritten | opinionated_reporting/models.py:57-61 | as written, a record of the right model yields None and a record of another model fails the type check |
| Engine.AssertInstanceDropsIdentifier | opinionated_reporting/models.py:57-61 | for every record the intended lookup identifies, the decorator as written yields None |
| Engine.GetReportingFact | opinionated_reporting/models.py:102-109 | the stored row with the record's identifier, or else a new unsaved, unfrozen, dirty row holding only the identifier |
| Engine.NeedsUpdate | opinionated_reporting/models.py:111-114 | true exactly when the record has no row yet or its row is dirty |
| Engine.AfterMarkDirty | opinionated_reporting/models.py:75-78 | sets the dirty flag of the record's row if it exists; no row is created, and no other row or field changes |
| Engine.AfterFreeze | opinionated_reporting/models.py:69-73 | the record's row, stored or new, is frozen and saved; every other row is unchanged |
| Engine.DeleteOutcome | opinionated_reporting/models.py:86-87 | without a delete predicate the answer is false; with one, it is the predicate's answer for the record, or its error |
| Engine.FieldUpdate | opinionated_reporting/models.py:120-138 | a listed name that is neither a described field nor a column of the fact raises; a plain column copies the record's attribute of the same name; a described field takes its resolved value; date and hour dimensions are left as they are; a generic dimension points at the dimension row with the resolved identifier, and a missing row is an error |
| Engine.FieldUpdateAsWritten | opinionated_reporting/models.py:121-138 | the dispatch as written: a name the fact lacks raises; every other field copies the record's attribute of its own name (see Findings) |
| Engine.AfterRecordUpdate | opinionated_reporting/models.py:80-94 | a record that cannot be identified raises that error; a frozen row leaves the table unchanged; otherwise a raising delete predicate raises its error, and a saved row whose record it selects is removed; rows other than the record's are never touched on success; consistency of the table is kept |
| Engine.RecordFields | opinionated_reporting/models.py:116-138 | the loop leaves a frozen row's fields alone and otherwise writes the listed fields in order, ending with exactly the recomputation `Recompute`, or its first error |
| Engine.UpdatingModel.constructor | opinionated_reporting/models.py:64-67 | a reporting model starts with an empty, consistent table |
| Engine.UpdatingModel.Freeze | opinionated_reporting/models.py:69-73 | the table becomes the one `AfterFreeze` gives; on error it is unchanged and the error is reported |
| Engine.UpdatingModel.MarkDirty | opinionated_reporting/models.py:75-78 | the table becomes the one `AfterMarkDirty` gives; on error it is unchanged and the error is reported |
| Engine.UpdatingModel.RecordUpdate | opinionated_reporting/models.py:80-94 | the table becomes the one `AfterRecordUpdate` gives; on error it is unchanged and the error is reported |
| Lifecycle.RecomputeSucceedsIff | opinionated_reporting/models.py:120-138 | a recomputation succeeds exactly when every listed field resolves |
| Lifecycle.RecomputeWrites | opinionated_reporting/models.py:120-138 | after a recomputation, each listed field that yields a value holds it, every other field keeps its old value, and no other field appears |
| Lifecycle.RecomputeIdempotent | opinionated_reporting/models.py:120-138 | recomputing from a recomputed row gives the same fields |
| Lifecycle.UpdateRecomputesRow | opinionated_reporting/models.py:86-94 | a dirty or forced row that is not frozen and not due for deletion, whose delete predicate does not raise, is saved with the resolved values, keeping its identifier, its unfrozen state and its dirty flag |
| Lifecycle.MissingDimensionRowAbortsUpdate | opinionated_reporting/models.py:132-134 | a generic dimension value without a dimension row makes the update of a dirty or forced row fail |
| Lifecycle.RecordUpdateIdempotent | opinionated_reporting/models.py:80-94 | when the delete predicate does not select the record, a second record_update changes nothing |
| Lifecycle.FreezeThenRecordUpdateChangesNothing | opinionated_reporting/models.py:83-84 | after freeze, record_update leaves the table unchanged whatever the record has become, forced or not |
| Lifecycle.FreezeIsIdempotent | opinionated_reporting/models.py:69-73 | freezing twice equals freezing once |
| Lifecycle.DeleteRemovesExactlyThatRow | opinionated_reporting/models.py:86-90 | a stored unfrozen row whose record the delete predicate selects is removed, and nothing else changes |
| Lifecycle.SelectedNewRowIsSavedThenDeleted | opinionated_reporting/models.py:86-94 | a selected record without a stored row gets a saved dirty row, and a second record_update removes it again |
| Lifecycle.CleanUnforcedRowIsLeftAlone | opinionated_reporting/models.py:86-94 | a stored clean row is not recomputed without force when the delete predicate answers false |
| Lifecycle.BaseFactNeverDeletes | opinionated_reporting/models.py:224-232 | with BaseFact's `delete_when`, record_update never removes a row |
| Lifecycle.MarkDirtyThenNeedsUpdate | opinionated_reporting/models.py:75-114 | after mark_dirty, needs_update is true |
| Lifecycle.FrozenRowSurvivesCall | opinionated_reporting/models.py:83-84 | any one call keeps a frozen row in the table, frozen, with its identifier and fields, and never clears its dirty flag |
| Lifecycle.FrozenRowsStayFrozen | opinionated_reporting/models.py:67 | after any sequence of calls, a frozen row is still there, frozen, with the same identifier and fields |
| Lifecycle.DirtyFlagSurvivesCall | opinionated_reporting/models.py:66 | no call clears a dirty flag, and a row a call creates is dirty |
| Lifecycle.ApplyKeepsConsistent | opinionated_reporting/models.py:64-138 | every call keeps each row stored under its own identifier |
| Lifecycle.DirtyRowsStayDirty | opinionated_reporting/models.py:66 | over any sequence of calls, a row that starts dirty or absent is dirty whenever it is in the table |
| Dates.Quarter | opinionated_reporting/models.py:211-215 | months 1-3, 4-6, 7-9 and 10-12 map to quarters 1 to 4, and the month lies within its quarter |
| Dates.YearOfCentury | opinionated_reporting/models.py:216 | two digits whose value is the year modulo 100 |
| Dates.QuarterFormat | opinionated_reporting/models.py:209-216 | the label is "Q", a digit, a space and two digits, and fits the 7-character column (models.py:203) |
| Dates.QuarterLabelRoundTrip | opinionated_reporting/models.py:209-216 | a label reads back as the date's quarter and its year within the century |
| Dates.ParsedLabelIsAQuarterLabel | opinionated_reporting/models.py:209-216 | every label that reads back is the label of some date |
| Dates.QuarterLabelsEqualIff | opinionated_reporting/models.py:209-216 | two dates share a label exactly when they share quarter and year within the century |
| Dates.WeekDayChoices | opinionated_reporting/models.py:173-200 | the filter choices are the day choices without "None", and their codes are 0 to 6, each once |
| Scenarios.CancelledOrderLeavesReporting | tests/test_models.py:61-68 | a cancelled order's saved row is removed |
| Scenarios.FrozenOrderSurvivesCancellation | tests/test_models.py:70-78 | a frozen order's row stays, unchanged, after the order is cancelled and updated |
| Scenarios.Cancelled | tests/models.py:109-111 | the predicate answers whether the record's `cancelled` attribute is truthy, and raises when the record has none |
| Scenarios.FixtureDimensionKeysAreRefused | tests/models.py:103-107 | every dimension reference of OrderedFact, declared without `null`, is refused by the null check |
| Scenarios.AliasedDeclarationsStillRefused | tests/models.py:103-107 | with `null=True` added, the three declarations without an alias are accepted as written, and the two aliased hour declarations are still refused for their `alias` |
| Scenarios.NullableDeclarationsGiveOrderedFact | tests/models.py:103-107 | with `null=True` added, the intended reading of the five declarations gives exactly the fields of the OrderedFact model used by the scenarios |
| Scenarios.WithNull | tests/models.py:103-107 | the arguments gain a truthy `null` and are otherwise unchanged |
| Scenarios.OrderedFactColumnsAreDerived | tests/models.py:102-116 | the columns of the scenario facts are exactly those the metaclass derives from TestOrder: none, since TestOrder has no `hour_created_on` to copy |
| Scenarios.MisspeltFieldBreaksUpdate | tests/models.py:105-116 | with `hour_reated_on` declared and `hour_created_on` listed, updating the order's dirty row fails because the fact has no `hour_created_on` |
| Scenarios.IntendedFieldsResolve | tests/models.py:102-116 | with the declaration spelt as listed, every listed field resolves for an order: the customer to its dimension row, the date and hour fields to nothing |
| Scenarios.IntendedRecomputation | tests/models.py:102-116 | with the declaration spelt as listed, recomputing the order's row stores only the customer's dimension row |
| Scenarios.IntendedOrderUpdates | tests/models.py:102-116 | with the declaration spelt as listed, the order's row is saved and points at its customer's dimension row |
| Scenarios.AsWrittenDispatchIgnoresAlias | opinionated_reporting/models.py:121-122 | the intended dispatch resolves the aliased hour field and the customer dimension; the dispatch as written fails on the hour field and copies the raw customer |
| Scenarios.ComputedFieldReachesThroughRelation | tests/models.py:70 | the computed `order_id` takes its value through the related order, even for an item record that leaves out its own `order_id` attribute, and raises for an item without an order |

## Left out

- The Django ORM (managers, querysets, `save`, `delete`, migrations): the table of rows is a map from identifier to row.
- Signal wiring (opinionated_reporting/signals.py): a created record's row is saved dirty and a changed one is marked dirty. The scenarios start from the row the creation signal saves; the signals' model lookup is not modelled.
- `contribute_to_class` (fields.py:18-20): installing the descriptor on the class is taken as given; the descriptor itself is modelled.
- `__int__`, `__float__`, `__str__` and `__repr__` of `DescriptionFieldOperations` (fields.py:64-77): Python conversions with no effect on the engine.
- The second copy of `HandleFieldArgs` in opinionated_reporting/models.py:144-160: it duplicates fields.py:4-20, and the model has one `HandleFieldArgs`. The copy's only effect, that models.py:122 never recognises a field of fields.py, is part of `FieldUpdateAsWritten`.
- Time zones and the truncation of date-times to dates and hours: the code leaves date and hour dimension fields untouched, and the model does the same.
- `MONTH_FMT` and the other columns of `DateDimension` and `HourDimension`: no code computes them.
- Decimals and floats: amounts are integers in the model, since no operation computes on them.
- Presentation options in `ReportingMeta` (`header_description`, `row_description`, `total`): they are used only by views outside the core.
- Concurrency and transactions: each call is atomic in the model.
- Engine.AfterRecordUpdate: its own contract states the error, frozen and delete cases and the frame; what the recompute branch writes is stated by the Lifecycle lemmas.

## Findings

| source | as written | input that shows it | evidently intended | confidence | as-written member | corrected member |
|---|---|---|---|---|---|---|
| opinionated_reporting/models.py:57-61 | `assert_instance` returns a wrapper that checks the type and returns None without calling the decorated function | any TestOrder record passed to `OrderedFact.get_reporting_fact_id` | check the type, then return the decorated function's result | not executed | Engine.ReportingFactIdAsWritten, Engine.AssertInstanceDropsIdentifier | Engine.ReportingFactId |
| opinionated_reporting/models.py:28-54 | for each listed field, every supported field of the source model is added under the listed name, so the last one wins | CustomerDimension over TestCustomer listing `name` and `email` | copy the source field whose name is listed | not executed | Schema.ColumnsAsWritten, Schema.AsWrittenColumnTakesAnotherFieldsType | Schema.DeriveColumns, Schema.DerivedColumnsSound, Schema.DerivedColumnsComplete |
| opinionated_reporting/models.py:121-122 | `getattr(self, name)` on the fact yields the descriptor's value or the related row, never a `HandleFieldArgs`, so every field copies the attribute of its own name | OrderedFact with a TestOrder: `hour_ordered_on` is not an attribute of the order | dispatch on the declared field | not executed | Engine.FieldUpdateAsWritten, Scenarios.AsWrittenDispatchIgnoresAlias | Engine.FieldUpdate, Lifecycle.UpdateRecomputesRow |
| opinionated_reporting/fields.py:90 | `DimensionForeignKey` derives from `ForeignKey` alone, so `alias` and `computed` are passed to `ForeignKey.__init__`, which raises TypeError for them | OrderedFact's `hour_ordered_on` (tests/models.py:107) with `null=True` added: refused for `alias='ordered_on'` | derive from `HandleFieldArgs` as the described fields do (fields.py:23), recording the alias | not executed | Fields.DimensionForeignKeyAsWritten, Fields.AsWrittenDimensionKeyRefusesAlias | Fields.DimensionForeignKey, Fields.DimensionKeysAgreeWithoutHandledArgs |
| tests/models.py:103-107 | the dimension references are declared without `null=True`, which the field refuses (fields.py:99-100); with it added, the aliased declarations at :105 and :107 are still refused by the `DimensionForeignKey` as written | declaring OrderedFact | declare each reference with `null=True`, read by the intended `DimensionForeignKey` | not executed | Scenarios.FixtureDimensionKeysAreRefused, Scenarios.AliasedDeclarationsStillRefused | Scenarios.NullableDeclarationsGiveOrderedFact |
| tests/models.py:105 | the hour field is declared as `hour_reated_on` while ReportingMeta lists `hour_created_on` | updating a dirty OrderedFact row for any order | declare `hour_created_on` | not executed | Scenarios.MisspeltFieldBreaksUpdate | Scenarios.IntendedOrderUpdates |
