/** The reporting models of the test fixtures (tests/models.py) and what the
    engine does with them in the situations the tests describe. */
module Scenarios {
  import opened Values
  import opened Fields
  import opened Engine
  import opened Lifecycle
  import Schema

  /** OrderedFact.delete_when: cancelled orders leave reporting; a record
      without the attribute makes it raise. */
  function Cancelled(s: Source): (r: Result<bool, Error>)
    ensures r.Ok? <==> "cancelled" in s.attrs
    ensures r.Ok? ==> (r.value <==> Truthy(s.attrs["cancelled"]))
  {
    var cancelled :- GetAttr(s, "cancelled");
    Ok(Truthy(cancelled))
  }

  /** The keyword arguments of OrderedFact's dimension declarations
      (tests/models.py:103-107). None of them passes `null`. */
  const CustomerArgs: map<string, Arg> := map["on_delete" := Literal(Text("CASCADE"))]
  const CreatedOnArgs: map<string, Arg> :=
    map["related_name" := Literal(Text("ordered_created_on")), "on_delete" := Literal(Text("CASCADE"))]
  const HourCreatedOnArgs: map<string, Arg> :=
    map["alias" := Literal(Text("created_on")), "related_name" := Literal(Text("ordered_hour_created_on")),
        "on_delete" := Literal(Text("CASCADE"))]
  const OrderedOnArgs: map<string, Arg> :=
    map["related_name" := Literal(Text("ordered_ordered_on")), "on_delete" := Literal(Text("CASCADE"))]
  const HourOrderedOnArgs: map<string, Arg> :=
    map["alias" := Literal(Text("ordered_on")), "related_name" := Literal(Text("ordered_hour_ordered_on")),
        "on_delete" := Literal(Text("CASCADE"))]

  /** The same arguments with `null=True` added. */
  function WithNull(kwargs: map<string, Arg>): (r: map<string, Arg>)
    ensures NullGiven(r) && r - {"null"} == kwargs - {"null"}
  {
    kwargs["null" := Literal(Bool(true))]
  }

  /** As declared, every dimension reference of OrderedFact is refused,
      because none is declared nullable. */
  lemma FixtureDimensionKeysAreRefused()
    ensures DimensionForeignKeyAsWritten("customer", GenericDim("CustomerDimension"), CustomerArgs) == Err(NullRequired("customer"))
    ensures DimensionForeignKeyAsWritten("created_on", DateDim, CreatedOnArgs) == Err(NullRequired("created_on"))
    ensures DimensionForeignKeyAsWritten("hour_reated_on", HourDim, HourCreatedOnArgs) == Err(NullRequired("hour_reated_on"))
    ensures DimensionForeignKeyAsWritten("ordered_on", DateDim, OrderedOnArgs) == Err(NullRequired("ordered_on"))
    ensures DimensionForeignKeyAsWritten("hour_ordered_on", HourDim, HourOrderedOnArgs) == Err(NullRequired("hour_ordered_on"))
    ensures !NullGiven(CustomerArgs) && !NullGiven(CreatedOnArgs) && !NullGiven(HourCreatedOnArgs) &&
            !NullGiven(OrderedOnArgs) && !NullGiven(HourOrderedOnArgs)
  {
  }

  /** With `null=True` added, DimensionForeignKey as written accepts the
      three declarations without an alias but still refuses the two aliased
      hour declarations, because it passes `alias` on to ForeignKey. */
  lemma AliasedDeclarationsStillRefused()
    ensures DimensionForeignKeyAsWritten("customer", GenericDim("CustomerDimension"), WithNull(CustomerArgs)).Ok?
    ensures DimensionForeignKeyAsWritten("created_on", DateDim, WithNull(CreatedOnArgs)).Ok?
    ensures DimensionForeignKeyAsWritten("ordered_on", DateDim, WithNull(OrderedOnArgs)).Ok?
    ensures DimensionForeignKeyAsWritten("hour_reated_on", HourDim, WithNull(HourCreatedOnArgs))
         == Err(UnexpectedArgument("hour_reated_on", "alias"))
    ensures DimensionForeignKeyAsWritten("hour_ordered_on", HourDim, WithNull(HourOrderedOnArgs))
         == Err(UnexpectedArgument("hour_ordered_on", "alias"))
  {
  }

  /** With `null=True` added, the intended declarations give exactly the
      fields of OrderedFact below (the intended DimensionForeignKey yields
      ParsedField on success). */
  lemma NullableDeclarationsGiveOrderedFact()
    ensures ParsedField("customer", GenericDim("CustomerDimension"), WithNull(CustomerArgs)) == OrderedFact.specs["customer"]
    ensures ParsedField("created_on", DateDim, WithNull(CreatedOnArgs)) == OrderedFact.specs["created_on"]
    ensures ParsedField("hour_reated_on", HourDim, WithNull(HourCreatedOnArgs)) == OrderedFact.specs["hour_reated_on"]
    ensures ParsedField("ordered_on", DateDim, WithNull(OrderedOnArgs)) == OrderedFact.specs["ordered_on"]
    ensures ParsedField("hour_ordered_on", HourDim, WithNull(HourOrderedOnArgs)) == OrderedFact.specs["hour_ordered_on"]
  {
  }

  /** OrderedFact: a fact per order, with a customer dimension, date and hour
      dimensions (the hour ones aliased to the date attributes), and the
      cancellation delete predicate. The class declares `hour_reated_on`
      while ReportingMeta lists `hour_created_on`. The declarations as written
      are refused for lack of `null=True` (FixtureDimensionKeysAreRefused),
      and the aliased ones would still be refused with it
      (AliasedDeclarationsStillRefused); this is the model the intended
      DimensionForeignKey gives once `null=True` is added. */
  const OrderedFact: FactSchema := FactSchema(
    "TestOrder",
    "id",
    ["customer", "created_on", "hour_created_on", "hour_ordered_on", "ordered_on"],
    map[
      "customer" := FieldSpec("customer", None, None, GenericDim("CustomerDimension")),
      "created_on" := FieldSpec("created_on", None, None, DateDim),
      "hour_reated_on" := FieldSpec("hour_reated_on", None, Some(Literal(Text("created_on"))), HourDim),
      "ordered_on" := FieldSpec("ordered_on", None, None, DateDim),
      "hour_ordered_on" := FieldSpec("hour_ordered_on", None, Some(Literal(Text("ordered_on"))), HourDim)
    ],
    {},
    Some(Cancelled))

  /** The fields of TestOrder as the metaclass sees them: the implicit
      identifier and the declared fields (a many-to-many relation is not
      among a model's fields, so `products` is not listed). */
  const TestOrderFields: seq<Schema.SourceField> := [
    Schema.SourceField("id", Schema.AutoField, None, false, None, None),
    Schema.SourceField("customer", Schema.ForeignKey, None, false, None, None),
    Schema.SourceField("created_on", Schema.DateTimeField, None, false, None, None),
    Schema.SourceField("ordered_on", Schema.DateTimeField, None, false, None, None),
    Schema.SourceField("total", Schema.DecimalField, None, false, Some(10), Some(2)),
    Schema.SourceField("cancelled", Schema.BooleanField, None, false, None, None)]

  /** The names of the columns the metaclass adds to a fact. */
  function ColumnNames(columns: seq<Schema.Column>): set<string> {
    set c | c in columns :: c.name
  }

  /** OrderedFact gets no column of its own: every listed field but
      `hour_created_on` is declared on the class, and TestOrder has no field
      of that name to copy. The same holds for the intended declaration, which
      declares all five. */
  lemma OrderedFactColumnsAreDerived()
    ensures ColumnNames(Schema.Derived(OrderedFact.fields, OrderedFact.uniqueIdentifier, TestOrderFields, OrderedFact.specs.Keys))
         == OrderedFact.columns
    ensures ColumnNames(Schema.Derived(IntendedOrderedFact.fields, IntendedOrderedFact.uniqueIdentifier, TestOrderFields, IntendedOrderedFact.specs.Keys))
         == IntendedOrderedFact.columns
  {
    var names := OrderedFact.fields;
    var declared := OrderedFact.specs.Keys;
    assert declared == {"customer", "created_on", "hour_reated_on", "ordered_on", "hour_ordered_on"};
    assert Schema.FindSourceField(TestOrderFields, "hour_created_on") == None by {
      NoSourceField(TestOrderFields, "hour_created_on");
    }
    assert names[3..] == ["hour_ordered_on", "ordered_on"];
    assert Schema.Derived(names[4..], "id", TestOrderFields, declared) == [] by {
      assert names[4..][0] == "ordered_on" && "ordered_on" in declared;
      assert names[4..][1..] == [];
    }
    assert Schema.Derived(names[3..], "id", TestOrderFields, declared) == [] by {
      assert names[3..][0] == "hour_ordered_on" && "hour_ordered_on" in declared;
      assert names[3..][1..] == names[4..];
    }
    assert Schema.Derived(names[2..], "id", TestOrderFields, declared) == [] by {
      assert names[2..][1..] == names[3..];
    }
    assert Schema.Derived(names, "id", TestOrderFields, declared) == [] by {
      assert names[1..][1..] == names[2..];
    }
    var intended := IntendedOrderedFact.specs.Keys;
    assert intended == {"customer", "created_on", "hour_created_on", "ordered_on", "hour_ordered_on"};
    assert Schema.Derived(names[4..], "id", TestOrderFields, intended) == [] by {
      assert names[4..][0] == "ordered_on" && "ordered_on" in intended;
      assert names[4..][1..] == [];
    }
    assert Schema.Derived(names[3..], "id", TestOrderFields, intended) == [] by {
      assert names[3..][0] == "hour_ordered_on" && "hour_ordered_on" in intended;
      assert names[3..][1..] == names[4..];
    }
    assert Schema.Derived(names[2..], "id", TestOrderFields, intended) == [] by {
      assert names[2..][0] == "hour_created_on" && "hour_created_on" in intended;
      assert names[2..][1..] == names[3..];
    }
    assert Schema.Derived(names, "id", TestOrderFields, intended) == [] by {
      assert names[1..][1..] == names[2..];
    }
  }

  /** No field of `fields` is named `name`. */
  lemma {:induction false} NoSourceField(fields: seq<Schema.SourceField>, name: string)
    requires forall i :: 0 <= i < |fields| ==> fields[i].name != name
    ensures Schema.FindSourceField(fields, name) == None
    decreases |fields|
  {
    if fields != [] {
      NoSourceField(fields[1..], name);
    }
  }

  /** An order of the test fixtures, with the customer given by its identifier. */
  function Order(cancelled: bool): Source {
    Source("TestOrder", map[
      "id" := Int(1),
      "customer" := Int(7),
      "created_on" := Int(20180916),
      "ordered_on" := Null,
      "total" := Int(1000),
      "tax" := Int(0),
      "cancelled" := Bool(cancelled)])
  }

  /** The customer dimension holds the order's customer. */
  const Customers: Catalog := map["CustomerDimension" := {Int(7)}]

  /** The order's row as the creation signal saves it: dirty, with only its identifier. */
  const SavedNewOrderRow: Store := map[Int(1) := Fact(Int(1), true, false, true, map[])]

  /** Cancelling an order whose row is saved removes the row. */
  lemma CancelledOrderLeavesReporting()
    ensures AfterRecordUpdate(OrderedFact, SavedNewOrderRow, Order(true), false, Customers) == Ok(map[])
  {
    assert SavedNewOrderRow - {Int(1)} == map[];
  }

  /** Freezing an order and then cancelling it keeps its row, frozen and
      unchanged, through record_update. */
  lemma FrozenOrderSurvivesCancellation(store: Store)
    requires AfterFreeze(OrderedFact, store, Order(false)).Ok?
    ensures var frozen := AfterFreeze(OrderedFact, store, Order(false)).value;
      Int(1) in frozen && frozen[Int(1)].frozen &&
      AfterRecordUpdate(OrderedFact, frozen, Order(true), false, Customers) == Ok(frozen)
  {
    FreezeThenRecordUpdateChangesNothing(OrderedFact, store, Order(false), Order(true), false, Customers);
  }

  /** Because of the misspelt declaration, `hour_created_on` is neither a
      described field nor a column of the fact, so reading it from the fact
      fails: updating a dirty order row fails and writes nothing. */
  lemma MisspeltFieldBreaksUpdate()
    ensures AfterRecordUpdate(OrderedFact, SavedNewOrderRow, Order(false), false, Customers)
         == Err(MissingColumn("hour_created_on"))
  {
    var names := OrderedFact.fields;
    var s := Order(false);
    assert FieldUpdate(OrderedFact, "customer", s, Customers) == Ok(Some(DimRow("CustomerDimension", Int(7))));
    assert FieldUpdate(OrderedFact, "created_on", s, Customers) == Ok(None);
    assert FieldUpdate(OrderedFact, "hour_created_on", s, Customers) == Err(MissingColumn("hour_created_on"));
    var acc := map["customer" := DimRow("CustomerDimension", Int(7))];
    assert names[1..][1..] == ["hour_created_on", "hour_ordered_on", "ordered_on"];
    assert Recompute(OrderedFact, names[1..][1..], acc, s, Customers) == Err(MissingColumn("hour_created_on"));
    assert Recompute(OrderedFact, names[1..], acc, s, Customers) == Err(MissingColumn("hour_created_on"));
    assert Recompute(OrderedFact, names, map[], s, Customers) == Err(MissingColumn("hour_created_on"));
  }

  /** OrderedFact with the hour field declared under the name ReportingMeta
      lists (and, as for OrderedFact, with `null=True` on every dimension reference). */
  const IntendedOrderedFact: FactSchema := FactSchema(
    "TestOrder",
    "id",
    ["customer", "created_on", "hour_created_on", "hour_ordered_on", "ordered_on"],
    map[
      "customer" := FieldSpec("customer", None, None, GenericDim("CustomerDimension")),
      "created_on" := FieldSpec("created_on", None, None, DateDim),
      "hour_created_on" := FieldSpec("hour_created_on", None, Some(Literal(Text("created_on"))), HourDim),
      "ordered_on" := FieldSpec("ordered_on", None, None, DateDim),
      "hour_ordered_on" := FieldSpec("hour_ordered_on", None, Some(Literal(Text("ordered_on"))), HourDim)
    ],
    {},
    Some(Cancelled))

  /** Each listed field of the intended declaration resolves for the order:
      the customer to its dimension row, the date and hour fields to nothing. */
  lemma IntendedFieldsResolve()
    ensures FieldUpdate(IntendedOrderedFact, "customer", Order(false), Customers) == Ok(Some(DimRow("CustomerDimension", Int(7))))
    ensures FieldUpdate(IntendedOrderedFact, "created_on", Order(false), Customers) == Ok(None)
    ensures FieldUpdate(IntendedOrderedFact, "hour_created_on", Order(false), Customers) == Ok(None)
    ensures FieldUpdate(IntendedOrderedFact, "hour_ordered_on", Order(false), Customers) == Ok(None)
    ensures FieldUpdate(IntendedOrderedFact, "ordered_on", Order(false), Customers) == Ok(None)
  {
  }

  /** The recomputation of the order's row under the intended declaration
      stores only the customer's dimension row. */
  lemma IntendedRecomputation()
    ensures Recompute(IntendedOrderedFact, IntendedOrderedFact.fields, map[], Order(false), Customers)
         == Ok(map["customer" := DimRow("CustomerDimension", Int(7))])
  {
    var schema := IntendedOrderedFact;
    var s := Order(false);
    var acc := map["customer" := DimRow("CustomerDimension", Int(7))];
    IntendedFieldsResolve();
    assert Recompute(schema, [], acc, s, Customers) == Ok(acc);
    assert Recompute(schema, ["ordered_on"], acc, s, Customers) == Ok(acc);
    assert Recompute(schema, ["hour_ordered_on", "ordered_on"], acc, s, Customers) == Ok(acc);
    assert Recompute(schema, ["hour_created_on", "hour_ordered_on", "ordered_on"], acc, s, Customers) == Ok(acc);
    assert Recompute(schema, ["created_on", "hour_created_on", "hour_ordered_on", "ordered_on"], acc, s, Customers) == Ok(acc);
  }

  /** With the declaration spelt as listed, updating the dirty order row
      succeeds: the row is saved and points at the order's customer; the date
      and hour fields are left as they are. */
  lemma IntendedOrderUpdates()
    ensures AfterRecordUpdate(IntendedOrderedFact, SavedNewOrderRow, Order(false), false, Customers)
         == Ok(map[Int(1) := Fact(Int(1), true, false, true, map["customer" := DimRow("CustomerDimension", Int(7))])])
  {
    var schema := IntendedOrderedFact;
    var s := Order(false);
    var acc := map["customer" := DimRow("CustomerDimension", Int(7))];
    IntendedRecomputation();
    var row := SavedNewOrderRow[Int(1)];
    assert ReportingFactId(schema, s) == Ok(Int(1));
    assert FactFor(SavedNewOrderRow, Int(1)) == row;
    assert DeleteOutcome(schema, s) == Ok(false);
    assert RecordedFields(schema, row, s, Customers) == Ok(acc);
    assert SavedNewOrderRow[Int(1) := row.(fields := acc, saved := true)]
        == map[Int(1) := Fact(Int(1), true, false, true, acc)];
  }

  /** With the intended dispatch, the aliased hour field resolves through
      `ordered_on` and is left as it is; as written it is looked up under its
      own name, which the order does not have. */
  lemma AsWrittenDispatchIgnoresAlias()
    ensures FieldUpdate(OrderedFact, "hour_ordered_on", Order(false), Customers) == Ok(None)
    ensures FieldUpdateAsWritten(OrderedFact, "hour_ordered_on", Order(false), Customers) == Err(MissingAttribute("hour_ordered_on"))
    ensures FieldUpdate(OrderedFact, "customer", Order(false), Customers) == Ok(Some(DimRow("CustomerDimension", Int(7))))
    ensures FieldUpdateAsWritten(OrderedFact, "customer", Order(false), Customers) == Ok(Some(Int(7)))
  {
  }

  /** OrderedProductFact.order_id: a computed field reaching through the order item's order. */
  const OrderIdField: FieldSpec :=
    FieldSpec("order_id", Some((s: Source) => GetAttr(s, "order")), None, NotDimension)

  /** The computed field takes its value from the related order, and raises
      when the item has no order. The item
      record here leaves out the `order_id` attribute that its foreign key
      would give it, so the value can only come from the computed function. */
  lemma ComputedFieldReachesThroughRelation()
    ensures ValueFromInstance(OrderIdField, Source("TestOrderItem", map["id" := Int(3), "order" := Int(1)])) == Ok(Int(1))
    ensures ValueFromInstance(OrderIdField, Source("TestOrderItem", map["id" := Int(3)])) == Err(MissingAttribute("order"))
  {
  }
}
