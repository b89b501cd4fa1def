/**
 * What a run of the rollup activity does, stated over `Run`: the guard, the
 * order of the store calls, parent resolution and its error policy, the total
 * over active siblings, the one-field update and its error policy, and that a
 * second run with nothing changed in between changes nothing.
 */
module RollupProperties {
  import opened OrganizationStore
  import opened WARollup

  /** The triggering record's key. */
  function ChildKey(ctx: WorkflowContext): RecordKey
  {
    RecordKey(ctx.primaryEntityName, ctx.primaryEntityId)
  }

  /**
   * The active siblings under `parentId`, spelled out: records of the triggering
   * record's entity whose lookup refers to the parent and whose state code is 0.
   */
  function ActiveSiblings(records: map<RecordKey, Fields>, entity: string, lookupField: string, parentId: Guid)
    : set<RecordKey>
  {
    set k | k in records && k.entity == entity && RefersTo(records[k], lookupField, parentId)
                         && STATE_FIELD in records[k] && records[k][STATE_FIELD] == IntVal(0)
  }

  /** Whether some record among `keys` holds a non-null amount in `field`. */
  predicate SomeAmount(records: map<RecordKey, Fields>, keys: set<RecordKey>, field: string)
  {
    exists k :: k in keys && k in records && HasAmount(records[k], field)
  }

  /** With debug off and a depth above 1 the run returns at once and touches nothing. */
  lemma GuardSkipsStore(config: RollupConfig, ctx: WorkflowContext, s: StoreView)
    requires !config.debugMode && ctx.depth > 1
    ensures Run(config, ctx, s) == RunResult(Returned, [], s.records)
  {
  }

  /** In debug mode the depth plays no part, and the run always reaches the store. */
  lemma DebugIgnoresDepth(config: RollupConfig, ctx: WorkflowContext, s: StoreView, depth: int)
    requires config.debugMode
    ensures Run(config, ctx.(depth := depth), s) == Run(config, ctx, s)
    ensures |Run(config, ctx, s).calls| > 0
  {
  }

  /**
   * An unguarded run makes one Retrieve of the triggering record's lookup field,
   * then one RetrieveMultiple, then one Update, and stops early only by throwing,
   * having written nothing.
   */
  lemma CallOrder(config: RollupConfig, ctx: WorkflowContext, s: StoreView)
    requires !Guarded(config, ctx)
    ensures var r := Run(config, ctx, s);
      && 1 <= |r.calls| <= 3
      && r.calls[0] == RetrieveCall(ctx.primaryEntityName, ctx.primaryEntityId, [config.childLookupFieldName])
      && (|r.calls| >= 2 ==> r.calls[1].RetrieveMultipleCall?)
      && (|r.calls| == 3 ==> r.calls[2].UpdateCall?)
      && (|r.calls| < 3 ==> r.outcome.Thrown? && r.records == s.records)
  {
  }

  /**
   * When the triggering record holds a reference, the query and the update are
   * about the referenced id; the update goes to the configured parent entity.
   */
  lemma ResolvedParentIsTarget(config: RollupConfig, ctx: WorkflowContext, s: StoreView, target: string, parentId: Guid)
    requires !Guarded(config, ctx) && !s.failRetrieve
    requires ChildKey(ctx) in s.records
    requires config.childLookupFieldName in s.records[ChildKey(ctx)]
    requires s.records[ChildKey(ctx)][config.childLookupFieldName] == RefVal(target, parentId)
    ensures var r := Run(config, ctx, s);
      && |r.calls| >= 2
      && r.calls[1] == RetrieveMultipleCall(
           RollupQuery(ctx.primaryEntityName, config.childRollupFieldName, config.childLookupFieldName, parentId))
      && (|r.calls| == 3 ==> r.calls[2].entity == config.parentEntityName && r.calls[2].id == parentId)
  {
  }

  /** Whether resolution fails: the Retrieve faults, or the field is missing or not a reference. */
  predicate ResolutionFails(config: RollupConfig, ctx: WorkflowContext, s: StoreView)
  {
    || s.failRetrieve
    || ChildKey(ctx) !in s.records
    || config.childLookupFieldName !in s.records[ChildKey(ctx)]
    || !s.records[ChildKey(ctx)][config.childLookupFieldName].RefVal?
  }

  /** In debug mode a failed resolution throws a hint naming the lookup field, and nothing else happens. */
  lemma ResolutionFailureSurfaces(config: RollupConfig, ctx: WorkflowContext, s: StoreView)
    requires config.debugMode && ResolutionFails(config, ctx, s)
    ensures var r := Run(config, ctx, s);
      && r == RunResult(Thrown(LookupFieldHint(config.childLookupFieldName)), [ResolutionCall(config, ctx)], s.records)
      && Mentions(Text(r.outcome.error), config.childLookupFieldName)
  {
  }

  /**
   * With debug off a failed resolution does not end the run: it queries and
   * updates with the empty id. Unless a parent record with the empty id
   * exists, no record changes, and the run throws only if the query does.
   */
  lemma ResolutionFailureContinues(config: RollupConfig, ctx: WorkflowContext, s: StoreView)
    requires !Guarded(config, ctx) && !config.debugMode && ResolutionFails(config, ctx, s)
    ensures var r := Run(config, ctx, s);
      && |r.calls| >= 2
      && r.calls[1] == RetrieveMultipleCall(
           RollupQuery(ctx.primaryEntityName, config.childRollupFieldName, config.childLookupFieldName, EMPTY_GUID))
      && (|r.calls| == 3 ==> r.calls[2].id == EMPTY_GUID)
      && (RecordKey(config.parentEntityName, EMPTY_GUID) !in s.records ==>
            r.records == s.records && (r.outcome.Thrown? <==> |r.calls| == 2))
  {
  }

  /**
   * The value the update sends is the sum of the rollup field over the active
   * siblings, or null when none of them holds an amount; every active sibling
   * holds money or nothing in that field.
   */
  lemma UpdateCarriesActiveTotal(config: RollupConfig, ctx: WorkflowContext, s: StoreView)
    requires |Run(config, ctx, s).calls| == 3
    ensures var r := Run(config, ctx, s);
      var parentId := r.calls[2].id;
      var field := config.childRollupFieldName;
      var active := ActiveSiblings(s.records, ctx.primaryEntityName, config.childLookupFieldName, parentId);
      && (forall k :: k in active ==> Summable(s.records[k], field))
      && r.calls[2] == UpdateCall(config.parentEntityName, parentId,
           map[config.parentRollupResultFieldName :=
             if SomeAmount(s.records, active, field) then MoneyVal(SumOver(s.records, active, field)) else NullVal])
  {
    var resolved := Resolution(s, ctx, config.childLookupFieldName, config.debugMode);
    var parentId := resolved.value;
    var q := RollupQuery(ctx.primaryEntityName, config.childRollupFieldName, config.childLookupFieldName, parentId);
    var active := ActiveSiblings(s.records, ctx.primaryEntityName, config.childLookupFieldName, parentId);
    assert Siblings(s.records, q) == active;
    assert Run(config, ctx, s) == RunFrom(config, ctx, s, parentId);
  }

  /** An update writes the one result field of the one parent record, and only when it succeeds. */
  lemma UpdateTouchesOneField(config: RollupConfig, ctx: WorkflowContext, s: StoreView)
    ensures var r := Run(config, ctx, s);
      && (|r.calls| == 3 ==> r.calls[2].attributes.Keys == {config.parentRollupResultFieldName})
      && (r.records == s.records ||
          (&& |r.calls| == 3
           && var key := RecordKey(config.parentEntityName, r.calls[2].id);
              var field := config.parentRollupResultFieldName;
              && key in s.records
              && r.records == s.records[key := s.records[key][field := r.calls[2].attributes[field]]]))
  {
    var r := Run(config, ctx, s);
    if r.records != s.records {
      var call := r.calls[2];
      var key := RecordKey(config.parentEntityName, call.id);
      var field := config.parentRollupResultFieldName;
      assert s.records[key] + call.attributes == s.records[key][field := call.attributes[field]];
    }
  }

  /** A failed update leaves the records alone; it throws a hint naming both targets in debug mode only. */
  lemma UpdateFailurePolicy(config: RollupConfig, ctx: WorkflowContext, s: StoreView)
    requires |Run(config, ctx, s).calls| == 3
    requires !UpdateSucceeds(s, config.parentEntityName, Run(config, ctx, s).calls[2].id)
    ensures var r := Run(config, ctx, s);
      && r.records == s.records
      && (config.debugMode ==>
            && r.outcome == Thrown(UpdateTargetHint(config.parentEntityName, config.parentRollupResultFieldName))
            && Mentions(Text(r.outcome.error), config.parentEntityName)
            && Mentions(Text(r.outcome.error), config.parentRollupResultFieldName))
      && (!config.debugMode ==> r.outcome == Returned)
  {
  }

  /** A run that reaches the update and whose update succeeds returns normally. */
  lemma UpdateSuccessReturns(config: RollupConfig, ctx: WorkflowContext, s: StoreView)
    requires |Run(config, ctx, s).calls| == 3
    requires UpdateSucceeds(s, config.parentEntityName, Run(config, ctx, s).calls[2].id)
    ensures Run(config, ctx, s).outcome == Returned
  {
  }

  /** A fault of the aggregate query is not caught, whatever the debug flag. */
  lemma AggregateFaultPropagates(config: RollupConfig, ctx: WorkflowContext, s: StoreView)
    requires |Run(config, ctx, s).calls| >= 2
    requires s.failRetrieveMultiple
    ensures var r := Run(config, ctx, s);
      r.outcome == Thrown(StoreFault(s.faultMessage)) && |r.calls| == 2 && r.records == s.records
  {
  }

  /** Whether two field maps agree on `field`: both lack it, or both hold the same value. */
  predicate SameField(f1: Fields, f2: Fields, field: string)
  {
    (field in f1 <==> field in f2) && (field in f1 ==> f1[field] == f2[field])
  }

  /** A Retrieve's answer depends only on the requested columns of the requested record. */
  lemma RetrieveAnswerUnchanged(s: StoreView, t: StoreView, entity: string, id: Guid, columns: seq<string>)
    requires t == s.(records := t.records)
    requires t.records.Keys == s.records.Keys
    requires RecordKey(entity, id) in s.records ==>
      forall f :: f in columns ==> SameField(s.records[RecordKey(entity, id)], t.records[RecordKey(entity, id)], f)
    ensures RetrieveAnswer(t, entity, id, columns) == RetrieveAnswer(s, entity, id, columns)
  {
    var a, b := RetrieveAnswer(s, entity, id, columns), RetrieveAnswer(t, entity, id, columns);
    if a.Some? {
      var key := RecordKey(entity, id);
      assert b.value == a.value by {
        assert a.value.Keys == b.value.Keys;
        forall f | f in a.value ensures b.value[f] == a.value[f] {
          assert SameField(s.records[key], t.records[key], f);
        }
      }
    }
  }

  /**
   * A query's answer depends only on the lookup, state and summed fields of the
   * records of the queried entity.
   */
  lemma AggregateAnswerUnchanged(s: StoreView, t: StoreView, q: AggregateQuery)
    requires t == s.(records := t.records)
    requires t.records.Keys == s.records.Keys
    requires forall k :: k in s.records && k.entity == q.entity ==>
      && SameField(s.records[k], t.records[k], q.lookupField)
      && SameField(s.records[k], t.records[k], STATE_FIELD)
      && SameField(s.records[k], t.records[k], q.sumField)
    ensures AggregateAnswer(t, q) == AggregateAnswer(s, q)
  {
    var sibs := Siblings(s.records, q);
    assert Siblings(t.records, q) == sibs;
    SumOverAgree(s.records, t.records, sibs, q.sumField);
  }

  /**
   * Running the rollup again with nothing changed in between makes the same
   * calls, ends the same way and leaves the records as the first run left them,
   * when the parent entity is not the triggering entity, or, for a hierarchy
   * within one entity, when the result field is none of the fields a run reads.
   */
  lemma RerunChangesNothing(config: RollupConfig, ctx: WorkflowContext, s: StoreView)
    requires || config.parentEntityName != ctx.primaryEntityName
             || (&& config.parentRollupResultFieldName != config.childLookupFieldName
                 && config.parentRollupResultFieldName != config.childRollupFieldName
                 && config.parentRollupResultFieldName != STATE_FIELD)
    ensures var first := Run(config, ctx, s);
      var second := Run(config, ctx, s.(records := first.records));
      second == first
  {
    var first := Run(config, ctx, s);
    var t := s.(records := first.records);
    if first.records != s.records {
      var parentId := first.calls[2].id;
      var key := RecordKey(config.parentEntityName, parentId);
      var attributes := first.calls[2].attributes;
      var result := config.parentRollupResultFieldName;
      assert first.records == s.records[key := s.records[key] + attributes];
      assert attributes.Keys == {result};
      assert s.records[key] + attributes == s.records[key][result := attributes[result]];
      WriteKeepsReadFields(config, ctx, s, t, key, attributes[result]);
      assert Resolution(s, ctx, config.childLookupFieldName, config.debugMode) == Normal(parentId);
      assert t.records[key] + attributes == t.records[key];
    }
  }

  /**
   * Writing the result field of one parent record changes neither the
   * resolution nor the aggregation a run does, when that write cannot touch a
   * field a run reads.
   */
  lemma WriteKeepsReadFields(config: RollupConfig, ctx: WorkflowContext, s: StoreView, t: StoreView, key: RecordKey, v: Value)
    requires key in s.records
    requires t == s.(records := s.records[key := s.records[key][config.parentRollupResultFieldName := v]])
    requires || key.entity != ctx.primaryEntityName
             || (&& config.parentRollupResultFieldName != config.childLookupFieldName
                 && config.parentRollupResultFieldName != config.childRollupFieldName
                 && config.parentRollupResultFieldName != STATE_FIELD)
    ensures Resolution(t, ctx, config.childLookupFieldName, config.debugMode)
         == Resolution(s, ctx, config.childLookupFieldName, config.debugMode)
    ensures var q := RollupQuery(ctx.primaryEntityName, config.childRollupFieldName, config.childLookupFieldName, key.id);
      Rollup(t, q) == Rollup(s, q)
  {
    var result := config.parentRollupResultFieldName;
    assert forall k, f :: k in s.records && (k != key || f != result) ==> SameField(s.records[k], t.records[k], f);
    RetrieveAnswerUnchanged(s, t, ctx.primaryEntityName, ctx.primaryEntityId, [config.childLookupFieldName]);
    var q := RollupQuery(ctx.primaryEntityName, config.childRollupFieldName, config.childLookupFieldName, key.id);
    AggregateAnswerUnchanged(s, t, q);
  }

  /** A child of `customer` with an amount and a state code. */
  function Order(customer: Guid, amount: int, state: int): Fields
  {
    map["customerId" := RefVal("customer", customer), "amount" := MoneyVal(amount), STATE_FIELD := IntVal(state)]
  }

  /** Siblings of 10 (active), 5 (inactive) and 7 (active): the rollup is 17. */
  lemma InactiveSiblingExcluded()
    ensures
      var records := map[RecordKey("order", 11) := Order(1, 10, 0),
                         RecordKey("order", 12) := Order(1, 5, 1),
                         RecordKey("order", 13) := Order(1, 7, 0)];
      var s := StoreView(records, false, false, false, "");
      Rollup(s, RollupQuery("order", "amount", "customerId", 1)) == Normal(Some(17))
  {
    var a, b, c := RecordKey("order", 11), RecordKey("order", 12), RecordKey("order", 13);
    var records := map[a := Order(1, 10, 0), b := Order(1, 5, 1), c := Order(1, 7, 0)];
    var q := RollupQuery("order", "amount", "customerId", 1);
    assert !Matches(q, b, records[b]);
    assert Siblings(records, q) == {a, c};
    SumOverRemove(records, {a, c}, "amount", a);
    assert {a, c} - {a} == {c};
    SumOverRemove(records, {c}, "amount", c);
    assert {c} - {c} == {};
  }

  /** Customer 1 and three active orders of theirs, for 100, 250 and 50. */
  function CustomerStore(): StoreView
  {
    var records := map[RecordKey("customer", 1) := map[],
                       RecordKey("order", 11) := Order(1, 100, 0),
                       RecordKey("order", 12) := Order(1, 250, 0),
                       RecordKey("order", 13) := Order(1, 50, 0)];
    StoreView(records, false, false, false, "")
  }

  lemma CustomerOrdersTotal400()
    ensures Rollup(CustomerStore(), RollupQuery("order", "amount", "customerId", 1)) == Normal(Some(400))
  {
    var records := CustomerStore().records;
    var customer := RecordKey("customer", 1);
    var a, b, c := RecordKey("order", 11), RecordKey("order", 12), RecordKey("order", 13);
    var q := RollupQuery("order", "amount", "customerId", 1);
    assert !Matches(q, customer, records[customer]);
    assert Siblings(records, q) == {a, b, c};
    SumOverRemove(records, {a, b, c}, "amount", a);
    assert {a, b, c} - {a} == {b, c};
    SumOverRemove(records, {b, c}, "amount", b);
    assert {b, c} - {b} == {c};
    SumOverRemove(records, {c}, "amount", c);
    assert {c} - {c} == {};
  }

  /**
   * A run triggered by the order for 250, with debug off at depth 1, sets the
   * customer's lifetimeTotal to 400.
   */
  lemma CustomerLifetimeTotalScenario()
    ensures
      var config := RollupConfig("amount", "customerId", "customer", "lifetimeTotal", false);
      var r := Run(config, WorkflowContext("order", 12, 1, 99), CustomerStore());
      r.outcome == Returned && r.records[RecordKey("customer", 1)] == map["lifetimeTotal" := MoneyVal(400)]
  {
    var s := CustomerStore();
    var config := RollupConfig("amount", "customerId", "customer", "lifetimeTotal", false);
    var ctx := WorkflowContext("order", 12, 1, 99);
    var child := RetrieveAnswer(s, "order", 12, ["customerId"]);
    assert "customerId" in child.value;
    assert Resolution(s, ctx, "customerId", false) == Normal(1);
    CustomerOrdersTotal400();
    var attributes := map["lifetimeTotal" := MoneyVal(400)];
    assert UpdateSucceeds(s, "customer", 1);
    var after := Applied(s.records, RecordKey("customer", 1), attributes);
    assert after[RecordKey("customer", 1)] == attributes;
    assert RunFrom(config, ctx, s, 1) == RunResult(Returned, RunFrom(config, ctx, s, 1).calls, after);
    assert Run(config, ctx, s) == RunFrom(config, ctx, s, 1);
  }
}
