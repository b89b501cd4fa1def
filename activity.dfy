/**
 * The rollup workflow activity: on a change to a child record it finds the
 * parent through a lookup field, sums a money field over the parent's active
 * children, and writes the total onto the parent. A debug flag decides whether
 * failures surface as exceptions or are swallowed, and switches off the
 * re-entrancy guard.
 */
module WARollup {
  import opened OrganizationStore

  /** The activity's configured inputs. */
  datatype RollupConfig = RollupConfig(
    childRollupFieldName: string,
    childLookupFieldName: string,
    parentEntityName: string,
    parentRollupResultFieldName: string,
    debugMode: bool)

  /** What the workflow host tells the activity about the current invocation. */
  datatype WorkflowContext = WorkflowContext(
    primaryEntityName: string,
    primaryEntityId: Guid,
    depth: int,
    initiatingUserId: Guid)

  /**
   * The exceptions a run can end with: the two hints the activity throws itself,
   * a failed cast of the cell under the alias, the null dereference of a null
   * cell taken for an aliased value, and a store fault it does not catch.
   */
  datatype ErrorMessage =
    | LookupFieldHint(childLookupFieldName: string)
    | UpdateTargetHint(parentEntityName: string, parentRollupResultFieldName: string)
    | InvalidCast
    | NullReference
    | StoreFault(text: string)

  /** How a run ends, from the host's point of view. */
  datatype Outcome = Returned | Thrown(error: ErrorMessage)

  /** The alias under which the aggregate query returns its total. */
  const ROLLUP_ALIAS := "ds_rolluptotal"

  /** The state code of an active record. */
  const ACTIVE_STATE := 0

  /** Whether `part` occurs in `text` starting at position `i`. */
  ghost predicate OccursAt(text: string, part: string, i: int)
  {
    0 <= i && i + |part| <= |text| && text[i..i + |part|] == part
  }

  /** Whether `part` occurs in `text`. */
  ghost predicate Mentions(text: string, part: string)
  {
    exists i :: OccursAt(text, part, i)
  }

  lemma MentionsMiddle(prefix: string, part: string, suffix: string)
    ensures Mentions(prefix + part + suffix, part)
  {
    var text := prefix + part + suffix;
    assert OccursAt(text, part, |prefix|) by {
      assert text[|prefix|..|prefix| + |part|] == part;
    }
  }

  /** The text of an exception; the two hints name the configured fields they are about. */
  function Text(e: ErrorMessage): (t: string)
    ensures e.LookupFieldHint? ==> Mentions(t, e.childLookupFieldName)
    ensures e.UpdateTargetHint? ==> Mentions(t, e.parentEntityName) && Mentions(t, e.parentRollupResultFieldName)
    ensures e.StoreFault? ==> t == e.text
  {
    match e
    case LookupFieldHint(field) =>
      var prefix := "Something went wrong. Make sure that the Child Lookup Field ('";
      var suffix := "') is correct.";
      MentionsMiddle(prefix, field, suffix);
      prefix + field + suffix
    case UpdateTargetHint(parent, field) =>
      var head := "Something went wrong. Make sure that the Parent Entity Name ('";
      var middle := "' and Parent Entity Roll-up Result Field ('";
      var tail := "') are correct.";
      MentionsMiddle(head, parent, middle + field + tail);
      MentionsMiddle(head + parent + middle, field, tail);
      assert head + parent + (middle + field + tail) == head + parent + middle + field + tail;
      head + parent + middle + field + tail
    case InvalidCast => "Specified cast is not valid."
    case NullReference => "Object reference not set to an instance of an object."
    case StoreFault(text) => text
  }

  /** Whether the retrieved child holds a reference in its lookup field. */
  predicate HoldsReference(child: Option<Fields>, childLookupFieldName: string)
  {
    child.Some? && childLookupFieldName in child.value && child.value[childLookupFieldName].RefVal?
  }

  /**
   * How parent resolution ends, given what Retrieve answered: the referenced id;
   * otherwise an exception naming the lookup field in debug mode, and the empty
   * id when debug mode is off.
   */
  function ResolveOutcome(child: Option<Fields>, childLookupFieldName: string, debugMode: bool): (r: Completion<Guid, ErrorMessage>)
    ensures r.Abrupt? <==> debugMode && !HoldsReference(child, childLookupFieldName)
    ensures r.Abrupt? ==> r.error == LookupFieldHint(childLookupFieldName)
    ensures HoldsReference(child, childLookupFieldName) ==> r == Normal(child.value[childLookupFieldName].id)
    ensures !debugMode && !HoldsReference(child, childLookupFieldName) ==> r == Normal(EMPTY_GUID)
  {
    if HoldsReference(child, childLookupFieldName) then Normal(child.value[childLookupFieldName].id)
    else if debugMode then Abrupt(LookupFieldHint(childLookupFieldName))
    else Normal(EMPTY_GUID)
  }

  /**
   * The aggregate query over the active siblings of the triggering record: it
   * sums the rollup field under the alias, over exactly the records of the
   * triggering entity whose lookup refers to the parent and whose state is active.
   */
  function RollupQuery(primaryEntityName: string, childRollupFieldName: string, childLookupFieldName: string, parentEntityId: Guid)
    : (q: AggregateQuery)
    ensures q.sumField == childRollupFieldName && q.alias == ROLLUP_ALIAS
    ensures forall key, fields :: Matches(q, key, fields) <==>
      && key.entity == primaryEntityName
      && RefersTo(fields, childLookupFieldName, parentEntityId)
      && STATE_FIELD in fields && fields[STATE_FIELD] == IntVal(0)
  {
    AggregateQuery(primaryEntityName, childRollupFieldName, ROLLUP_ALIAS, childLookupFieldName, parentEntityId, ACTIVE_STATE)
  }

  /**
   * The rollup total carried by a query answer: null unless the first row holds
   * the alias; the aliased money value (or null) when it does. Any other cell
   * throws: a plain null passes the cast to an aliased value and is then
   * dereferenced, and every other cell fails one of the two casts.
   */
  function ExtractRollup(rows: seq<Row>): (r: Completion<Option<int>, ErrorMessage>)
    ensures (|rows| == 0 || ROLLUP_ALIAS !in rows[0]) ==> r == Normal(None)
    ensures r.Normal? && r.value.Some? ==>
      |rows| > 0 && ROLLUP_ALIAS in rows[0] && rows[0][ROLLUP_ALIAS] == Aliased(MoneyVal(r.value.value))
    ensures forall m :: |rows| > 0 && ROLLUP_ALIAS in rows[0] && rows[0][ROLLUP_ALIAS] == Aliased(MoneyVal(m)) ==>
      r == Normal(Some(m))
    ensures r.Abrupt? <==>
      |rows| > 0 && ROLLUP_ALIAS in rows[0] &&
      !(rows[0][ROLLUP_ALIAS].Aliased? && (rows[0][ROLLUP_ALIAS].aliased.MoneyVal? || rows[0][ROLLUP_ALIAS].aliased.NullVal?))
    ensures r.Abrupt? ==> r.error == NullReference || r.error == InvalidCast
    ensures r.Abrupt? ==> (r.error == NullReference <==> rows[0][ROLLUP_ALIAS] == Plain(NullVal))
  {
    if |rows| > 0 && ROLLUP_ALIAS in rows[0] then
      match rows[0][ROLLUP_ALIAS]
      case Aliased(MoneyVal(m)) => Normal(Some(m))
      case Aliased(NullVal) => Normal(None)
      case Aliased(_) => Abrupt(InvalidCast)
      case Plain(NullVal) => Abrupt(NullReference)
      case Plain(_) => Abrupt(InvalidCast)
    else
      Normal(None)
  }

  /**
   * The field value a rollup result is written as: money, or null. An answer
   * carrying that value under the alias reads back as the same result.
   */
  function RollupValue(rollupResult: Option<int>): (v: Value)
    ensures v.MoneyVal? <==> rollupResult.Some?
    ensures v.NullVal? <==> rollupResult.None?
    ensures rollupResult.Some? ==> v.amount == rollupResult.value
    ensures ExtractRollup([map[ROLLUP_ALIAS := Aliased(v)]]) == Normal(rollupResult)
  {
    match rollupResult
    case Some(m) => MoneyVal(m)
    case None => NullVal
  }

  /** How the run ends, given whether the Update succeeded. */
  function UpdateOutcome(ok: bool, parentEntityName: string, parentRollupResultFieldName: string, debugMode: bool): (o: Outcome)
    ensures o.Thrown? <==> !ok && debugMode
    ensures o.Thrown? ==> o.error == UpdateTargetHint(parentEntityName, parentRollupResultFieldName)
  {
    if !ok && debugMode then Thrown(UpdateTargetHint(parentEntityName, parentRollupResultFieldName))
    else Returned
  }

  /**
   * Whether the re-entrancy guard ends the run before any store call: never in
   * debug mode, and otherwise exactly when the run is deeper than depth 1.
   */
  predicate Guarded(config: RollupConfig, ctx: WorkflowContext): (g: bool)
    ensures config.debugMode ==> !g
    ensures !config.debugMode ==> (g <==> ctx.depth > 1)
  {
    !config.debugMode && ctx.depth > 1
  }

  /** What a run produced: how it ended, the calls it made, the records afterwards. */
  datatype RunResult = RunResult(outcome: Outcome, calls: seq<Call>, records: map<RecordKey, Fields>)

  /** The resolution call of a run. */
  function ResolutionCall(config: RollupConfig, ctx: WorkflowContext): Call
  {
    RetrieveCall(ctx.primaryEntityName, ctx.primaryEntityId, [config.childLookupFieldName])
  }

  /** Parent resolution against store `s`: what Retrieve answers, read under the error policy. */
  function Resolution(s: StoreView, ctx: WorkflowContext, childLookupFieldName: string, debugMode: bool): Completion<Guid, ErrorMessage>
  {
    var child := RetrieveAnswer(s, ctx.primaryEntityName, ctx.primaryEntityId, [childLookupFieldName]);
    ResolveOutcome(child, childLookupFieldName, debugMode)
  }

  /** Aggregation against store `s`: a store fault, or the total read out of its answer. */
  ghost function Rollup(s: StoreView, q: AggregateQuery): Completion<Option<int>, ErrorMessage>
  {
    var answer := AggregateAnswer(s, q);
    if answer.Abrupt? then Abrupt(StoreFault(answer.error)) else ExtractRollup(answer.value)
  }

  /**
   * The whole run against store `s`: guard, resolve, then aggregate and update.
   * Only the guard ends a run without a call; a run that throws writes nothing;
   * a run that writes has made all three calls and returned.
   */
  ghost function Run(config: RollupConfig, ctx: WorkflowContext, s: StoreView): (r: RunResult)
    ensures r.calls == [] <==> Guarded(config, ctx)
    ensures |r.calls| <= 3
    ensures r.outcome.Thrown? ==> r.records == s.records
    ensures r.records != s.records ==> |r.calls| == 3 && r.outcome == Returned
  {
    if Guarded(config, ctx) then RunResult(Returned, [], s.records)
    else
      var resolved := Resolution(s, ctx, config.childLookupFieldName, config.debugMode);
      if resolved.Abrupt? then RunResult(Thrown(resolved.error), [ResolutionCall(config, ctx)], s.records)
      else RunFrom(config, ctx, s, resolved.value)
  }

  /**
   * The rest of a run once the parent id is known: the query filters on that id,
   * and the update, when the query does not fault, targets that id under the
   * configured parent entity; a thrown run writes nothing.
   */
  ghost function RunFrom(config: RollupConfig, ctx: WorkflowContext, s: StoreView, parentId: Guid): (r: RunResult)
    ensures 2 <= |r.calls| <= 3
    ensures r.calls[0] == ResolutionCall(config, ctx)
    ensures r.calls[1] ==
      RetrieveMultipleCall(RollupQuery(ctx.primaryEntityName, config.childRollupFieldName, config.childLookupFieldName, parentId))
    ensures |r.calls| == 3 <==> Rollup(s, r.calls[1].query).Normal?
    ensures |r.calls| == 3 ==> r.calls[2].UpdateCall? && r.calls[2].entity == config.parentEntityName && r.calls[2].id == parentId
    ensures r.outcome.Thrown? ==> r.records == s.records
  {
    var q := RollupQuery(ctx.primaryEntityName, config.childRollupFieldName, config.childLookupFieldName, parentId);
    var rollup := Rollup(s, q);
    var calls := [ResolutionCall(config, ctx), RetrieveMultipleCall(q)];
    if rollup.Abrupt? then RunResult(Thrown(rollup.error), calls, s.records)
    else
      var attributes := map[config.parentRollupResultFieldName := RollupValue(rollup.value)];
      var ok := UpdateSucceeds(s, config.parentEntityName, parentId);
      RunResult(
        UpdateOutcome(ok, config.parentEntityName, config.parentRollupResultFieldName, config.debugMode),
        calls + [UpdateCall(config.parentEntityName, parentId, attributes)],
        if ok then Applied(s.records, RecordKey(config.parentEntityName, parentId), attributes) else s.records)
  }

  /** The workflow activity. The helpers read the fields `Execute` sets. */
  class Activity {
    var debugMode: bool
    var workflowContext: WorkflowContext
    var serviceFactory: ServiceFactory?
    var service: OrganizationService?

    constructor ()
      ensures !debugMode && serviceFactory == null && service == null
    {
      debugMode := false;
      workflowContext := WorkflowContext("", EMPTY_GUID, 0, EMPTY_GUID);
      serviceFactory := null;
      service := null;
    }

    method Execute(config: RollupConfig, ctx: WorkflowContext, factory: ServiceFactory) returns (outcome: Outcome)
      modifies this, factory`sessions, factory.store
      ensures service == factory.store && serviceFactory == factory
      ensures debugMode == config.debugMode && workflowContext == ctx
      ensures factory.sessions == old(factory.sessions) + [ctx.initiatingUserId]
      ensures var r := Run(config, ctx, old(factory.store.View()));
        && outcome == r.outcome
        && factory.store.log == old(factory.store.log) + r.calls
        && factory.store.View() == old(factory.store.View()).(records := r.records)
    {
      debugMode := config.debugMode;
      workflowContext := ctx;
      serviceFactory := factory;
      service := factory.CreateOrganizationService(ctx.initiatingUserId);

      if !debugMode && workflowContext.depth > 1 {
        return Returned;
      }

      var parentEntityId := GetParentEntityId(config.childLookupFieldName);
      if parentEntityId.Abrupt? {
        return Thrown(parentEntityId.error);
      }
      var rollupResult := GetRollupResult(parentEntityId.value, config.childRollupFieldName, config.childLookupFieldName);
      if rollupResult.Abrupt? {
        return Thrown(rollupResult.error);
      }
      outcome := UpdateRollupResultOnParent(config.parentEntityName, parentEntityId.value,
        config.parentRollupResultFieldName, rollupResult.value);
    }

    method GetParentEntityId(childLookupFieldName: string) returns (r: Completion<Guid, ErrorMessage>)
      requires service != null
      modifies service`log
      ensures service.log == old(service.log) +
        [RetrieveCall(workflowContext.primaryEntityName, workflowContext.primaryEntityId, [childLookupFieldName])]
      ensures r == Resolution(service.View(), workflowContext, childLookupFieldName, debugMode)
    {
      var parentEntityId := EMPTY_GUID;
      var childEntity := service.Retrieve(workflowContext.primaryEntityName, workflowContext.primaryEntityId,
        [childLookupFieldName]);
      if HoldsReference(childEntity, childLookupFieldName) {
        parentEntityId := childEntity.value[childLookupFieldName].id;
      } else if debugMode {
        return Abrupt(LookupFieldHint(childLookupFieldName));
      }
      return Normal(parentEntityId);
    }

    method GetRollupResult(parentEntityId: Guid, childRollupFieldName: string, childLookupFieldName: string)
      returns (r: Completion<Option<int>, ErrorMessage>)
      requires service != null
      modifies service`log
      ensures var q := RollupQuery(workflowContext.primaryEntityName, childRollupFieldName, childLookupFieldName, parentEntityId);
        && service.log == old(service.log) + [RetrieveMultipleCall(q)]
        && r == Rollup(service.View(), q)
    {
      var query := RollupQuery(workflowContext.primaryEntityName, childRollupFieldName, childLookupFieldName, parentEntityId);
      var result := service.RetrieveMultiple(query);
      if result.Abrupt? {
        return Abrupt(StoreFault(result.error));
      }
      r := ExtractRollup(result.value);
    }

    method UpdateRollupResultOnParent(parentEntityName: string, parentEntityId: Guid,
                                      parentRollupResultFieldName: string, rollupResult: Option<int>)
      returns (o: Outcome)
      requires service != null
      modifies service`log, service`records
      ensures var attributes := map[parentRollupResultFieldName := RollupValue(rollupResult)];
        var ok := UpdateSucceeds(old(service.View()), parentEntityName, parentEntityId);
        && service.log == old(service.log) + [UpdateCall(parentEntityName, parentEntityId, attributes)]
        && service.records ==
           (if ok then Applied(old(service.records), RecordKey(parentEntityName, parentEntityId), attributes)
            else old(service.records))
        && o == UpdateOutcome(ok, parentEntityName, parentRollupResultFieldName, debugMode)
    {
      var attributes: Fields := map[];
      attributes := attributes[parentRollupResultFieldName := RollupValue(rollupResult)];
      var ok := service.Update(parentEntityName, parentEntityId, attributes);
      if !ok {
        if debugMode {
          return Thrown(UpdateTargetHint(parentEntityName, parentRollupResultFieldName));
        } else {
          return Returned;
        }
      }
      return Returned;
    }
  }
}
