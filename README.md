# WARollup in Dafny

A model of the rollup workflow activity of DynamicsCRM-WARollup. The activity runs when a child record
changes. It reads the child's lookup field to find the parent. It sums a money field over the parent's
active children with one aggregate query. Then it writes the total onto a result field of the parent.
A debug flag decides two things. When it is off, the activity stops at once if the workflow depth is
above 1, and it swallows resolution and update failures. When it is on, the depth is ignored and those
failures are thrown with a hint naming the configured fields.

The project has three modules:

- `OrganizationStore` (store.dfy) stands in for the organization service. It keeps an in-memory map
  from (entity name, id) to field maps, a log of every Retrieve, RetrieveMultiple and Update, and
  switches that make each of them fail. It evaluates the aggregate query, given as a record
  `(entity, sum field, alias, lookup field, parent id, state code)`. `StoreView` is the service's state
  as a value. `ServiceFactory` hands out the service and records on whose behalf it did so.
- `WARollup` (activity.dfy) holds the `Activity` class. It has the fields `debugMode`,
  `workflowContext`, `serviceFactory` and `service`, which `Execute` sets; the three helpers read
  `debugMode`, `workflowContext` and `service`.
  The module also holds the step functions the helpers are specified by, and the ghost function `Run`,
  which gives a whole run's outcome, call sequence and resulting records for a given store state.
  `Execute` is proved to produce exactly what `Run` says.
- `RollupProperties` (properties.dfy) proves what a run does, as lemmas about `Run`.

Exceptions are values. A helper returns `Completion` (`Normal(value)` or `Abrupt(error)`), and a run
ends in `Outcome` (`Returned` or `Thrown(error)`). The error is a structured `ErrorMessage`, and `Text`
renders it as the source's exception text. There are two hints that the activity throws itself. There
is a failed cast of the cell under the alias, and the null dereference of a null cell taken for an
aliased value. And there is a store fault from the aggregate query, which the activity does not catch.

Ids are natural numbers: `Guid.Empty` is 0. Money amounts are integers. `statecode` holds `IntVal(code)`,
and 0 means active.

Points of the code's behaviour that are easy to miss:

- With debug off, a failed resolution does not abort the run. `GetParentEntityId` returns `Guid.Empty`,
  and `Execute` then queries and updates with that id (Activity.cs:57-59, 64, 83). The update then
  usually fails for lack of a parent with id 0, and that failure is swallowed.
  `ResolutionFailureContinues` states this behaviour.
- Resolution throws only in debug mode (Activity.cs:77-80).
- The entity named in the child's reference is never used. The update always goes to the configured
  parent entity name.
- The service is created before the guard is checked (Activity.cs:45, 49). So even a guarded run
  creates it. `Execute` states this through the factory's `sessions` log.

## Model

| member | source | states |
|---|---|---|
| WARollup.Activity.Execute | DS.DynamicsCRM.WARollup/Activity.cs:38-60 | the service is created for the initiating user before the guard, whatever happens next; the outcome, the calls added to the log and the new records are those `Run` gives for the old store state; no fault switch changes |
| WARollup.Activity.GetParentEntityId | DS.DynamicsCRM.WARollup/Activity.cs:62-84 | logs one Retrieve of (PrimaryEntityName, PrimaryEntityId) with the lookup field as the only column, and ends as `Resolution` says for the store's answer; records unchanged |
| WARollup.Activity.GetRollupResult | DS.DynamicsCRM.WARollup/Activity.cs:86-108 | logs one RetrieveMultiple of the rollup query for the given parent id; passes on a store fault and otherwise returns the total read out of the answer; records unchanged |
| WARollup.Activity.UpdateRollupResultOnParent | DS.DynamicsCRM.WARollup/Activity.cs:110-126 | logs one Update of (parent entity, parent id) carrying exactly one attribute, the result field set to the rollup value or null; the records change by that update exactly when it succeeds; a failure throws the update hint in debug mode and returns otherwise |
| WARollup.ResolveOutcome | DS.DynamicsCRM.WARollup/Activity.cs:64-83 | the referenced id when the retrieved child holds a reference in the lookup field; otherwise the lookup hint in debug mode and the empty id when debug is off; throws exactly when debug is on and there is no reference |
| WARollup.ExtractRollup | DS.DynamicsCRM.WARollup/Activity.cs:88-107 | null when there is no row or the first row lacks `ds_rolluptotal`; the aliased money amount when it holds one, and null for an aliased null; an exception exactly when the cell under the alias is anything else, which is a null dereference for a plain null cell and a cast failure for every other cell |
| WARollup.RollupQuery | DS.DynamicsCRM.WARollup/Activity.cs:90-98 | the query sums the rollup field under `ds_rolluptotal`, and a record matches it exactly when it is of the triggering entity, its lookup refers to the parent id, and its statecode is 0 |
| WARollup.RollupValue | DS.DynamicsCRM.WARollup/Activity.cs:113 | the result is written as money holding the total, or as null when there is no total; an answer carrying that value under the alias reads back as the same total |
| WARollup.Guarded | DS.DynamicsCRM.WARollup/Activity.cs:49 | the guard never applies in debug mode, and with debug off it applies exactly when the depth is above 1 |
| WARollup.Run | DS.DynamicsCRM.WARollup/Activity.cs:38-60 | a whole run makes no call exactly when the guard applies and at most three calls otherwise; a run that throws writes nothing; a run that writes has made all three calls and returned |
| WARollup.RunFrom | DS.DynamicsCRM.WARollup/Activity.cs:57-59 | once the parent id is known, the run makes the Retrieve, then the RetrieveMultiple of the query for that id, then the Update of that id under the parent entity exactly when the query did not throw; a thrown run writes nothing |
| OrganizationStore.AggregateAnswer | DS.DynamicsCRM.WARollup/Activity.cs:100 | the query faults exactly when switched to fail or when a matching record holds a non-money value; otherwise it answers one row, which carries the alias exactly when some matching record holds an amount, and then carries the sum over the matching records |
| WARollup.UpdateOutcome | DS.DynamicsCRM.WARollup/Activity.cs:119-125 | throws exactly when the update failed and debug is on, and then throws the hint naming the parent entity and the result field |
| WARollup.Text | DS.DynamicsCRM.WARollup/Activity.cs:80-122 | the lookup hint's text contains the lookup field name; the update hint's text contains both the parent entity name and the result field name; a store fault keeps the store's text |
| RollupProperties.GuardSkipsStore | DS.DynamicsCRM.WARollup/Activity.cs:49-50 | with debug off and depth above 1 the run returns normally with no call in the log and the records unchanged |
| RollupProperties.DebugIgnoresDepth | DS.DynamicsCRM.WARollup/Activity.cs:49-50 | with debug on the run is the same for every depth and always makes at least one call |
| RollupProperties.CallOrder | DS.DynamicsCRM.WARollup/Activity.cs:57-59 | an unguarded run makes one to three calls: the Retrieve first, then a RetrieveMultiple, then an Update; a run that stops before the Update has thrown and changed nothing |
| RollupProperties.ResolvedParentIsTarget | DS.DynamicsCRM.WARollup/Activity.cs:68-75 | when the child's lookup field holds a reference, the query filters on that reference's id and the update targets that id under the configured parent entity name |
| RollupProperties.ResolutionFailureSurfaces | DS.DynamicsCRM.WARollup/Activity.cs:77-80 | with debug on, a failed Retrieve, a missing lookup field or a non-reference value ends the run after the one Retrieve with the lookup hint, whose text names the lookup field; nothing is written |
| RollupProperties.ResolutionFailureContinues | DS.DynamicsCRM.WARollup/Activity.cs:57-83 | with debug off a failed resolution goes on to query and update with the empty id; if no parent record has the empty id, no record changes and the run throws only when the query does |
| RollupProperties.UpdateCarriesActiveTotal | DS.DynamicsCRM.WARollup/Activity.cs:90-107 | the update carries the sum of the rollup field over the records of the triggering entity whose lookup refers to the parent and whose statecode is 0, or null when none of them holds an amount |
| RollupProperties.UpdateTouchesOneField | DS.DynamicsCRM.WARollup/Activity.cs:112-117 | the update's attributes are exactly the result field; the records either stay as they were or differ only in that field of that one parent record |
| RollupProperties.UpdateFailurePolicy | DS.DynamicsCRM.WARollup/Activity.cs:119-125 | a failed update writes nothing; with debug on the run throws the update hint, whose text names the parent entity and the result field; with debug off it returns normally |
| RollupProperties.UpdateSuccessReturns | DS.DynamicsCRM.WARollup/Activity.cs:115-117 | a run whose update succeeds returns normally |
| RollupProperties.AggregateFaultPropagates | DS.DynamicsCRM.WARollup/Activity.cs:100 | a fault of the aggregate query ends the run with that fault in either debug mode, after two calls and with nothing written |
| RollupProperties.RerunChangesNothing | DS.DynamicsCRM.WARollup/Activity.cs:57-59 | when the parent entity is not the triggering entity, or the result field is none of the lookup, rollup and statecode fields, a second run on the records the first left behind makes the same calls, ends the same way and leaves the same records |
| RollupProperties.InactiveSiblingExcluded | DS.DynamicsCRM.WARollup/Activity.cs:95 | siblings of 10 (active), 5 (inactive) and 7 (active) roll up to 17 |
| RollupProperties.CustomerOrdersTotal400 | DS.DynamicsCRM.WARollup/Activity.cs:90-107 | three active orders of one customer for 100, 250 and 50 roll up to 400 |
| RollupProperties.CustomerLifetimeTotalScenario | DS.DynamicsCRM.WARollup/Activity.cs:38-60 | a run triggered by one of those orders returns normally and sets the customer's `lifetimeTotal` to 400 |
| OrganizationStore.RetrieveAnswer | DS.DynamicsCRM.WARollup/Activity.cs:68-73 | a Retrieve answers exactly when it is not switched to fail and the record exists, with exactly the requested columns the record has and their values |
| OrganizationStore.OrganizationService.Retrieve | DS.DynamicsCRM.WARollup/Activity.cs:69-73 | logs the call and answers as `RetrieveAnswer` |
| OrganizationStore.OrganizationService.RetrieveMultiple | DS.DynamicsCRM.WARollup/Activity.cs:100 | logs the call and answers as `AggregateAnswer` |
| OrganizationStore.OrganizationService.Update | DS.DynamicsCRM.WARollup/Activity.cs:117 | logs the call; succeeds exactly when not switched to fail and the record exists, and then merges the sent attributes into that record only |
| OrganizationStore.SumAmounts | DS.DynamicsCRM.WARollup/Activity.cs:92 | the sum of the field over the given records, as the ghost `SumOver` defines it |
| OrganizationStore.ServiceFactory.CreateOrganizationService | DS.DynamicsCRM.WARollup/Activity.cs:45 | returns the store and records the user it was created for |

## Left out

- Workflow host wiring is not modelled: `CodeActivity`, the `InArgument.Get` and `GetExtension` calls, the argument attributes and the `context` field. The configured strings, the debug flag and the workflow context (entity name, id, depth, initiating user) are plain parameters.
- FetchXML text is not modelled: its concatenation, escaping, injection and the `distinct` flag. The query is a record that the modelled store evaluates.
- Money is an integer. Decimal precision, currency and the store's saturation are not modelled.
- SDK exception classes are collapsed. A failing Retrieve becomes a `None` answer, a failing Update a `false` answer, and a failing RetrieveMultiple becomes the store's fault text.
- The store's schema is not modelled. An invalid entity or attribute name shows up only through the fault switches or a missing record.
- A sum over a field holding a non-money value is refused by the modelled store as a fault. The real platform may instead return another numeric type, which the activity's cast to money rejects. The activity catches neither, so the run throws either way. The cast failure and the null dereference are modelled separately in `ExtractRollup`.
- When no active sibling holds an amount, the modelled store answers one row without the alias. An answer with an aliased null is handled by `ExtractRollup` in the same way, yielding null.
- Concurrent runs on the same parent, and the store's last-write-wins behaviour, are not modelled.
- Determinism of resolution needs no lemma: `Run` and `Resolution` are functions of the store state.
- The exception texts of platform faults are whatever the store reports. The texts of the cast failure and the null dereference are the usual .NET texts.
