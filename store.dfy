/**
 * An in-memory stand-in for the organization service that the rollup activity
 * talks to: a map from (entity name, id) to field maps, a log of every call the
 * activity makes, and switches that make a Retrieve, RetrieveMultiple or
 * Update fail. The aggregate query is a record evaluated here rather than
 * FetchXML text.
 */
module OrganizationStore {

  /** Record identifiers; `Guid.Empty` (all zeros) is 0. */
  type Guid = nat

  const EMPTY_GUID: Guid := 0

  /** The field that holds a record's state; 0 means active. */
  const STATE_FIELD := "statecode"

  /** What the store answers when asked to sum a field holding a non-money value. */
  const NOT_SUMMABLE_MESSAGE := "The aggregate attribute is not of a summable money type."

  datatype Option<+T> = None | Some(value: T)

  /** A normal result, or an exception described by `error`. */
  datatype Completion<+T, +E> = Normal(value: T) | Abrupt(error: E)

  /**
   * The values a field can hold. Option-set codes such as `statecode` are
   * `IntVal`; money amounts are whole numbers.
   */
  datatype Value =
    | NullVal
    | IntVal(code: int)
    | MoneyVal(amount: int)
    | RefVal(target: string, id: Guid)
    | TextVal(text: string)

  datatype RecordKey = RecordKey(entity: string, id: Guid)

  type Fields = map<string, Value>

  /**
   * An aggregate query: the sum of `sumField`, returned under `alias`, over the
   * records of `entity` whose `lookupField` refers to `parentId` and whose state
   * code is `stateCode`.
   */
  datatype AggregateQuery = AggregateQuery(
    entity: string,
    sumField: string,
    alias: string,
    lookupField: string,
    parentId: Guid,
    stateCode: int)

  /** A cell of a query answer: an aliased (computed) value or a plain attribute. */
  datatype Cell = Aliased(aliased: Value) | Plain(plain: Value)

  type Row = map<string, Cell>

  /** One call the activity made on the service, recorded whether or not it succeeded. */
  datatype Call =
    | RetrieveCall(entity: string, id: Guid, columns: seq<string>)
    | RetrieveMultipleCall(query: AggregateQuery)
    | UpdateCall(entity: string, id: Guid, attributes: Fields)

  /** The service's state as a value, for specifications. */
  datatype StoreView = StoreView(
    records: map<RecordKey, Fields>,
    failRetrieve: bool,
    failRetrieveMultiple: bool,
    failUpdate: bool,
    faultMessage: string)

  /** The answer to a Retrieve: the record restricted to the requested columns, or none. */
  function RetrieveAnswer(s: StoreView, entity: string, id: Guid, columns: seq<string>): (r: Option<Fields>)
    ensures r.Some? <==> !s.failRetrieve && RecordKey(entity, id) in s.records
    ensures r.Some? ==> forall f :: f in r.value <==> f in columns && f in s.records[RecordKey(entity, id)]
    ensures r.Some? ==> forall f :: f in r.value ==> r.value[f] == s.records[RecordKey(entity, id)][f]
  {
    var key := RecordKey(entity, id);
    if s.failRetrieve || key !in s.records then None
    else Some(map f | f in s.records[key] && f in columns :: s.records[key][f])
  }

  /** Whether `fields` holds a reference whose id is `id` in `lookupField`. */
  predicate RefersTo(fields: Fields, lookupField: string, id: Guid)
  {
    lookupField in fields && fields[lookupField].RefVal? && fields[lookupField].id == id
  }

  /** Whether the record passes both conditions of the query's filter. */
  predicate Matches(q: AggregateQuery, key: RecordKey, fields: Fields)
  {
    && key.entity == q.entity
    && RefersTo(fields, q.lookupField, q.parentId)
    && STATE_FIELD in fields && fields[STATE_FIELD] == IntVal(q.stateCode)
  }

  /** The records the query ranges over. */
  function Siblings(records: map<RecordKey, Fields>, q: AggregateQuery): (keys: set<RecordKey>)
    ensures keys <= records.Keys
  {
    set k | k in records && Matches(q, k, records[k])
  }

  /** Whether the record has a non-null value in `field` (a SQL sum skips nulls). */
  predicate HasAmount(fields: Fields, field: string)
  {
    field in fields && fields[field] != NullVal
  }

  /** Whether the record's `field` is null, absent, or money. */
  predicate Summable(fields: Fields, field: string)
  {
    HasAmount(fields, field) ==> fields[field].MoneyVal?
  }

  /** What the record adds to a sum over `field`. */
  function Amount(fields: Fields, field: string): int
  {
    if field in fields && fields[field].MoneyVal? then fields[field].amount else 0
  }

  ghost function Pick(keys: set<RecordKey>): (k: RecordKey)
    requires keys != {}
    ensures k in keys
  {
    var k :| k in keys; k
  }

  /** The sum of `field` over the records named by `keys`. */
  ghost function SumOver(records: map<RecordKey, Fields>, keys: set<RecordKey>, field: string): int
    requires keys <= records.Keys
    decreases keys
  {
    if keys == {} then 0
    else
      var k := Pick(keys);
      Amount(records[k], field) + SumOver(records, keys - {k}, field)
  }

  /** The sum does not depend on which record is taken first. */
  lemma {:induction false} SumOverRemove(records: map<RecordKey, Fields>, keys: set<RecordKey>, field: string, k: RecordKey)
    requires keys <= records.Keys && k in keys
    ensures SumOver(records, keys, field) == Amount(records[k], field) + SumOver(records, keys - {k}, field)
    decreases keys
  {
    var j := Pick(keys);
    if j != k {
      SumOverRemove(records, keys - {j}, field, k);
      SumOverRemove(records, keys - {k}, field, j);
      assert keys - {j} - {k} == keys - {k} - {j};
    }
  }

  /** The sum depends only on what the records it ranges over add to it. */
  lemma {:induction false} SumOverAgree(r1: map<RecordKey, Fields>, r2: map<RecordKey, Fields>, keys: set<RecordKey>, field: string)
    requires keys <= r1.Keys && keys <= r2.Keys
    requires forall k :: k in keys ==> Amount(r1[k], field) == Amount(r2[k], field)
    ensures SumOver(r1, keys, field) == SumOver(r2, keys, field)
    decreases keys
  {
    if keys != {} {
      var k := Pick(keys);
      SumOverAgree(r1, r2, keys - {k}, field);
      SumOverRemove(r2, keys, field, k);
    }
  }

  /**
   * The store's answer to an aggregate query: a single row that carries the
   * aliased total when at least one matching record holds an amount, and no
   * alias otherwise; a fault when switched to fail or when a matching record
   * holds a value that is not money.
   */
  ghost function AggregateAnswer(s: StoreView, q: AggregateQuery): (r: Completion<seq<Row>, string>)
    ensures r.Abrupt? <==>
      s.failRetrieveMultiple || exists k :: k in Siblings(s.records, q) && !Summable(s.records[k], q.sumField)
    ensures r.Abrupt? && s.failRetrieveMultiple ==> r.error == s.faultMessage
    ensures r.Normal? ==> |r.value| == 1 && r.value[0].Keys <= {q.alias}
    ensures r.Normal? ==>
      (q.alias in r.value[0] <==> exists k :: k in Siblings(s.records, q) && HasAmount(s.records[k], q.sumField))
    ensures r.Normal? && q.alias in r.value[0] ==>
      r.value[0][q.alias] == Aliased(MoneyVal(SumOver(s.records, Siblings(s.records, q), q.sumField)))
  {
    var sibs := Siblings(s.records, q);
    if s.failRetrieveMultiple then Abrupt(s.faultMessage)
    else if exists k :: k in sibs && !Summable(s.records[k], q.sumField) then Abrupt(NOT_SUMMABLE_MESSAGE)
    else if forall k :: k in sibs ==> !HasAmount(s.records[k], q.sumField) then Normal([map[]])
    else Normal([map[q.alias := Aliased(MoneyVal(SumOver(s.records, sibs, q.sumField)))]])
  }

  /** Whether an Update of (entity, id) succeeds. */
  predicate UpdateSucceeds(s: StoreView, entity: string, id: Guid)
  {
    !s.failUpdate && RecordKey(entity, id) in s.records
  }

  /** The records after a successful Update: the sent attributes overwrite those fields only. */
  function Applied(records: map<RecordKey, Fields>, key: RecordKey, attributes: Fields): map<RecordKey, Fields>
    requires key in records
  {
    records[key := records[key] + attributes]
  }

  /** Sums `field` over `keys`, one record at a time. */
  method SumAmounts(records: map<RecordKey, Fields>, keys: set<RecordKey>, field: string) returns (total: int)
    requires keys <= records.Keys
    ensures total == SumOver(records, keys, field)
  {
    total := 0;
    var pending := keys;
    while pending != {}
      invariant pending <= keys
      invariant total + SumOver(records, pending, field) == SumOver(records, keys, field)
      decreases pending
    {
      var k :| k in pending;
      SumOverRemove(records, pending, field, k);
      total := total + Amount(records[k], field);
      pending := pending - {k};
    }
  }

  /** The organization service: records, the call log and the fault switches. */
  class OrganizationService {
    var records: map<RecordKey, Fields>
    var log: seq<Call>
    var failRetrieve: bool
    var failRetrieveMultiple: bool
    var failUpdate: bool
    var faultMessage: string

    function View(): StoreView
      reads this
    {
      StoreView(records, failRetrieve, failRetrieveMultiple, failUpdate, faultMessage)
    }

    constructor (initial: StoreView)
      ensures View() == initial && log == []
    {
      records := initial.records;
      log := [];
      failRetrieve := initial.failRetrieve;
      failRetrieveMultiple := initial.failRetrieveMultiple;
      failUpdate := initial.failUpdate;
      faultMessage := initial.faultMessage;
    }

    /** Reads the given columns of one record; `None` stands for the fault it raises. */
    method Retrieve(entity: string, id: Guid, columns: seq<string>) returns (r: Option<Fields>)
      modifies this`log
      ensures log == old(log) + [RetrieveCall(entity, id, columns)]
      ensures r == RetrieveAnswer(View(), entity, id, columns)
    {
      log := log + [RetrieveCall(entity, id, columns)];
      var key := RecordKey(entity, id);
      if failRetrieve || key !in records {
        r := None;
      } else {
        r := Some(map f | f in records[key] && f in columns :: records[key][f]);
      }
    }

    /** Evaluates an aggregate query. */
    method RetrieveMultiple(q: AggregateQuery) returns (r: Completion<seq<Row>, string>)
      modifies this`log
      ensures log == old(log) + [RetrieveMultipleCall(q)]
      ensures r == AggregateAnswer(View(), q)
    {
      log := log + [RetrieveMultipleCall(q)];
      var sibs := Siblings(records, q);
      if failRetrieveMultiple {
        r := Abrupt(faultMessage);
      } else if exists k :: k in sibs && !Summable(records[k], q.sumField) {
        r := Abrupt(NOT_SUMMABLE_MESSAGE);
      } else if forall k :: k in sibs ==> !HasAmount(records[k], q.sumField) {
        r := Normal([map[]]);
      } else {
        var total := SumAmounts(records, sibs, q.sumField);
        r := Normal([map[q.alias := Aliased(MoneyVal(total))]]);
      }
    }

    /** Writes the given attributes onto one record; `false` stands for the fault it raises. */
    method Update(entity: string, id: Guid, attributes: Fields) returns (ok: bool)
      modifies this`log, this`records
      ensures log == old(log) + [UpdateCall(entity, id, attributes)]
      ensures ok == UpdateSucceeds(old(View()), entity, id)
      ensures records == if ok then Applied(old(records), RecordKey(entity, id), attributes) else old(records)
    {
      log := log + [UpdateCall(entity, id, attributes)];
      var key := RecordKey(entity, id);
      ok := !failUpdate && key in records;
      if ok {
        records := records[key := records[key] + attributes];
      }
    }
  }

  /** Hands out the service, remembering on whose behalf each one was created. */
  class ServiceFactory {
    const store: OrganizationService
    var sessions: seq<Guid>

    constructor (store: OrganizationService)
      ensures this.store == store && sessions == []
    {
      this.store := store;
      sessions := [];
    }

    method CreateOrganizationService(userId: Guid) returns (s: OrganizationService)
      modifies this`sessions
      ensures s == store && sessions == old(sessions) + [userId]
    {
      sessions := sessions + [userId];
      s := store;
    }
  }
}
