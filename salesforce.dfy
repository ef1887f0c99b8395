/** The Salesforce SDK as the helpers see it: an engine whose `describeObject`,
    `query` and `delete` answers are uninterpreted functions and whose calls are
    recorded in a log, and the SDK's key/value `CacheProvider`. */
module Salesforce {
  import opened Js

  /** A record as a JavaScript object: property name to value. */
  type Record = map<string, JsValue>

  datatype QueryResult = QueryResult(records: seq<Record>, totalSize: nat)

  /** One entry of `describeObject(name).fields`. */
  datatype FieldDescribe = FieldDescribe(name: string, dataType: string)

  datatype Connection = Connection(instanceUrl: string)

  datatype Call =
    | Describe(sobject: string)
    | Query(soql: string)
    | Delete(ids: seq<JsValue>, sobject: string)

  /** `record[name]`: `undefined` for a missing property. */
  function Property(r: Record, name: string): (v: JsValue)
    ensures name !in r ==> v == JsUndefined
  {
    if name in r then r[name] else JsUndefined
  }

  /** `result.records[0]`, `undefined` when there is no record. */
  function FirstRecord(records: seq<Record>): (r: Option<Record>)
    ensures r.Some? <==> records != []
  {
    if records == [] then None else Some(records[0])
  }

  /** How many `query` calls a log holds. */
  function QueryCount(calls: seq<Call>): nat
    decreases |calls|
  {
    if calls == [] then 0
    else QueryCount(calls[..|calls| - 1]) + (if calls[|calls| - 1].Query? then 1 else 0)
  }

  class Engine {
    const describe: string -> seq<FieldDescribe>
    const answer: string -> QueryResult
    /** Whether the backend rejects (throws on) a bulk delete. */
    const rejectsDelete: (seq<JsValue>, string) -> bool
    var log: seq<Call>

    constructor (describe: string -> seq<FieldDescribe>, answer: string -> QueryResult,
                 rejectsDelete: (seq<JsValue>, string) -> bool)
      ensures this.describe == describe && this.answer == answer
      ensures this.rejectsDelete == rejectsDelete && log == []
    {
      this.describe := describe;
      this.answer := answer;
      this.rejectsDelete := rejectsDelete;
      log := [];
    }

    method DescribeObject(sobject: string) returns (fields: seq<FieldDescribe>)
      modifies this
      ensures fields == describe(sobject)
      ensures log == old(log) + [Describe(sobject)]
    {
      fields := describe(sobject);
      log := log + [Describe(sobject)];
    }

    method Query(soql: string) returns (result: QueryResult)
      modifies this
      ensures result == answer(soql)
      ensures log == old(log) + [Call.Query(soql)]
    {
      result := answer(soql);
      log := log + [Call.Query(soql)];
    }

    /** `engine.delete(ids, object)`; `ok` is false where the SDK would throw. */
    method DeleteRecords(ids: seq<JsValue>, sobject: string) returns (ok: bool)
      modifies this
      ensures ok == !rejectsDelete(ids, sobject)
      ensures log == old(log) + [Delete(ids, sobject)]
    {
      ok := !rejectsDelete(ids, sobject);
      log := log + [Delete(ids, sobject)];
    }
  }

  /** The SDK's process-wide result cache, with plain map semantics. */
  class CacheProvider {
    var entries: map<string, QueryResult>

    constructor ()
      ensures entries == map[]
    {
      entries := map[];
    }

    method HasCache(key: string) returns (present: bool)
      ensures present <==> key in entries
    {
      present := key in entries;
    }

    method GetCache(key: string) returns (result: QueryResult)
      requires key in entries
      ensures result == entries[key]
    {
      result := entries[key];
    }

    method SetCache(key: string, result: QueryResult)
      modifies this
      ensures entries == old(entries)[key := result]
    {
      entries := entries[key := result];
    }

    method DeleteCache(key: string)
      modifies this
      ensures entries == old(entries) - {key}
    {
      entries := entries - {key};
    }
  }
}
