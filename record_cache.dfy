/** The data-table step "Verify in <object> of <fields> value as <values> on
    <criteria>": each row looks its object and criteria up in the SDK cache,
    describes and queries on a miss, compares one field, and the keys the step
    inserted are flushed at the end. Run is the specification of the row loop;
    VerifyRecordTable is the step itself. */
module RecordCache {
  import opened Js
  import opened Salesforce
  import opened SfdcUtilities
  import opened DataTable

  datatype Row = Row(sobject: string, fields: string, values: string, criteria: string)

  /** The cache key: object and criteria joined by ":". */
  function CacheKey(sobject: string, criteria: string): string {
    sobject + ":" + criteria
  }

  /** Plain concatenation: different (object, criteria) pairs can share a key. */
  lemma CacheKeyCollides()
    ensures CacheKey("Account:Name", "x") == CacheKey("Account", "Name:x")
  {
  }

  function RowKey(row: Row): string {
    CacheKey(row.sobject, row.criteria)
  }

  /** The keys the first `n` rows look up. */
  function KeysTo(rows: seq<Row>, n: nat): (keys: set<string>)
    requires n <= |rows|
    ensures forall i :: 0 <= i < n ==> RowKey(rows[i]) in keys
    decreases n
  {
    if n == 0 then {} else KeysTo(rows, n - 1) + {RowKey(rows[n - 1])}
  }

  lemma {:induction false} KeysToMonotone(rows: seq<Row>, n: nat, m: nat)
    requires n <= m <= |rows|
    ensures KeysTo(rows, n) <= KeysTo(rows, m)
    decreases m
  {
    if n < m {
      KeysToMonotone(rows, n, m - 1);
    }
  }

  /** The names of the fields whose describe type is `integer` or `double`. */
  function NumericNames(fields: seq<FieldDescribe>): set<string>
    decreases |fields|
  {
    if fields == [] then {}
    else
      var last := fields[|fields| - 1];
      NumericNames(fields[..|fields| - 1]) + (if last.dataType in ["integer", "double"] then {last.name} else {})
  }

  lemma {:induction false} NumericNamesMeaning(fields: seq<FieldDescribe>, name: string)
    ensures name in NumericNames(fields)
            <==> exists i :: 0 <= i < |fields| && fields[i].name == name && fields[i].dataType in ["integer", "double"]
    decreases |fields|
  {
    if fields != [] {
      var init := fields[..|fields| - 1];
      NumericNamesMeaning(init, name);
      if exists i :: 0 <= i < |init| && init[i].name == name && init[i].dataType in ["integer", "double"] {
        var i :| 0 <= i < |init| && init[i].name == name && init[i].dataType in ["integer", "double"];
        assert fields[i] == init[i];
      }
      if exists i :: 0 <= i < |fields| && fields[i].name == name && fields[i].dataType in ["integer", "double"] {
        var i :| 0 <= i < |fields| && fields[i].name == name && fields[i].dataType in ["integer", "double"];
        if i < |init| { assert init[i] == fields[i]; }
      }
    }
  }

  /** The comparison of one row: a numeric field by its `toString`, the literal
      "null" against `null`, anything else by strict equality with the string. */
  predicate RowMatches(value: string, data: JsValue, numeric: bool) {
    if numeric then OptionalToString(data) == Some(value)
    else if value == "null" then data == JsNull
    else data == JsString(value)
  }

  lemma NumericComparesText(value: string, text: string)
    ensures RowMatches(value, JsNumber(text), true) <==> text == value
    ensures !RowMatches(value, JsNumber(text), false)
    ensures !RowMatches(value, JsNull, true) && !RowMatches(value, JsUndefined, true)
  {
  }

  /** "null" matches `null` only: neither `undefined` nor the string "null". */
  lemma NullLiteralMeansNull(data: JsValue)
    ensures RowMatches("null", data, false) <==> data == JsNull
    ensures !RowMatches("null", JsUndefined, false) && !RowMatches("null", JsString("null"), false)
  {
  }

  /** What the step gets from outside: the engine's describe and query answers,
      the uninterpreted `getPropertyByPath`, and what a miss derives from a
      describe (the query text it sends and the numeric field names). */
  datatype Services = Services(
    describe: string -> seq<FieldDescribe>,
    answer: string -> QueryResult,
    propertyByPath: (Option<Record>, string) -> JsValue,
    missQuery: Row -> string,
    numericOf: string -> set<string>)

  /** The services of an engine: a miss sends the all-fields query built from
      the object's describe. */
  function EngineServices(describe: string -> seq<FieldDescribe>, answer: string -> QueryResult,
                          propertyByPath: (Option<Record>, string) -> JsValue): Services {
    Services(describe, answer, propertyByPath,
             (row: Row) => SelectAll(Names(describe(row.sobject)), row.sobject, row.criteria),
             (sobject: string) => NumericNames(describe(sobject)))
  }

  /** The cache, the keys this step inserted (`cacheSet`), the numeric field
      names seen so far (`integerSet`) and, per miss, the object described
      and the query sent. */
  datatype TableState = TableState(
    cache: map<string, QueryResult>,
    inserted: set<string>,
    numeric: set<string>,
    misses: seq<(string, string)>)

  function Start(cache: map<string, QueryResult>): TableState {
    TableState(cache, {}, {}, [])
  }

  /** One row's effect on the state: on a miss, describe, query, cache the
      result, remember the key and add the numeric names; on a hit, nothing. */
  function RowState(sv: Services, st: TableState, row: Row): (next: TableState)
    ensures RowKey(row) in next.cache
  {
    var key := RowKey(row);
    if key !in st.cache then
      var soql := sv.missQuery(row);
      TableState(st.cache[key := sv.answer(soql)], st.inserted + {key},
                 st.numeric + sv.numericOf(row.sobject), st.misses + [(row.sobject, soql)])
    else st
  }

  /** Whether the row's `expect` holds, judged on the result cached for its key
      and the numeric names known once the row's own lookup is done. */
  predicate RowPasses(sv: Services, st: TableState, row: Row) {
    var next := RowState(sv, st, row);
    RowMatches(row.values, sv.propertyByPath(FirstRecord(next.cache[RowKey(row)].records), row.fields),
               row.fields in next.numeric)
  }

  /** The state after the first `n` rows have been looked up. */
  function StateTo(sv: Services, init: TableState, rows: seq<Row>, n: nat): TableState
    requires n <= |rows|
    decreases n
  {
    if n == 0 then init else RowState(sv, StateTo(sv, init, rows, n - 1), rows[n - 1])
  }

  /** Whether row `i` passes, given the rows before it. */
  predicate PassesAt(sv: Services, init: TableState, rows: seq<Row>, i: nat)
    requires i < |rows|
  {
    RowPasses(sv, StateTo(sv, init, rows, i), rows[i])
  }

  /** The first of the first `n` rows whose `expect` fails; it ends the loop. */
  function FailureTo(sv: Services, init: TableState, rows: seq<Row>, n: nat): (f: Option<nat>)
    requires n <= |rows|
    ensures f.Some? ==> f.value < n
    decreases n
  {
    if n == 0 then None
    else
      var f := FailureTo(sv, init, rows, n - 1);
      if f.Some? then f
      else if PassesAt(sv, init, rows, n - 1) then None
      else Some(n - 1)
  }

  /** The row loop: the state when it ends, and the failing row if any. */
  function Run(sv: Services, init: TableState, rows: seq<Row>): (r: (TableState, Option<nat>))
    ensures r.1.Some? ==> r.1.value < |rows|
  {
    var f := FailureTo(sv, init, rows, |rows|);
    (StateTo(sv, init, rows, Processed(|rows|, f)), f)
  }

  /** One more row, while none has failed yet. */
  lemma RowStep(sv: Services, init: TableState, rows: seq<Row>, i: nat)
    requires i < |rows| && FailureTo(sv, init, rows, i).None?
    ensures StateTo(sv, init, rows, i + 1) == RowState(sv, StateTo(sv, init, rows, i), rows[i])
    ensures FailureTo(sv, init, rows, i + 1)
            == if RowPasses(sv, StateTo(sv, init, rows, i), rows[i]) then None else Some(i)
  {
  }

  /** A failure at row i ends the loop with the state after row i. */
  lemma RunStops(sv: Services, init: TableState, rows: seq<Row>, i: nat)
    requires i < |rows| && FailureTo(sv, init, rows, i + 1) == Some(i)
    ensures Run(sv, init, rows) == (StateTo(sv, init, rows, i + 1), Some(i))
  {
    FailureSticks(sv, init, rows, i + 1, |rows|);
  }

  /** Once a row has failed, later rows change nothing. */
  lemma FailureSticks(sv: Services, init: TableState, rows: seq<Row>, n: nat, m: nat)
    requires n <= m <= |rows| && FailureTo(sv, init, rows, n).Some?
    ensures FailureTo(sv, init, rows, m) == FailureTo(sv, init, rows, n)
  {
    for j := n to m
      invariant FailureTo(sv, init, rows, j) == FailureTo(sv, init, rows, n)
    {
      assert FailureTo(sv, init, rows, j + 1) == FailureTo(sv, init, rows, j);
    }
  }

  /** The loop stops at the first row whose `expect` fails: no failure means
      every row passed, and a failure at k means rows 0..k-1 passed and row k did not. */
  lemma FailureIsFirst(sv: Services, init: TableState, rows: seq<Row>, n: nat)
    requires n <= |rows|
    ensures FailureTo(sv, init, rows, n) == None
            <==> forall i :: 0 <= i < n ==> PassesAt(sv, init, rows, i)
    ensures FailureTo(sv, init, rows, n).Some? ==>
              var k := FailureTo(sv, init, rows, n).value;
              && (forall i :: 0 <= i < k ==> PassesAt(sv, init, rows, i))
              && !PassesAt(sv, init, rows, k)
  {
    for j := 0 to n
      invariant FirstFailure(sv, init, rows, j)
    {
      FirstFailureStep(sv, init, rows, j);
    }
  }

  /** What FailureIsFirst states, for the first `n` rows. */
  ghost predicate FirstFailure(sv: Services, init: TableState, rows: seq<Row>, n: nat)
    requires n <= |rows|
  {
    && (FailureTo(sv, init, rows, n) == None <==> forall i :: 0 <= i < n ==> PassesAt(sv, init, rows, i))
    && (FailureTo(sv, init, rows, n).Some? ==>
          var k := FailureTo(sv, init, rows, n).value;
          && (forall i :: 0 <= i < k ==> PassesAt(sv, init, rows, i))
          && !PassesAt(sv, init, rows, k))
  }

  lemma FirstFailureStep(sv: Services, init: TableState, rows: seq<Row>, j: nat)
    requires j < |rows| && FirstFailure(sv, init, rows, j)
    ensures FirstFailure(sv, init, rows, j + 1)
  {
    FailureStep(sv, init, rows, j);
  }

  lemma FailureStep(sv: Services, init: TableState, rows: seq<Row>, j: nat)
    requires j < |rows|
    ensures FailureTo(sv, init, rows, j).Some? ==> FailureTo(sv, init, rows, j + 1) == FailureTo(sv, init, rows, j)
    ensures FailureTo(sv, init, rows, j).None? ==>
              FailureTo(sv, init, rows, j + 1) == (if PassesAt(sv, init, rows, j) then None else Some(j))
  {
  }

  /** How the state relates to the cache before the step, given the keys the
      rows so far looked up: the inserted keys are exactly those that were not
      cached, the rest of the cache is what it was, and there was one miss
      per inserted key. */
  ghost predicate Accounts(init: map<string, QueryResult>, st: TableState, keys: set<string>) {
    && st.inserted == keys - init.Keys
    && st.inserted <= st.cache.Keys
    && st.cache - st.inserted == init
    && |st.misses| == |st.inserted|
  }

  lemma StepAccounts(sv: Services, init: map<string, QueryResult>, st: TableState, keys: set<string>, row: Row)
    requires Accounts(init, st, keys)
    ensures Accounts(init, RowState(sv, st, row), keys + {RowKey(row)})
  {
    var key := RowKey(row);
    if key !in st.cache {
      FreshEntry(init, st.cache, st.inserted, key, sv.answer(sv.missQuery(row)));
      FreshKeys(init.Keys, st.inserted, keys, key);
    } else {
      LookupKnown(init, st.cache, st.inserted, keys, key);
    }
  }

  /** A miss: the key joins the inserted ones, and the entries cached before stay. */
  lemma FreshKeys<K>(initKeys: set<K>, inserted: set<K>, keys: set<K>, key: K)
    requires inserted == keys - initKeys
    requires key !in initKeys && key !in inserted
    ensures inserted + {key} == (keys + {key}) - initKeys
    ensures |inserted + {key}| == |inserted| + 1
  {
  }

  lemma FreshEntry<K, V>(init: map<K, V>, cache: map<K, V>, inserted: set<K>, key: K, value: V)
    requires inserted <= cache.Keys && cache - inserted == init
    requires key !in cache
    ensures key !in init && key !in inserted
    ensures inserted + {key} <= cache[key := value].Keys
    ensures cache[key := value] - (inserted + {key}) == init
  {
    assert key !in init;
  }

  /** A hit: the key was cached before the step or inserted by it. */
  lemma LookupKnown<K, V>(init: map<K, V>, cache: map<K, V>, inserted: set<K>, keys: set<K>, key: K)
    requires inserted == keys - init.Keys
    requires cache - inserted == init
    requires key in cache
    ensures inserted == (keys + {key}) - init.Keys
  {
    if key !in inserted {
      assert key in cache - inserted;
    }
  }

  lemma StateAccounts(sv: Services, init: map<string, QueryResult>, rows: seq<Row>, n: nat)
    requires n <= |rows|
    ensures Accounts(init, StateTo(sv, Start(init), rows, n), KeysTo(rows, n))
  {
    StartAccounts(sv, init, rows);
    for i := 0 to n
      invariant Accounts(init, StateTo(sv, Start(init), rows, i), KeysTo(rows, i))
    {
      NextAccounts(sv, init, rows, i + 1);
    }
  }

  lemma StartAccounts(sv: Services, init: map<string, QueryResult>, rows: seq<Row>)
    ensures Accounts(init, StateTo(sv, Start(init), rows, 0), KeysTo(rows, 0))
  {
    assert init - {} == init;
  }

  lemma NextAccounts(sv: Services, init: map<string, QueryResult>, rows: seq<Row>, n: nat)
    requires 0 < n <= |rows|
    requires Accounts(init, StateTo(sv, Start(init), rows, n - 1), KeysTo(rows, n - 1))
    ensures Accounts(init, StateTo(sv, Start(init), rows, n), KeysTo(rows, n))
  {
    StepAccounts(sv, init, StateTo(sv, Start(init), rows, n - 1), KeysTo(rows, n - 1), rows[n - 1]);
  }

  /** The engine calls the misses make: a describe, then a query. */
  function Calls(misses: seq<(string, string)>): seq<Call>
    decreases |misses|
  {
    if misses == [] then []
    else
      var m := misses[|misses| - 1];
      Calls(misses[..|misses| - 1]) + [Describe(m.0), Query(m.1)]
  }

  lemma {:induction false} QueryCountCalls(misses: seq<(string, string)>)
    ensures QueryCount(Calls(misses)) == |misses|
    decreases |misses|
  {
    if misses != [] {
      var m := misses[|misses| - 1];
      var c0 := Calls(misses[..|misses| - 1]);
      QueryCountCalls(misses[..|misses| - 1]);
      var c1 := c0 + [Describe(m.0)];
      assert Calls(misses) == c1 + [Query(m.1)];
      assert (c1 + [Query(m.1)])[..|c1|] == c1;
      assert c1[..|c0|] == c0;
    }
  }

  lemma CallsSnoc(misses: seq<(string, string)>, m: (string, string))
    ensures Calls(misses + [m]) == Calls(misses) + [Describe(m.0), Query(m.1)]
  {
    assert (misses + [m])[..|misses|] == misses;
  }

  /** Describe and query run once per distinct key that was not cached before
      the step, among the rows processed; never more than once per key. */
  lemma QueriesOncePerNewKey(sv: Services, init: map<string, QueryResult>, rows: seq<Row>)
    ensures var r := Run(sv, Start(init), rows);
            var keys := KeysTo(rows, Processed(|rows|, r.1));
            && r.0.inserted == keys - init.Keys
            && QueryCount(Calls(r.0.misses)) == |keys - init.Keys|
            && QueryCount(Calls(r.0.misses)) <= |KeysTo(rows, |rows|) - init.Keys|
  {
    var r := Run(sv, Start(init), rows);
    var done := Processed(|rows|, r.1);
    StateAccounts(sv, init, rows, done);
    QueryCountCalls(r.0.misses);
    KeysToMonotone(rows, done, |rows|);
    SubsetCard(KeysTo(rows, done) - init.Keys, KeysTo(rows, |rows|) - init.Keys);
  }

  lemma {:induction false} SubsetCard<T>(a: set<T>, b: set<T>)
    requires a <= b
    ensures |a| <= |b|
    decreases |b|
  {
    if b != {} {
      var x :| x in b;
      SubsetCard(a - {x}, b - {x});
    }
  }

  /** When every row passes, flushing the inserted keys gives back exactly the
      cache the step started from. */
  lemma PassRestoresCache(sv: Services, init: map<string, QueryResult>, rows: seq<Row>)
    requires Run(sv, Start(init), rows).1.None?
    ensures var fin := Run(sv, Start(init), rows).0;
            fin.inserted !! init.Keys && fin.cache - fin.inserted == init
  {
    StateAccounts(sv, init, rows, |rows|);
  }

  /** When row k fails, the flush is skipped: every key looked up by rows 0..k
      stays cached, so a step that inserted anything leaves the cache changed. */
  lemma FailureLeaksInsertedKeys(sv: Services, init: map<string, QueryResult>, rows: seq<Row>)
    requires Run(sv, Start(init), rows).1.Some?
    ensures var r := Run(sv, Start(init), rows);
            var keys := KeysTo(rows, r.1.value + 1);
            && keys <= r.0.cache.Keys
            && r.0.cache.Keys == init.Keys + (keys - init.Keys)
            && (r.0.inserted != {} ==> r.0.cache != init)
  {
    var r := Run(sv, Start(init), rows);
    RunAccounts(sv, init, rows);
    var keys := KeysTo(rows, Processed(|rows|, r.1));
    LeftCached(init, r.0.cache, r.0.inserted, keys);
    assert Processed(|rows|, r.1) == r.1.value + 1;
  }

  /** Accounts holds at the end of the loop, for the rows it got through. */
  lemma RunAccounts(sv: Services, init: map<string, QueryResult>, rows: seq<Row>)
    ensures var r := Run(sv, Start(init), rows);
            Accounts(init, r.0, KeysTo(rows, Processed(|rows|, r.1)))
  {
    var r := Run(sv, Start(init), rows);
    StateAccounts(sv, init, rows, Processed(|rows|, r.1));
  }

  lemma LeftCached<K, V>(init: map<K, V>, cache: map<K, V>, inserted: set<K>, keys: set<K>)
    requires inserted == keys - init.Keys
    requires inserted <= cache.Keys && cache - inserted == init
    ensures keys <= cache.Keys
    ensures cache.Keys == init.Keys + (keys - init.Keys)
    ensures inserted != {} ==> cache != init
  {
    assert forall k :: k in cache && k !in inserted ==> k in cache - inserted;
    if inserted != {} {
      var k :| k in inserted;
      assert k !in init;
    }
  }

  /** A row whose key is already cached issues no call, changes no state, and is
      compared with the cached result and the numeric names gathered so far. */
  lemma HitIssuesNoCall(sv: Services, st: TableState, row: Row)
    requires RowKey(row) in st.cache
    ensures RowState(sv, st, row) == st
    ensures RowPasses(sv, st, row)
            <==> RowMatches(row.values, sv.propertyByPath(FirstRecord(st.cache[RowKey(row)].records), row.fields),
                            row.fields in st.numeric)
  {
  }

  /** A miss describes the object and sends its all-fields query, once; the
      row is compared with that query's result, and its field counts as numeric
      when the object's own describe, or that of any object described earlier
      in the step, has a numeric field of that name. */
  lemma MissUsesAccumulatedNumericNames(describe: string -> seq<FieldDescribe>, answer: string -> QueryResult,
                                        propertyByPath: (Option<Record>, string) -> JsValue, st: TableState, row: Row)
    requires RowKey(row) !in st.cache
    ensures var sv := EngineServices(describe, answer, propertyByPath);
            var soql := SelectAll(Names(describe(row.sobject)), row.sobject, row.criteria);
            && RowState(sv, st, row).misses == st.misses + [(row.sobject, soql)]
            && RowState(sv, st, row).cache == st.cache[RowKey(row) := answer(soql)]
            && RowState(sv, st, row).numeric == st.numeric + NumericNames(describe(row.sobject))
            && (RowPasses(sv, st, row)
                <==> RowMatches(row.values, propertyByPath(FirstRecord(answer(soql).records), row.fields),
                                row.fields in st.numeric + NumericNames(describe(row.sobject))))
  {
  }

  /** The same integer row passes on a cold cache and fails when its key was
      cached before the step, because numeric names are only gathered on a miss. */
  lemma WarmCacheSkipsNumericNames()
    ensures var sv := EngineServices(_ => [FieldDescribe("Age__c", "integer")], _ => QueryResult([], 0), (_, _) => JsNumber("42"));
            var row := Row("Student__c", "Age__c", "42", "Name = 'Ann'");
            var warm := map[RowKey(row) := QueryResult([], 0)];
            && Run(sv, Start(map[]), [row]).1 == None
            && Run(sv, Start(warm), [row]).1 == Some(0)
  {
    var fields := [FieldDescribe("Age__c", "integer")];
    assert fields[..0] == [];
    assert NumericNames(fields) == {"Age__c"};
  }

  /** The loop of the miss path: the query text, and the numeric names. */
  method ProjectFields(fields: seq<FieldDescribe>, sobject: string, criteria: string)
    returns (soql: string, numeric: set<string>)
    ensures soql == SelectAll(Names(fields), sobject, criteria)
    ensures numeric == NumericNames(fields)
  {
    soql := "SELECT";
    numeric := {};
    for i := 0 to |fields|
      invariant soql == SelectList(Names(fields)[..i])
      invariant numeric == NumericNames(fields[..i])
    {
      assert Names(fields)[..i + 1][..i] == Names(fields)[..i];
      assert fields[..i + 1][..i] == fields[..i];
      if fields[i].dataType in ["integer", "double"] {
        numeric := numeric + {fields[i].name};
      }
      soql := soql + " " + fields[i].name + ",";
    }
    assert Names(fields)[..|fields|] == Names(fields);
    assert fields[..|fields|] == fields;
    soql := DropLast(soql);
    soql := soql + " FROM " + sobject + " WHERE " + criteria;
  }

  /** One row of the step: look the key up, describe and query on a miss, and
      compare the field. */
  method CheckRow(cache: CacheProvider, engine: Engine, propertyByPath: (Option<Record>, string) -> JsValue,
                  row: Row, cacheSet: set<string>, integerSet: set<string>,
                  ghost misses: seq<(string, string)>, ghost log0: seq<Call>)
    returns (ok: bool, cacheSet': set<string>, integerSet': set<string>, ghost misses': seq<(string, string)>)
    requires engine.log == log0 + Calls(misses)
    modifies cache, engine
    ensures var sv := EngineServices(engine.describe, engine.answer, propertyByPath);
            var st := TableState(old(cache.entries), cacheSet, integerSet, misses);
            && RowState(sv, st, row) == TableState(cache.entries, cacheSet', integerSet', misses')
            && ok == RowPasses(sv, st, row)
    ensures engine.log == log0 + Calls(misses')
  {
    ghost var sv := EngineServices(engine.describe, engine.answer, propertyByPath);
    ghost var st := TableState(cache.entries, cacheSet, integerSet, misses);
    var key := CacheKey(row.sobject, row.criteria);
    var present := cache.HasCache(key);
    cacheSet', integerSet' := cacheSet, integerSet;
    if !present {
      var resField := engine.DescribeObject(row.sobject);
      var soqlQuery, numeric := ProjectFields(resField, row.sobject, row.criteria);
      integerSet' := integerSet' + numeric;
      var result := engine.Query(soqlQuery);
      cache.SetCache(key, result);
      cacheSet' := cacheSet' + {key};
      misses' := misses + [(row.sobject, soqlQuery)];
      CallsSnoc(misses, (row.sobject, soqlQuery));
      ok := RowMatches(row.values, propertyByPath(FirstRecord(result.records), row.fields), row.fields in integerSet');
      assert sv.missQuery(row) == soqlQuery && sv.numericOf(row.sobject) == numeric;
      assert RowState(sv, st, row) == TableState(cache.entries, cacheSet', integerSet', misses');
      PassesOnResult(sv, st, row, result);
    } else {
      var result := cache.GetCache(key);
      misses' := misses;
      ok := RowMatches(row.values, propertyByPath(FirstRecord(result.records), row.fields), row.fields in integerSet');
      PassesOnResult(sv, st, row, result);
    }
  }

  /** A row passes when its comparison holds against the result cached for its key. */
  lemma PassesOnResult(sv: Services, st: TableState, row: Row, result: QueryResult)
    requires RowState(sv, st, row).cache[RowKey(row)] == result
    ensures RowPasses(sv, st, row)
            == RowMatches(row.values, sv.propertyByPath(FirstRecord(result.records), row.fields),
                          row.fields in RowState(sv, st, row).numeric)
  {
  }

  /** The final loop: delete every key the step inserted, and nothing else. */
  method Flush(cache: CacheProvider, keys: set<string>)
    modifies cache
    ensures cache.entries == old(cache.entries) - keys
  {
    var pending := keys;
    while pending != {}
      invariant pending <= keys
      invariant cache.entries == old(cache.entries) - (keys - pending)
      decreases |pending|
    {
      var item :| item in pending;
      cache.DeleteCache(item);
      pending := pending - {item};
    }
    assert keys - pending == keys;
  }

  /** The row loop of the step: the rows up to the first failing one, and the
      keys the step inserted. */
  method CheckRows(cache: CacheProvider, engine: Engine,
                   propertyByPath: (Option<Record>, string) -> JsValue, rows: seq<Row>)
    returns (failedAt: Option<nat>, cacheSet: set<string>)
    modifies cache, engine
    ensures var r := Run(EngineServices(engine.describe, engine.answer, propertyByPath), Start(old(cache.entries)), rows);
            && failedAt == r.1
            && cacheSet == r.0.inserted
            && cache.entries == r.0.cache
            && engine.log == old(engine.log) + Calls(r.0.misses)
  {
    var sv := EngineServices(engine.describe, engine.answer, propertyByPath);
    ghost var init := cache.entries;
    ghost var log0 := engine.log;
    ghost var misses: seq<(string, string)> := [];
    cacheSet := {};
    var integerSet: set<string> := {};
    for i := 0 to |rows|
      invariant StateTo(sv, Start(init), rows, i) == TableState(cache.entries, cacheSet, integerSet, misses)
      invariant FailureTo(sv, Start(init), rows, i) == None
      invariant engine.log == log0 + Calls(misses)
    {
      RowStep(sv, Start(init), rows, i);
      var ok;
      ghost var misses';
      ok, cacheSet, integerSet, misses' := CheckRow(cache, engine, propertyByPath, rows[i], cacheSet, integerSet, misses, log0);
      misses := misses';
      if !ok {
        RunStops(sv, Start(init), rows, i);
        return Some(i), cacheSet;
      }
    }
    assert Run(sv, Start(init), rows) == (StateTo(sv, Start(init), rows, |rows|), None);
    return None, cacheSet;
  }

  /** The step. `failedAt` is the row whose `expect` threw, ending the step
      before the flush; otherwise every key the step inserted is deleted. */
  method VerifyRecordTable(cache: CacheProvider, engine: Engine,
                           propertyByPath: (Option<Record>, string) -> JsValue, rows: seq<Row>)
    returns (failedAt: Option<nat>)
    modifies cache, engine
    ensures var r := Run(EngineServices(engine.describe, engine.answer, propertyByPath), Start(old(cache.entries)), rows);
            && failedAt == r.1
            && engine.log == old(engine.log) + Calls(r.0.misses)
            && cache.entries == (if r.1.None? then r.0.cache - r.0.inserted else r.0.cache)
  {
    var cacheSet;
    failedAt, cacheSet := CheckRows(cache, engine, propertyByPath, rows);
    if failedAt.None? {
      Flush(cache, cacheSet);
    }
  }
}
