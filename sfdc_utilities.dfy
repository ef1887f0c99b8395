/** The helpers of the Salesforce utilities file: setting and validating a
    field through the browser, the URL and XPath builders, checking a record
    against expected values, and the two delete helpers. */
module SfdcUtilities {
  import opened Js
  import opened Driver
  import opened Salesforce
  import opened FieldPlans

  // ---------------------------------------------------------------------------
  // Field set and validation

  /** `setValueInObjectFieldType`: performs the driver actions of SetValuePlan. */
  method SetValueInObjectFieldType(b: Browser, objectField: string, value: string, fieldType: string, field: string)
    modifies b
    ensures b.trace == old(b.trace) + SetValuePlan(objectField, value, fieldType, field)
  {
    var address := Undefined;
    var kind := fieldType;
    if StartsWith(kind, "Address.") {
      address := XPath(AddressInput(objectField, kind, field));
      kind := "Address";
    }
    if kind == "Address" {
      b.EnterText(address, value);
    } else if kind == "Picklist" {
      b.ClickElement(XPath(PicklistButton(objectField, field)));
      b.ClickElement(XPath(PicklistOption(value)));
    } else if kind == "Checkbox" {
      b.ClickElement(XPath(CheckboxInput(objectField, value)));
    } else if kind == "Lookup" {
      b.EnterText(XPath(LookupInput(objectField)), value);
      b.ClickElement(XPath(LookupSuggestion(value)));
    } else if kind == "Picklist(Multi-Select)" {
      MoveItems(b, objectField, Split(value, ','), SourceList(field), TargetList(field));
    } else if kind == TextAreaLabel {
      b.EnterText(XPath(TextAreaInput(objectField)), value);
    } else {
      b.EnterText(XPath(DefaultInput(objectField, field)), value);
    }
  }

  /** The multi-select loop: click each item in the source list, then the move button. */
  method MoveItems(b: Browser, objectField: string, values: seq<string>, list: nat, choice: string)
    requires list < 10
    modifies b
    ensures b.trace == old(b.trace) + MultiSelectPlan(objectField, values, list, choice)
  {
    for index := 0 to |values|
      invariant b.trace == old(b.trace) + MultiSelectPlan(objectField, values[..index], list, choice)
    {
      MultiSelectPlanStep(objectField, values, index, list, choice);
      b.ClickElement(XPath(DuelingItem(objectField, list, values[index])));
      b.ClickElement(XPath(MoveButton(choice)));
    }
    assert values[..|values|] == values;
  }

  lemma MultiSelectPlanStep(objectField: string, values: seq<string>, index: nat, list: nat, choice: string)
    requires index < |values| && list < 10
    ensures MultiSelectPlan(objectField, values[..index + 1], list, choice)
            == MultiSelectPlan(objectField, values[..index], list, choice)
               + [Click(XPath(DuelingItem(objectField, list, values[index]))), Click(XPath(MoveButton(choice)))]
  {
    assert values[..index + 1][..index] == values[..index];
  }

  /** `assertValidationInObjectFieldType`: one strict comparison of the expected
      text with the text at ValidationTarget; `ok` is false where `expect` throws. */
  method AssertValidationInObjectFieldType(b: Browser, objectField: string, expected: string, fieldType: string, field: string)
    returns (ok: bool)
    modifies b
    ensures ok <==> expected == b.render(old(b.trace), ValidationTarget(objectField, expected, fieldType, field))
    ensures b.trace == old(b.trace) + ValidationPlan(objectField, expected, fieldType, field)
  {
    var address := Undefined;
    var kind := fieldType;
    if StartsWith(kind, "Address.") {
      address := XPath(AddressHelp(objectField, kind));
      kind := "Address";
    }
    var target;
    if kind == "Address" {
      target := address;
    } else if kind == "Picklist" {
      target := XPath(PicklistHelp(objectField, field));
    } else if kind == "Checkbox" {
      target := XPath(CheckboxHelp(objectField, expected));
    } else if kind == "Lookup" {
      target := XPath(FieldHelp(objectField));
    } else if kind == "Picklist(Multi-Select)" {
      target := XPath(MultiSelectHelp(objectField));
    } else if kind == TextAreaLabel {
      target := XPath(FieldHelp(objectField));
    } else {
      target := XPath(DefaultHelp(objectField, field));
    }
    ok := b.ExpectText(expected, target);
  }

  // ---------------------------------------------------------------------------
  // URL and XPath builders

  /** The Lightning app URL; the instance URL and the app name can be read back from it. */
  function AppUrl(instanceUrl: string, appName: string): (url: string)
    ensures |url| == |instanceUrl| + |"/lightning/app/"| + |appName|
    ensures url[..|instanceUrl|] == instanceUrl
    ensures url[|instanceUrl|..|instanceUrl| + |"/lightning/app/"|] == "/lightning/app/"
    ensures url[|instanceUrl| + |"/lightning/app/"|..] == appName
  {
    var url := instanceUrl + "/lightning/app/" + appName;
    assert url[|instanceUrl| + |"/lightning/app/"|..] == appName;
    url
  }

  /** The list-view URL of an object with a filter; the filter name ends it. */
  function RecordListUrl(instanceUrl: string, sobject: string, filterName: string): (url: string)
    ensures |url| == |instanceUrl| + |"/lightning/o/"| + |sobject| + |"/list?filterName="| + |filterName|
    ensures url[..|instanceUrl|] == instanceUrl
    ensures url[|instanceUrl|..|instanceUrl| + |"/lightning/o/"|] == "/lightning/o/"
    ensures url[|instanceUrl| + |"/lightning/o/"|..][..|sobject|] == sobject
    ensures url[|instanceUrl| + |"/lightning/o/"| + |sobject|..][..|"/list?filterName="|] == "/list?filterName="
    ensures url[|url| - |filterName|..] == filterName
  {
    var url := instanceUrl + "/lightning/o/" + sobject + "/list?filterName=" + filterName;
    assert url[|instanceUrl| + |"/lightning/o/"|..] == sobject + "/list?filterName=" + filterName;
    url
  }

  /** `(xpath)[index]`: the brackets it adds are balanced. */
  function IndexedXPath(xPath: string, index: string): (sel: string)
    ensures Balance(sel) == Balance(xPath) + Balance(index)
  {
    BalanceConcat("(", xPath);
    BalanceConcat("(" + xPath, ")[");
    BalanceConcat("(" + xPath + ")[", index);
    BalanceConcat("(" + xPath + ")[" + index, "]");
    assert multiset("(") == multiset{'('};
    assert multiset(")[") == multiset{')', '['};
    assert multiset("]") == multiset{']'};
    "(" + xPath + ")[" + index + "]"
  }

  function ToastMessageXPath(status: string): string {
    "//div[@aria-label='" + status + "']//span[@class='toastMessage slds-text-heading--small forceActionsText']"
  }

  /** `navigateToApp`. */
  method NavigateToApp(b: Browser, connection: Connection, appName: string)
    modifies b
    ensures b.trace == old(b.trace) + [Get(AppUrl(connection.instanceUrl, appName))]
  {
    b.Navigate(AppUrl(connection.instanceUrl, appName));
  }

  /** `navigateToObjectRecordList`. */
  method NavigateToObjectRecordList(b: Browser, connection: Connection, sobject: string, filterName: string)
    modifies b
    ensures b.trace == old(b.trace) + [Get(RecordListUrl(connection.instanceUrl, sobject, filterName))]
  {
    b.Navigate(RecordListUrl(connection.instanceUrl, sobject, filterName));
  }

  /** `clickElementAtIndexByXpath`; `resolve` is the framework's `Utils.getValue`. */
  method ClickElementAtIndexByXpath(b: Browser, resolve: string -> string, xPath: string, index: string)
    modifies b
    ensures b.trace == old(b.trace) + [Click(XPath(IndexedXPath(resolve(xPath), index)))]
  {
    b.ClickElement(XPath(IndexedXPath(resolve(xPath), index)));
  }

  /** `verifyToastMessage`: strict comparison with the toast of the given status. */
  method VerifyToastMessage(b: Browser, message: string, status: string) returns (ok: bool)
    modifies b
    ensures ok <==> message == b.render(old(b.trace), XPath(ToastMessageXPath(status)))
    ensures b.trace == old(b.trace) + [CompareText(message, XPath(ToastMessageXPath(status)))]
  {
    ok := b.ExpectText(message, XPath(ToastMessageXPath(status)));
  }

  // ---------------------------------------------------------------------------
  // SOQL projections

  function Names(fields: seq<FieldDescribe>): (names: seq<string>)
    ensures |names| == |fields|
    ensures forall i :: 0 <= i < |fields| ==> names[i] == fields[i].name
  {
    seq(|fields|, i requires 0 <= i < |fields| => fields[i].name)
  }

  /** The query text before its last character is dropped: "SELECT" and then
      " name," per field. */
  function SelectList(names: seq<string>): string
    decreases |names|
  {
    if names == [] then "SELECT"
    else SelectList(names[..|names| - 1]) + " " + names[|names| - 1] + ","
  }

  /** The all-fields query of the helpers: the accumulated list, its last
      character removed, then FROM and WHERE. */
  function SelectAll(names: seq<string>, sobject: string, criteria: string): string {
    DropLast(SelectList(names)) + " FROM " + sobject + " WHERE " + criteria
  }

  lemma {:induction false} SelectListJoin(names: seq<string>)
    requires names != []
    ensures SelectList(names) == "SELECT " + Join(names, ", ") + ","
    decreases |names|
  {
    var init := names[..|names| - 1];
    var last := names[|names| - 1];
    assert names == init + [last];
    if init == [] {
      assert Join(names, ", ") == last;
    } else {
      SelectListJoin(init);
      JoinSnoc(init, ", ", last);
    }
  }

  /** With at least one field, the query lists the names separated by ", ". */
  lemma SelectAllNonEmpty(names: seq<string>, sobject: string, criteria: string)
    requires names != []
    ensures SelectAll(names, sobject, criteria)
              == "SELECT " + Join(names, ", ") + " FROM " + sobject + " WHERE " + criteria
  {
    SelectListJoin(names);
    var s := SelectList(names);
    assert s == ("SELECT " + Join(names, ", ")) + ",";
    assert DropLast(s) == "SELECT " + Join(names, ", ");
  }

  /** With no field, the trailing-comma removal eats the T of SELECT. */
  lemma SelectAllEmpty(sobject: string, criteria: string)
    ensures SelectAll([], sobject, criteria) == "SELEC FROM " + sobject + " WHERE " + criteria
  {
    assert DropLast("SELECT") == "SELEC";
  }

  /** The loop that accumulates the query text, then trims and completes it. */
  method SelectAllQuery(fields: seq<FieldDescribe>, sobject: string, criteria: string) returns (soql: string)
    ensures soql == SelectAll(Names(fields), sobject, criteria)
  {
    soql := "SELECT";
    for i := 0 to |fields|
      invariant soql == SelectList(Names(fields)[..i])
    {
      assert Names(fields)[..i + 1][..i] == Names(fields)[..i];
      soql := soql + " " + fields[i].name + ",";
    }
    assert Names(fields)[..|fields|] == Names(fields);
    soql := DropLast(soql);
    soql := soql + " FROM " + sobject + " WHERE " + criteria;
  }

  // ---------------------------------------------------------------------------
  // Checking a record

  datatype Verdict = Pass | Mismatch(index: nat) | NoRecord

  /** `values[i]`, `undefined` past the end. */
  function ValueAt(values: seq<string>, i: nat): Option<string> {
    if i < |values| then Some(values[i]) else None
  }

  /** `values[i] === record[names[i]]`. */
  predicate FieldMatches(record: Record, names: seq<string>, values: seq<string>, i: nat)
    requires i < |names|
  {
    StrictEqualsText(ValueAt(values, i), Property(record, names[i]))
  }

  /** The first index from `from` on whose field does not match. */
  function FirstMismatchFrom(record: Record, names: seq<string>, values: seq<string>, from: nat): (r: Option<nat>)
    requires from <= |names|
    ensures r.None? <==> forall i :: from <= i < |names| ==> FieldMatches(record, names, values, i)
    ensures r.Some? ==> from <= r.value < |names| && !FieldMatches(record, names, values, r.value)
                        && forall i :: from <= i < r.value ==> FieldMatches(record, names, values, i)
    decreases |names| - from
  {
    if from == |names| then None
    else if !FieldMatches(record, names, values, from) then Some(from)
    else FirstMismatchFrom(record, names, values, from + 1)
  }

  /** The outcome of the comparison loop of `assertObjectRecordOnCriteria`:
      the first mismatch stops it, and reading a field of the missing first
      record is a fault. */
  function RecordVerdict(names: seq<string>, values: seq<string>, records: seq<Record>): Verdict {
    if names == [] then Pass
    else if records == [] then NoRecord
    else
      match FirstMismatchFrom(records[0], names, values, 0)
      case None => Pass
      case Some(k) => Mismatch(k)
  }

  /** The comparison loop, index by index, stopping at the first mismatch. */
  method CompareFirstRecord(names: seq<string>, values: seq<string>, records: seq<Record>) returns (v: Verdict)
    ensures v == RecordVerdict(names, values, records)
  {
    for index := 0 to |names|
      invariant index > 0 ==> records != []
      invariant records != [] ==> forall i :: 0 <= i < index ==> FieldMatches(records[0], names, values, i)
    {
      if records == [] {
        return NoRecord;
      }
      if !FieldMatches(records[0], names, values, index) {
        return Mismatch(index);
      }
    }
    return Pass;
  }

  /** What the verdict means: Pass exactly when every listed field matches,
      otherwise the first mismatching index, or a fault without a record. */
  lemma RecordVerdictMeaning(names: seq<string>, values: seq<string>, records: seq<Record>)
    requires names != []
    ensures records == [] <==> RecordVerdict(names, values, records) == NoRecord
    ensures RecordVerdict(names, values, records) == Pass
            <==> records != [] && forall i :: 0 <= i < |names| ==> FieldMatches(records[0], names, values, i)
    ensures RecordVerdict(names, values, records).Mismatch? ==>
              var k := RecordVerdict(names, values, records).index;
              && k < |names| && !FieldMatches(records[0], names, values, k)
              && forall i :: 0 <= i < k ==> FieldMatches(records[0], names, values, i)
  {
  }

  /** `assertObjectRecordOnCriteria`: describes `Student__c` whatever the object,
      queries all of its fields from `sobject`, and checks the first record. */
  method AssertObjectRecordOnCriteria(engine: Engine, sobject: string, fields: string, values: string, criteria: string)
    returns (v: Verdict)
    modifies engine
    ensures var q := SelectAll(Names(engine.describe("Student__c")), sobject, criteria);
            && engine.log == old(engine.log) + [Describe("Student__c"), Query(q)]
            && v == RecordVerdict(Split(fields, ','), Split(values, ','), engine.answer(q).records)
  {
    var field := Split(fields, ',');
    var value := Split(values, ',');
    var resField := engine.DescribeObject("Student__c");
    var soqlQuery := SelectAllQuery(resField, sobject, criteria);
    var result := engine.Query(soqlQuery);
    v := CompareFirstRecord(field, value, result.records);
  }

  /** The describe is of `Student__c` whatever the object: an object with a
      schema of its own is queried for the fields of `Student__c`, not for its own. */
  lemma OtherObjectQueriedWithStudentFields(describe: string -> seq<FieldDescribe>, criteria: string)
    requires describe("Student__c") == [FieldDescribe("Name", "string")]
    requires describe("Book__c") == [FieldDescribe("Title__c", "string")]
    ensures SelectAll(Names(describe("Student__c")), "Book__c", criteria)
              == "SELECT " + "Name" + " FROM " + "Book__c" + " WHERE " + criteria
    ensures SelectAll(Names(describe("Student__c")), "Book__c", criteria)
              != SelectAll(Names(describe("Book__c")), "Book__c", criteria)
  {
    assert Names(describe("Student__c")) == ["Name"];
    assert Names(describe("Book__c")) == ["Title__c"];
    SingleFieldQuery("Name", "Book__c", criteria);
    SingleFieldQuery("Title__c", "Book__c", criteria);
  }

  /** A one-field query names that field alone. */
  lemma SingleFieldQuery(name: string, sobject: string, criteria: string)
    ensures SelectAll([name], sobject, criteria) == "SELECT " + name + " FROM " + sobject + " WHERE " + criteria
  {
    assert [name][..0] == [];
    assert SelectList([name]) == "SELECT" + " " + name + ",";
    assert DropLast(SelectList([name])) == "SELECT" + " " + name;
  }

  // ---------------------------------------------------------------------------
  // Deleting records

  /** The `Id` of every record, in result order. */
  function IdsOf(records: seq<Record>): (ids: seq<JsValue>)
    ensures |ids| == |records|
    ensures forall i :: 0 <= i < |records| ==> ids[i] == Property(records[i], "Id")
    decreases |records|
  {
    if records == [] then []
    else IdsOf(records[..|records| - 1]) + [Property(records[|records| - 1], "Id")]
  }

  /** The loop pushing `record.Id` into `recordIds`. */
  method CollectIds(records: seq<Record>) returns (recordIds: seq<JsValue>)
    ensures recordIds == IdsOf(records)
  {
    recordIds := [];
    for i := 0 to |records|
      invariant recordIds == IdsOf(records[..i])
    {
      assert records[..i + 1][..i] == records[..i];
      recordIds := recordIds + [Property(records[i], "Id")];
    }
    assert records[..|records|] == records;
  }

  /** The calls a delete helper makes after its query: one bulk delete of all
      the ids, and none when there are no ids. */
  function DeleteCalls(ids: seq<JsValue>, sobject: string): (calls: seq<Call>)
    ensures |calls| <= 1
    ensures calls == [] <==> ids == []
    ensures calls != [] ==> calls[0] == Delete(ids, sobject)
  {
    if |ids| > 0 then [Delete(ids, sobject)] else []
  }

  /** Query ids, then delete them, swallowing a failing delete. */
  method QueryAndDelete(engine: Engine, soql: string, sobject: string)
    modifies engine
    ensures engine.log == old(engine.log) + [Query(soql)] + DeleteCalls(IdsOf(engine.answer(soql).records), sobject)
  {
    var result := engine.Query(soql);
    var recordIds := CollectIds(result.records);
    if |recordIds| > 0 {
      var deleted := engine.DeleteRecords(recordIds, sobject);
      // a rejected delete is caught and discarded
    }
  }

  function CriteriaIdQuery(sobject: string, criteria: string): string {
    "Select id from " + sobject + " where " + criteria
  }

  function AllIdQuery(sobject: string): string {
    "Select id ,Name from " + sobject
  }

  /** `deleteRecordOnCriteria`. */
  method DeleteRecordOnCriteria(engine: Engine, sobject: string, criteria: string)
    modifies engine
    ensures var q := CriteriaIdQuery(sobject, criteria);
            engine.log == old(engine.log) + [Query(q)] + DeleteCalls(IdsOf(engine.answer(q).records), sobject)
  {
    QueryAndDelete(engine, CriteriaIdQuery(sobject, criteria), sobject);
  }

  /** `deleteAllRecordOfObject`. */
  method DeleteAllRecordOfObject(engine: Engine, sobject: string)
    modifies engine
    ensures var q := AllIdQuery(sobject);
            engine.log == old(engine.log) + [Query(q)] + DeleteCalls(IdsOf(engine.answer(q).records), sobject)
  {
    QueryAndDelete(engine, AllIdQuery(sobject), sobject);
  }
}
