/** The assertion steps besides the record cache: the data-table step that
    validates one field per row, and the two steps that compare a record count
    shown in the page with the count the backend reports. */
module CommonAssertions {
  import opened Js
  import opened Driver
  import opened FieldPlans
  import opened SfdcUtilities
  import opened DataTable

  // ---------------------------------------------------------------------------
  // Validation table

  /** The element whose text a row's validation compares. */
  function RowTarget(row: FieldRow): Locator {
    ValidationTarget(row.objectField, row.value, row.fieldType, row.field)
  }

  /** The comparisons the first `n` rows issue, one per row, in row order; the
      lemmas below hold for any choice of `target`, and the step uses RowTarget. */
  function Comparisons(target: FieldRow -> Locator, rows: seq<FieldRow>, n: nat): seq<Action>
    requires n <= |rows|
    decreases n
  {
    if n == 0 then [] else Comparisons(target, rows, n - 1) + [CompareText(rows[n - 1].value, target(rows[n - 1]))]
  }

  /** Whether row `i`'s expectation holds, on the page as the rows before it left it. */
  predicate RowValid(render: (seq<Action>, Locator) -> string, target: FieldRow -> Locator,
                     trace0: seq<Action>, rows: seq<FieldRow>, i: nat)
    requires i < |rows|
  {
    rows[i].value == render(trace0 + Comparisons(target, rows, i), target(rows[i]))
  }

  /** The first of the first `n` rows whose comparison fails; the `expect` that
      throws there ends the step. */
  function FirstInvalid(render: (seq<Action>, Locator) -> string, target: FieldRow -> Locator,
                        trace0: seq<Action>, rows: seq<FieldRow>, n: nat): (f: Option<nat>)
    requires n <= |rows|
    ensures f.Some? ==> f.value < n
    decreases n
  {
    if n == 0 then None
    else
      var f := FirstInvalid(render, target, trace0, rows, n - 1);
      if f.Some? then f
      else if RowValid(render, target, trace0, rows, n - 1) then None
      else Some(n - 1)
  }

  /** Row i's comparison sits at position i of the trace, with that row's own
      expected value and the element for that row (for RowTarget: the row's own
      object field, expected value, field type and field). */
  lemma ComparisonsRows(target: FieldRow -> Locator, rows: seq<FieldRow>, n: nat)
    requires n <= |rows|
    ensures |Comparisons(target, rows, n)| == n
    ensures forall i :: 0 <= i < n ==> Comparisons(target, rows, n)[i] == CompareText(rows[i].value, target(rows[i]))
  {
    for j := 0 to n
      invariant |Comparisons(target, rows, j)| == j
      invariant forall i :: 0 <= i < j ==> Comparisons(target, rows, j)[i] == CompareText(rows[i].value, target(rows[i]))
    {
    }
  }

  /** The comparisons of the earlier rows do not depend on the later ones. */
  lemma ComparisonsPrefix(target: FieldRow -> Locator, rows: seq<FieldRow>, more: seq<FieldRow>, n: nat)
    requires n <= |rows|
    ensures Comparisons(target, rows + more, n) == Comparisons(target, rows, n)
  {
    for j := 0 to n
      invariant Comparisons(target, rows + more, j) == Comparisons(target, rows, j)
    {
      assert (rows + more)[j] == rows[j];
    }
  }

  /** The step stops at the first failing row: no failure means every row's
      comparison held, a failure at k means rows 0..k-1 held and row k did not. */
  lemma FirstInvalidIsFirst(render: (seq<Action>, Locator) -> string, target: FieldRow -> Locator,
                            trace0: seq<Action>, rows: seq<FieldRow>, n: nat)
    requires n <= |rows|
    ensures FirstInvalid(render, target, trace0, rows, n) == None
            <==> forall i :: 0 <= i < n ==> RowValid(render, target, trace0, rows, i)
    ensures FirstInvalid(render, target, trace0, rows, n).Some? ==>
              var k := FirstInvalid(render, target, trace0, rows, n).value;
              && (forall i :: 0 <= i < k ==> RowValid(render, target, trace0, rows, i))
              && !RowValid(render, target, trace0, rows, k)
  {
    for j := 0 to n
      invariant FirstInvalid(render, target, trace0, rows, j) == None
                <==> forall i :: 0 <= i < j ==> RowValid(render, target, trace0, rows, i)
      invariant FirstInvalid(render, target, trace0, rows, j).Some? ==>
                  var k := FirstInvalid(render, target, trace0, rows, j).value;
                  && (forall i :: 0 <= i < k ==> RowValid(render, target, trace0, rows, i))
                  && !RowValid(render, target, trace0, rows, k)
    {
      InvalidStep(render, target, trace0, rows, j);
    }
  }

  lemma InvalidStep(render: (seq<Action>, Locator) -> string, target: FieldRow -> Locator,
                    trace0: seq<Action>, rows: seq<FieldRow>, j: nat)
    requires j < |rows|
    ensures FirstInvalid(render, target, trace0, rows, j).Some? ==>
              FirstInvalid(render, target, trace0, rows, j + 1) == FirstInvalid(render, target, trace0, rows, j)
    ensures FirstInvalid(render, target, trace0, rows, j).None? ==>
              FirstInvalid(render, target, trace0, rows, j + 1)
              == (if RowValid(render, target, trace0, rows, j) then None else Some(j))
  {
  }

  /** Once a row has failed, later rows are not looked at. */
  lemma InvalidSticks(render: (seq<Action>, Locator) -> string, target: FieldRow -> Locator,
                      trace0: seq<Action>, rows: seq<FieldRow>, n: nat, m: nat)
    requires n <= m <= |rows| && FirstInvalid(render, target, trace0, rows, n).Some?
    ensures FirstInvalid(render, target, trace0, rows, m) == FirstInvalid(render, target, trace0, rows, n)
  {
    for j := n to m
      invariant FirstInvalid(render, target, trace0, rows, j) == FirstInvalid(render, target, trace0, rows, n)
    {
      InvalidStep(render, target, trace0, rows, j);
    }
  }

  /** One row of the validation step. */
  method ValidateRow(b: Browser, ghost trace0: seq<Action>, rows: seq<FieldRow>, i: nat) returns (ok: bool)
    requires i < |rows| && b.trace == trace0 + Comparisons(RowTarget, rows, i)
    modifies b
    ensures ok == RowValid(b.render, RowTarget, trace0, rows, i)
    ensures FirstInvalid(b.render, RowTarget, trace0, rows, i) == None ==>
              FirstInvalid(b.render, RowTarget, trace0, rows, i + 1) == if ok then None else Some(i)
    ensures b.trace == trace0 + Comparisons(RowTarget, rows, i + 1)
  {
    var row := rows[i];
    ok := AssertValidationInObjectFieldType(b, row.objectField, row.value, row.fieldType, row.field);
    InvalidStep(b.render, RowTarget, trace0, rows, i);
  }

  /** The validation step: `assertValidationInObjectFieldType` once per row, in
      row order, until one throws; `failedAt` is that row. */
  method VerifyValidationTable(b: Browser, rows: seq<FieldRow>) returns (failedAt: Option<nat>)
    modifies b
    ensures failedAt == FirstInvalid(b.render, RowTarget, old(b.trace), rows, |rows|)
    ensures b.trace == old(b.trace) + Comparisons(RowTarget, rows, Processed(|rows|, failedAt))
  {
    ghost var trace0 := b.trace;
    for i := 0 to |rows|
      invariant b.trace == trace0 + Comparisons(RowTarget, rows, i)
      invariant FirstInvalid(b.render, RowTarget, trace0, rows, i) == None
    {
      var ok := ValidateRow(b, trace0, rows, i);
      if !ok {
        InvalidSticks(b.render, RowTarget, trace0, rows, i + 1, |rows|);
        failedAt := Some(i);
        assert Processed(|rows|, failedAt) == i + 1;
        return;
      }
    }
    return None;
  }

  // ---------------------------------------------------------------------------
  // Record count

  /** `parseInt(text.match(/\d+/)[0])`, or None when the text holds no digit. */
  function UiCount(text: string): (r: Option<nat>)
    ensures r.None? <==> forall k :: 0 <= k < |text| ==> !IsDigit(text[k])
  {
    match FirstDigitRun(text)
    case None => None
    case Some((i, j)) => Some(ParseDigits(text[i..j]))
  }

  /** The step passes when the page shows no digit at all, or when the count it
      shows equals the backend's. */
  predicate CountAgrees(text: string, backendCount: int) {
    match UiCount(text)
    case None => true
    case Some(n) => n == backendCount
  }

  /** A text made of non-digits, a run of digits and a rest that does not go on
      with a digit shows the number that run spells. */
  lemma UiCountOfRun(prefix: string, digits: string, rest: string)
    requires forall k :: 0 <= k < |prefix| ==> !IsDigit(prefix[k])
    requires digits != [] && AllDigits(digits)
    requires rest == [] || !IsDigit(rest[0])
    ensures UiCount(prefix + digits + rest) == Some(ParseDigits(digits))
  {
    var text := prefix + digits + rest;
    var i, j := |prefix|, |prefix| + |digits|;
    assert text[i..j] == digits;
    assert IsFirstDigitRun(text, i, j) by {
      assert forall k :: 0 <= k < i ==> text[k] == prefix[k];
      assert forall k :: i <= k < j ==> text[k] == digits[k - i];
      assert j < |text| ==> text[j] == rest[0];
    }
    assert IsDigit(text[i]);
    var r := FirstDigitRun(text);
    FirstDigitRunUnique(text, r.value.0, r.value.1, i, j);
  }

  /** The number printed in the page round-trips: the step passes exactly when
      it equals the backend's count, with or without a leading zero. */
  lemma PrintedCountAgrees(prefix: string, n: nat, rest: string, backendCount: int)
    requires forall k :: 0 <= k < |prefix| ==> !IsDigit(prefix[k])
    requires rest == [] || !IsDigit(rest[0])
    ensures CountAgrees(prefix + Decimal(n) + rest, backendCount) <==> n == backendCount
    ensures CountAgrees(prefix + ("0" + Decimal(n)) + rest, backendCount) <==> n == backendCount
  {
    UiCountOfRun(prefix, Decimal(n), rest);
    ParseDecimal(n);
    ParseLeadingZero(Decimal(n));
    UiCountOfRun(prefix, "0" + Decimal(n), rest);
  }

  /** A text without digits passes whatever the backend says. */
  lemma NoDigitPasses(text: string, backendCount: int)
    requires forall k :: 0 <= k < |text| ==> !IsDigit(text[k])
    ensures CountAgrees(text, backendCount)
  {
  }

  /** `Verify <object> object record count <xPath>`: read the element's text and
      compare its first number with `getRecordCount(engine, object)`; `resolve`
      is `Utils.getValue` and `recordCount` the uninterpreted backend count. */
  method VerifyRecordCount(b: Browser, resolve: string -> string, recordCount: string -> int,
                           sobject: string, xPath: string) returns (ok: bool)
    modifies b
    ensures ok == CountAgrees(b.render(old(b.trace), XPath(resolve(xPath))), recordCount(sobject))
    ensures b.trace == old(b.trace) + [ReadText(XPath(resolve(xPath)))]
  {
    var text := b.GetText(XPath(resolve(xPath)));
    var count := recordCount(sobject);
    ok := CountOnPage(text, count);
  }

  /** The same step with the count taken on criteria, `getRecordCountOnCriteria`. */
  method VerifyRecordCountOnCriteria(b: Browser, resolve: string -> string, recordCount: (string, string) -> int,
                                     sobject: string, criteria: string, xPath: string) returns (ok: bool)
    modifies b
    ensures ok == CountAgrees(b.render(old(b.trace), XPath(resolve(xPath))), recordCount(sobject, criteria))
    ensures b.trace == old(b.trace) + [ReadText(XPath(resolve(xPath)))]
  {
    var text := b.GetText(XPath(resolve(xPath)));
    var count := recordCount(sobject, criteria);
    ok := CountOnPage(text, count);
  }

  /** The comparison both steps make: no match, no `expect`. */
  method CountOnPage(text: string, backendCount: int) returns (ok: bool)
    ensures ok == CountAgrees(text, backendCount)
  {
    var span := FirstDigitRun(text);
    if span.Some? {
      var uiCount := ParseDigits(text[span.value.0..span.value.1]);
      ok := uiCount == backendCount;
    } else {
      ok := true;
    }
  }
}
