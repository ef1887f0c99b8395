# SalesforceCommons core, modelled in Dafny

SalesforceCommons is a library of Cucumber step definitions for testing
Salesforce Lightning pages. The steps drive a Selenium browser and a Salesforce
SDK engine. This project models the deterministic core of three files:

- the Salesforce helpers (`lib/helper/sfdc-utilities.ts`):
  - the field-action planner, which turns an object field, a value, a field type
    and a sub-field into XPath selectors and driver actions;
  - its validation counterpart;
  - the all-fields SOQL query builder and the first-record comparison;
  - the two delete helpers;
  - the URL and XPath builders;
- the assertion steps (`lib/steps/common-assertions.ts`):
  - the validation data table;
  - the data-table record check, with its cache keyed by `object:criteria`;
  - the two record-count steps;
- the action steps (`lib/steps/common-actions.ts`):
  - the login step, which fills the scenario context;
  - the set-value data table.

External calls are recorded as traces:

- Each webdriver call is appended to the trace of a `Driver.Browser`. The
  page text a read returns is an uninterpreted function `render` of the actions
  performed so far and of the locator.
- Each SDK call is appended to the log of a `Salesforce.Engine`. The answers of
  `describeObject` and `query` are uninterpreted functions of their argument.
  The SDK's `CacheProvider` is a class over a `map`.
- A chai `expect` that throws becomes a boolean `ok`, or the index of the failing
  row, and the step stops there, as the exception would make it.

Modules:

- `Js`: the JavaScript semantics the code relies on: `split`, `join`,
  `substring` clamping, `||` on strings, `?.toString()`, strict equality, and the
  first match of `/\d+/` with `parseInt`.
- `Driver`, `Salesforce`: the external interfaces.
- `FieldPlans`: the pure selector and plan functions, with the lemmas about
  each `switch` branch.
- `SfdcUtilities`: the helper functions, as methods proved against those plans.
- `RecordCache`: the cached data-table step. It has a specification function
  `Run` over a row fold, the imperative step proved equal to it, and the lemmas
  on deduplication, flushing and leaking.
- `CommonAssertions`, `CommonActions`: the remaining steps.

## Model

| member | source | states |
|---|---|---|
| Js.Split | lib/helper/sfdc-utilities.ts:280 | `value.split(",")` yields at least one piece and no piece holds the separator |
| Js.JoinSplit | lib/helper/sfdc-utilities.ts:161-162 | joining the pieces of a split with the separator gives the original text back |
| Js.SplitCount | lib/helper/sfdc-utilities.ts:280 | a text splits into one more piece than it has separators, so `""` gives one piece |
| Js.JoinSnoc | lib/helper/sfdc-utilities.ts:167-169 | joining one more piece adds the separator and that piece at the end |
| Js.DropLast | lib/helper/sfdc-utilities.ts:171 | `substring(0, length - 1)` removes exactly the last character and gives `""` for `""` |
| Js.Or | lib/helper/sfdc-utilities.ts:287 | `a \|\| b` on strings is `a` unless `a` is empty |
| Js.OptionalToString | lib/steps/common-assertions.ts:78 | `?.toString()` is undefined exactly for `null` and `undefined` |
| Js.StrictEqualsText | lib/helper/sfdc-utilities.ts:177 | `expected === actual` for a string or `undefined` expectation: `undefined` equals only `undefined`, and a string only the same string, never a number, `null` or another type |
| Js.StartsWith | lib/helper/sfdc-utilities.ts:251 | `startsWith`: the prefix is an initial segment of the text |
| Js.Join | lib/helper/sfdc-utilities.ts:167-169 | `join`: the pieces with the separator between each two of them, `""` for no piece |
| Js.DigitRunLength | lib/steps/common-assertions.ts:164 | the digits at the start of a text form the longest run there |
| Js.IsDigit | lib/steps/common-assertions.ts:164 | `\d`: an ASCII character from `0` to `9` |
| Js.IsFirstDigitRun | lib/steps/common-assertions.ts:164 | the span `[i, j)` is what `match(/\d+/)` returns: no digit before i, digits only inside, and no digit right after j |
| Js.FirstDigitRun | lib/steps/common-assertions.ts:164 | `match(/\d+/)` fails exactly when the text has no digit; otherwise it spans the first maximal digit run |
| Js.FirstDigitRunUnique | lib/steps/common-assertions.ts:164 | the first maximal digit run is unique |
| Js.Decimal | lib/steps/common-assertions.ts:167 | the decimal text of a number is a digit string without a leading zero |
| Js.ParseDigits | lib/steps/common-assertions.ts:167 | `parseInt` of a digit string: the value of its digits in base 10, most significant first, with leading zeros allowed |
| Js.ParseDecimal | lib/steps/common-assertions.ts:167 | `parseInt` of the decimal text of n gives n |
| Js.ParseLeadingZero | lib/steps/common-assertions.ts:167 | a leading zero does not change what `parseInt` gives |
| Js.BalanceConcat | lib/helper/sfdc-utilities.ts:211 | the bracket balance of concatenated texts is the sum of their balances |
| Js.Balance | lib/helper/sfdc-utilities.ts:339 | the number of `(` minus the number of `)` in a text |
| Driver.Browser.ClickElement | lib/helper/sfdc-utilities.ts:262 | a click appends one Click of its locator to the trace |
| Driver.Browser.EnterText | lib/helper/sfdc-utilities.ts:257 | typing appends one Type of the locator and text |
| Driver.Browser.ExpectText | lib/helper/sfdc-utilities.ts:317 | the check passes exactly when the expected text strictly equals the text shown, and appends one CompareText |
| Driver.Browser.GetText | lib/steps/common-assertions.ts:162-163 | reading returns the text shown at the locator and appends one ReadText |
| Driver.Browser.Navigate | lib/helper/sfdc-utilities.ts:190 | `driver.get(url)` appends one Get of that url |
| Salesforce.Property | lib/helper/sfdc-utilities.ts:117 | a missing record property reads as `undefined` |
| Salesforce.FirstRecord | lib/steps/common-assertions.ts:78 | `records[0]` is present exactly when there is a record |
| Salesforce.QueryCount | lib/steps/common-assertions.ts:74 | the number of `query` calls in a call log |
| Salesforce.Engine.DescribeObject | lib/steps/common-assertions.ts:65 | returns the describe answer for the object and logs one Describe |
| Salesforce.Engine.Query | lib/steps/common-assertions.ts:74 | returns the answer to the SOQL text and logs one Query |
| Salesforce.Engine.DeleteRecords | lib/helper/sfdc-utilities.ts:121 | logs one Delete of the ids and object; fails exactly when the backend rejects it |
| Salesforce.CacheProvider.HasCache | lib/steps/common-assertions.ts:63 | true exactly when the key is cached |
| Salesforce.CacheProvider.GetCache | lib/steps/common-assertions.ts:89 | returns the entry cached under the key |
| Salesforce.CacheProvider.SetCache | lib/steps/common-assertions.ts:75 | the key maps to the result and every other entry is unchanged |
| Salesforce.CacheProvider.DeleteCache | lib/steps/common-assertions.ts:103 | only that key is removed |
| FieldPlans.RecordField | lib/helper/sfdc-utilities.ts:252 | `//div[@data-target-selection-name='sfdc:RecordField.<objectField>']`, the container of every selector built from the step's object field (in the dueling-list item and multi-select help selectors it follows an opening `(`); the move button uses the container of the fixed field `Account.Books__c`, and the picklist option and lookup suggestion selectors do not contain it |
| FieldPlans.AddressTag | lib/helper/sfdc-utilities.ts:252 | `textarea` for exactly "Address.textarea", `input` for every other type |
| FieldPlans.AddressInput | lib/helper/sfdc-utilities.ts:252 | the record field, then `//<tag>[@name='<field>']` with the address tag |
| FieldPlans.PicklistSegment | lib/helper/sfdc-utilities.ts:260 | `//lightning-picklist[@data-field='<field>']` for a non-empty sub-field, `''` for the empty one |
| FieldPlans.PicklistButton | lib/helper/sfdc-utilities.ts:261 | the record field, the picklist segment, then `//button[@role='combobox']` |
| FieldPlans.PicklistOption | lib/helper/sfdc-utilities.ts:263 | `//span[@title='<value>']`, the option clicked after opening the picklist |
| FieldPlans.CheckStatus | lib/helper/sfdc-utilities.ts:267 | the set-path checkbox qualifier: `''` for "true", `[@Checked]` for "false", `[]` for any other value |
| FieldPlans.CheckboxInput | lib/helper/sfdc-utilities.ts:268 | the record field, `//lightning-input`, the qualifier, then `//input[@type='checkbox']` |
| FieldPlans.LookupInput | lib/helper/sfdc-utilities.ts:272 | the record field, then `//input[@role='combobox']` |
| FieldPlans.LookupSuggestion | lib/helper/sfdc-utilities.ts:274 | `//lightning-base-combobox-formatted-text[@title='<value>']` |
| FieldPlans.SourceList | lib/helper/sfdc-utilities.ts:278 | dueling list 1 when the sub-field is "Available", list 2 otherwise |
| FieldPlans.TargetList | lib/helper/sfdc-utilities.ts:279 | "Chosen" when the sub-field is "Available", "Available" otherwise |
| FieldPlans.DuelingItem | lib/helper/sfdc-utilities.ts:282 | `(`, the record field, `//div[@class='slds-dueling-list__options'])[<list>]`, then `//div[@data-value='<item>']` |
| FieldPlans.MoveButton | lib/helper/sfdc-utilities.ts:284 | the record field of `Account.Books__c`, then `//button[@title='Move selection to <choice>']` |
| FieldPlans.TextAreaInput | lib/helper/sfdc-utilities.ts:288 | the record field, then `//textarea[@class='slds-textarea']` |
| FieldPlans.InputSegment | lib/helper/sfdc-utilities.ts:292 | `//lightning-input[@data-field='<field>']` for a non-empty sub-field, `''` for the empty one |
| FieldPlans.DefaultInput | lib/helper/sfdc-utilities.ts:293 | the record field, the input segment, then `//input[@class='slds-input']` |
| FieldPlans.MultiSelectPlan | lib/helper/sfdc-utilities.ts:281-285 | for each item in order, a click on the item in the source list and then a click on the move button |
| FieldPlans.SetValuePlan | lib/helper/sfdc-utilities.ts:248-297 | the actions of each `switch` case, after an "Address.*" type has been turned into "Address": one Type for the address, text area and default cases, two actions for picklist and lookup, one click for a checkbox, MultiSelectPlan for a multi-select |
| FieldPlans.AddressHelpTag | lib/helper/sfdc-utilities.ts:312 | `lightning-textarea` for exactly "Address.textarea", `lightning-input` otherwise |
| FieldPlans.AddressHelp | lib/helper/sfdc-utilities.ts:312 | the record field, then `//<tag>[@class='slds-form-element__help']` with the address help tag |
| FieldPlans.PicklistHelp | lib/helper/sfdc-utilities.ts:320-321 | the record field, the picklist segment, then the help text `//div[@class='slds-form-element__help']` |
| FieldPlans.CheckedQualifier | lib/helper/sfdc-utilities.ts:327 | the validation checkbox qualifier: `[@Checked]` for "true", `''` otherwise |
| FieldPlans.CheckboxHelp | lib/helper/sfdc-utilities.ts:328 | the record field, `//lightning-input`, the qualifier, then the help text |
| FieldPlans.FieldHelp | lib/helper/sfdc-utilities.ts:332 | the record field, then the help text; also the text-area selector at line 344 |
| FieldPlans.MultiSelectHelp | lib/helper/sfdc-utilities.ts:339 | `(`, the record field, then the help text, with the bracket never closed |
| FieldPlans.DefaultHelp | lib/helper/sfdc-utilities.ts:348-349 | the record field, the input segment, then the help text |
| FieldPlans.ValidationTarget | lib/helper/sfdc-utilities.ts:308-353 | the locator each `switch` case compares against, after an "Address.*" type has been turned into "Address"; bare "Address" gives the unassigned locator |
| FieldPlans.IsNamedType | lib/helper/sfdc-utilities.ts:255-290 | the types a `case` names: Address, Picklist, Checkbox, Lookup, Picklist(Multi-Select) and Text Area |
| FieldPlans.ValidationPlan | lib/helper/sfdc-utilities.ts:315-352 | every validation branch issues exactly one strict comparison, against the expected text |
| FieldPlans.TextAreaLabelIsFirstOperand | lib/helper/sfdc-utilities.ts:287 | the case label `'Text Area' \|\| 'Text Area(Long)'` is just "Text Area" |
| FieldPlans.NamedTypesAreNotAddressForms | lib/helper/sfdc-utilities.ts:251 | no type named by a case starts with "Address.", so none of them is rewritten |
| FieldPlans.AddressSetsNamedElement | lib/helper/sfdc-utilities.ts:251-258 | an "Address.*" type issues exactly one Type of the value into the element named by the sub-field, a `textarea` for "Address.textarea" and an `input` otherwise |
| FieldPlans.AddressTextareaIff | lib/helper/sfdc-utilities.ts:252 | the address selector's element is `textarea` if and only if the type is exactly "Address.textarea" |
| FieldPlans.BareAddressTypesIntoUndefined | lib/helper/sfdc-utilities.ts:249-257 | the bare type "Address" reaches the address case with its selector never assigned |
| FieldPlans.PicklistOpensThenPicks | lib/helper/sfdc-utilities.ts:259-264 | a picklist clicks its combobox, then the option titled with the value: exactly two actions |
| FieldPlans.PicklistSegmentIff | lib/helper/sfdc-utilities.ts:260-261 | the combobox selector holds `//lightning-picklist[@data-field=field]` if and only if the sub-field is non-empty |
| FieldPlans.CheckboxClicksOnce | lib/helper/sfdc-utilities.ts:265-270 | a checkbox takes exactly one click; its qualifier is `''` for "true", `[@Checked]` for "false" and `[]` for anything else |
| FieldPlans.LookupTypesThenPicks | lib/helper/sfdc-utilities.ts:271-275 | a lookup types the value into its combobox, then clicks the suggestion titled with the value: exactly two actions |
| FieldPlans.MultiSelectAlternates | lib/helper/sfdc-utilities.ts:281-285 | the loop issues 2n clicks for n items: item k at position 2k, the move button at 2k+1 |
| FieldPlans.MultiSelectClicks | lib/helper/sfdc-utilities.ts:276-286 | a value with c commas takes 2(c+1) alternating clicks; source list 1 and target "Chosen" if and only if the sub-field is "Available", otherwise list 2 and "Available" |
| FieldPlans.MoveButtonIgnoresObjectField | lib/helper/sfdc-utilities.ts:284 | the move button is looked up under `Account.Books__c`, the same whichever object field is being set |
| FieldPlans.TextAreaTypesOnce | lib/helper/sfdc-utilities.ts:287-290 | "Text Area" types the value once into the record field's `textarea` |
| FieldPlans.OtherTypesUseDefaultInput | lib/helper/sfdc-utilities.ts:291-295 | every type no case names, other than the address forms, types once into the default `input` |
| FieldPlans.TextAreaLongUsesDefaultInput | lib/helper/sfdc-utilities.ts:287-295 | "Text Area(Long)" falls to the default branch, both when setting and when validating |
| FieldPlans.DefaultSegmentIff | lib/helper/sfdc-utilities.ts:292-293 | the default selectors hold `//lightning-input[@data-field=field]` if and only if the sub-field is non-empty, both when setting and when validating |
| FieldPlans.AddressValidation | lib/helper/sfdc-utilities.ts:311-318 | an "Address.*" validation reads a `lightning-textarea` help text if and only if the type is "Address.textarea", and a `lightning-input` one otherwise; the sub-field is not used |
| FieldPlans.CheckboxValidationIff | lib/helper/sfdc-utilities.ts:325-330 | the checkbox validation selector carries `[@Checked]` if and only if the expected text is "true" |
| FieldPlans.MultiSelectValidationUnbalanced | lib/helper/sfdc-utilities.ts:335-341 | the multi-select validation selector is the lookup one with a stray "(" in front, whatever the sub-field |
| FieldPlans.MultiSelectHelpUnbalanced | lib/helper/sfdc-utilities.ts:339 | the multi-select help selector has one more opening than closing round bracket, compared with the Lookup and Text Area help selector |
| FieldPlans.TextAreaValidation | lib/helper/sfdc-utilities.ts:331-346 | the lookup and text-area validations read the same field help text |
| FieldPlans.PicklistAndDefaultValidation | lib/helper/sfdc-utilities.ts:319-351 | a picklist validation reads the picklist help text; every type no case names reads the default one |
| FieldPlans.BareAddressValidatesUndefined | lib/helper/sfdc-utilities.ts:309-317 | the bare type "Address" compares against a selector that was never assigned |
| SfdcUtilities.SetValueInObjectFieldType | lib/helper/sfdc-utilities.ts:248-297 | the driver performs exactly the actions of SetValuePlan, in order |
| SfdcUtilities.MoveItems | lib/helper/sfdc-utilities.ts:281-285 | the multi-select loop performs exactly the alternating clicks of MultiSelectPlan |
| SfdcUtilities.MultiSelectPlanStep | lib/helper/sfdc-utilities.ts:281-285 | one more loop iteration appends the item's click and then the move click |
| SfdcUtilities.AssertValidationInObjectFieldType | lib/helper/sfdc-utilities.ts:308-353 | passes exactly when the expected text strictly equals the help text at the branch's locator, after one comparison |
| SfdcUtilities.AppUrl | lib/helper/sfdc-utilities.ts:188-191 | the app URL starts with the instance URL and ends with the app name after `/lightning/app/` |
| SfdcUtilities.RecordListUrl | lib/helper/sfdc-utilities.ts:233-237 | the list URL starts with the instance URL, names the object after `/lightning/o/`, and ends with `/list?filterName=` and the filter name |
| SfdcUtilities.IndexedXPath | lib/helper/sfdc-utilities.ts:210-213 | `(xpath)[index]` adds one balanced pair of round brackets (square brackets are not counted) |
| SfdcUtilities.ToastMessageXPath | lib/helper/sfdc-utilities.ts:83 | `//div[@aria-label='<status>']` followed by the toast message span |
| SfdcUtilities.NavigateToApp | lib/helper/sfdc-utilities.ts:188-191 | one navigation, to the app URL |
| SfdcUtilities.NavigateToObjectRecordList | lib/helper/sfdc-utilities.ts:233-237 | one navigation, to the list URL |
| SfdcUtilities.ClickElementAtIndexByXpath | lib/helper/sfdc-utilities.ts:210-213 | one click, on the indexed form of the resolved XPath |
| SfdcUtilities.VerifyToastMessage | lib/helper/sfdc-utilities.ts:82-85 | passes exactly when the message strictly equals the toast text of the given status |
| SfdcUtilities.Names | lib/helper/sfdc-utilities.ts:167-169 | the describe field names, in order |
| SfdcUtilities.SelectList | lib/helper/sfdc-utilities.ts:165-169 | the query text after the loop: "SELECT", then ` name,` for each describe field in order |
| SfdcUtilities.SelectAll | lib/helper/sfdc-utilities.ts:171-173 | that text with its last character removed, then ` FROM <object> WHERE <criteria>` |
| SfdcUtilities.SelectListJoin | lib/helper/sfdc-utilities.ts:165-169 | the accumulated text is "SELECT " then the names joined by ", ", then a trailing comma |
| SfdcUtilities.SelectAllNonEmpty | lib/helper/sfdc-utilities.ts:165-173 | with at least one field, the query is "SELECT " + names joined by ", " + " FROM " + object + " WHERE " + criteria |
| SfdcUtilities.SelectAllEmpty | lib/helper/sfdc-utilities.ts:171-173 | with no field, the last character removed is the T of SELECT: the query is "SELEC FROM ..." |
| SfdcUtilities.SelectAllQuery | lib/helper/sfdc-utilities.ts:165-173 | the loop, the trim and the completion build exactly SelectAll of the field names |
| SfdcUtilities.ValueAt | lib/helper/sfdc-utilities.ts:177 | `value[index]`: the value at that index, or `undefined` past the end of the split values |
| SfdcUtilities.FieldMatches | lib/helper/sfdc-utilities.ts:177 | `value[index] === records[0][field[index]]` with strict equality |
| SfdcUtilities.FirstMismatchFrom | lib/helper/sfdc-utilities.ts:176-178 | none exactly when every field from there on matches; otherwise a field that does not match |
| SfdcUtilities.RecordVerdict | lib/helper/sfdc-utilities.ts:176-178 | Pass with no field; a NoRecord fault when the query returned no record; otherwise Pass or the first mismatching index of the first record |
| SfdcUtilities.CompareFirstRecord | lib/helper/sfdc-utilities.ts:176-178 | the index loop gives exactly RecordVerdict |
| SfdcUtilities.RecordVerdictMeaning | lib/helper/sfdc-utilities.ts:176-178 | a fault exactly when there is no record; a pass exactly when every listed field of the first record strictly equals its value; otherwise the first mismatching index |
| SfdcUtilities.OtherObjectQueriedWithStudentFields | lib/helper/sfdc-utilities.ts:163-174 | an object with its own schema is queried for the fields of `Student__c`, and gets a different query from the one its own describe would give |
| SfdcUtilities.SingleFieldQuery | lib/helper/sfdc-utilities.ts:165-173 | with one field, the query is "SELECT <name> FROM <object> WHERE <criteria>" |
| SfdcUtilities.AssertObjectRecordOnCriteria | lib/helper/sfdc-utilities.ts:160-179 | describes `Student__c` whatever the object, sends one all-fields query on the object and criteria, and judges the first record on the split fields and values |
| SfdcUtilities.IdsOf | lib/helper/sfdc-utilities.ts:116-118 | the `Id` of every record, in result order |
| SfdcUtilities.CollectIds | lib/helper/sfdc-utilities.ts:116-118 | the push loop collects exactly IdsOf the records |
| SfdcUtilities.DeleteCalls | lib/helper/sfdc-utilities.ts:119-125 | at most one delete; none exactly when there are no ids; otherwise one delete of all the ids |
| SfdcUtilities.QueryAndDelete | lib/helper/sfdc-utilities.ts:113-125 | one query, then DeleteCalls of its ids; a failing delete is swallowed |
| SfdcUtilities.CriteriaIdQuery | lib/helper/sfdc-utilities.ts:113 | `Select id from <object> where <criteria>` |
| SfdcUtilities.AllIdQuery | lib/helper/sfdc-utilities.ts:136 | `Select id ,Name from <object>` |
| SfdcUtilities.DeleteRecordOnCriteria | lib/helper/sfdc-utilities.ts:111-126 | queries `Select id from X where C`, then deletes all the ids returned, if any |
| SfdcUtilities.DeleteAllRecordOfObject | lib/helper/sfdc-utilities.ts:134-149 | queries `Select id ,Name from X`, then deletes all the ids returned, if any |
| RecordCache.CacheKeyCollides | lib/steps/common-assertions.ts:63 | the key `object:criteria` is plain concatenation, so different pairs can share one key |
| RecordCache.CacheKey | lib/steps/common-assertions.ts:63 | the cache key `<object>:<criteria>` |
| RecordCache.RowKey | lib/steps/common-assertions.ts:59-63 | the cache key of a row's object and criteria |
| RecordCache.KeysTo | lib/steps/common-assertions.ts:63 | holds the key of each of the first n rows |
| RecordCache.KeysToMonotone | lib/steps/common-assertions.ts:58 | more rows look up more keys |
| RecordCache.NumericNames | lib/steps/common-assertions.ts:67-69 | the names of the described fields whose type is `integer` or `double` |
| RecordCache.NumericNamesMeaning | lib/steps/common-assertions.ts:67-69 | a name is numeric exactly when some describe field of that name has type `integer` or `double` |
| RecordCache.RowMatches | lib/steps/common-assertions.ts:77-99 | one row's `expect`: a numeric field by strict equality with `?.toString()` of the value read, "null" by equality with `null`, any other text by strict equality with that string |
| RecordCache.EngineServices | lib/steps/common-assertions.ts:65-74 | a miss sends the all-fields query built from the object's describe, and collects the numeric names of that describe |
| RecordCache.Start | lib/steps/common-assertions.ts:56-57 | the cache before the step, with empty `cacheSet` and `integerSet` and no miss yet |
| RecordCache.NumericComparesText | lib/steps/common-assertions.ts:77-79 | a numeric field matches exactly when the number's text is the expected text; `null` and `undefined` never match |
| RecordCache.NullLiteralMeansNull | lib/steps/common-assertions.ts:80-85 | "null" matches `null` only, neither `undefined` nor the string "null" |
| RecordCache.RowState | lib/steps/common-assertions.ts:63-76 | after a row, its key is cached |
| RecordCache.RowPasses | lib/steps/common-assertions.ts:77-99 | RowMatches on the first record of the result cached for the row's key (just inserted on a miss), with the numeric names known after the row's lookup |
| RecordCache.StateTo | lib/steps/common-assertions.ts:58-100 | the state after the first n rows, each row's RowState applied in row order |
| RecordCache.PassesAt | lib/steps/common-assertions.ts:77-99 | RowPasses for row i on the state the rows before it left |
| RecordCache.FailureTo | lib/steps/common-assertions.ts:58-101 | a failing row lies among the rows looked at |
| RecordCache.Run | lib/steps/common-assertions.ts:58-101 | the loop ends at a row of the table, or with none failed |
| DataTable.Processed | lib/steps/common-assertions.ts:58-101 | the rows a data-table step gets through: all of them, or up to and including the row whose `expect` threw |
| RecordCache.RowStep | lib/steps/common-assertions.ts:58-100 | while no row has failed, the next row applies its lookup to the state so far |
| RecordCache.RunStops | lib/steps/common-assertions.ts:58-100 | a failure at row i ends the loop with the state after row i |
| RecordCache.FailureSticks | lib/steps/common-assertions.ts:58-100 | after a failure, later rows change nothing |
| RecordCache.FailureIsFirst | lib/steps/common-assertions.ts:77-99 | no failure exactly when every row passes; otherwise the failing row is the first that does not pass |
| RecordCache.FirstFailureStep | lib/steps/common-assertions.ts:58-100 | the first-failure property extends by one row |
| RecordCache.FailureStep | lib/steps/common-assertions.ts:58-100 | the first failure among j+1 rows is the first among j, or row j |
| RecordCache.StepAccounts | lib/steps/common-assertions.ts:63-76 | each row keeps the accounting between the cache before the step, the inserted keys and the keys seen |
| RecordCache.StateAccounts | lib/steps/common-assertions.ts:56-76 | after n rows, the inserted keys are exactly the keys seen that were not cached before, and removing them gives back the cache from before the step |
| RecordCache.StartAccounts | lib/steps/common-assertions.ts:56 | the accounting holds before any row |
| RecordCache.NextAccounts | lib/steps/common-assertions.ts:58-76 | the accounting extends by one row |
| RecordCache.Calls | lib/steps/common-assertions.ts:65-74 | the engine calls of the misses, in order: a describe of the object, then the query |
| RecordCache.QueryCountCalls | lib/steps/common-assertions.ts:74 | each miss issues exactly one query |
| RecordCache.CallsSnoc | lib/steps/common-assertions.ts:65-74 | a miss appends a describe and then a query |
| RecordCache.QueriesOncePerNewKey | lib/steps/common-assertions.ts:63-76 | describe and query run exactly once per distinct key, among the rows processed, that was not cached before the step, and at most once per key of the table |
| RecordCache.PassRestoresCache | lib/steps/common-assertions.ts:56-104 | when every row passes, the inserted keys were not cached before, and flushing them gives back exactly the cache from before the step |
| RecordCache.FailureLeaksInsertedKeys | lib/steps/common-assertions.ts:77-104 | when a row fails, every key looked up up to it stays cached; a step that inserted a key leaves the cache changed |
| RecordCache.RunAccounts | lib/steps/common-assertions.ts:56-101 | the accounting holds when the loop ends |
| RecordCache.HitIssuesNoCall | lib/steps/common-assertions.ts:88-99 | a hit issues no call and changes no state; the row is judged on the cached result and the numeric names gathered so far |
| RecordCache.MissUsesAccumulatedNumericNames | lib/steps/common-assertions.ts:63-86 | a miss describes the object, sends its all-fields query once, caches the answer, adds its numeric names, and judges the row with the numeric names gathered so far |
| RecordCache.WarmCacheSkipsNumericNames | lib/steps/common-assertions.ts:57-92 | the same integer row passes on a cold cache and fails when its key was cached before the step, since numeric names are gathered on misses only |
| RecordCache.ProjectFields | lib/steps/common-assertions.ts:66-73 | the miss loop builds the all-fields query and the numeric names of the described fields |
| RecordCache.CheckRow | lib/steps/common-assertions.ts:59-100 | one row's lookup and comparison: the new state is RowState and the result is RowPasses |
| RecordCache.PassesOnResult | lib/steps/common-assertions.ts:77-99 | a row passes when its comparison holds against the result cached under its key |
| RecordCache.Flush | lib/steps/common-assertions.ts:102-104 | removes exactly the given keys |
| RecordCache.CheckRows | lib/steps/common-assertions.ts:56-101 | the row loop gives exactly Run: the same failing row, inserted keys, cache and engine calls |
| RecordCache.VerifyRecordTable | lib/steps/common-assertions.ts:55-105 | the step gives Run's failing row and engine calls; it flushes the inserted keys only when no row failed |
| CommonAssertions.FirstInvalid | lib/steps/common-assertions.ts:42-48 | a failing row lies among the rows looked at |
| CommonAssertions.RowTarget | lib/steps/common-assertions.ts:43-47 | the locator a row's validation compares against, from that row's object field, expected value, field type and sub-field |
| CommonAssertions.Comparisons | lib/steps/common-assertions.ts:42-48 | the comparisons of the first n rows, one per row in row order, each with the row's expected value |
| CommonAssertions.RowValid | lib/steps/common-assertions.ts:47 | row i's expected value equals the text shown at its locator, after the earlier rows' comparisons |
| CommonAssertions.ComparisonsRows | lib/steps/common-assertions.ts:42-48 | one comparison per row, in row order, each with that row's expected value and locator |
| CommonAssertions.ComparisonsPrefix | lib/steps/common-assertions.ts:42-48 | the comparisons of earlier rows do not depend on later ones |
| CommonAssertions.FirstInvalidIsFirst | lib/steps/common-assertions.ts:42-48 | no failure exactly when every row's expectation holds; otherwise the failing row is the first whose expectation fails |
| CommonAssertions.InvalidStep | lib/steps/common-assertions.ts:42-48 | the first failure among j+1 rows is the first among j, or row j |
| CommonAssertions.InvalidSticks | lib/steps/common-assertions.ts:42-48 | after a failure, later rows are not looked at |
| CommonAssertions.ValidateRow | lib/steps/common-assertions.ts:43-47 | one row's validation, with the object field, expected value, field type and sub-field of that row |
| CommonAssertions.VerifyValidationTable | lib/steps/common-assertions.ts:40-49 | one validation per row, in row order, up to and including the first failing row, which the step reports |
| CommonAssertions.UiCount | lib/steps/common-assertions.ts:164-167 | no count exactly when the text holds no digit |
| CommonAssertions.CountAgrees | lib/steps/common-assertions.ts:164-171 | true when the text has no digit; otherwise the value of its first digit run equals the backend count |
| CommonAssertions.UiCountOfRun | lib/steps/common-assertions.ts:164-167 | the count is the value of the first maximal digit run |
| CommonAssertions.PrintedCountAgrees | lib/steps/common-assertions.ts:164-171 | a number printed in the page, with or without a leading zero, agrees exactly when it equals the backend count |
| CommonAssertions.NoDigitPasses | lib/steps/common-assertions.ts:166-171 | a text without digits passes, whatever the backend count |
| CommonAssertions.VerifyRecordCount | lib/steps/common-assertions.ts:159-172 | reads the element's text once and passes exactly when the count agrees with the object's record count |
| CommonAssertions.VerifyRecordCountOnCriteria | lib/steps/common-assertions.ts:174-187 | the same, with the count taken on the criteria |
| CommonAssertions.CountOnPage | lib/steps/common-assertions.ts:164-171 | the comparison is made only when the text holds a digit |
| CommonActions.World.GetBrowserFromPool | lib/steps/common-actions.ts:26 | the browser comes from the pool entry with the given key |
| CommonActions.World.LoginEngine | lib/steps/common-actions.ts:37-39 | an engine for the credential's environment, and a login with the credential |
| CommonActions.World.GoToUrl | lib/steps/common-actions.ts:43 | one navigation, through the given driver |
| CommonActions.LoginContext | lib/steps/common-actions.ts:24-50 | for "public", only the browser from the pool entry "public"; otherwise the credential, the browser pooled under its user name, the login session and the engine of its environment |
| CommonActions.LoginEvents | lib/steps/common-actions.ts:21-56 | the calls in order: acquire a browser (for a user, then log in and open the login URL), then go to the resolved url unless it is "/", through the outer `driver` |
| CommonActions.World.GoToAsUser | lib/steps/common-actions.ts:21-56 | the context becomes LoginContext and the calls made are LoginEvents |
| CommonActions.PublicSetsOnlyBrowser | lib/steps/common-actions.ts:24-30 | "public" leaves exactly a browser from the pool entry "public" in the context, and logs nobody in |
| CommonActions.UserFillsContext | lib/steps/common-actions.ts:31-51 | any other credential sets user, browser, connection and engine; the browser comes from the pool entry of the user name; the login comes before the login URL |
| CommonActions.NavigatesUnlessRoot | lib/steps/common-actions.ts:52-55 | there is one more navigation, the last call, exactly when the resolved url is not "/" |
| CommonActions.UserNavigatesWithUnassignedDriver | lib/steps/common-actions.ts:22-54 | for a user, the final navigation goes through the outer driver, which was never assigned, although the context holds a browser; for "public" it goes through the context's browser |
| CommonActions.PlansConcat | lib/steps/common-actions.ts:132-138 | a table cut in two performs the first part's rows, then the second part's |
| CommonActions.PlansPrefix | lib/steps/common-actions.ts:132-138 | the actions of earlier rows do not depend on later ones |
| CommonActions.PlansStep | lib/steps/common-actions.ts:132-138 | one more row appends that row's actions |
| CommonActions.PlansSingle | lib/steps/common-actions.ts:133-137 | a one-row table performs that row's actions |
| CommonActions.RowPlan | lib/steps/common-actions.ts:133-137 | the actions of `setValueInObjectFieldType` on the row's object field, value, field type and sub-field |
| CommonActions.Plans | lib/steps/common-actions.ts:132-138 | the actions of the first n rows, each row's after the previous one's |
| CommonActions.SetRow | lib/steps/common-actions.ts:133-137 | one row's `setValueInObjectFieldType`, with that row's object field, value, field type and sub-field |
| CommonActions.SetValueTable | lib/steps/common-actions.ts:130-139 | the actions of every row, in row order |

## Left out

- Webdriver behaviour (`findElement`, `click`, `sendKeys`, `getText`, waits, iframe switching, the browser pool) is not modelled. Each call is a trace entry, and what the page shows is the uninterpreted `render`.
- The SDK (`login`, `query`, `delete`, `describeObject`, `getLoginUrl`) is not modelled. It is uninterpreted functions plus a call log. `CacheProvider` has plain map semantics.
- Js.ParseDigits: gives the exact base-10 value of the digits, but `parseInt` (lib/steps/common-assertions.ts:167) returns a double, which rounds every run above 2^53 to the nearest double, and one past the double range to `Infinity`; the model keeps the exact value.
- Js.ParseDecimal: `parseInt` of the decimal text of n gives n only up to 2^53 in the source; the model proves it for every nat.
- CommonAssertions.CountAgrees: compares the exact run value with the backend count, so a run above 2^53 that rounds to the backend count passes in the source but not in the model (page text "9007199254740993" against a count of 9007199254740992).
- CommonAssertions.UiCountOfRun: the count is the exact run value; the source gets it rounded to a double above 2^53.
- CommonAssertions.PrintedCountAgrees: agreement exactly when n equals the backend count holds in the source only for n up to 2^53; above it, distinct runs parse to the same double.
- SDK exceptions other than a rejected `delete` are not modelled. `describeObject` (lib/helper/sfdc-utilities.ts:163, lib/steps/common-assertions.ts:65), `query` (lib/helper/sfdc-utilities.ts:113, :136, :174, lib/steps/common-assertions.ts:74) and `login` (lib/steps/common-actions.ts:39) can throw out of their step. In the model they always answer, and only `delete` can fail; it is swallowed as in the source. So two paths are not covered. First, a throw at row k of the cached-record step skips the flush at lib/steps/common-assertions.ts:102-104, and the keys inserted by the rows before k stay cached; FailureLeaksInsertedKeys covers only a failing `expect`. Second, a failing query in the delete helpers escapes the step instead of being swallowed.
- `getPropertyByPath`, `getRecordCount`, `getRecordCountOnCriteria` and the framework's `Utils.getValue` are not defined in these files, so they are function parameters. `createRecord` is not used by the modelled steps.
- `goToUrl` with an unassigned driver is only recorded as a call with `Unassigned`; what the framework then does is outside these files.
- JavaScript number formatting (`toString` of a `double`) is floating point. A number is identified with its text, so `NumericComparesText` takes that text as given.
- `parseInt` is modelled only on a run of decimal digits, which is all `match(/\d+/)` can return.
- The optional `field` parameter is always a string here. An `undefined` sub-field, which the templates would print as "undefined", is not modelled.
- With no record, `records[0][field]` throws a TypeError in `assertObjectRecordOnCriteria`; the model reports this as the `NoRecord` verdict.
- The 'null' expectation follows the code: it is a strict comparison with `null`, so a missing property (`undefined`) does not match. Documentation that calls it "absent" says more than the code does.
- `async`/`await` is modelled as sequential execution, and `console.log` is left out.
- `verifyErrorOnAbxField`, `verifyToastHeadMessage`, `waitForElementByXpath` and `waitSpinnerDisableByXpath` are left out. They only forward a selector to the webdriver, and the waits are pure webdriver behaviour.
- The iframe steps and the single-row `Verify in ... on ...` step are left out for the same reason: they only forward arguments.
- `lib/helper/eventbus.ts`, `postbuild.js` and `lib/test/data/pages/recordForm.js` are not part of this model. They are an event emitter, a build script and a test fixture page.
- `MultiSelectPlan`, `MoveItems`: the list index is bounded below 10 so that its decimal text is a single digit. The source only ever uses 1 or 2.
