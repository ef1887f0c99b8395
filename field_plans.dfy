/** The selectors `setValueInObjectFieldType` and
    `assertValidationInObjectFieldType` build, and the driver actions each field
    type leads to, as pure functions of the step's parameters; with lemmas that
    state what every branch of the dispatch does, quirks included. */
module FieldPlans {
  import opened Js
  import opened Driver

  /** One row of a field data table: the record field, the value to set (or
      the expected validation text), the field type and the sub-field. */
  datatype FieldRow = FieldRow(objectField: string, value: string, fieldType: string, field: string)

  /** The Lightning record-field container every field selector starts from. */
  function RecordField(objectField: string): string {
    "//div[@data-target-selection-name='sfdc:RecordField." + objectField + "']"
  }

  /** The `switch` label `'Text Area' || 'Text Area(Long)'`, evaluated the way
      JavaScript evaluates it before comparing: the first, truthy, operand. */
  const TextAreaLabel: string := Or("Text Area", "Text Area(Long)")

  /** The multi-select "move" button is always looked up under this record field. */
  const MoveButtonField: string := "Account.Books__c"

  const HelpText: string := "//div[@class='slds-form-element__help']"

  // ---------------------------------------------------------------------------
  // Selectors of the set path

  function AddressTag(fieldType: string): string {
    if fieldType == "Address.textarea" then "textarea" else "input"
  }

  function AddressInput(objectField: string, fieldType: string, field: string): string {
    RecordField(objectField) + "//" + AddressTag(fieldType) + "[@name='" + field + "']"
  }

  function PicklistSegment(field: string): string {
    if field != "" then "//lightning-picklist[@data-field='" + field + "']" else ""
  }

  function PicklistButton(objectField: string, field: string): string {
    RecordField(objectField) + PicklistSegment(field) + "//button[@role='combobox']"
  }

  function PicklistOption(value: string): string {
    "//span[@title='" + value + "']"
  }

  /** The checkbox qualifier: `''` for "true", `'[@Checked]'` for "false", `'[]'` otherwise. */
  function CheckStatus(value: string): string {
    if value == "true" then "" else if value == "false" then "[@Checked]" else "[]"
  }

  function CheckboxInput(objectField: string, value: string): string {
    RecordField(objectField) + "//lightning-input" + CheckStatus(value) + "//input[@type='checkbox']"
  }

  function LookupInput(objectField: string): string {
    RecordField(objectField) + "//input[@role='combobox']"
  }

  function LookupSuggestion(value: string): string {
    "//lightning-base-combobox-formatted-text[@title='" + value + "']"
  }

  /** The dueling list the items are picked from: 1 when the sub-field is "Available". */
  function SourceList(field: string): nat {
    if field == "Available" then 1 else 2
  }

  /** The list named on the move button. */
  function TargetList(field: string): string {
    if field == "Available" then "Chosen" else "Available"
  }

  function DuelingItem(objectField: string, list: nat, item: string): string
    requires list < 10
  {
    "(" + RecordField(objectField) + "//div[@class='slds-dueling-list__options'])["
      + [DigitChar(list)] + "]//div[@data-value='" + item + "']"
  }

  function MoveButton(choice: string): string {
    RecordField(MoveButtonField) + "//button[@title='Move selection to " + choice + "']"
  }

  function TextAreaInput(objectField: string): string {
    RecordField(objectField) + "//textarea[@class='slds-textarea']"
  }

  function InputSegment(field: string): string {
    if field != "" then "//lightning-input[@data-field='" + field + "']" else ""
  }

  function DefaultInput(objectField: string, field: string): string {
    RecordField(objectField) + InputSegment(field) + "//input[@class='slds-input']"
  }

  // ---------------------------------------------------------------------------
  // Plans of the set path

  /** The clicks of the multi-select loop over `items`: the item, then the move button. */
  function MultiSelectPlan(objectField: string, items: seq<string>, list: nat, choice: string): seq<Action>
    requires list < 10
    decreases |items|
  {
    if items == [] then []
    else MultiSelectPlan(objectField, items[..|items| - 1], list, choice)
           + [Click(XPath(DuelingItem(objectField, list, items[|items| - 1]))), Click(XPath(MoveButton(choice)))]
  }

  /** The driver actions `setValueInObjectFieldType` performs. A type starting
      with "Address." builds the address selector and is then treated as
      "Address"; the plain type "Address" reaches that case with no selector. */
  function SetValuePlan(objectField: string, value: string, fieldType: string, field: string): seq<Action> {
    var isAddress := StartsWith(fieldType, "Address.");
    var address := if isAddress then XPath(AddressInput(objectField, fieldType, field)) else Undefined;
    var kind := if isAddress then "Address" else fieldType;
    if kind == "Address" then
      [Type(address, value)]
    else if kind == "Picklist" then
      [Click(XPath(PicklistButton(objectField, field))), Click(XPath(PicklistOption(value)))]
    else if kind == "Checkbox" then
      [Click(XPath(CheckboxInput(objectField, value)))]
    else if kind == "Lookup" then
      [Type(XPath(LookupInput(objectField)), value), Click(XPath(LookupSuggestion(value)))]
    else if kind == "Picklist(Multi-Select)" then
      MultiSelectPlan(objectField, Split(value, ','), SourceList(field), TargetList(field))
    else if kind == TextAreaLabel then
      [Type(XPath(TextAreaInput(objectField)), value)]
    else
      [Type(XPath(DefaultInput(objectField, field)), value)]
  }

  // ---------------------------------------------------------------------------
  // Selectors of the validation path

  function AddressHelpTag(fieldType: string): string {
    if fieldType == "Address.textarea" then "lightning-textarea" else "lightning-input"
  }

  function AddressHelp(objectField: string, fieldType: string): string {
    RecordField(objectField) + "//" + AddressHelpTag(fieldType) + "[@class='slds-form-element__help']"
  }

  function PicklistHelp(objectField: string, field: string): string {
    RecordField(objectField) + PicklistSegment(field) + HelpText
  }

  /** The checkbox validation qualifier: `'[@Checked]'` for "true", `''` otherwise. */
  function CheckedQualifier(expected: string): string {
    if expected == "true" then "[@Checked]" else ""
  }

  function CheckboxHelp(objectField: string, expected: string): string {
    RecordField(objectField) + "//lightning-input" + CheckedQualifier(expected) + HelpText
  }

  /** Shared by the Lookup and Text Area cases. */
  function FieldHelp(objectField: string): string {
    RecordField(objectField) + HelpText
  }

  /** The multi-select validation selector opens a bracket it never closes. */
  function MultiSelectHelp(objectField: string): string {
    "(" + RecordField(objectField) + HelpText
  }

  function DefaultHelp(objectField: string, field: string): string {
    RecordField(objectField) + InputSegment(field) + HelpText
  }

  /** The locator whose text `assertValidationInObjectFieldType` compares. */
  function ValidationTarget(objectField: string, expected: string, fieldType: string, field: string): Locator {
    var isAddress := StartsWith(fieldType, "Address.");
    var address := if isAddress then XPath(AddressHelp(objectField, fieldType)) else Undefined;
    var kind := if isAddress then "Address" else fieldType;
    if kind == "Address" then address
    else if kind == "Picklist" then XPath(PicklistHelp(objectField, field))
    else if kind == "Checkbox" then XPath(CheckboxHelp(objectField, expected))
    else if kind == "Lookup" then XPath(FieldHelp(objectField))
    else if kind == "Picklist(Multi-Select)" then XPath(MultiSelectHelp(objectField))
    else if kind == TextAreaLabel then XPath(FieldHelp(objectField))
    else XPath(DefaultHelp(objectField, field))
  }

  /** Every validation branch issues exactly one strict text comparison. */
  function ValidationPlan(objectField: string, expected: string, fieldType: string, field: string): (plan: seq<Action>)
    ensures |plan| == 1 && plan[0].CompareText? && plan[0].expected == expected
  {
    [CompareText(expected, ValidationTarget(objectField, expected, fieldType, field))]
  }

  // ---------------------------------------------------------------------------
  // Facts about the case labels

  /** The field types the `switch` names, other than the address forms. */
  predicate IsNamedType(fieldType: string) {
    fieldType in {"Address", "Picklist", "Checkbox", "Lookup", "Picklist(Multi-Select)", "Text Area"}
  }

  lemma TextAreaLabelIsFirstOperand()
    ensures TextAreaLabel == "Text Area"
  {
  }

  /** None of the named types starts with "Address.". */
  lemma NamedTypesAreNotAddressForms(fieldType: string)
    requires IsNamedType(fieldType) || fieldType == "Text Area(Long)"
    ensures !StartsWith(fieldType, "Address.")
  {
    assert "Address."[7] == '.';
    assert "Address."[0] == 'A';
    assert "Picklist"[0] == 'P' && "Checkbox"[0] == 'C' && "Lookup"[0] == 'L';
    assert "Picklist(Multi-Select)"[0] == 'P';
    assert "Text Area"[0] == 'T' && "Text Area(Long)"[0] == 'T';
  }

  // ---------------------------------------------------------------------------
  // The set path, branch by branch

  /** An "Address.*" type types `value` once into the `textarea` (for exactly
      "Address.textarea") or `input` named by the sub-field. */
  lemma AddressSetsNamedElement(objectField: string, value: string, fieldType: string, field: string)
    requires StartsWith(fieldType, "Address.")
    ensures var tag := if fieldType == "Address.textarea" then "textarea" else "input";
            SetValuePlan(objectField, value, fieldType, field)
              == [Type(XPath(RecordField(objectField) + "//" + tag + "[@name='" + field + "']"), value)]
  {
  }

  /** The address selector names a `textarea` exactly when the type is "Address.textarea". */
  lemma AddressTextareaIff(objectField: string, fieldType: string, field: string)
    ensures AddressInput(objectField, fieldType, field)
              == RecordField(objectField) + "//textarea[@name='" + field + "']"
            <==> fieldType == "Address.textarea"
  {
    var textarea := RecordField(objectField) + "//textarea[@name='" + field + "']";
    if fieldType != "Address.textarea" {
      assert |AddressInput(objectField, fieldType, field)| + 3 == |textarea|;
    }
  }

  /** The bare type "Address" reaches the address case with the selector never built. */
  lemma BareAddressTypesIntoUndefined(objectField: string, value: string, field: string)
    ensures SetValuePlan(objectField, value, "Address", field) == [Type(Undefined, value)]
  {
    NamedTypesAreNotAddressForms("Address");
  }

  /** A picklist opens its combobox, then clicks the option titled `value`. */
  lemma PicklistOpensThenPicks(objectField: string, value: string, field: string)
    ensures var segment := if field != "" then "//lightning-picklist[@data-field='" + field + "']" else "";
            SetValuePlan(objectField, value, "Picklist", field)
              == [Click(XPath(RecordField(objectField) + segment + "//button[@role='combobox']")),
                  Click(XPath("//span[@title='" + value + "']"))]
  {
    NamedTypesAreNotAddressForms("Picklist");
  }

  /** The picklist segment is present in the combobox selector exactly when the sub-field is non-empty. */
  lemma PicklistSegmentIff(objectField: string, field: string)
    ensures PicklistButton(objectField, field)
              == RecordField(objectField) + ("//lightning-picklist[@data-field='" + field + "']") + "//button[@role='combobox']"
            <==> field != ""
  {
    MiddleInjective(RecordField(objectField), PicklistSegment(field),
                    "//lightning-picklist[@data-field='" + field + "']", "//button[@role='combobox']");
    if field == "" {
      assert |PicklistSegment(field)| < |"//lightning-picklist[@data-field='" + field + "']"|;
    }
  }

  /** Two texts with the same frame around them are equal exactly when the
      middles are. */
  lemma MiddleInjective<T>(a: seq<T>, x: seq<T>, y: seq<T>, b: seq<T>)
    ensures a + x + b == a + y + b <==> x == y
  {
    if a + x + b == a + y + b {
      assert |x| == |y|;
      assert x == (a + x + b)[|a|..|a| + |x|];
      assert y == (a + y + b)[|a|..|a| + |y|];
    }
  }

  /** A checkbox is clicked once, through the qualifier its value selects. */
  lemma CheckboxClicksOnce(objectField: string, value: string, field: string)
    ensures SetValuePlan(objectField, value, "Checkbox", field)
              == [Click(XPath(RecordField(objectField) + "//lightning-input" + CheckStatus(value) + "//input[@type='checkbox']"))]
    ensures value == "true" ==> CheckStatus(value) == ""
    ensures value == "false" ==> CheckStatus(value) == "[@Checked]"
    ensures value != "true" && value != "false" ==> CheckStatus(value) == "[]"
  {
    NamedTypesAreNotAddressForms("Checkbox");
  }

  /** A lookup types `value` into its combobox, then clicks the suggestion titled `value`. */
  lemma LookupTypesThenPicks(objectField: string, value: string, field: string)
    ensures SetValuePlan(objectField, value, "Lookup", field)
              == [Type(XPath(RecordField(objectField) + "//input[@role='combobox']"), value),
                  Click(XPath("//lightning-base-combobox-formatted-text[@title='" + value + "']"))]
  {
    NamedTypesAreNotAddressForms("Lookup");
  }

  /** The multi-select loop alternates an item click and a move click, once per item. */
  lemma {:induction false} MultiSelectAlternates(objectField: string, items: seq<string>, list: nat, choice: string)
    requires list < 10
    ensures var plan := MultiSelectPlan(objectField, items, list, choice);
            && |plan| == 2 * |items|
            && (forall k :: 0 <= k < |items| ==> plan[2 * k] == Click(XPath(DuelingItem(objectField, list, items[k]))))
            && (forall k :: 0 <= k < |items| ==> plan[2 * k + 1] == Click(XPath(MoveButton(choice))))
    decreases |items|
  {
    if items != [] {
      var init := items[..|items| - 1];
      MultiSelectAlternates(objectField, init, list, choice);
      var plan := MultiSelectPlan(objectField, items, list, choice);
      var prev := MultiSelectPlan(objectField, init, list, choice);
      assert plan == prev + [Click(XPath(DuelingItem(objectField, list, items[|items| - 1]))), Click(XPath(MoveButton(choice)))];
      forall k | 0 <= k < |items|
        ensures plan[2 * k] == Click(XPath(DuelingItem(objectField, list, items[k])))
        ensures plan[2 * k + 1] == Click(XPath(MoveButton(choice)))
      {
        if k < |init| {
          assert plan[2 * k] == prev[2 * k] && init[k] == items[k];
          assert plan[2 * k + 1] == prev[2 * k + 1];
        }
      }
    }
  }

  /** A multi-select value with n comma-separated pieces takes 2n clicks; the
      source list and the move target depend only on whether the sub-field is
      "Available". */
  lemma MultiSelectClicks(objectField: string, value: string, field: string)
    ensures var items := Split(value, ',');
            var plan := SetValuePlan(objectField, value, "Picklist(Multi-Select)", field);
            && |items| == multiset(value)[','] + 1
            && plan == MultiSelectPlan(objectField, items, SourceList(field), TargetList(field))
            && |plan| == 2 * |items|
            && (forall k :: 0 <= k < |items| ==> plan[2 * k] == Click(XPath(DuelingItem(objectField, SourceList(field), items[k]))))
            && (forall k :: 0 <= k < |items| ==> plan[2 * k + 1] == Click(XPath(MoveButton(TargetList(field)))))
    ensures SourceList(field) == 1 <==> field == "Available"
    ensures TargetList(field) == "Chosen" <==> field == "Available"
  {
    NamedTypesAreNotAddressForms("Picklist(Multi-Select)");
    SplitCount(value, ',');
    MultiSelectAlternates(objectField, Split(value, ','), SourceList(field), TargetList(field));
  }

  /** The move button is looked up under `Account.Books__c`, whatever record field is being set. */
  lemma MoveButtonIgnoresObjectField(objectField: string, otherField: string, value: string, field: string, k: nat)
    requires k < |Split(value, ',')|
    ensures var plan := SetValuePlan(objectField, value, "Picklist(Multi-Select)", field);
            var other := SetValuePlan(otherField, value, "Picklist(Multi-Select)", field);
            && 2 * k + 1 < |plan| && 2 * k + 1 < |other|
            && plan[2 * k + 1] == other[2 * k + 1]
            && plan[2 * k + 1] == Click(XPath(RecordField("Account.Books__c")
                                   + "//button[@title='Move selection to " + TargetList(field) + "']"))
  {
    MultiSelectClicks(objectField, value, field);
    MultiSelectClicks(otherField, value, field);
  }

  /** Only the exact type "Text Area" types into the text area. */
  lemma TextAreaTypesOnce(objectField: string, value: string, field: string)
    ensures SetValuePlan(objectField, value, "Text Area", field)
              == [Type(XPath(RecordField(objectField) + "//textarea[@class='slds-textarea']"), value)]
  {
    NamedTypesAreNotAddressForms("Text Area");
  }

  /** Every other type, "Text Area(Long)" among them, falls to the default `input` branch. */
  lemma OtherTypesUseDefaultInput(objectField: string, value: string, fieldType: string, field: string)
    requires !IsNamedType(fieldType) && !StartsWith(fieldType, "Address.")
    ensures SetValuePlan(objectField, value, fieldType, field)
              == [Type(XPath(RecordField(objectField) + InputSegment(field) + "//input[@class='slds-input']"), value)]
  {
  }

  lemma TextAreaLongUsesDefaultInput(objectField: string, value: string, field: string)
    ensures SetValuePlan(objectField, value, "Text Area(Long)", field)
              == [Type(XPath(DefaultInput(objectField, field)), value)]
    ensures ValidationTarget(objectField, value, "Text Area(Long)", field)
              == XPath(DefaultHelp(objectField, field))
  {
    NamedTypesAreNotAddressForms("Text Area(Long)");
    OtherTypesUseDefaultInput(objectField, value, "Text Area(Long)", field);
  }

  /** The `lightning-input` segment of the default selectors is present exactly when the sub-field is non-empty. */
  lemma DefaultSegmentIff(objectField: string, field: string)
    ensures DefaultInput(objectField, field)
              == RecordField(objectField) + ("//lightning-input[@data-field='" + field + "']") + "//input[@class='slds-input']"
            <==> field != ""
    ensures DefaultHelp(objectField, field)
              == RecordField(objectField) + ("//lightning-input[@data-field='" + field + "']") + HelpText
            <==> field != ""
  {
    var segment := "//lightning-input[@data-field='" + field + "']";
    MiddleInjective(RecordField(objectField), InputSegment(field), segment, "//input[@class='slds-input']");
    MiddleInjective(RecordField(objectField), InputSegment(field), segment, HelpText);
    if field == "" {
      assert |InputSegment(field)| < |segment|;
    }
  }

  // ---------------------------------------------------------------------------
  // The validation path

  /** An "Address.*" validation reads the help text of a `lightning-textarea`
      (for exactly "Address.textarea") or `lightning-input`; the sub-field is not used. */
  lemma AddressValidation(objectField: string, expected: string, fieldType: string, field: string)
    requires StartsWith(fieldType, "Address.")
    ensures ValidationTarget(objectField, expected, fieldType, field)
              == XPath(RecordField(objectField) + "//" + AddressHelpTag(fieldType) + "[@class='slds-form-element__help']")
    ensures AddressHelpTag(fieldType) == "lightning-textarea" <==> fieldType == "Address.textarea"
  {
  }

  /** The checkbox validation selector carries `[@Checked]` exactly when the expected text is "true". */
  lemma CheckboxValidationIff(objectField: string, expected: string, field: string)
    ensures ValidationTarget(objectField, expected, "Checkbox", field) == XPath(CheckboxHelp(objectField, expected))
    ensures CheckboxHelp(objectField, expected) == RecordField(objectField) + "//lightning-input" + "[@Checked]" + HelpText
            <==> expected == "true"
  {
    NamedTypesAreNotAddressForms("Checkbox");
    MiddleInjective(RecordField(objectField) + "//lightning-input", CheckedQualifier(expected), "[@Checked]", HelpText);
    if expected != "true" {
      assert |CheckedQualifier(expected)| < |"[@Checked]"|;
    }
  }

  /** The multi-select validation selector is the Lookup one with a stray "("
      in front (see MultiSelectHelpUnbalanced); the sub-field plays no part. */
  lemma MultiSelectValidationUnbalanced(objectField: string, expected: string, field: string)
    ensures ValidationTarget(objectField, expected, "Picklist(Multi-Select)", field)
              == XPath("(" + ValidationTarget(objectField, expected, "Lookup", field).path)
  {
    NamedTypesAreNotAddressForms("Picklist(Multi-Select)");
    NamedTypesAreNotAddressForms("Lookup");
    assert MultiSelectHelp(objectField) == "(" + FieldHelp(objectField);
  }

  /** The multi-select help selector holds one more opening than closing round
      bracket, against the balanced count of the shared field help selector. */
  lemma MultiSelectHelpUnbalanced(objectField: string)
    ensures Balance(MultiSelectHelp(objectField)) == Balance(FieldHelp(objectField)) + 1
  {
    ConcatAssoc("(", RecordField(objectField), HelpText);
    OneStrayBracket(FieldHelp(objectField));
  }

  lemma OneStrayBracket(s: string)
    ensures Balance("(" + s) == Balance(s) + 1
  {
    assert "(" + s == ['('] + s;
    BalanceConcat(['('], s);
  }

  lemma ConcatAssoc<T>(a: seq<T>, b: seq<T>, c: seq<T>)
    ensures a + b + c == a + (b + c)
  {
  }

  /** The text area validation also reads the shared field help text; only "Text Area" takes it. */
  lemma TextAreaValidation(objectField: string, expected: string, field: string)
    ensures ValidationTarget(objectField, expected, "Text Area", field) == XPath(FieldHelp(objectField))
    ensures ValidationTarget(objectField, expected, "Lookup", field) == XPath(FieldHelp(objectField))
  {
    NamedTypesAreNotAddressForms("Text Area");
    NamedTypesAreNotAddressForms("Lookup");
  }

  lemma PicklistAndDefaultValidation(objectField: string, expected: string, fieldType: string, field: string)
    ensures ValidationTarget(objectField, expected, "Picklist", field) == XPath(PicklistHelp(objectField, field))
    ensures !IsNamedType(fieldType) && !StartsWith(fieldType, "Address.")
            ==> ValidationTarget(objectField, expected, fieldType, field) == XPath(DefaultHelp(objectField, field))
  {
    NamedTypesAreNotAddressForms("Picklist");
  }

  lemma BareAddressValidatesUndefined(objectField: string, expected: string, field: string)
    ensures ValidationTarget(objectField, expected, "Address", field) == Undefined
  {
    NamedTypesAreNotAddressForms("Address");
  }
}
