/** The pieces of JavaScript semantics the helpers and steps rely on:
    `undefined`, the values a query result holds, strict equality, string
    truthiness, `split`, `join`, `substring(0, length - 1)`, and the first
    match of the regular expression `/\d+/` together with `parseInt` of it. */
module Js {

  /** `undefined` (None) or a present value. */
  datatype Option<T> = None | Some(value: T)

  /** A value read out of a Salesforce record. A number is identified with the
      decimal text its `toString` yields, which keeps JavaScript's floating-point
      formatting abstract. */
  datatype JsValue =
    | JsUndefined
    | JsNull
    | JsString(s: string)
    | JsNumber(text: string)
    | JsBoolean(b: bool)
    | JsObject

  /** `v?.toString()`: undefined for `null` and `undefined`, the text otherwise. */
  function OptionalToString(v: JsValue): (r: Option<string>)
    ensures r == None <==> v == JsUndefined || v == JsNull
  {
    match v
    case JsUndefined => None
    case JsNull => None
    case JsString(s) => Some(s)
    case JsNumber(t) => Some(t)
    case JsBoolean(b) => Some(if b then "true" else "false")
    case JsObject => Some("[object Object]")
  }

  /** `expected === actual` for an `expected` that is a string or `undefined`:
      no coercion, so a number never equals a string. */
  predicate StrictEqualsText(expected: Option<string>, actual: JsValue) {
    match expected
    case None => actual == JsUndefined
    case Some(s) => actual == JsString(s)
  }

  /** `a || b` on strings: `a` unless it is the (falsy) empty string. */
  function Or(a: string, b: string): (r: string)
    ensures a != "" ==> r == a
    ensures a == "" ==> r == b
  {
    if a != "" then a else b
  }

  /** `s.startsWith(prefix)`. */
  predicate StartsWith(s: string, prefix: string) {
    prefix <= s
  }

  /** `s.substring(0, s.length - 1)`: a negative end is clamped to 0. */
  function DropLast(s: string): (r: string)
    ensures s != "" ==> s == r + [s[|s| - 1]]
    ensures s == "" ==> r == ""
  {
    if s == "" then "" else s[..|s| - 1]
  }

  /** `s.split(sep)` for a one-character separator. The empty string splits into
      one empty piece, so there is always at least one piece. */
  function Split(s: string, sep: char): (parts: seq<string>)
    ensures |parts| >= 1
    ensures forall i :: 0 <= i < |parts| ==> sep !in parts[i]
    decreases |s|
  {
    if s == "" then [""]
    else
      var rest := Split(s[1..], sep);
      if s[0] == sep then [""] + rest
      else [[s[0]] + rest[0]] + rest[1..]
  }

  /** `parts.join(sep)`. */
  function Join(parts: seq<string>, sep: string): string
    decreases |parts|
  {
    if |parts| == 0 then ""
    else if |parts| == 1 then parts[0]
    else parts[0] + sep + Join(parts[1..], sep)
  }

  /** Joining the pieces back with the separator gives the original string. */
  lemma {:induction false} JoinSplit(s: string, sep: char)
    ensures Join(Split(s, sep), [sep]) == s
    decreases |s|
  {
    if s != "" {
      var rest := Split(s[1..], sep);
      JoinSplit(s[1..], sep);
      if s[0] == sep {
        assert Split(s, sep) == [""] + rest;
        assert ([""] + rest)[1..] == rest;
        assert s == [sep] + s[1..];
      } else {
        var parts := [[s[0]] + rest[0]] + rest[1..];
        assert Split(s, sep) == parts;
        if |rest| == 1 {
          assert Join(rest, [sep]) == rest[0];
        } else {
          assert parts[1..] == rest[1..];
          assert Join(parts, [sep]) == ([s[0]] + rest[0]) + [sep] + Join(rest[1..], [sep]);
        }
        assert s == [s[0]] + s[1..];
      }
    }
  }

  /** There is one more piece than there are separators. */
  lemma {:induction false} SplitCount(s: string, sep: char)
    ensures |Split(s, sep)| == multiset(s)[sep] + 1
    decreases |s|
  {
    if s != "" {
      SplitCount(s[1..], sep);
      assert s == [s[0]] + s[1..];
      assert multiset(s) == multiset([s[0]]) + multiset(s[1..]);
    }
  }

  /** Appending a piece to a non-empty list of pieces appends separator and piece. */
  lemma {:induction false} JoinSnoc(parts: seq<string>, sep: string, last: string)
    requires |parts| >= 1
    ensures Join(parts + [last], sep) == Join(parts, sep) + sep + last
    decreases |parts|
  {
    if |parts| == 1 {
      assert parts + [last] == [parts[0], last];
      assert Join([last], sep) == last;
    } else {
      assert (parts + [last])[1..] == parts[1..] + [last];
      JoinSnoc(parts[1..], sep, last);
    }
  }

  /** `\d` in a JavaScript regular expression: an ASCII decimal digit. */
  predicate IsDigit(c: char) {
    '0' <= c <= '9'
  }

  predicate AllDigits(d: string) {
    forall k :: 0 <= k < |d| ==> IsDigit(d[k])
  }

  /** Length of the run of digits at the start of `s`. */
  function DigitRunLength(s: string): (n: nat)
    ensures n <= |s|
    ensures forall k :: 0 <= k < n ==> IsDigit(s[k])
    ensures n == |s| || !IsDigit(s[n])
    decreases |s|
  {
    if s != "" && IsDigit(s[0]) then 1 + DigitRunLength(s[1..]) else 0
  }

  /** `[i, j)` is the first match of `/\d+/` in `s`: no digit before `i`, only
      digits in `[i, j)`, and the run cannot be extended. */
  predicate IsFirstDigitRun(s: string, i: nat, j: nat) {
    && i < j <= |s|
    && (forall k :: 0 <= k < i ==> !IsDigit(s[k]))
    && (forall k :: i <= k < j ==> IsDigit(s[k]))
    && (j == |s| || !IsDigit(s[j]))
  }

  /** The span of `s.match(/\d+/)`, or None when `s` holds no digit (the match is null). */
  function FirstDigitRun(s: string): (r: Option<(nat, nat)>)
    ensures r == None <==> forall k :: 0 <= k < |s| ==> !IsDigit(s[k])
    ensures r.Some? ==> IsFirstDigitRun(s, r.value.0, r.value.1)
    decreases |s|
  {
    if s == "" then None
    else if IsDigit(s[0]) then Some((0, DigitRunLength(s)))
    else
      match FirstDigitRun(s[1..])
      case None => None
      case Some((i, j)) => Some((i + 1, j + 1))
  }

  /** The first match is determined: two spans that both qualify coincide. */
  lemma FirstDigitRunUnique(s: string, i: nat, j: nat, i': nat, j': nat)
    requires IsFirstDigitRun(s, i, j) && IsFirstDigitRun(s, i', j')
    ensures i == i' && j == j'
  {
    assert IsDigit(s[i]) && IsDigit(s[i']);
  }

  function DigitValue(c: char): (v: nat)
    requires IsDigit(c)
    ensures v < 10
  {
    c as int - '0' as int
  }

  function DigitChar(v: nat): (c: char)
    requires v < 10
    ensures IsDigit(c) && DigitValue(c) == v
  {
    ('0' as int + v) as char
  }

  /** `parseInt(d)` for a string of decimal digits. */
  function ParseDigits(d: string): nat
    requires AllDigits(d)
    decreases |d|
  {
    if d == "" then 0
    else 10 * ParseDigits(d[..|d| - 1]) + DigitValue(d[|d| - 1])
  }

  /** The decimal text of a natural number, without leading zeros. */
  function Decimal(n: nat): (d: string)
    ensures |d| >= 1 && AllDigits(d)
    ensures n >= 10 ==> d[0] != '0'
    decreases n
  {
    if n < 10 then [DigitChar(n)] else Decimal(n / 10) + [DigitChar(n % 10)]
  }

  /** Parsing the decimal text of `n` gives `n` back. */
  lemma {:induction false} ParseDecimal(n: nat)
    ensures ParseDigits(Decimal(n)) == n
    decreases n
  {
    if n >= 10 {
      ParseDecimal(n / 10);
      var d := Decimal(n);
      assert d[..|d| - 1] == Decimal(n / 10);
    } else {
      var d := Decimal(n);
      assert d[..|d| - 1] == "";
    }
  }

  /** Leading zeros do not change the parsed value. */
  lemma {:induction false} ParseLeadingZero(d: string)
    requires AllDigits(d)
    ensures AllDigits("0" + d) && ParseDigits("0" + d) == ParseDigits(d)
    decreases |d|
  {
    assert AllDigits("0" + d);
    if d != "" {
      var z := "0" + d;
      assert z[..|z| - 1] == "0" + d[..|d| - 1];
      ParseLeadingZero(d[..|d| - 1]);
    } else {
      assert ("0" + d)[..0] == "";
    }
  }

  /** Opening minus closing round brackets: how unbalanced an XPath text is. */
  function Balance(s: string): int {
    multiset(s)['('] as int - multiset(s)[')'] as int
  }

  lemma BalanceConcat(a: string, b: string)
    ensures Balance(a + b) == Balance(a) + Balance(b)
  {
    assert multiset(a + b) == multiset(a) + multiset(b);
  }
}
