/**
 * Request bodies as parsed JSON values, and the field rules the four REST
 * validators apply to them. A field lookup that yields `None` is JavaScript's
 * `undefined`; an absent body behaves like `null`.
 */
module Json {
  import opened Common
  import opened Text

  datatype Json =
    | JNull
    | JBool(b: bool)
    | JNum(n: real)
    | JStr(s: string)
    | JArr(items: seq<Json>)
    | JObj(fields: map<string, Json>)

  /** The message every validator returns for a null, non-object or array body. */
  const BodyMessage := "Body must be an object."

  /** `body.key`. */
  function Field(obj: map<string, Json>, key: string): Option<Json> {
    if key in obj then Some(obj[key]) else None
  }

  predicate IsString(v: Option<Json>) { v.Some? && v.value.JStr? }
  predicate IsBoolean(v: Option<Json>) { v.Some? && v.value.JBool? }
  predicate IsNumber(v: Option<Json>) { v.Some? && v.value.JNum? }

  /** `isNonEmptyString(value)`: a string that is not empty after trimming. */
  predicate IsNonEmptyString(v: Option<Json>) {
    IsString(v) && |Trim(v.value.s)| > 0
  }

  /** `Array.isArray(v) && v.every((x) => typeof x === "string")`. */
  predicate IsStringArray(v: Option<Json>) {
    v.Some? && v.value.JArr? && forall i :: 0 <= i < |v.value.items| ==> v.value.items[i].JStr?
  }

  /** The kinds of check the validators make on one field. */
  datatype Kind =
    | RequiredNumber          // typeof v !== "number" is an error
    | RequiredNonEmptyString  // !isNonEmptyString(v) is an error
    | OptionalString          // defined and not a string is an error
    | OptionalBoolean         // defined and not a boolean is an error
    | OptionalStringArray     // defined and not an array of strings is an error

  /** One `if (...) errors.push(message)` line of a validator. */
  datatype Rule = Rule(key: string, kind: Kind, message: string)

  predicate Passes(rule: Rule, obj: map<string, Json>) {
    var v := Field(obj, rule.key);
    match rule.kind
    case RequiredNumber => IsNumber(v)
    case RequiredNonEmptyString => IsNonEmptyString(v)
    case OptionalString => v.None? || IsString(v)
    case OptionalBoolean => v.None? || IsBoolean(v)
    case OptionalStringArray => v.None? || IsStringArray(v)
  }

  /** A validator's checks, as the rule at each position `0 <= k < n`. */
  type Rules = nat -> Rule

  function Messages(rule: Rules, n: nat): (r: seq<string>)
    ensures |r| == n && forall i :: 0 <= i < n ==> r[i] == rule(i).message
  {
    if n == 0 then [] else Messages(rule, n - 1) + [rule(n - 1).message]
  }

  /** `if (!ok) errors.push(message)` for one rule. */
  function Check(rule: Rule, obj: map<string, Json>): seq<string> {
    if Passes(rule, obj) then [] else [rule.message]
  }

  /** `if (!ok) errors.push(message)` as a statement: the message, if any, goes at the end. */
  method ApplyRule(errors: seq<string>, rule: Rule, obj: map<string, Json>) returns (r: seq<string>)
    ensures r == errors + Check(rule, obj)
  {
    r := errors;
    if !Passes(rule, obj) {
      r := r + [rule.message];
    }
  }

  /** The messages of the first `n` rules that are broken, in rule order: no check stops the others. */
  function Errors(rule: Rules, n: nat, obj: map<string, Json>): (r: seq<string>)
    ensures |r| <= n
  {
    if n == 0 then [] else Errors(rule, n - 1, obj) + Check(rule(n - 1), obj)
  }

  /** What the validators return: the error list, or the normalised document. */
  datatype Validation<D> = Invalid(errors: seq<string>) | Valid(doc: D)

  /** No two of the first `n` rules report the same message. */
  predicate DistinctMessages(rule: Rules, n: nat) {
    forall i, j :: 0 <= i < j < n ==> rule(i).message != rule(j).message
  }

  /** A broken rule's message is reported. */
  lemma {:induction false} ErrorsReportBroken(rule: Rules, n: nat, obj: map<string, Json>, i: nat)
    requires i < n && !Passes(rule(i), obj)
    ensures rule(i).message in Errors(rule, n, obj)
  {
    if i < n - 1 {
      ErrorsReportBroken(rule, n - 1, obj, i);
    }
  }

  /** Every reported message belongs to a broken rule. */
  lemma {:induction false} ErrorsOnlyBroken(rule: Rules, n: nat, obj: map<string, Json>, m: string)
    requires m in Errors(rule, n, obj)
    ensures exists i :: 0 <= i < n && rule(i).message == m && !Passes(rule(i), obj)
  {
    if m in Errors(rule, n - 1, obj) {
      ErrorsOnlyBroken(rule, n - 1, obj, m);
    } else {
      assert m in Check(rule(n - 1), obj);
    }
  }

  /** The reported messages come in rule order. */
  lemma {:induction false} ErrorsOrdered(rule: Rules, n: nat, obj: map<string, Json>)
    ensures IsSubsequence(Errors(rule, n, obj), Messages(rule, n))
  {
    if n == 0 {
      SubsequenceOfEmpty([]);
    } else {
      ErrorsOrdered(rule, n - 1, obj);
      SubsequenceExtend(Errors(rule, n - 1, obj), Messages(rule, n - 1), Check(rule(n - 1), obj), [rule(n - 1).message]);
    }
  }

  /**
   * Collecting errors: a message is reported exactly when one of its rules is
   * broken, the list is empty exactly when every rule holds, and the reported
   * messages come in rule order.
   */
  lemma ErrorsSpec(rule: Rules, n: nat, obj: map<string, Json>)
    ensures forall m :: m in Errors(rule, n, obj) <==>
      exists i :: 0 <= i < n && rule(i).message == m && !Passes(rule(i), obj)
    ensures Errors(rule, n, obj) == [] <==> forall i :: 0 <= i < n ==> Passes(rule(i), obj)
    ensures IsSubsequence(Errors(rule, n, obj), Messages(rule, n))
  {
    forall m | m in Errors(rule, n, obj)
      ensures exists i :: 0 <= i < n && rule(i).message == m && !Passes(rule(i), obj)
    {
      ErrorsOnlyBroken(rule, n, obj, m);
    }
    forall i | 0 <= i < n && !Passes(rule(i), obj)
      ensures rule(i).message in Errors(rule, n, obj)
    {
      ErrorsReportBroken(rule, n, obj, i);
    }
    ErrorsOrdered(rule, n, obj);
  }

  /** A subsequence extended by a subsequence of the extension. */
  lemma {:induction false} SubsequenceExtend(xs: seq<string>, ys: seq<string>, a: seq<string>, b: seq<string>)
    requires IsSubsequence(xs, ys)
    requires a == [] || a == b
    ensures IsSubsequence(xs + a, ys + b)
    decreases |ys|
  {
    if xs == [] {
      if a != [] {
        assert xs + a == b;
        SubsequenceSuffix(b, ys);
      } else {
        SubsequenceOfEmpty(ys + b);
      }
    } else {
      assert ys != [];
      assert (xs + a)[1..] == xs[1..] + a;
      assert (ys + b)[1..] == ys[1..] + b;
      if xs[0] == ys[0] {
        SubsequenceExtend(xs[1..], ys[1..], a, b);
      } else {
        SubsequenceExtend(xs, ys[1..], a, b);
      }
    }
  }

  lemma {:induction false} SubsequenceOfEmpty(ys: seq<string>)
    ensures IsSubsequence([], ys)
  {
  }

  /** A sequence is a subsequence of itself appended to anything. */
  lemma {:induction false} SubsequenceSuffix(a: seq<string>, ys: seq<string>)
    ensures IsSubsequence(a, ys + a)
    decreases |ys| + |a|
  {
    if ys != [] {
      assert (ys + a)[1..] == ys[1..] + a;
      SubsequenceSuffix(a, ys[1..]);
      if a != [] {
        SubsequenceHeadSkip(a, ys + a);
      }
    } else if a != [] {
      assert (ys + a) == a;
      assert a[1..] == [] + a[1..];
      SubsequenceSuffix(a[1..], []);
    }
  }

  /** With distinct messages, each rule's message is reported exactly when that rule is broken. */
  lemma ErrorsExact(rule: Rules, n: nat, obj: map<string, Json>)
    requires DistinctMessages(rule, n)
    ensures forall k :: 0 <= k < n ==> (rule(k).message in Errors(rule, n, obj) <==> !Passes(rule(k), obj))
    ensures Errors(rule, n, obj) == [] <==> forall k :: 0 <= k < n ==> Passes(rule(k), obj)
    ensures IsSubsequence(Errors(rule, n, obj), Messages(rule, n))
  {
    ErrorsSpec(rule, n, obj);
  }

  /** Passing the next rule keeps the error list empty. */
  lemma ErrorsNoneYet(rule: Rules, n: nat, obj: map<string, Json>)
    requires Errors(rule, n, obj) == [] && Passes(rule(n), obj)
    ensures Errors(rule, n + 1, obj) == []
  {
  }

  /** An empty error list means the rule at any checked position passed. */
  lemma ErrorsNoneAt(rule: Rules, n: nat, obj: map<string, Json>, k: nat)
    requires Errors(rule, n, obj) == [] && k < n
    ensures Passes(rule(k), obj)
  {
    ErrorsSpec(rule, n, obj);
  }

  /** A rule reads only its own field: two objects that agree there pass or fail it together. */
  lemma PassesSameField(rule: Rule, a: map<string, Json>, b: map<string, Json>)
    requires Field(a, rule.key) == Field(b, rule.key)
    ensures Passes(rule, a) <==> Passes(rule, b)
  {
  }

  /** Rules `m` to `n - 1` all holding add no message to those of the first `m`. */
  lemma {:induction false} ErrorsPassingTail(rule: Rules, m: nat, n: nat, obj: map<string, Json>)
    requires m <= n
    requires forall k :: m <= k < n ==> Passes(rule(k), obj)
    ensures Errors(rule, n, obj) == Errors(rule, m, obj)
  {
    if m < n {
      ErrorsPassingTail(rule, m, n - 1, obj);
    }
  }

  /** Total accessors: the value when the field has the expected type, otherwise a default. */
  function StringOr(v: Option<Json>, default: string): string {
    if IsString(v) then v.value.s else default
  }

  function NumberOr(v: Option<Json>, default: real): real {
    if IsNumber(v) then v.value.n else default
  }

  function BooleanOr(v: Option<Json>, default: bool): bool {
    if IsBoolean(v) then v.value.b else default
  }

  /** `body.key` when it is a defined string, kept as possibly undefined. */
  function OptionalText(v: Option<Json>): Option<string> {
    if IsString(v) then Some(v.value.s) else None
  }

  function StringsOr(v: Option<Json>, default: seq<string>): (r: seq<string>)
    ensures IsStringArray(v) ==>
              |r| == |v.value.items| && forall i :: 0 <= i < |r| ==> v.value.items[i] == JStr(r[i])
  {
    if IsStringArray(v) then Strings(v.value.items) else default
  }

  function Strings(items: seq<Json>): (r: seq<string>)
    requires forall i :: 0 <= i < |items| ==> items[i].JStr?
    ensures |r| == |items| && forall i :: 0 <= i < |r| ==> items[i] == JStr(r[i])
  {
    if items == [] then [] else [items[0].s] + Strings(items[1..])
  }

  function StringItems(xs: seq<string>): (r: seq<Json>)
    ensures |r| == |xs| && forall i :: 0 <= i < |r| ==> r[i] == JStr(xs[i])
  {
    if xs == [] then [] else [JStr(xs[0])] + StringItems(xs[1..])
  }

  /** Encoding a list of strings as a JSON array and reading it back gives the list. */
  lemma StringsRoundTrip(xs: seq<string>)
    ensures IsStringArray(Some(JArr(StringItems(xs))))
    ensures StringsOr(Some(JArr(StringItems(xs))), []) == xs
  {
  }

  /** `v || fresh` on a string that passed its rule: an empty string is replaced too. */
  function StringOrFresh(v: Option<Json>, generated: string): string {
    if IsString(v) && v.value.s != "" then v.value.s else generated
  }

  /** An optional text value as the database driver writes it: an undefined value becomes `null`. */
  function StoredText(v: Option<string>): Json {
    if v.Some? then JStr(v.value) else JNull
  }

  /** A field written by the database driver. */
  function PutNull(obj: map<string, Json>, key: string, v: Option<string>): (r: map<string, Json>)
    ensures Field(r, key) == Some(StoredText(v))
    ensures forall k :: k != key ==> Field(r, k) == Field(obj, k)
  {
    obj[key := StoredText(v)]
  }

  /** The message a validator reports for a `null` optional text field, or nothing when it is defined. */
  function NullMessage(v: Option<string>, message: string): seq<string> {
    if v.Some? then [] else [message]
  }

  /** A field's JSON encoding, omitted when undefined. */
  function Put(obj: map<string, Json>, key: string, v: Option<string>): map<string, Json> {
    if v.Some? then obj[key := JStr(v.value)] else obj
  }
}
