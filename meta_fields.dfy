/*
 * The shapes of a Graph API insights row (src/meta_api_client.py) and
 * the loops every metric extractor shares: summing an action list and
 * finding the first (or last) entry of an allowed action type.
 */
module MetaFields {
  import opened Common

  /** One `{action_type, value}` entry of an action list. */
  datatype Action = Action(actionType: Option<string>, value: Option<real>)

  /** One field of an insights row: absent, a number, a label or an action list. */
  datatype RawField = Absent | Scalar(x: real) | Text(t: string) | Actions(entries: seq<Action>)

  type Row = map<string, RawField>

  /** What Python raises while reading a row: float() of a non-number, iteration over a non-list. */
  datatype Fault = NotANumber(key: string) | NotAList(key: string)

  function Field(row: Row, key: string): RawField {
    if key in row then row[key] else Absent
  }

  /** Python truthiness of the field as `row.get(key)` returns it. */
  predicate FieldTruthy(f: RawField) {
    match f
    case Absent => false
    case Scalar(x) => x != 0.0
    case Text(t) => t != ""
    case Actions(es) => es != []
  }

  /** `row.get(key, default) == []` */
  predicate IsEmptyList(f: RawField) {
    f == Absent || f == Actions([])
  }

  /** `float(row.get(key, 0))` */
  function FloatOf(row: Row, key: string): Result<real, Fault> {
    match Field(row, key)
    case Absent => Ok(0.0)
    case Scalar(x) => Ok(x)
    case _ => Err(NotANumber(key))
  }

  /** `int(row.get(key, 0))` */
  function IntOf(row: Row, key: string): Result<int, Fault> {
    var x :- FloatOf(row, key);
    Ok(Trunc(x))
  }

  /** The entries `for a in row.get(key, [])` visits when guarded by `if v:`. */
  function ListOf(row: Row, key: string): Result<seq<Action>, Fault> {
    match Field(row, key)
    case Actions(es) => Ok(es)
    case f => if FieldTruthy(f) then Err(NotAList(key)) else Ok([])
  }

  /** `action.get('value', 0)` */
  function ValueOr0(a: Action): real {
    if a.value.Some? then a.value.value else 0.0
  }

  /** A label copied verbatim: `item.get(key)` (None when absent) or `item.get(key, dflt)`. */
  function Verbatim(f: RawField, dflt: Value): Value {
    match f
    case Absent => dflt
    case Scalar(x) => Float(x)
    case Text(t) => Str(t)
    case Actions(es) => List(seq(|es|, i requires 0 <= i < |es| => ActionValue(es[i])))
  }

  function ActionValue(a: Action): Value {
    Dict((if a.actionType.Some? then map["action_type" := Str(a.actionType.value)] else map[])
         + (if a.value.Some? then map["value" := Float(a.value.value)] else map[]))
  }

  // ---- sums over every entry that carries a value ----

  /** Σ int(float(value)) over the entries that have a value, whatever their action type. */
  function SumValues(es: seq<Action>): int {
    if es == [] then 0
    else SumValues(es[..|es| - 1])
         + (if es[|es| - 1].value.Some? then Trunc(es[|es| - 1].value.value) else 0)
  }

  /** Σ float(value) over the entries that have a value (conversion values). */
  function SumRealValues(es: seq<Action>): real {
    if es == [] then 0.0
    else SumRealValues(es[..|es| - 1])
         + (if es[|es| - 1].value.Some? then es[|es| - 1].value.value else 0.0)
  }

  /** The `conv_sum += int(float(conv.get('value', 0)))` loop. */
  method SumActionValues(es: seq<Action>) returns (total: int)
    ensures total == SumValues(es)
  {
    total := 0;
    var i := 0;
    while i < |es|
      invariant 0 <= i <= |es|
      invariant total == SumValues(es[..i])
    {
      assert es[..i + 1][..i] == es[..i];
      if es[i].value.Some? {
        total := total + Trunc(es[i].value.value);
      }
      i := i + 1;
    }
    assert es[..|es|] == es;
  }

  /** The `val_sum += float(val.get('value', 0))` loop. */
  method SumActionRealValues(es: seq<Action>) returns (total: real)
    ensures total == SumRealValues(es)
  {
    total := 0.0;
    var i := 0;
    while i < |es|
      invariant 0 <= i <= |es|
      invariant total == SumRealValues(es[..i])
    {
      assert es[..i + 1][..i] == es[..i];
      if es[i].value.Some? {
        total := total + es[i].value.value;
      }
      i := i + 1;
    }
    assert es[..|es|] == es;
  }

  lemma {:induction false} SumValuesAppend(a: seq<Action>, b: seq<Action>)
    ensures SumValues(a + b) == SumValues(a) + SumValues(b)
    decreases |b|
  {
    if b == [] {
      assert a + b == a;
    } else {
      assert (a + b)[..|a + b| - 1] == a + b[..|b| - 1];
      SumValuesAppend(a, b[..|b| - 1]);
    }
  }

  /** The action type of an entry never changes the sum: conversions are not filtered by type. */
  lemma {:induction false} SumValuesIgnoresTypes(es: seq<Action>, types: seq<Option<string>>)
    requires |types| == |es|
    ensures SumValues(seq(|es|, i requires 0 <= i < |es| => Action(types[i], es[i].value))) == SumValues(es)
    decreases |es|
  {
    var re := seq(|es|, i requires 0 <= i < |es| => Action(types[i], es[i].value));
    if es != [] {
      var n := |es| - 1;
      assert re[..n] == seq(n, i requires 0 <= i < n => Action(types[..n][i], es[..n][i].value));
      SumValuesIgnoresTypes(es[..n], types[..n]);
    }
  }

  /** Non-negative values sum to a non-negative count. */
  lemma {:induction false} SumValuesNonNegative(es: seq<Action>)
    requires forall i :: 0 <= i < |es| ==> ValueOr0(es[i]) >= 0.0
    ensures SumValues(es) >= 0
    decreases |es|
  {
    if es != [] {
      SumValuesNonNegative(es[..|es| - 1]);
    }
  }

  // ---- first and last entry of an allowed type ----

  predicate Matches(a: Action, types: set<string>) {
    a.actionType.Some? && a.actionType.value in types
  }

  /**
   * The value (0 when it has none) of the first entry whose action type
   * is allowed; None when no entry is.
   */
  function FirstValue(es: seq<Action>, types: set<string>): Option<real> {
    if es == [] then None
    else if Matches(es[0], types) then Some(ValueOr0(es[0]))
    else FirstValue(es[1..], types)
  }

  /** FirstValue finds the earliest allowed entry, and finds nothing only when no entry is allowed. */
  lemma {:induction false} FirstValueSpec(es: seq<Action>, types: set<string>)
    ensures FirstValue(es, types).None? <==> forall i :: 0 <= i < |es| ==> !Matches(es[i], types)
    ensures FirstValue(es, types).Some? ==>
              exists i :: 0 <= i < |es| && Matches(es[i], types)
                          && FirstValue(es, types).value == ValueOr0(es[i])
                          && forall j :: 0 <= j < i ==> !Matches(es[j], types)
    decreases |es|
  {
    if es != [] && !Matches(es[0], types) {
      FirstValueSpec(es[1..], types);
      assert forall i :: 1 <= i < |es| ==> es[i] == es[1..][i - 1];
      var r := FirstValue(es, types);
      if r.Some? {
        var k :| 0 <= k < |es[1..]| && Matches(es[1..][k], types) && r.value == ValueOr0(es[1..][k])
                 && forall j :: 0 <= j < k ==> !Matches(es[1..][j], types);
        assert forall j :: 0 <= j < k + 1 ==> !Matches(es[j], types) by {
          forall j | 0 <= j < k + 1 ensures !Matches(es[j], types) {
            if j > 0 { assert es[j] == es[1..][j - 1]; }
          }
        }
      }
    }
  }

  /** The loop `for a in actions: if a.get('action_type') in types: v = a.get('value', 0); break`. */
  method FindFirst(es: seq<Action>, types: set<string>) returns (r: Option<real>)
    ensures r == FirstValue(es, types)
  {
    r := None;
    var i := 0;
    while i < |es|
      invariant 0 <= i <= |es|
      invariant FirstValue(es, types) == FirstValue(es[i..], types)
    {
      assert es[i..][1..] == es[i + 1..];
      if Matches(es[i], types) {
        r := Some(ValueOr0(es[i]));
        return;
      }
      i := i + 1;
    }
  }

  /** The value of the last allowed entry: the same loop without `break`, each match overwriting the last. */
  function LastValue(es: seq<Action>, types: set<string>): Option<real> {
    if es == [] then None
    else if Matches(es[|es| - 1], types) then Some(ValueOr0(es[|es| - 1]))
    else LastValue(es[..|es| - 1], types)
  }

  method FindLast(es: seq<Action>, types: set<string>) returns (r: Option<real>)
    ensures r == LastValue(es, types)
  {
    r := None;
    var i := 0;
    while i < |es|
      invariant 0 <= i <= |es|
      invariant r == LastValue(es[..i], types)
    {
      assert es[..i + 1][..i] == es[..i];
      if Matches(es[i], types) {
        r := Some(ValueOr0(es[i]));
      }
      i := i + 1;
    }
    assert es[..|es|] == es;
  }

  /** With at most one allowed entry, keeping the first and keeping the last agree. */
  lemma {:induction false} FirstIsLastWhenUnique(es: seq<Action>, types: set<string>)
    requires forall i, j :: 0 <= i < j < |es| && Matches(es[i], types) ==> !Matches(es[j], types)
    ensures FirstValue(es, types) == LastValue(es, types)
    decreases |es|
  {
    if es != [] {
      var n := |es| - 1;
      FirstIsLastWhenUnique(es[..n], types);
      if Matches(es[n], types) {
        assert forall i :: 0 <= i < n ==> !Matches(es[..n][i], types);
        FirstValueSpec(es[..n], types);
        FirstOfExtension(es[..n], es[n], types);
        assert es[..n] + [es[n]] == es;
      } else {
        FirstOfExtension(es[..n], es[n], types);
        assert es[..n] + [es[n]] == es;
      }
    }
  }

  lemma {:induction false} FirstOfExtension(es: seq<Action>, a: Action, types: set<string>)
    ensures FirstValue(es + [a], types) ==
            (if FirstValue(es, types).Some? then FirstValue(es, types)
             else if Matches(a, types) then Some(ValueOr0(a)) else None)
    decreases |es|
  {
    if es != [] {
      assert (es + [a])[1..] == es[1..] + [a];
      FirstOfExtension(es[1..], a, types);
    }
  }

  /** Σ int(value) over every entry of an allowed type (the account aggregation keeps no `break`). */
  function SumMatching(es: seq<Action>, types: set<string>): int {
    if es == [] then 0
    else SumMatching(es[..|es| - 1], types)
         + (if Matches(es[|es| - 1], types) then Trunc(ValueOr0(es[|es| - 1])) else 0)
  }

  method SumMatchingValues(es: seq<Action>, types: set<string>) returns (total: int)
    ensures total == SumMatching(es, types)
  {
    total := 0;
    var i := 0;
    while i < |es|
      invariant 0 <= i <= |es|
      invariant total == SumMatching(es[..i], types)
    {
      assert es[..i + 1][..i] == es[..i];
      if Matches(es[i], types) {
        total := total + Trunc(ValueOr0(es[i]));
      }
      i := i + 1;
    }
    assert es[..|es|] == es;
  }

  /** With a single matching entry, summing the matches gives the first match. */
  lemma {:induction false} SumMatchingSingle(es: seq<Action>, types: set<string>, k: int)
    requires 0 <= k < |es| && Matches(es[k], types)
    requires forall j :: 0 <= j < |es| && j != k ==> !Matches(es[j], types)
    ensures SumMatching(es, types) == Trunc(ValueOr0(es[k]))
    ensures FirstValue(es, types) == Some(ValueOr0(es[k]))
    decreases |es|
  {
    var n := |es| - 1;
    FirstValueSpec(es, types);
    if k < n {
      SumMatchingSingle(es[..n], types, k);
    } else {
      SumMatchingNone(es[..n], types);
    }
  }

  lemma {:induction false} SumMatchingNone(es: seq<Action>, types: set<string>)
    requires forall j :: 0 <= j < |es| ==> !Matches(es[j], types)
    ensures SumMatching(es, types) == 0
    decreases |es|
  {
    if es != [] {
      SumMatchingNone(es[..|es| - 1], types);
    }
  }

  const VideoView: set<string> := {"video_view"}
  const RegistrationTypes: set<string> := {"lead", "complete_registration", "lead_grouped"}
  const Purchase: set<string> := {"purchase"}
}
