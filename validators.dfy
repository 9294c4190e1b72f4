/**
 * The reusable validators of the common application: the file size limit
 * (`MaxSizeValidator`), the rating bound (`validate_rating`) and the check
 * that listed fields are unique across the objects of a request list
 * (`ListUniqueValidator`).
 */
module Validators {
  import opened Wrappers
  import opened Text
  import opened JsonData

  // ---------------------------------------------------------------------
  // MaxSizeValidator
  // ---------------------------------------------------------------------

  /** Bytes in a megabyte, the divisor of `compare`. */
  const BytesPerMb: nat := 1048576

  /** A validation error: the rendered message and its code. */
  datatype Rejection = Rejection(message: string, code: string)

  /** `MaxSizeValidator.clean`: the size of the file is its length in bytes. */
  function Clean(content: seq<bv8>): (size: nat)
    ensures size == |content|
  {
    |content|
  }

  /** `MaxSizeValidator.compare`: the size in megabytes (true division) is above the limit. */
  predicate Compare(size: nat, limitMb: int)
  {
    (size as real) / (BytesPerMb as real) > limitMb as real
  }

  /** The comparison in whole bytes: the file is larger than `limitMb` megabytes. */
  lemma CompareBytes(size: nat, limitMb: int)
    ensures Compare(size, limitMb) <==> size > limitMb * BytesPerMb
  {
    var q := (size as real) / (BytesPerMb as real);
    assert q * (BytesPerMb as real) == size as real;
    if q > limitMb as real {
      assert q * (BytesPerMb as real) > (limitMb as real) * (BytesPerMb as real);
    } else {
      assert q * (BytesPerMb as real) <= (limitMb as real) * (BytesPerMb as real);
    }
  }

  /**
   * The validator applied to a file: it is refused with the `max_size`
   * message when `Compare` holds for its cleaned size.
   */
  function MaxSize(content: seq<bv8>, limitMb: int): (r: Option<Rejection>)
    ensures r.Some? <==> |content| > limitMb * BytesPerMb
    ensures r.Some? ==>
      r.value == Rejection("Ensure this file has not more than " + IntToString(limitMb) + " MB.", "max_size")
  {
    CompareBytes(Clean(content), limitMb);
    if Compare(Clean(content), limitMb) then
      Some(Rejection("Ensure this file has not more than " + IntToString(limitMb) + " MB.", "max_size"))
    else None
  }

  /** A file of exactly the limit passes and one byte more fails. */
  lemma MaxSizeBoundary(content: seq<bv8>, extra: bv8, limitMb: nat)
    requires |content| == limitMb * BytesPerMb
    ensures MaxSize(content, limitMb).None?
    ensures MaxSize(content + [extra], limitMb).Some?
  {
  }

  // ---------------------------------------------------------------------
  // validate_rating
  // ---------------------------------------------------------------------

  /** `validate_rating`: a rating above 5 is refused. */
  function ValidateRating(value: real): (r: Option<string>)
    ensures r.None? <==> value <= 5.0
    ensures r.Some? ==> r.value == "Rating must be less than or equal to 5."
  {
    if value > 5.0 then Some("Rating must be less than or equal to 5.") else None
  }

  // ---------------------------------------------------------------------
  // ListUniqueValidator
  // ---------------------------------------------------------------------

  /** One object of the validated list. */
  type Item = map<string, Json>

  /** The configured validator: the fields to keep unique and the messages by field. */
  datatype ListUnique = ListUnique(fields: seq<string>, messages: map<string, string>)

  /** The class-level messages. */
  const DefaultMessages: map<string, string> := map["default" := "This field must be unique."]

  /** `ListUniqueValidator(unique_field_names, error_message)`: a falsy message dict falls back to the default. */
  function NewListUnique(fields: seq<string>, errorMessage: Option<map<string, string>>): (v: ListUnique)
    ensures v.fields == fields
    ensures v.messages == if errorMessage.Some? && errorMessage.value != map[] then errorMessage.value else DefaultMessages
  {
    ListUnique(fields, if errorMessage.Some? && errorMessage.value != map[] then errorMessage.value else DefaultMessages)
  }

  /** What the call does: return normally, raise the per-item errors, or fail on the way. */
  datatype Outcome =
    | Passed
    | Invalid(errors: seq<map<string, string>>)
    | Unhashable  // `TypeError`: a list or dict value cannot be counted
    | MissingMessage  // `KeyError`: no message for a duplicated field and no "default"

  /** A `Counter` key must be hashable: decoded lists and dicts are not. */
  predicate Hashable(j: Json) { !j.JList? && !j.JObject? }

  /** `item.get(field)`. */
  function Get(item: Item, field: string): Json
  {
    if field in item then item[field] else JNull
  }

  /** The item holds `field` with a value equal to `v`. */
  predicate Holds(item: Item, field: string, v: Json)
  {
    field in item && PyEq(item[field], v)
  }

  /** `Counter(item[field] for item in value if field in item)[v]`. */
  function Tally(value: seq<Item>, field: string, v: Json): (n: nat)
    ensures n <= |value|
  {
    if value == [] then 0 else (if Holds(value[0], field, v) then 1 else 0) + Tally(value[1..], field, v)
  }

  /** The item's value for `field` is counted more than once (line 64). */
  predicate Flagged(value: seq<Item>, field: string, item: Item)
  {
    Tally(value, field, Get(item, field)) > 1
  }

  /** Every value the counters see is hashable. */
  predicate AllHashable(value: seq<Item>, fields: seq<string>)
  {
    forall k, field :: 0 <= k < |value| && field in fields && field in value[k] ==> Hashable(value[k][field])
  }

  /** Some counter has a count above one (lines 53-57). */
  predicate HasDuplicates(value: seq<Item>, fields: seq<string>)
  {
    exists k, field :: 0 <= k < |value| && field in fields && field in value[k] && Tally(value, field, value[k][field]) > 1
  }

  /** The message dictionary has an entry to use for `field`. */
  predicate Covered(messages: map<string, string>, field: string)
  {
    field in messages || "default" in messages
  }

  /** The message used for a duplicated `field`. */
  function MessageFor(messages: map<string, string>, field: string): string
    requires Covered(messages, field)
  {
    if field in messages then messages[field] else messages["default"]
  }

  /** The fields reported for `item`. */
  function FlaggedFields(value: seq<Item>, fields: seq<string>, item: Item): set<string>
  {
    set field | field in fields && Flagged(value, field, item)
  }

  /** `e` is the error entry of `item`: exactly its flagged fields, each with its message. */
  predicate EntryFor(value: seq<Item>, v: ListUnique, item: Item, e: map<string, string>)
  {
    && e.Keys == FlaggedFields(value, v.fields, item)
    && forall field :: field in e ==> Covered(v.messages, field) && e[field] == MessageFor(v.messages, field)
  }

  /** Some item has a flagged field that no message covers. */
  predicate MessageMissing(value: seq<Item>, v: ListUnique)
  {
    exists k, field :: 0 <= k < |value| && field in v.fields && Flagged(value, field, value[k]) && !Covered(v.messages, field)
  }

  /** The error entry of one item (the inner loop, lines 61-71). */
  method ItemErrors(value: seq<Item>, v: ListUnique, item: Item) returns (r: Option<map<string, string>>)
    ensures r.None? <==> exists field :: field in v.fields && Flagged(value, field, item) && !Covered(v.messages, field)
    ensures r.Some? ==> EntryFor(value, v, item, r.value)
  {
    var error: map<string, string> := map[];
    for n := 0 to |v.fields|
      invariant error.Keys == set field | field in v.fields[..n] && Flagged(value, field, item)
      invariant forall field :: field in error ==> Covered(v.messages, field) && error[field] == MessageFor(v.messages, field)
      invariant forall field :: field in v.fields[..n] && Flagged(value, field, item) ==> Covered(v.messages, field)
    {
      var field := v.fields[n];
      assert v.fields[..n + 1] == v.fields[..n] + [field];
      if Tally(value, field, Get(item, field)) > 1 {
        if field in v.messages {
          error := error[field := v.messages[field]];
        } else if "default" in v.messages {
          error := error[field := v.messages["default"]];
        } else {
          assert field in v.fields && Flagged(value, field, item) && !Covered(v.messages, field);
          return None;
        }
      }
    }
    assert v.fields[..|v.fields|] == v.fields;
    return Some(error);
  }

  /** `ListUniqueValidator.__call__(value)`. */
  method Call(v: ListUnique, value: seq<Item>) returns (r: Outcome)
    ensures r == Unhashable <==> !AllHashable(value, v.fields)
    ensures r == Passed <==> AllHashable(value, v.fields) && !HasDuplicates(value, v.fields)
    ensures r == MissingMessage <==>
      AllHashable(value, v.fields) && HasDuplicates(value, v.fields) && MessageMissing(value, v)
    ensures r.Invalid? ==> |r.errors| == |value| && forall k :: 0 <= k < |value| ==> EntryFor(value, v, value[k], r.errors[k])
  {
    if !AllHashable(value, v.fields) {
      return Unhashable;
    }
    if !HasDuplicates(value, v.fields) {
      return Passed;
    }
    var errors: seq<map<string, string>> := [];
    for k := 0 to |value|
      invariant |errors| == k
      invariant forall i :: 0 <= i < k ==> EntryFor(value, v, value[i], errors[i])
      invariant forall i, field :: 0 <= i < k && field in v.fields && Flagged(value, field, value[i]) ==> Covered(v.messages, field)
    {
      var error := ItemErrors(value, v, value[k]);
      if error.None? {
        var field :| field in v.fields && Flagged(value, field, value[k]) && !Covered(v.messages, field);
        assert 0 <= k < |value| && field in v.fields && Flagged(value, field, value[k]) && !Covered(v.messages, field);
        return MissingMessage;
      }
      errors := errors + [error.value];
    }
    return Invalid(errors);
  }

  // ---------------------------------------------------------------------
  // What the counters mean
  // ---------------------------------------------------------------------

  /** A value is counted at least once exactly when some item holds it. */
  lemma {:induction false} TallyPositive(value: seq<Item>, field: string, v: Json)
    ensures Tally(value, field, v) >= 1 <==> exists i :: 0 <= i < |value| && Holds(value[i], field, v)
  {
    if value != [] {
      TallyPositive(value[1..], field, v);
      if exists i :: 0 <= i < |value[1..]| && Holds(value[1..][i], field, v) {
        var i :| 0 <= i < |value[1..]| && Holds(value[1..][i], field, v);
        assert Holds(value[i + 1], field, v);
      }
      if exists i :: 0 <= i < |value| && Holds(value[i], field, v) {
        var i :| 0 <= i < |value| && Holds(value[i], field, v);
        if i > 0 {
          assert Holds(value[1..][i - 1], field, v);
        }
      }
    }
  }

  /** A value is counted more than once exactly when two different items hold it. */
  lemma {:induction false} TallyTwice(value: seq<Item>, field: string, v: Json)
    ensures Tally(value, field, v) > 1 <==>
      exists i, j :: 0 <= i < j < |value| && Holds(value[i], field, v) && Holds(value[j], field, v)
  {
    if value != [] {
      var rest := value[1..];
      TallyTwice(rest, field, v);
      TallyPositive(rest, field, v);
      if Tally(value, field, v) > 1 {
        if Holds(value[0], field, v) {
          var j :| 0 <= j < |rest| && Holds(rest[j], field, v);
          assert Holds(value[j + 1], field, v);
        } else {
          var i, j :| 0 <= i < j < |rest| && Holds(rest[i], field, v) && Holds(rest[j], field, v);
          assert Holds(value[i + 1], field, v) && Holds(value[j + 1], field, v);
        }
      }
      if exists i, j :: 0 <= i < j < |value| && Holds(value[i], field, v) && Holds(value[j], field, v) {
        var i, j :| 0 <= i < j < |value| && Holds(value[i], field, v) && Holds(value[j], field, v);
        assert Holds(rest[j - 1], field, v);
        if i > 0 {
          assert Holds(rest[i - 1], field, v);
        }
      }
    }
  }

  /**
   * An item holding `field` is flagged exactly when another item holds an
   * equal value for it.
   */
  lemma FlaggedIffShared(value: seq<Item>, field: string, k: nat)
    requires k < |value| && field in value[k]
    ensures Flagged(value, field, value[k]) <==>
      exists j :: 0 <= j < |value| && j != k && Holds(value[j], field, value[k][field])
  {
    var x := value[k][field];
    TallyTwice(value, field, x);
    PyEqEquivalence(x, x, x);
    assert Holds(value[k], field, x);
    if Flagged(value, field, value[k]) {
      var i, j :| 0 <= i < j < |value| && Holds(value[i], field, x) && Holds(value[j], field, x);
      if i == k {
        assert Holds(value[j], field, x);
      } else {
        assert Holds(value[i], field, x);
      }
    }
    if exists j :: 0 <= j < |value| && j != k && Holds(value[j], field, x) {
      var j :| 0 <= j < |value| && j != k && Holds(value[j], field, x);
      if j < k {
        assert 0 <= j < k < |value| && Holds(value[j], field, x) && Holds(value[k], field, x);
      } else {
        assert 0 <= k < j < |value| && Holds(value[k], field, x) && Holds(value[j], field, x);
      }
    }
  }

  /**
   * The validator raises exactly when, for some listed field, two different
   * items that hold the field hold equal values.
   */
  lemma HasDuplicatesIffPair(value: seq<Item>, fields: seq<string>)
    ensures HasDuplicates(value, fields) <==>
      exists i, j, field :: 0 <= i < j < |value| && field in fields && field in value[i] && field in value[j]
        && PyEq(value[i][field], value[j][field])
  {
    if HasDuplicates(value, fields) {
      var k, field :| 0 <= k < |value| && field in fields && field in value[k] && Tally(value, field, value[k][field]) > 1;
      FlaggedIffShared(value, field, k);
      var j :| 0 <= j < |value| && j != k && Holds(value[j], field, value[k][field]);
      PyEqEquivalence(value[j][field], value[k][field], value[j][field]);
      if j < k {
        assert PyEq(value[j][field], value[k][field]);
      } else {
        assert PyEq(value[k][field], value[j][field]);
      }
    }
    if exists i, j, field :: 0 <= i < j < |value| && field in fields && field in value[i] && field in value[j]
        && PyEq(value[i][field], value[j][field]) {
      var i, j, field :| 0 <= i < j < |value| && field in fields && field in value[i] && field in value[j]
        && PyEq(value[i][field], value[j][field]);
      FlaggedIffShared(value, field, i);
      assert Holds(value[j], field, value[i][field]);
      assert Tally(value, field, value[i][field]) > 1;
    }
  }

  /**
   * An item without the field is looked up as `None`: it is flagged when two
   * items hold `null` for that field.
   */
  lemma MissingFieldLooksUpNull(value: seq<Item>, field: string, item: Item)
    requires field !in item
    ensures Flagged(value, field, item) <==>
      exists i, j :: 0 <= i < j < |value| && Holds(value[i], field, JNull) && Holds(value[j], field, JNull)
  {
    TallyTwice(value, field, JNull);
  }

  /** With no duplicated field the validator returns normally; unique values of any item are never reported. */
  lemma UniqueItemNotReported(value: seq<Item>, v: ListUnique, k: nat, e: map<string, string>)
    requires k < |value| && EntryFor(value, v, value[k], e)
    requires forall field :: field in v.fields ==> field in value[k] && forall j :: 0 <= j < |value| && j != k ==> !Holds(value[j], field, value[k][field])
    ensures e == map[]
  {
    forall field | field in v.fields
      ensures !Flagged(value, field, value[k])
    {
      FlaggedIffShared(value, field, k);
    }
    assert e.Keys == {};
  }
}
