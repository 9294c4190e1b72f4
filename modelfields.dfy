/**
 * The application's model fields: the option processing of
 * `AppSingleChoiceField` (choices, `max_length`, default and nullability
 * derived from a choices configuration) and the `max_size` system check of
 * `AppFileField`.
 */
module ModelFields {
  import opened Wrappers
  import opened JsonData
  import Helpers

  /**
   * The configured options. A Python list of plain values, a list whose first
   * element is a tuple, or a dict, whose keys are distinct and kept in
   * insertion order. An empty list is `Plain([])` (or `Tuples([])`).
   */
  datatype Options =
    | Plain(values: seq<Json>)
    | Tuples(pairs: seq<(Json, Json)>)
    | Dict(entries: seq<(Json, Json)>)

  /** The `choices_config` dict: its `"options"` and `"default"` entries, each possibly absent. */
  datatype ChoicesConfig = ChoicesConfig(options: Option<Options>, default: Option<Json>)

  /** Why building the field fails. */
  datatype FieldError =
    | MissingOptions  // `KeyError`: no "options" in the configuration
    | NoOptions  // `IndexError`: an empty option list or dict
    | Unsized  // `TypeError`: `len` of an option key that has no length

  /** The keyword arguments the field is built with. */
  datatype ChoiceField = ChoiceField(choices: seq<(Json, Json)>, maxLength: nat, default: Json, nullable: bool)

  /** `type_of_options()`. */
  function TypeOfOptions(o: Options): (r: Result<string, FieldError>)
    ensures r.Failure? <==> !o.Dict? && |Keys(o)| == 0
    ensures r.Success? ==> r.value == (if o.Plain? then "list" else if o.Tuples? then "list_of_tuples" else "dict")
  {
    match o
    case Plain(values) => if values == [] then Failure(NoOptions) else Success("list")
    case Tuples(pairs) => if pairs == [] then Failure(NoOptions) else Success("list_of_tuples")
    case Dict(_) => Success("dict")
  }

  /** The option keys iterated over: the plain values, the tuples' first components or the dict keys. */
  function Keys(o: Options): (ks: seq<Json>)
    ensures |ks| == match o case Plain(vs) => |vs| case Tuples(ps) => |ps| case Dict(es) => |es|
  {
    match o
    case Plain(values) => values
    case Tuples(pairs) => seq(|pairs|, i requires 0 <= i < |pairs| => pairs[i].0)
    case Dict(entries) => seq(|entries|, i requires 0 <= i < |entries| => entries[i].0)
  }

  /** The choice generated for the `i`-th option (lines 36-42 with `get_display_name`). */
  function ChoiceAt(o: Options, i: nat): (c: (Json, Json))
    requires i < |Keys(o)|
    ensures c.0 == Keys(o)[i]
  {
    match o
    case Plain(values) => (values[i], Helpers.DisplayName(values[i]))
    case Tuples(pairs) => pairs[i]
    case Dict(entries) => entries[i]
  }

  /** Python's `len` of an option key; `None` where `len` raises `TypeError`. */
  function Length(j: Json): Option<nat>
  {
    match j
    case JStr(s) => Some(|s|)
    case JList(items) => Some(|items|)
    case JObject(fields) => Some(|fields|)
    case _ => None
  }

  /**
   * `get_default_option()`: the configured default, else the first key. The
   * fallback is evaluated before `get` looks at the configuration, so empty
   * options fail even when a default is configured.
   */
  function DefaultOption(config: ChoicesConfig): (r: Result<Json, FieldError>)
    requires config.options.Some?
    ensures r.Failure? <==> |Keys(config.options.value)| == 0
    ensures r.Failure? ==> r.error == NoOptions
    ensures r.Success? && config.default.Some? ==> r.value == config.default.value
    ensures r.Success? && config.default.None? ==> r.value == Keys(config.options.value)[0]
  {
    var ks := Keys(config.options.value);
    if ks == [] then Failure(NoOptions)
    else if config.default.Some? then Success(config.default.value)
    else Success(ks[0])
  }

  /** `is_nullable()`: `None` is among the iterated options or is the default. */
  predicate IsNullable(o: Options, default: Json)
  {
    match o
    case Plain(values) => JNull in values || default == JNull
    case Tuples(_) => default == JNull  // a tuple is never `None`
    case Dict(entries) => JNull in Keys(o) || default == JNull
  }

  /** Some option key has no length. */
  predicate SomeUnsized(o: Options)
  {
    exists i :: 0 <= i < |Keys(o)| && Length(Keys(o)[i]).None?
  }

  /** `AppSingleChoiceField.__init__(choices_config)`: the choices, `max_length`, default and `null` it derives. */
  method NewChoiceField(config: ChoicesConfig) returns (r: Result<ChoiceField, FieldError>)
    ensures r == Failure(MissingOptions) <==> config.options.None?
    ensures r == Failure(NoOptions) <==> config.options.Some? && |Keys(config.options.value)| == 0
    ensures r == Failure(Unsized) <==> config.options.Some? && SomeUnsized(config.options.value)
    ensures r.Success? ==> var o := config.options.value;
      && |r.value.choices| == |Keys(o)|
      && (forall i :: 0 <= i < |Keys(o)| ==> r.value.choices[i] == ChoiceAt(o, i))
      && (forall i :: 0 <= i < |Keys(o)| ==> Length(Keys(o)[i]).Some? && Length(Keys(o)[i]).value <= r.value.maxLength)
      && (exists i :: 0 <= i < |Keys(o)| && Length(Keys(o)[i]) == Some(r.value.maxLength))
      && r.value.default == (if config.default.Some? then config.default.value else Keys(o)[0])
      && (r.value.nullable <==> r.value.default == JNull)
  {
    if config.options.None? {
      return Failure(MissingOptions);
    }
    var o := config.options.value;
    var keys := Keys(o);
    var choices: seq<(Json, Json)> := [];
    var maxLength: nat := 0;
    for i := 0 to |keys|
      invariant |choices| == i
      invariant forall j :: 0 <= j < i ==> choices[j] == ChoiceAt(o, j)
      invariant forall j :: 0 <= j < i ==> Length(keys[j]).Some? && Length(keys[j]).value <= maxLength
      invariant i == 0 ==> maxLength == 0
      invariant i > 0 ==> exists j :: 0 <= j < i && Length(keys[j]) == Some(maxLength)
    {
      var n := Length(keys[i]);
      if n.None? {
        return Failure(Unsized);
      }
      choices := choices + [ChoiceAt(o, i)];
      if n.value >= maxLength {
        maxLength := n.value;
        assert Length(keys[i]) == Some(maxLength);
      }
    }
    var default := DefaultOption(config);
    if default.Failure? {
      return Failure(default.error);
    }
    return Success(ChoiceField(choices, maxLength, default.value, IsNullable(o, default.value)));
  }

  // ---------------------------------------------------------------------
  // AppFileField
  // ---------------------------------------------------------------------

  /**
   * `_check_max_size_attribute()`: the system-check errors for a `max_size`
   * value; a `bool`, though an `int` in Python, is refused.
   */
  function CheckMaxSize(maxSize: Json): (errors: seq<string>)
    ensures |errors| <= 1
    ensures errors == [] <==> maxSize.JInt? && maxSize.i > 0
    ensures maxSize == JNull ==> errors == ["ImageFields must define a 'max_size' attribute."]
    ensures maxSize != JNull && errors != [] ==> errors == ["'max_size' must be a positive number of MB"]
  {
    if maxSize == JNull then ["ImageFields must define a 'max_size' attribute."]
    else if !maxSize.JInt? || maxSize.i <= 0 then ["'max_size' must be a positive number of MB"]
    else []
  }
}
