/**
  The request parser built from a payload schema, the model resolver, and the
  Hugging Face metadata fallback (`taranis_base_bot/misc.py`).
 */
module Misc {
  import opened PyValues
  import opened PyStrings

  // ---------------------------------------------------------------------------
  // Schema-driven request parser
  // ---------------------------------------------------------------------------

  /**
    One schema entry `{"type": ..., "required": ...}`; either key may be absent.
    A `type` that is absent or `""` means "no type check".
   */
  datatype FieldSpec = FieldSpec(typeName: Option<string>, required: Option<bool>)

  /** A payload schema: field names with their entries, in declaration order. */
  type Schema = seq<(string, FieldSpec)>

  /** `key_schema.get("required", True)` */
  predicate IsRequired(spec: FieldSpec)
  {
    match spec.required
    case None => true
    case Some(b) => b
  }

  /** The declared type name when it is truthy, i.e. when a type check happens. */
  function DeclaredType(spec: FieldSpec): Option<string>
  {
    match spec.typeName
    case Some(t) => if t != "" then Some(t) else None
    case None => None
  }

  function MissingKeyMsg(key: string): string
  {
    "Payload does not contain '" + key + "' key!"
  }

  function NoDataMsg(key: string): string
  {
    "No data provided for '" + key + "' key!"
  }

  function WrongTypeMsg(key: string, typeName: string): string
  {
    "Data for '" + key + "' is not of type '" + typeName + "'"
  }

  /** What `isinstance(val, None)` raises when `pydoc.locate` cannot resolve the type name. */
  const IsInstanceArgMsg := "isinstance() arg 2 must be a type, a tuple of types, or a union"

  /**
    One iteration of the parser's loop for field `key`: skip it (`Returned(None)`),
    accept the payload's value (`Returned(Some(v))`), or raise.
   */
  function CheckField(key: string, spec: FieldSpec, data: Kwargs): Outcome<Option<Value>>
  {
    if !IsRequired(spec) && key !in data then Returned(None)
    else if key !in data then Raised(ValueError(MissingKeyMsg(key)))
    else if IsFalsy(data[key]) then Raised(ValueError(NoDataMsg(key)))
    else
      match DeclaredType(spec)
      case None => Returned(Some(data[key]))
      case Some(t) =>
        match Locate(t)
        case None => Raised(TypeError(IsInstanceArgMsg))
        case Some(ty) =>
          if IsInstance(data[key], ty) then Returned(Some(data[key]))
          else Raised(ValueError(WrongTypeMsg(key, t)))
  }

  predicate FieldPasses(field: (string, FieldSpec), data: Kwargs)
  {
    CheckField(field.0, field.1, data).Returned?
  }

  /** The field names of a schema. */
  function Names(schema: Schema): set<string>
  {
    set i | 0 <= i < |schema| :: schema[i].0
  }

  /**
    What the parser returns for `data`: the fields are checked in schema order
    (the prefix first, then the last field), the first failure is raised, and the
    accepted values are collected.
   */
  function Parse(schema: Schema, data: Kwargs): Outcome<Kwargs>
    decreases |schema|
  {
    if schema == [] then Returned(map[])
    else
      var (key, spec) := schema[|schema| - 1];
      match Parse(schema[..|schema| - 1], data)
      case Raised(e) => Raised(e)
      case Returned(acc) =>
        match CheckField(key, spec, data)
        case Raised(e) => Raised(e)
        case Returned(None) => Returned(acc)
        case Returned(Some(v)) => Returned(acc[key := v])
  }

  /** `create_request_parser(schema)`: the parser as a function value. */
  function CreateRequestParser(schema: Schema): Kwargs -> Outcome<Kwargs>
  {
    (data: Kwargs) => Parse(schema, data)
  }

  /**
    The inner `request_parser`: fills `accepted` field by field and raises at
    the first field that fails. Keys of `data` outside the schema are only
    logged, which the model leaves out.
   */
  method RequestParser(schema: Schema, data: Kwargs) returns (r: Outcome<Kwargs>)
    ensures r == Parse(schema, data)
  {
    var accepted: Kwargs := map[];
    for i := 0 to |schema|
      invariant Parse(schema[..i], data) == Returned(accepted)
    {
      var (key, spec) := schema[i];
      assert schema[..i + 1][..i] == schema[..i];
      if !IsRequired(spec) && key !in data {
        continue;
      }
      if key !in data {
        r := Raised(ValueError(MissingKeyMsg(key)));
        ParseKeepsFailure(schema, data, i + 1);
        return;
      }
      var val := data[key];
      if val.Null? || !Truthy(val) {
        r := Raised(ValueError(NoDataMsg(key)));
        ParseKeepsFailure(schema, data, i + 1);
        return;
      }
      var dataType := spec.typeName;
      if dataType.Some? && dataType.value != "" {
        var located := Locate(dataType.value);
        if located.None? {
          r := Raised(TypeError(IsInstanceArgMsg));
          ParseKeepsFailure(schema, data, i + 1);
          return;
        }
        if !IsInstance(val, located.value) {
          r := Raised(ValueError(WrongTypeMsg(key, dataType.value)));
          ParseKeepsFailure(schema, data, i + 1);
          return;
        }
      }
      accepted := accepted[key := data[key]];
    }
    assert schema[..|schema|] == schema;
    r := Returned(accepted);
  }

  /** Once a prefix of the schema fails, the whole schema fails the same way. */
  lemma {:induction false} ParseKeepsFailure(schema: Schema, data: Kwargs, n: nat)
    requires n <= |schema|
    requires Parse(schema[..n], data).Raised?
    ensures Parse(schema, data) == Parse(schema[..n], data)
    decreases |schema| - n
  {
    if n < |schema| {
      assert schema[..n + 1][..n] == schema[..n];
      ParseKeepsFailure(schema, data, n + 1);
    } else {
      assert schema[..n] == schema;
    }
  }

  /** The parser succeeds exactly when every field of the schema passes its check. */
  lemma {:induction false} ParseSucceedsIff(schema: Schema, data: Kwargs)
    ensures Parse(schema, data).Returned? <==> forall i | 0 <= i < |schema| :: FieldPasses(schema[i], data)
    decreases |schema|
  {
    if schema != [] {
      var init := schema[..|schema| - 1];
      ParseSucceedsIff(init, data);
      assert forall i | 0 <= i < |init| :: init[i] == schema[i];
    }
  }

  /** A failure is the one raised by the first failing field in schema order. */
  lemma {:induction false} ParseReportsFirstFailure(schema: Schema, data: Kwargs, i: nat)
    requires i < |schema|
    requires forall j | 0 <= j < i :: FieldPasses(schema[j], data)
    requires !FieldPasses(schema[i], data)
    ensures Parse(schema, data) == Raised(CheckField(schema[i].0, schema[i].1, data).exc)
    decreases |schema|
  {
    var init := schema[..|schema| - 1];
    assert forall j | 0 <= j < |init| :: init[j] == schema[j];
    if i == |schema| - 1 {
      ParseSucceedsIff(init, data);
    } else {
      ParseReportsFirstFailure(init, data, i);
    }
  }

  /**
    On success the output holds exactly the schema fields present in the payload,
    each with the payload's value unchanged, and every required field is present.
   */
  lemma {:induction false} ParseSuccessShape(schema: Schema, data: Kwargs, out: Kwargs)
    requires Parse(schema, data) == Returned(out)
    ensures out.Keys == Names(schema) * data.Keys
    ensures forall k | k in out :: out[k] == data[k]
    ensures forall i | 0 <= i < |schema| && IsRequired(schema[i].1) :: schema[i].0 in out
    decreases |schema|
  {
    if schema != [] {
      var init := schema[..|schema| - 1];
      var (key, spec) := schema[|schema| - 1];
      var acc := Parse(init, data).value;
      ParseSuccessShape(init, data, acc);
      assert Names(schema) == Names(init) + {key} by {
        assert forall i | 0 <= i < |init| :: init[i] == schema[i];
        forall k | k in Names(schema) ensures k in Names(init) + {key} {
          var i :| 0 <= i < |schema| && schema[i].0 == k;
          if i < |init| { assert init[i].0 == k; }
        }
      }
      forall i | 0 <= i < |schema| - 1 ensures schema[i] == init[i] { }
    }
  }

  /** Payload keys outside the schema never influence the parser's outcome. */
  lemma {:induction false} ParseIgnoresUnexpectedKeys(schema: Schema, data: Kwargs, other: Kwargs)
    requires forall k | k in Names(schema) :: (k in data <==> k in other)
    requires forall k | k in Names(schema) && k in data :: data[k] == other[k]
    ensures Parse(schema, data) == Parse(schema, other)
    decreases |schema|
  {
    if schema != [] {
      var init := schema[..|schema| - 1];
      assert forall k | k in Names(init) :: k in Names(schema) by {
        forall k | k in Names(init) ensures k in Names(schema) {
          var i :| 0 <= i < |init| && init[i].0 == k;
          assert schema[i].0 == k;
        }
      }
      ParseIgnoresUnexpectedKeys(init, data, other);
      assert schema[|schema| - 1].0 in Names(schema);
    }
  }

  /** An optional field absent from the payload is skipped: dropping it from the schema changes nothing. */
  lemma {:induction false} ParseSkipsAbsentOptional(schema: Schema, data: Kwargs, i: nat)
    requires i < |schema|
    requires !IsRequired(schema[i].1) && schema[i].0 !in data
    ensures Parse(schema, data) == Parse(schema[..i] + schema[i + 1..], data)
    decreases |schema|
  {
    var init := schema[..|schema| - 1];
    var dropped := schema[..i] + schema[i + 1..];
    if i == |schema| - 1 {
      assert dropped == init;
    } else {
      ParseSkipsAbsentOptional(init, data, i);
      assert dropped[..|dropped| - 1] == init[..i] + init[i + 1..];
      assert dropped[|dropped| - 1] == schema[|schema| - 1];
    }
  }

  /** A required field missing from the payload makes the parser fail, whatever the field order. */
  lemma MissingRequiredFieldFails(schema: Schema, data: Kwargs, i: nat)
    requires i < |schema|
    requires IsRequired(schema[i].1) && schema[i].0 !in data
    ensures Parse(schema, data).Raised?
  {
    ParseSucceedsIff(schema, data);
    assert !FieldPasses(schema[i], data);
  }

  /**
    The first failing field determines the message: a missing required key, a
    falsy value (also for an optional field, and also `0` and `False`), and a
    value of the wrong declared type each raise their own `ValueError`.
   */
  lemma FirstFailureMessages(schema: Schema, data: Kwargs, i: nat)
    requires i < |schema|
    requires forall j | 0 <= j < i :: FieldPasses(schema[j], data)
    ensures var (key, spec) := schema[i];
      && (IsRequired(spec) && key !in data ==>
            Parse(schema, data) == Raised(ValueError(MissingKeyMsg(key))))
      && (key in data && IsFalsy(data[key]) ==>
            Parse(schema, data) == Raised(ValueError(NoDataMsg(key))))
      && (key in data && !IsFalsy(data[key]) && DeclaredType(spec).Some? &&
          Locate(DeclaredType(spec).value).Some? &&
          !IsInstance(data[key], Locate(DeclaredType(spec).value).value) ==>
            Parse(schema, data) == Raised(ValueError(WrongTypeMsg(key, DeclaredType(spec).value))))
  {
    if !FieldPasses(schema[i], data) {
      ParseReportsFirstFailure(schema, data, i);
    }
  }

  // ---------------------------------------------------------------------------
  // Model resolver
  // ---------------------------------------------------------------------------

  /**
    A model class: its `model_name` attribute, its `predict(**kwargs)`, and the
    exception its no-argument constructor raises, if it raises one.
   */
  datatype ModelClass = ModelClass(modelName: string, predict: Kwargs -> Outcome<Value>, initError: Option<Exc>)

  /** An instance of a model class (instances carry no state of their own). */
  datatype Predictor = Instance(of: ModelClass)
  {
    function ModelName(): string { of.modelName }
  }

  /** The importable modules: dotted module path to the classes it defines, by name. */
  type Registry = map<string, map<string, ModelClass>>

  function NonEmptyParts(parts: seq<string>): (r: seq<string>)
    ensures forall p | p in r :: p in parts
  {
    if parts == [] then []
    else (if parts[0] == "" then [] else [parts[0]]) + NonEmptyParts(parts[1..])
  }

  function CapitalizeAll(parts: seq<string>): (r: seq<string>)
    ensures |r| == |parts|
  {
    if parts == [] then [] else [Capitalize(parts[0])] + CapitalizeAll(parts[1..])
  }

  /** `"".join(part.capitalize() for part in model.split("_") if part)` */
  function ClassName(model: string): string
  {
    Concat(CapitalizeAll(NonEmptyParts(Split(model, '_'))))
  }

  lemma {:induction false} ConcatNonEmptyParts(parts: seq<string>)
    ensures Concat(NonEmptyParts(parts)) == Concat(parts)
  {
    if parts != [] {
      ConcatNonEmptyParts(parts[1..]);
      if parts[0] == "" {
        assert NonEmptyParts(parts) == NonEmptyParts(parts[1..]);
      } else {
        assert NonEmptyParts(parts)[1..] == NonEmptyParts(parts[1..]);
      }
    }
  }

  lemma {:induction false} ConcatCapitalized(parts: seq<string>)
    ensures LowerAll(Concat(CapitalizeAll(parts))) == LowerAll(Concat(parts))
    ensures (forall i | 0 <= i < |parts| :: '_' !in parts[i]) ==> '_' !in Concat(CapitalizeAll(parts))
  {
    if parts != [] {
      ConcatCapitalized(parts[1..]);
      CapitalizeSameLetters(parts[0]);
      LowerAllConcat(Capitalize(parts[0]), Concat(CapitalizeAll(parts[1..])));
      LowerAllConcat(parts[0], Concat(parts[1..]));
      assert CapitalizeAll(parts)[1..] == CapitalizeAll(parts[1..]);
      if forall i | 0 <= i < |parts| :: '_' !in parts[i] {
        assert '_' !in parts[0];
        assert forall i | 0 <= i < |parts[1..]| :: parts[1..][i] == parts[i + 1];
      }
    }
  }

  /**
    The derived class name contains no underscore and spells the model name
    without its underscores, up to letter case.
   */
  lemma ClassNameSpellsModel(model: string)
    ensures '_' !in ClassName(model)
    ensures LowerAll(ClassName(model)) == LowerAll(Without(model, '_'))
  {
    var parts := NonEmptyParts(Split(model, '_'));
    ConcatCapitalized(parts);
    ConcatNonEmptyParts(Split(model, '_'));
    ConcatSplit(model, '_');
    forall i | 0 <= i < |parts| ensures '_' !in parts[i] {
      assert parts[i] in Split(model, '_');
    }
  }

  /** Two underscore-joined words name the class that concatenates them capitalized (`fake_model` names `FakeModel`). */
  lemma ClassNameOfTwoWords(a: string, b: string)
    requires a != "" && b != "" && '_' !in a && '_' !in b
    ensures ClassName(a + "_" + b) == Capitalize(a) + Capitalize(b)
  {
    var parts := [a, b];
    assert Split(a + "_" + b, '_') == parts by {
      SplitAtSeparator(a, b, '_');
      SplitWithoutSeparator(b, '_');
    }
    assert NonEmptyParts(parts) == parts by {
      assert NonEmptyParts(parts[1..]) == [b];
    }
    assert CapitalizeAll(parts) == [Capitalize(a), Capitalize(b)] by {
      assert CapitalizeAll(parts[1..]) == [Capitalize(b)];
    }
    assert Concat([Capitalize(a), Capitalize(b)]) == Capitalize(a) + Capitalize(b) by {
      assert Concat([Capitalize(b)]) == Capitalize(b);
    }
  }

  function ModulePath(packageName: string, model: string): string
  {
    packageName + "." + model
  }

  const MissingConfigMsg := "Both PACKAGE_NAME and MODEL must be set in the configuration"

  function NoModuleMsg(packageName: string, model: string): string
  {
    "Package " + packageName + " has no module named " + model + ". Make sure the file " + model + ".py exists"
  }

  function NoClassMsg(model: string, className: string): string
  {
    "Module " + model + " has no class named " + className + ". Make sure the class exists in " + model + ".py"
  }

  /**
    `get_model`: import `<package>.<model>` and instantiate the class named after
    the model; the import machinery is the registry. An exception raised by the
    class's constructor escapes.
   */
  function GetModel(packageName: string, model: string, registry: Registry): (r: Outcome<Predictor>)
    ensures r.Returned? <==>
      packageName != "" && model != "" && ModulePath(packageName, model) in registry
      && ClassName(model) in registry[ModulePath(packageName, model)]
      && registry[ModulePath(packageName, model)][ClassName(model)].initError.None?
    ensures (packageName == "" || model == "") ==> r == Raised(ValueError(MissingConfigMsg))
    ensures packageName != "" && model != "" && ModulePath(packageName, model) !in registry ==>
      r == Raised(ImportError(NoModuleMsg(packageName, model)))
    ensures (packageName != "" && model != "" && ModulePath(packageName, model) in registry
      && ClassName(model) !in registry[ModulePath(packageName, model)]) ==>
      r == Raised(ImportError(NoClassMsg(model, ClassName(model))))
    ensures (packageName != "" && model != "" && ModulePath(packageName, model) in registry
      && ClassName(model) in registry[ModulePath(packageName, model)]
      && registry[ModulePath(packageName, model)][ClassName(model)].initError.Some?) ==>
      r == Raised(registry[ModulePath(packageName, model)][ClassName(model)].initError.value)
    ensures r.Returned? ==> r.value.of == registry[ModulePath(packageName, model)][ClassName(model)]
    ensures r.Returned? ==> exists name | name in registry[ModulePath(packageName, model)] ::
      && registry[ModulePath(packageName, model)][name] == r.value.of
      && '_' !in name && LowerAll(name) == LowerAll(Without(model, '_'))
  {
    if packageName == "" || model == "" then Raised(ValueError(MissingConfigMsg))
    else if ModulePath(packageName, model) !in registry then Raised(ImportError(NoModuleMsg(packageName, model)))
    else
      var classes := registry[ModulePath(packageName, model)];
      var className := ClassName(model);
      if className !in classes then Raised(ImportError(NoClassMsg(model, className)))
      else if classes[className].initError.Some? then Raised(classes[className].initError.value)
      else
        ClassNameSpellsModel(model);
        Returned(Instance(classes[className]))
  }

  // ---------------------------------------------------------------------------
  // Hugging Face metadata
  // ---------------------------------------------------------------------------

  /**
    What fetching a URL yields: the decoded JSON document of a successful
    response, or the text of the exception raised by the request, by
    `raise_for_status` or by JSON decoding.
   */
  datatype FetchOutcome = Fetched(doc: Value) | FetchFailed(message: string)

  function HfUrl(modelName: string): string
  {
    "https://huggingface.co/api/models/" + modelName
  }

  /** `get_hf_modelinfo`: never raises; a failed fetch becomes a fallback document. */
  function HfModelInfo(modelName: string, fetch: string -> FetchOutcome): Value
  {
    match fetch(HfUrl(modelName))
    case Fetched(doc) => doc
    case FetchFailed(msg) => Pair("model", Str(modelName), "error", Str(msg))
  }

  /**
    A successful fetch is returned unchanged; any failure yields exactly
    `{"model": name, "error": message}`.
   */
  lemma HfModelInfoOutcomes(modelName: string, fetch: string -> FetchOutcome)
    ensures fetch(HfUrl(modelName)).Fetched? ==> HfModelInfo(modelName, fetch) == fetch(HfUrl(modelName)).doc
    ensures fetch(HfUrl(modelName)).FetchFailed? ==>
      var r := HfModelInfo(modelName, fetch);
      && r.Dict? && r.entries.Keys == {"model", "error"}
      && r.entries["model"] == Str(modelName)
      && r.entries["error"] == Str(fetch(HfUrl(modelName)).message)
  {
  }
}
