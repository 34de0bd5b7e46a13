/**
  Application assembly: resolve the overrides against their defaults and
  register the service blueprint (`taranis_base_bot/setup.py`).
 */
module Setup {
  import opened PyValues
  import opened PyStrings
  import opened Misc
  import opened Views
  import opened Decorators
  import opened ServiceBlueprint

  /** The settings of the configuration object that the request path reads. */
  datatype Settings = Settings(
    apiKey: string,
    model: string,
    packageName: string,
    hfModelInfo: bool,
    payloadSchema: Schema)

  /** The defaults of the common settings class. */
  const DefaultSettings := Settings(
    apiKey := "",
    model := "",
    packageName := "taranis_bot",
    hfModelInfo := false,
    payloadSchema := [("key", FieldSpec(Some("str"), Some(true)))])

  /** The optional arguments of `setup`; `None` stands for an argument left at `None`. */
  datatype Overrides = Overrides(
    predict: Option<PredictFn>,
    modelinfo: Option<ModelInfoFn>,
    parser: Option<ParserFn>,
    decorators: Option<seq<Decorator>>)

  /** The fully populated arguments handed to `create_service_blueprint`. */
  datatype Parts = Parts(
    predict: PredictFn,
    modelinfo: ModelInfoFn,
    parser: ParserFn,
    decorators: seq<Decorator>)

  /**
    `default_modelinfo_fn`: reads `HF_MODEL_INFO` when called; the Hugging Face
    document for the model's name when it is set, the name itself otherwise.
   */
  function DefaultModelInfo(model: Predictor): ModelInfoFn
  {
    (env: Env) =>
      if env.hfModelInfo then Returned(HfModelInfo(model.ModelName(), env.fetch))
      else Returned(Str(model.ModelName()))
  }

  /** The default decorator list `[api_key_required]`. */
  function DefaultDecorators(): seq<Decorator>
  {
    [ApiKeyRequired]
  }

  /** The model `setup` loads, which it needs only when `predict_fn` or `modelinfo_fn` is missing. */
  function LoadModel(config: Settings, registry: Registry): Outcome<Predictor>
  {
    GetModel(config.packageName, config.model, registry)
  }

  predicate NeedsModel(ov: Overrides)
  {
    ov.predict.None? || ov.modelinfo.None?
  }

  /**
    `parts` is what `setup` passes on: every supplied override unchanged, and for
    a missing one its default (the loaded model's `predict`, the default
    modelinfo over that model, the parser for the configured schema, and
    `[api_key_required]`).
   */
  ghost predicate Resolves(config: Settings, registry: Registry, ov: Overrides, parts: Parts)
  {
    var model := LoadModel(config, registry);
    && (ov.predict.Some? ==> parts.predict == ov.predict.value)
    && (ov.predict.None? ==> model.Returned? && parts.predict == model.value.of.predict)
    && (ov.modelinfo.Some? ==> parts.modelinfo == ov.modelinfo.value)
    && (ov.modelinfo.None? ==> model.Returned? && parts.modelinfo == DefaultModelInfo(model.value))
    && (ov.parser.Some? ==> parts.parser == ov.parser.value)
    && (ov.parser.None? ==> parts.parser == CreateRequestParser(config.payloadSchema))
    && (ov.decorators.Some? ==> parts.decorators == ov.decorators.value)
    && (ov.decorators.None? ==> parts.decorators == DefaultDecorators())
  }

  /**
    The defaulting steps of `setup`: load the model only when `predict_fn` or
    `modelinfo_fn` is missing, then fill in each missing argument.
   */
  method ResolveParts(config: Settings, registry: Registry, ov: Overrides) returns (r: Outcome<Parts>)
    ensures r.Raised? <==> NeedsModel(ov) && LoadModel(config, registry).Raised?
    ensures r.Raised? ==> r.exc == LoadModel(config, registry).exc
    ensures r.Returned? ==> Resolves(config, registry, ov, r.value)
  {
    var predict := ov.predict;
    var modelinfo := ov.modelinfo;
    if predict.None? || modelinfo.None? {
      var loaded := GetModel(config.packageName, config.model, registry);
      if loaded.Raised? {
        return Raised(loaded.exc);
      }
      var model := loaded.value;
      if predict.None? {
        predict := Some(model.of.predict);
      }
      if modelinfo.None? {
        modelinfo := Some(DefaultModelInfo(model));
      }
    }
    var parser := ov.parser;
    if parser.None? {
      parser := Some(CreateRequestParser(config.payloadSchema));
    }
    var decorators := ov.decorators;
    if decorators.None? {
      decorators := Some(DefaultDecorators());
    }
    r := Returned(Parts(predict.value, modelinfo.value, parser.value, decorators.value));
  }

  /** The resolution is fully determined by its inputs. */
  lemma ResolvesUnique(config: Settings, registry: Registry, ov: Overrides, p1: Parts, p2: Parts)
    requires Resolves(config, registry, ov, p1) && Resolves(config, registry, ov, p2)
    ensures p1 == p2
  {
  }

  /**
    With both `predict_fn` and `modelinfo_fn` supplied no model is loaded: the
    resolution does not depend on the model settings or the importable modules.
   */
  lemma SuppliedFunctionsNeedNoModel(config: Settings, registry: Registry, other: Registry,
                                     ov: Overrides, parts: Parts)
    requires ov.predict.Some? && ov.modelinfo.Some?
    ensures !NeedsModel(ov)
    ensures Resolves(config, registry, ov, parts) <==>
      Resolves(config.(model := "", packageName := ""), other, ov, parts)
  {
  }

  /**
    The default modelinfo never raises: with the flag off it is the model's name,
    with it on the Hugging Face document or its fallback.
   */
  lemma DefaultModelInfoOutcomes(model: Predictor, env: Env)
    ensures !env.hfModelInfo ==> DefaultModelInfo(model)(env) == Returned(Str(model.ModelName()))
    ensures env.hfModelInfo && env.fetch(HfUrl(model.ModelName())).Fetched? ==>
      DefaultModelInfo(model)(env) == Returned(env.fetch(HfUrl(model.ModelName())).doc)
    ensures env.hfModelInfo && env.fetch(HfUrl(model.ModelName())).FetchFailed? ==>
      DefaultModelInfo(model)(env) ==
        Returned(Pair("model", Str(model.ModelName()), "error", Str(env.fetch(HfUrl(model.ModelName())).message)))
  {
  }

  /**
    The default schema `{"key": {"type": "str", "required": True}}` accepts
    exactly a payload whose `"key"` is a non-empty string, and passes on that
    one field alone.
   */
  lemma DefaultSchemaParse(data: Kwargs)
    ensures var r := Parse(DefaultSettings.payloadSchema, data);
      && ("key" !in data ==> r == Raised(ValueError(MissingKeyMsg("key"))))
      && ("key" in data && IsFalsy(data["key"]) ==> r == Raised(ValueError(NoDataMsg("key"))))
      && ("key" in data && !IsFalsy(data["key"]) && !data["key"].Str? ==>
            r == Raised(ValueError(WrongTypeMsg("key", "str"))))
      && (r.Returned? <==> "key" in data && data["key"].Str? && data["key"].s != "")
      && (r.Returned? ==> r.value == map["key" := data["key"]])
  {
    var schema := DefaultSettings.payloadSchema;
    assert schema[..0] == [];
    assert Parse(schema, data) == match CheckField("key", schema[0].1, data)
      case Raised(e) => Raised(e)
      case Returned(None) => Returned(map[])
      case Returned(Some(v)) => Returned(map["key" := v]);
  }

  /** The default decorators put the bearer-token check around the inference view; `[]` leaves it bare. */
  lemma DefaultDecoratorsGuardInference(predict: PredictFn, parse: ParserFn, env: Env, req: Request)
    ensures Compose(DefaultDecorators(), InferenceView(predict, parse)) == ApiKeyRequired(InferenceView(predict, parse))
    ensures Compose(DefaultDecorators(), InferenceView(predict, parse))(env, req) ==
      if Authorized(env.apiKey, req.authorization) then InferencePost(predict, parse, req.json)
      else Returned(NotAuthorized)
    ensures Compose([], InferenceView(predict, parse)) == InferenceView(predict, parse)
  {
    assert DefaultDecorators()[1..] == [];
  }

  /**
    End to end, with the default decorators and a non-blank `API_KEY` in the
    configuration the application copies: a `POST /` without an `Authorization`
    header is answered 401 whatever the body, and one carrying
    `"Bearer " + API_KEY` reaches the inference view.
   */
  lemma DefaultSetupRequiresBearer(config: Settings, registry: Registry, ov: Overrides, parts: Parts,
                                   hf: bool, fetch: string -> FetchOutcome, body: Value)
    requires Resolves(config, registry, ov, parts) && ov.decorators.None?
    requires Strip(config.apiKey) != ""
    ensures var rules := ServiceRules(parts.predict, parts.modelinfo, parts.parser, Some(parts.decorators));
      var env := Env(Some(config.apiKey), hf, fetch);
      && Dispatch(rules, "POST", "/").Some?
      && Dispatch(rules, "POST", "/").value(env, Request(None, body)) == Returned(NotAuthorized)
      && Dispatch(rules, "POST", "/").value(env, Request(Some(BearerPrefix + config.apiKey), body)) ==
           InferencePost(parts.predict, parts.parser, body)
  {
    var env := Env(Some(config.apiKey), hf, fetch);
    var view := InferenceView(parts.predict, parts.parser);
    ServiceRoutes(parts.predict, parts.modelinfo, parts.parser, Some(parts.decorators), "POST", "/");
    DefaultDecoratorsGuardInference(parts.predict, parts.parser, env, Request(None, body));
    MissingBearerRejected(view, env, Request(None, body));
    BearerTokenDecides(view, env, Request(Some(BearerPrefix + config.apiKey), body), config.apiKey);
  }

  /** The Flask application: its copied configuration, its URL map setting, its blueprints. */
  class App {
    var config: Settings
    var strictSlashes: bool
    var blueprints: seq<Blueprint>

    /** `Flask(__name__)` followed by `app.config.from_object(config)`. */
    constructor (config: Settings)
      ensures this.config == config && strictSlashes && blueprints == []
    {
      this.config := config;
      strictSlashes := true;
      blueprints := [];
    }

    method DisableStrictSlashes()
      modifies this
      ensures !strictSlashes && config == old(config) && blueprints == old(blueprints)
    {
      strictSlashes := false;
    }

    /** `app.register_blueprint(bp)` */
    method RegisterBlueprint(bp: Blueprint)
      modifies this
      ensures blueprints == old(blueprints) + [bp]
      ensures config == old(config) && strictSlashes == old(strictSlashes)
    {
      blueprints := blueprints + [bp];
    }
  }

  /**
    `setup`: an application with the configuration copied in, strict slashes
    off, and one blueprint serving the three routes over the resolved parts;
    or the exception raised while loading the model.
   */
  method Setup(name: string, config: Settings, urlPrefix: string, registry: Registry, ov: Overrides)
    returns (r: Outcome<App>)
    ensures r.Raised? <==> NeedsModel(ov) && LoadModel(config, registry).Raised?
    ensures r.Raised? ==> r.exc == LoadModel(config, registry).exc
    ensures r.Returned? ==>
      && fresh(r.value)
      && r.value.config == config && !r.value.strictSlashes
      && |r.value.blueprints| == 1 && fresh(r.value.blueprints[0])
      && r.value.blueprints[0].name == name && r.value.blueprints[0].urlPrefix == urlPrefix
      && exists parts :: Resolves(config, registry, ov, parts) &&
           r.value.blueprints[0].rules == ServiceRules(parts.predict, parts.modelinfo, parts.parser, Some(parts.decorators))
  {
    var app := new App(config);
    app.DisableStrictSlashes();
    var resolved := ResolveParts(config, registry, ov);
    if resolved.Raised? {
      return Raised(resolved.exc);
    }
    var parts := resolved.value;
    var bp := CreateServiceBlueprint(name, urlPrefix, parts.predict, parts.modelinfo, parts.parser, Some(parts.decorators));
    app.RegisterBlueprint(bp);
    r := Returned(app);
  }
}
