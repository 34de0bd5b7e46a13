/**
  The three endpoints and the blueprint that registers them
  (`taranis_base_bot/blueprint.py`).
 */
module ServiceBlueprint {
  import opened PyValues
  import opened Misc
  import opened Views

  /** `predict_fn(**kwargs)` */
  type PredictFn = Kwargs -> Outcome<Value>

  /** `request_parser(data)` */
  type ParserFn = Kwargs -> Outcome<Kwargs>

  /** `modelinfo_fn()`, evaluated anew on every request. */
  type ModelInfoFn = Env -> Outcome<Value>

  const PayloadNotDictMsg := "Payload must be a dict!"

  /**
    `InferenceView.post` on a decoded body: reject a non-dict, parse, predict;
    a `ValueError` from the parser or the predictor becomes a 400, any other
    exception escapes.
   */
  function InferencePost(predict: PredictFn, parse: ParserFn, payload: Value): Outcome<Response>
  {
    if !payload.Dict? then Returned(Response(400, ErrorBody(PayloadNotDictMsg)))
    else
      match parse(payload.entries)
      case Raised(ValueError(msg)) => Returned(Response(400, ErrorBody(msg)))
      case Raised(e) => Raised(e)
      case Returned(kwargs) =>
        match predict(kwargs)
        case Raised(ValueError(msg)) => Returned(Response(400, ErrorBody(msg)))
        case Raised(e) => Raised(e)
        case Returned(result) => Returned(Response(200, result))
  }

  function InferenceView(predict: PredictFn, parse: ParserFn): View
  {
    (env: Env, req: Request) => InferencePost(predict, parse, req.json)
  }

  /** `HealthView.get` */
  function HealthView(): View
  {
    (env: Env, req: Request) => Returned(Response(200, Single("status", Str("ok"))))
  }

  /** `ModelInfoView.get` */
  function ModelInfoView(modelinfo: ModelInfoFn): View
  {
    (env: Env, req: Request) =>
      match modelinfo(env)
      case Returned(doc) => Returned(Response(200, doc))
      case Raised(e) => Raised(e)
  }

  /**
    The responses of the inference endpoint: a non-dict body is refused before
    parsing; a parser `ValueError` is answered before predicting; a predictor
    `ValueError` is a 400; otherwise the predictor's result is returned as is.
   */
  lemma InferencePostOutcomes(predict: PredictFn, parse: ParserFn, payload: Value)
    ensures !payload.Dict? ==>
      InferencePost(predict, parse, payload) == Returned(Response(400, ErrorBody(PayloadNotDictMsg)))
    ensures payload.Dict? && parse(payload.entries).Raised? && parse(payload.entries).exc.ValueError? ==>
      InferencePost(predict, parse, payload) ==
        Returned(Response(400, ErrorBody(parse(payload.entries).exc.msg)))
    ensures payload.Dict? && parse(payload.entries).Returned? ==>
      var kwargs := parse(payload.entries).value;
      && (predict(kwargs).Returned? ==>
            InferencePost(predict, parse, payload) == Returned(Response(200, predict(kwargs).value)))
      && (predict(kwargs).Raised? && predict(kwargs).exc.ValueError? ==>
            InferencePost(predict, parse, payload) == Returned(Response(400, ErrorBody(predict(kwargs).exc.msg))))
    ensures InferencePost(predict, parse, payload).Returned? ==>
      InferencePost(predict, parse, payload).value.status in {200, 400}
    ensures InferencePost(predict, parse, payload).Raised? ==>
      !InferencePost(predict, parse, payload).exc.ValueError?
  {
  }

  /** Neither the parser nor the predictor matters for a body that is not a dict. */
  lemma NonDictSkipsParserAndPredictor(p1: PredictFn, q1: ParserFn, p2: PredictFn, q2: ParserFn, payload: Value)
    requires !payload.Dict?
    ensures InferencePost(p1, q1, payload) == InferencePost(p2, q2, payload)
  {
  }

  /** The predictor does not matter once the parser fails. */
  lemma ParserFailureSkipsPredictor(p1: PredictFn, p2: PredictFn, parse: ParserFn, payload: Value)
    requires payload.Dict? && parse(payload.entries).Raised?
    ensures InferencePost(p1, parse, payload) == InferencePost(p2, parse, payload)
  {
  }

  /**
    With the schema parser, keys of the body outside the schema never change
    the response, and a 200 is the predictor's answer on exactly the schema
    fields present in the body, with their values unchanged.
   */
  lemma SchemaPostUsesOnlySchemaFields(predict: PredictFn, schema: Schema, body: Kwargs)
    ensures var kept := map k | k in body && k in Names(schema) :: body[k];
      InferencePost(predict, CreateRequestParser(schema), Dict(body)) ==
      InferencePost(predict, CreateRequestParser(schema), Dict(kept))
    ensures Parse(schema, body).Returned? ==>
      var kwargs := Parse(schema, body).value;
      && kwargs == (map k | k in body && k in Names(schema) :: body[k])
      && (predict(kwargs).Returned? ==>
            InferencePost(predict, CreateRequestParser(schema), Dict(body)) == Returned(Response(200, predict(kwargs).value)))
  {
    var kept := map k | k in body && k in Names(schema) :: body[k];
    ParseIgnoresUnexpectedKeys(schema, body, kept);
    if Parse(schema, body).Returned? {
      ParseSuccessShape(schema, body, Parse(schema, body).value);
    }
  }

  /** `d0(d1(...dn(view)))`: the first decorator listed is the outermost. */
  function Compose(decorators: seq<Decorator>, view: View): View
  {
    if decorators == [] then view else decorators[0](Compose(decorators[1..], view))
  }

  /** Composing two lists of decorators nests the first around the second. */
  lemma {:induction false} ComposeAppend(ds: seq<Decorator>, es: seq<Decorator>, view: View)
    ensures Compose(ds + es, view) == Compose(ds, Compose(es, view))
  {
    if ds == [] {
      assert ds + es == es;
    } else {
      assert (ds + es)[1..] == ds[1..] + es;
      ComposeAppend(ds[1..], es, view);
    }
  }

  /** The last decorator listed is applied first, directly to the view. */
  lemma ComposeLastInnermost(ds: seq<Decorator>, d: Decorator, view: View)
    ensures Compose(ds + [d], view) == Compose(ds, d(view))
  {
    ComposeAppend(ds, [d], view);
  }

  /** A registered rule: path, allowed methods, view. */
  datatype UrlRule = UrlRule(rule: string, methods: seq<string>, view: View)

  /** A blueprint collects rules; it is registered on an application later. */
  class Blueprint {
    const name: string
    const urlPrefix: string
    var rules: seq<UrlRule>

    constructor (name: string, urlPrefix: string)
      ensures this.name == name && this.urlPrefix == urlPrefix && rules == []
    {
      this.name := name;
      this.urlPrefix := urlPrefix;
      rules := [];
    }

    /** `bp.add_url_rule(rule, view_func=view, methods=methods)` */
    method AddUrlRule(rule: string, view: View, methods: seq<string>)
      modifies this
      ensures rules == old(rules) + [UrlRule(rule, methods, view)]
    {
      rules := rules + [UrlRule(rule, methods, view)];
    }
  }

  /** The rules `create_service_blueprint` registers, in order. */
  function ServiceRules(predict: PredictFn, modelinfo: ModelInfoFn, parse: ParserFn,
                        decorators: Option<seq<Decorator>>): seq<UrlRule>
  {
    var ds := match decorators case Some(ds) => ds case None => [];
    [ UrlRule("/", ["POST"], Compose(ds, InferenceView(predict, parse))),
      UrlRule("/health", ["GET"], HealthView()),
      UrlRule("/modelinfo", ["GET"], ModelInfoView(modelinfo)) ]
  }

  /**
    `create_service_blueprint`: wraps the inference view in the decorators,
    last one first, and registers the three routes.
   */
  method CreateServiceBlueprint(name: string, urlPrefix: string, predict: PredictFn, modelinfo: ModelInfoFn,
                                parse: ParserFn, decorators: Option<seq<Decorator>>)
    returns (bp: Blueprint)
    ensures fresh(bp) && bp.name == name && bp.urlPrefix == urlPrefix
    ensures bp.rules == ServiceRules(predict, modelinfo, parse, decorators)
  {
    bp := new Blueprint(name, urlPrefix);
    var inference := InferenceView(predict, parse);
    if decorators.Some? && decorators.value != [] {
      var ds := decorators.value;
      var i := |ds|;
      while i > 0
        invariant 0 <= i <= |ds|
        invariant inference == Compose(ds[i..], InferenceView(predict, parse))
      {
        i := i - 1;
        assert ds[i..][1..] == ds[i + 1..];
        inference := ds[i](inference);
      }
    }
    var health := HealthView();
    var info := ModelInfoView(modelinfo);
    bp.AddUrlRule("/", inference, ["POST"]);
    bp.AddUrlRule("/health", health, ["GET"]);
    bp.AddUrlRule("/modelinfo", info, ["GET"]);
  }

  /** The `(method, path)` pairs a list of rules serves. */
  function Routes(rules: seq<UrlRule>): seq<(string, string)>
  {
    if rules == [] then []
    else (seq(|rules[0].methods|, i requires 0 <= i < |rules[0].methods| => (rules[0].methods[i], rules[0].rule)))
         + Routes(rules[1..])
  }

  /** The view of the first rule that serves `verb` on `path`. */
  function Dispatch(rules: seq<UrlRule>, verb: string, path: string): Option<View>
  {
    if rules == [] then None
    else if rules[0].rule == path && verb in rules[0].methods then Some(rules[0].view)
    else Dispatch(rules[1..], verb, path)
  }

  /**
    Exactly `POST /`, `GET /health` and `GET /modelinfo` are served; only the
    inference view is decorated, and without decorators it is the bare view.
   */
  lemma ServiceRoutes(predict: PredictFn, modelinfo: ModelInfoFn, parse: ParserFn,
                      decorators: Option<seq<Decorator>>, verb: string, path: string)
    ensures Routes(ServiceRules(predict, modelinfo, parse, decorators)) ==
      [("POST", "/"), ("GET", "/health"), ("GET", "/modelinfo")]
    ensures var rules := ServiceRules(predict, modelinfo, parse, decorators);
      && Dispatch(rules, "POST", "/") ==
           Some(Compose(match decorators case Some(ds) => ds case None => [], InferenceView(predict, parse)))
      && Dispatch(rules, "GET", "/health") == Some(HealthView())
      && Dispatch(rules, "GET", "/modelinfo") == Some(ModelInfoView(modelinfo))
      && (decorators == None || decorators == Some([]) ==>
            Dispatch(rules, "POST", "/") == Some(InferenceView(predict, parse)))
      && ((verb, path) !in {("POST", "/"), ("GET", "/health"), ("GET", "/modelinfo")} ==>
            Dispatch(rules, verb, path) == None)
  {
    var rules := ServiceRules(predict, modelinfo, parse, decorators);
    assert rules[1..][1..][1..] == [];
    assert Routes(rules[1..][1..]) == [("GET", "/modelinfo")];
    assert Routes(rules[1..]) == [("GET", "/health"), ("GET", "/modelinfo")];
    assert Dispatch(rules[1..][1..][1..], verb, path) == None;
    assert Dispatch(rules[1..][1..], "GET", "/modelinfo") == Some(ModelInfoView(modelinfo));
    assert Dispatch(rules[1..], "GET", "/modelinfo") == Some(ModelInfoView(modelinfo)) by {
      assert rules[1].rule == "/health" != "/modelinfo";
    }
    assert "/" != "/modelinfo";
    if (verb, path) !in {("POST", "/"), ("GET", "/health"), ("GET", "/modelinfo")} {
      assert !(path == "/" && verb in ["POST"]);
      assert !(path == "/health" && verb in ["GET"]);
      assert !(path == "/modelinfo" && verb in ["GET"]);
      assert Dispatch(rules[1..][1..], verb, path) == None;
      assert Dispatch(rules[1..], verb, path) == None;
    }
  }

  /** The health endpoint always answers 200 `{"status": "ok"}`. */
  lemma HealthAlwaysOk(env: Env, req: Request)
    ensures HealthView()(env, req) == Returned(Response(200, Single("status", Str("ok"))))
  {
  }

  /** The modelinfo endpoint returns what the provider returns at the time of the call. */
  lemma ModelInfoReturnsProvider(modelinfo: ModelInfoFn, env: Env, req: Request)
    ensures modelinfo(env).Returned? ==> ModelInfoView(modelinfo)(env, req) == Returned(Response(200, modelinfo(env).value))
    ensures modelinfo(env).Raised? ==> ModelInfoView(modelinfo)(env, req) == Raised(modelinfo(env).exc)
  {
  }
}
