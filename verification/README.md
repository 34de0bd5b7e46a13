# taranis-base-bot request path in Dafny

taranis-base-bot is a scaffold for model-serving bots. An application built by
`setup` serves three JSON endpoints on one blueprint:

- `POST /` validates the payload against a field schema, hands the validated
  fields to the model's `predict`, and returns its result;
- `GET /health` answers `{"status": "ok"}`;
- `GET /modelinfo` answers the model's metadata.

The inference endpoint is guarded by an optional bearer-token check.

This project models that request path and proves what it promises:

- `py_values.dfy` (`PyValues`): payload values (`None`, `str`, `int`, `bool`,
  `list`, `dict`), Python truthiness, the builtin type names a schema may
  declare, and Python exceptions as an explicit `Outcome` (`Returned` or
  `Raised`).
- `py_strings.dfy` (`PyStrings`): the `str` operations the code relies on
  (`strip`, `startswith`, `removeprefix`, `split`, `capitalize`, `join`) and
  their facts.
- `misc.dfy` (`Misc`):
  - the schema-driven request parser. `Parse` specifies it; `RequestParser` is
    the loop that fills the accepted fields one by one.
  - model-class naming and model resolution over an explicit registry of
    importable modules;
  - the Hugging Face metadata fallback over an abstract fetch outcome.
- `views.dfy` (`Views`): requests, responses, and what a view reads at call
  time (the `API_KEY` setting, the `HF_MODEL_INFO` flag, the network).
- `decorators.dfy` (`Decorators`): the `api_key_required` decision and wrapper.
- `service_blueprint.dfy` (`ServiceBlueprint`):
  - the three views;
  - decorator composition;
  - the `Blueprint` class and `create_service_blueprint`, whose loop wraps the
    inference view in the decorators last-first;
  - the route table and dispatch.
- `setup.dfy` (`Setup`):
  - the default settings;
  - the override/default resolution of `setup`, specified by the relation
    `Resolves`;
  - the default modelinfo function;
  - the `App` class and `setup` itself.

### Behaviour the model keeps as the code has it

- **Falsy values.** A present value is rejected with `No data provided for
  '<key>' key!` under Python truthiness. This includes `0` and `False`, and it
  applies to optional fields too (`misc.py:27`).
- **Unknown type names.** A declared type name that `pydoc.locate` cannot
  resolve makes `isinstance` raise `TypeError`. This is not a `ValueError`, so
  the inference view does not turn it into a 400: it escapes
  (`Misc.CheckField`, `ServiceBlueprint.InferencePost`).
- **Bearer token comparison.** Both the configured key and the token after
  `"Bearer "` are stripped before they are compared. A header need not be
  exactly `"Bearer " + key`: whitespace around either side is ignored
  (`Decorators.PaddedBearerAccepted`).

## Model

| member | source | states |
|---|---|---|
| Misc.RequestParser | taranis_base_bot/misc.py:12-35 | The loop over the schema returns exactly `Parse(schema, data)`: the accepted fields, or the first field's exception. |
| Misc.ParseKeepsFailure | taranis_base_bot/misc.py:18-33 | Once a prefix of the schema raises, the whole parse raises the same exception; later fields are never checked. |
| Misc.ParseSucceedsIff | taranis_base_bot/misc.py:18-35 | The parser succeeds if and only if every schema field passes its check. |
| Misc.ParseReportsFirstFailure | taranis_base_bot/misc.py:18-33 | When fields `0..i-1` pass and field `i` fails, the parser raises field `i`'s exception. |
| Misc.ParseSuccessShape | taranis_base_bot/misc.py:17-35 | On success the output keys are exactly the schema keys present in the payload. Every value is the payload's value unchanged, and every required key is present. |
| Misc.ParseIgnoresUnexpectedKeys | taranis_base_bot/misc.py:13-18 | Payload keys outside the schema never change the parser's outcome. |
| Misc.ParseSkipsAbsentOptional | taranis_base_bot/misc.py:19-20 | An optional field absent from the payload is skipped: the parse equals the parse of the schema without that field. |
| Misc.MissingRequiredFieldFails | taranis_base_bot/misc.py:19-23 | A required field (`required` defaults to true) missing from the payload makes the parser raise. |
| Misc.FirstFailureMessages | taranis_base_bot/misc.py:22-33 | For the first failing field: a missing key, a falsy value (also for optional fields, also `0`/`False`) and a mistyped value each raise their `ValueError` message. |
| PyStrings.ConcatSplit | taranis_base_bot/misc.py:50 | Joining the `_`-separated parts with `""` gives the model name without its underscores. |
| PyStrings.JoinSplit | taranis_base_bot/misc.py:50 | Splitting on a separator and joining with it gives the string back. |
| PyStrings.CapitalizeSameLetters | taranis_base_bot/misc.py:50 | `capitalize` changes only letter case and keeps every underscore position. |
| Misc.ClassNameSpellsModel | taranis_base_bot/misc.py:50 | The derived class name has no `_` and, ignoring case, spells the model name without underscores. |
| Misc.ClassNameOfTwoWords | taranis_base_bot/misc.py:50 | `a_b` names the class `Capitalize(a) + Capitalize(b)` (as `fake_model` names `FakeModel`). |
| Misc.GetModel | taranis_base_bot/misc.py:40-55 | Five outcomes: `ValueError` when the package or model name is empty; `ImportError` for a missing module or a missing class, with their messages; the exception of the class's constructor when it raises one; otherwise an instance of exactly the class named `ClassName(model)` in that module, a name with no `_` that spells the model name. It succeeds if and only if the module and class exist and the constructor does not raise. |
| Misc.HfModelInfoOutcomes | taranis_base_bot/misc.py:58-69 | Never raises. A successful fetch of `https://huggingface.co/api/models/<name>` is returned unchanged; any failure yields exactly `{"model": name, "error": message}`. |
| PyStrings.StripIdempotent | taranis_base_bot/decorators.py:10 | Stripping an already stripped key changes nothing. |
| PyStrings.StripIgnoresPadding | taranis_base_bot/decorators.py:18 | Whitespace around a token does not change the stripped token. |
| PyStrings.RemovePrefix | taranis_base_bot/decorators.py:18 | `removeprefix` removes one leading occurrence of the prefix, and leaves the string alone when it does not start with it. |
| Decorators.AuthorizedIff | taranis_base_bot/decorators.py:10-22 | Authorized if and only if the stripped key is empty, or the header starts with `"Bearer "` and the stripped remainder equals the stripped key. |
| Decorators.BlankKeyPassesThrough | taranis_base_bot/decorators.py:10-12 | With an empty or whitespace-only key the handler's result is returned, whatever the header. |
| Decorators.MissingBearerRejected | taranis_base_bot/decorators.py:14-17 | With a key set, a missing header or one not starting with `"Bearer "` gives 401 `{"error": "not authorized"}`, independent of the handler. |
| Decorators.BearerTokenDecides | taranis_base_bot/decorators.py:18-22 | For `"Bearer " + token`: the handler's result when the stripped token equals the stripped key, 401 otherwise. |
| Decorators.ExactBearerAccepted | taranis_base_bot/decorators.py:14-22 | `"Bearer " + key` is accepted for every non-blank key without surrounding whitespace. |
| Decorators.PaddedBearerAccepted | taranis_base_bot/decorators.py:18 | Whitespace around the token is ignored, so the header need not be exactly `"Bearer " + key`. |
| ServiceBlueprint.InferencePostOutcomes | taranis_base_bot/blueprint.py:25-38 | A non-dict body gives 400 `Payload must be a dict!`. A parser or predictor `ValueError` gives 400 with its message. Otherwise the response is 200 with the predictor's result. Only 200 and 400 are answered; only non-`ValueError` exceptions escape. |
| ServiceBlueprint.NonDictSkipsParserAndPredictor | taranis_base_bot/blueprint.py:26-28 | For a non-dict body the response does not depend on the parser or the predictor. |
| ServiceBlueprint.ParserFailureSkipsPredictor | taranis_base_bot/blueprint.py:29-32 | Once the parser raises, the response does not depend on the predictor. |
| ServiceBlueprint.SchemaPostUsesOnlySchemaFields | taranis_base_bot/blueprint.py:25-36 | With the schema parser, body keys outside the schema never change the response. A 200 is the predictor's answer on exactly the schema fields present in the body. |
| ServiceBlueprint.ComposeAppend | taranis_base_bot/blueprint.py:80-82 | Composing `ds + es` nests `ds` around `es`. |
| ServiceBlueprint.ComposeLastInnermost | taranis_base_bot/blueprint.py:80-82 | The last decorator listed is applied first, directly to the view. |
| ServiceBlueprint.Blueprint.constructor | taranis_base_bot/blueprint.py:72 | A new blueprint has its name, its URL prefix and no rules. |
| ServiceBlueprint.Blueprint.AddUrlRule | taranis_base_bot/blueprint.py:90-92 | Appends one rule (path, methods, view) and changes nothing else. |
| ServiceBlueprint.CreateServiceBlueprint | taranis_base_bot/blueprint.py:55-94 | A fresh blueprint with the given name and prefix whose rules are `ServiceRules`: the inference view wrapped in the decorators first-outermost, then health and modelinfo. |
| ServiceBlueprint.ServiceRoutes | taranis_base_bot/blueprint.py:90-92 | Exactly `POST /`, `GET /health` and `GET /modelinfo` are served. Only the POST view is decorated, and `None` or `[]` leaves it bare. Every other method and path dispatches to nothing. |
| ServiceBlueprint.HealthAlwaysOk | taranis_base_bot/blueprint.py:41-43 | Always 200 `{"status": "ok"}`. |
| ServiceBlueprint.ModelInfoReturnsProvider | taranis_base_bot/blueprint.py:46-52 | 200 with the provider's result at the time of the call; its exception escapes. |
| Setup.ResolveParts | taranis_base_bot/setup.py:26-46 | Raises if and only if `predict_fn` or `modelinfo_fn` is missing and model loading raises, with that exception. Otherwise the parts satisfy `Resolves`: supplied overrides unchanged, each missing one replaced by its default (model `predict`, default modelinfo, schema parser, `[api_key_required]`). |
| Setup.ResolvesUnique | taranis_base_bot/setup.py:26-46 | The resolved parts are determined by the configuration, the importable modules and the overrides. |
| Setup.SuppliedFunctionsNeedNoModel | taranis_base_bot/setup.py:26-27 | With both `predict_fn` and `modelinfo_fn` supplied no model is loaded: the resolution depends neither on `PACKAGE_NAME`/`MODEL` nor on the importable modules. |
| Setup.DefaultModelInfoOutcomes | taranis_base_bot/setup.py:32-40 | The default modelinfo reads `HF_MODEL_INFO` at call time and never raises. It returns the model name when the flag is off. When the flag is on it returns the fetched document, or the fallback on failure. |
| Setup.DefaultSchemaParse | taranis_base_bot/config.py:24 | The default schema accepts exactly a payload whose `"key"` is a non-empty string, passing on that field alone. Otherwise it raises the missing-key, no-data or wrong-type message. |
| Setup.DefaultDecoratorsGuardInference | taranis_base_bot/setup.py:45-46 | The default `[api_key_required]` answers 401 to unauthorized requests and runs the inference view otherwise. An explicit `[]` leaves the view bare. |
| Setup.App.constructor | taranis_base_bot/setup.py:21-22 | A new application holds the given configuration, strict slashes on, and no blueprints. |
| Setup.App.DisableStrictSlashes | taranis_base_bot/setup.py:23 | Turns strict slashes off and changes nothing else. |
| Setup.App.RegisterBlueprint | taranis_base_bot/setup.py:56 | Appends the blueprint and changes nothing else. |
| Setup.DefaultSetupRequiresBearer | taranis_base_bot/setup.py:22-56 | With the default decorators and a non-blank `API_KEY`, the view `setup` registers for `POST /` answers 401 to a request without an `Authorization` header, whatever the body, and runs the inference endpoint for `"Bearer " + API_KEY`. |
| Setup.Setup | taranis_base_bot/setup.py:11-57 | With logging and Flask's blueprint construction succeeding, raises exactly when resolution raises, with the same exception. Otherwise it returns a fresh application with the configuration copied in, strict slashes off and one fresh blueprint. That blueprint has the given name and prefix, and its rules are `ServiceRules` over parts that satisfy `Resolves`. |

## Left out

- Flask: `request.get_json` and its 400 on malformed JSON, `jsonify` and its serialisation failures, 404/405 answers, HEAD/OPTIONS, URL-prefix joining and the effect of `strict_slashes`, and the `ValueError` that `Blueprint(name, ...)` (`blueprint.py:72`) raises for an empty name or one containing `.`. A request is modelled as its header and decoded body, a response as `(status, body)`, routing as a first-match dispatch over the registered rules.
- Instance identity: `get_model` returns a new instance each call; the model's predictors carry no state, so an instance is modelled as a value.
- Network I/O: the real HTTP request, its 10-second timeout and JSON decoding. The outcome of fetching a URL is a parameter. Which exceptions `requests` raises, and their text, is not modelled.
- Reflection: `importlib.import_module` is an explicit registry from module path to the classes it defines. Import errors other than a missing module are not modelled.
- `pydoc.locate` resolves the builtin names `str`, `int`, `bool`, `float`, `list`, `dict`, `object`, `tuple`, `set`, `frozenset`, `bytes`, `bytearray`, `complex`, `range` and `type`; any other name, including dotted paths and importable classes, is treated as unresolvable, so the model raises `TypeError` where the code may raise the wrong-type `ValueError`. Floats are not among the payload values.
- A schema whose `type` entry is not a string is not modelled; `FieldSpec` holds an optional string.
- `capitalize` and `lower` map ASCII letters only; Unicode case mapping is not modelled.
- Logging: the model assumes every logging call returns normally, and leaves out the warnings about unexpected keys and rejected tokens and `log.py`. Three failure paths are therefore not modelled: `logger.reconfigure_from_settings(config)` (`setup.py:24`) reads `SYSLOG_ADDRESS`, which the settings class in `config.py` does not declare, so `setup` can raise `AttributeError` before any model is loaded; `decorators.py:3` imports `get_logger`, which `log.py` does not define, so importing the decorator (and `setup.py`) fails; and the same `get_logger()` call runs on every guarded request (`decorators.py:9`).
- Setup.Setup: its raising clause holds only when logging reconfiguration and blueprint construction return normally (see the Logging and Flask lines).
- Configuration loading (pydantic, `.env`, caching) is not part of this model; only the defaults of `config.py` appear, as `Setup.DefaultSettings`. The application's configuration is modelled by the settings the request path reads.
- `app.py`, `protocols.py`, `modelinfo.py` and the older package revision in `taranis_base_bot/__init__.py` and `taranis_base_bot/tests` are not part of this model.
