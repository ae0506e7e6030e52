/** One invocation of the installed handler, as a function of the process-wide
    state (the schema memo, the engine singleton and the count of engine
    starts): the outer handler decodes the secrets and may start the engine,
    then the Express chain memoises the schema, routes through the engine's
    middleware if one exists, and builds the options handed to the GraphQL
    executor. */
module Pipeline {
  import opened JsValues
  import opened UserSecrets
  import opened UserExports

  /** The decoded secret whose truthiness enables the engine. */
  const EngineKeySecret: string := "APOLLO_ENGINE_KEY"

  /** The configuration the engine is constructed with. */
  datatype Engine = Engine(endpoint: string, apiKey: JsValue, debugReports: bool, originUrl: JsValue)

  /** `new Engine({endpoint: '/', engineConfig: {apiKey, reporting: {debugReports: true},
      origins: [{http: {url}}]}})` */
  function NewEngine(apiKey: JsValue, url: JsValue): Engine {
    Engine("/", apiKey, true, url)
  }

  /** One invocation: the `userContext` secret, the raw `url` secret of the
      webtask context, the request headers, and the `(key, value)` pair the
      tracing extension's `format()` yields for this request. */
  datatype Request = Request(payload: Payload, url: JsValue, headers: JsValue, trace: (string, JsValue))

  /** The extension stack the wrapper writes into every execution context. */
  const ExtensionStack: JsValue := HostObject("GraphQLExtensionStack")
  const ExtensionStackKey: string := "_extensionStack"

  /** What the options function hands to the GraphQL executor. */
  datatype Options = Options(
    schema: JsValue,
    context: map<string, JsValue>,
    root: JsValue,
    extensions: map<string, JsValue>)

  /** The options function either yields options or throws (a user context or
      root function threw). */
  datatype Execution = OptionsFault(error: JsValue) | Execute(options: Options)

  datatype Response =
    | LoadFault(error: JsValue)                      // callback(__LAUNCHPAD__runtimeError)
    | MalformedSecrets                               // decoding the payload threw in the handler
    | MiddlewareFault(error: JsValue)                // the schema function threw in the first middleware
    | Routed(viaEngine: bool, execution: Execution)  // past the engine middleware

  /** The module-level variables shared by all invocations, and the number of
      times `engine.start()` has been called. */
  datatype Shared = Shared(schema: JsValue, engine: Option<Engine>, starts: nat)

  const Initial: Shared := Shared(Undefined, None, 0)

  datatype Step = Step(shared: Shared, response: Response)

  /** The handler starts the engine on this invocation. */
  predicate StartsEngine(s: Shared, secrets: map<string, JsValue>) {
    s.engine.None? && Truthy(Lookup(secrets, EngineKeySecret))
  }

  /** A request whose decoded secrets carry a truthy engine key. */
  predicate CarriesEngineKey(req: Request) {
    req.payload.Parsed? && Truthy(Lookup(Decoded(req.payload.entries), EngineKeySecret))
  }

  /** The options function: context first, then root, then the options with
      the extension stack written over the context and the one-key
      `extensions` map. */
  function Assemble(e: Exports, host: Host, schema: JsValue, req: Request, secrets: map<string, JsValue>): (r: Execution)
    ensures r.OptionsFault? <==>
              ContextFor(e, host, req.headers, secrets).Throw? || RootFor(e, host, req.headers, secrets).Throw?
    ensures r.OptionsFault? && ContextFor(e, host, req.headers, secrets).Throw? ==>
              r.error == ContextFor(e, host, req.headers, secrets).error
    ensures r.OptionsFault? && ContextFor(e, host, req.headers, secrets).Normal? ==>
              r.error == RootFor(e, host, req.headers, secrets).error
    ensures r.Execute? ==>
              && r.options.schema == schema
              && ExtensionStackKey in r.options.context
              && r.options.context[ExtensionStackKey] == ExtensionStack
              && r.options.extensions.Keys == {req.trace.0}
  {
    match ContextFor(e, host, req.headers, secrets)
    case Throw(err) => OptionsFault(err)
    case Normal(context) =>
      match RootFor(e, host, req.headers, secrets)
      case Throw(err) => OptionsFault(err)
      case Normal(root) =>
        Execute(Options(
          schema,
          OwnProps(context)[ExtensionStackKey := ExtensionStack],
          root,
          map[req.trace.0 := req.trace.1]))
  }

  /** One invocation against the shared state `s`. */
  function Handle(guard: Guard, host: Host, s: Shared, req: Request): (r: Step)
    ensures r.response.LoadFault? <==> guard.Faulted?
    ensures guard.Faulted? ==> r.shared == s && r.response.error == guard.error
    ensures r.response == MalformedSecrets <==> guard.Ready? && req.payload.Unparseable?
    ensures r.response == MalformedSecrets ==> r.shared == s
    ensures r.shared.starts <= s.starts + 1
    ensures s.engine.Some? ==> r.shared.engine == s.engine && r.shared.starts == s.starts
    ensures Truthy(s.schema) || r.response.MiddlewareFault? ==> r.shared.schema == s.schema
  {
    match guard
    case Faulted(err) => Step(s, LoadFault(err))
    case Ready(e) =>
      match req.payload
      case Unparseable => Step(s, MalformedSecrets)
      case Parsed(entries) =>
        var secrets := Decoded(entries);
        var started := StartsEngine(s, secrets);
        var engine := if started then Some(NewEngine(Lookup(secrets, EngineKeySecret), req.url)) else s.engine;
        var starts := if started then s.starts + 1 else s.starts;
        if Truthy(s.schema) then
          Step(Shared(s.schema, engine, starts), Routed(engine.Some?, Assemble(e, host, s.schema, req, secrets)))
        else
          match SchemaFor(e, host, secrets)
          case Throw(err) => Step(Shared(s.schema, engine, starts), MiddlewareFault(err))
          case Normal(schema) =>
            Step(Shared(schema, engine, starts), Routed(engine.Some?, Assemble(e, host, schema, req, secrets)))
  }

  /** The shared state after a series of invocations, and their responses. */
  datatype Trace = Trace(shared: Shared, responses: seq<Response>)

  function Run(guard: Guard, host: Host, s: Shared, reqs: seq<Request>): (t: Trace)
    ensures |t.responses| == |reqs|
    decreases |reqs|
  {
    if reqs == [] then Trace(s, [])
    else
      var step := Handle(guard, host, s, reqs[0]);
      var rest := Run(guard, host, step.shared, reqs[1..]);
      Trace(rest.shared, [step.response] + rest.responses)
  }

  // ---------------------------------------------------------------------------
  // Load-failure guard

  /** A faulted handler answers every invocation with the captured error and
      touches no shared state. */
  lemma {:induction false} FaultedRun(guard: Guard, host: Host, s: Shared, reqs: seq<Request>)
    requires guard.Faulted?
    ensures Run(guard, host, s, reqs).shared == s
    ensures forall i :: 0 <= i < |reqs| ==> Run(guard, host, s, reqs).responses[i] == LoadFault(guard.error)
    decreases |reqs|
  {
    if reqs != [] {
      FaultedRun(guard, host, s, reqs[1..]);
    }
  }

  // ---------------------------------------------------------------------------
  // Schema memo

  /** An executed response runs against `schema`. */
  predicate ExecutesAgainst(r: Response, schema: JsValue) {
    r.Routed? && r.execution.Execute? ==> r.execution.options.schema == schema
  }

  /** Exports with `schema` and `schemaFunction` removed. */
  function WithoutSchemaExports(e: Exports): Exports {
    Exports(e.keys, e.values - {"schema", "schemaFunction"})
  }

  /** Once the memo holds a truthy schema, an invocation keeps it, executes
      against it, and neither `schemaFunction` nor `schema` is consulted:
      the outcome is the same as for exports without them. */
  lemma SchemaMemoStep(e: Exports, host: Host, s: Shared, req: Request)
    requires Truthy(s.schema)
    ensures Handle(Ready(e), host, s, req).shared.schema == s.schema
    ensures Handle(Ready(e), host, s, req) == Handle(Ready(WithoutSchemaExports(e)), host, s, req)
    ensures ExecutesAgainst(Handle(Ready(e), host, s, req).response, s.schema)
  {
    if req.payload.Parsed? {
      var e' := WithoutSchemaExports(e);
      var secrets := Decoded(req.payload.entries);
      assert Export(e', "context") == Export(e, "context");
      assert Export(e', "rootFunction") == Export(e, "rootFunction");
      assert Export(e', "rootValue") == Export(e, "rootValue");
      assert Assemble(e', host, s.schema, req, secrets) == Assemble(e, host, s.schema, req, secrets);
    }
  }

  /** Over any series of invocations, a truthy memo never changes and every
      execution uses it, whatever the invocations' secrets. */
  lemma {:induction false} SchemaMemoRun(e: Exports, host: Host, s: Shared, reqs: seq<Request>)
    requires Truthy(s.schema)
    ensures Run(Ready(e), host, s, reqs).shared.schema == s.schema
    ensures forall i :: 0 <= i < |reqs| ==> ExecutesAgainst(Run(Ready(e), host, s, reqs).responses[i], s.schema)
    decreases |reqs|
  {
    if reqs != [] {
      SchemaMemoStep(e, host, s, reqs[0]);
      var step := Handle(Ready(e), host, s, reqs[0]);
      SchemaMemoRun(e, host, step.shared, reqs[1..]);
    }
  }

  /** An invocation that finds the memo falsy stores what the schema function
      returned and executes against it. */
  lemma SchemaFillStep(e: Exports, host: Host, s: Shared, req: Request, schema: JsValue)
    requires !Truthy(s.schema) && req.payload.Parsed?
    requires SchemaFor(e, host, Decoded(req.payload.entries)) == Normal(schema)
    ensures Handle(Ready(e), host, s, req).shared.schema == schema
    ensures ExecutesAgainst(Handle(Ready(e), host, s, req).response, schema)
  {
  }

  /** The schema that fills a falsy memo: an exported truthy
      `schemaFunction`, called with the decoded secrets, takes precedence over
      `schema`; if it throws, the invocation fails in the first middleware and
      the memo stays as it was. */
  lemma SchemaFunctionPrecedence(e: Exports, host: Host, s: Shared, req: Request)
    requires !Truthy(s.schema) && req.payload.Parsed?
    ensures var step := Handle(Ready(e), host, s, req);
            var call := Call(host, Export(e, "schemaFunction"), [Obj(Decoded(req.payload.entries))]);
            && (Truthy(Export(e, "schemaFunction")) && call.Normal? ==> step.shared.schema == call.value)
            && (Truthy(Export(e, "schemaFunction")) && call.Throw? ==>
                  step.response == MiddlewareFault(call.error) && step.shared.schema == s.schema)
            && (!Truthy(Export(e, "schemaFunction")) ==> step.shared.schema == Export(e, "schema"))
  {
  }

  /** A payload that cannot be decoded fails that invocation only: the memo,
      the engine and the start count are left alone. */
  lemma MalformedSecretsStep(e: Exports, host: Host, s: Shared, req: Request)
    requires req.payload.Unparseable?
    ensures Handle(Ready(e), host, s, req) == Step(s, MalformedSecrets)
  {
  }

  /** A schema function that throws leaves the memo as it was, so the next
      invocation calls it again. */
  lemma MiddlewareFaultKeepsMemo(guard: Guard, host: Host, s: Shared, req: Request)
    requires Handle(guard, host, s, req).response.MiddlewareFault?
    ensures Handle(guard, host, s, req).shared.schema == s.schema
    ensures !Truthy(s.schema)
  {
  }

  /** Running two series one after the other is running their concatenation. */
  lemma {:induction false} RunAppend(guard: Guard, host: Host, s: Shared, a: seq<Request>, b: seq<Request>)
    ensures var ra := Run(guard, host, s, a);
            var rb := Run(guard, host, ra.shared, b);
            Run(guard, host, s, a + b) == Trace(rb.shared, ra.responses + rb.responses)
    decreases |a|
  {
    if a == [] {
      assert a + b == b;
    } else {
      var step := Handle(guard, host, s, a[0]);
      assert (a + b)[0] == a[0] && (a + b)[1..] == a[1..] + b;
      RunAppend(guard, host, step.shared, a[1..], b);
      var ra' := Run(guard, host, step.shared, a[1..]);
      var rb := Run(guard, host, ra'.shared, b);
      assert [step.response] + (ra'.responses + rb.responses) == ([step.response] + ra'.responses) + rb.responses;
    }
  }

  /** The invocation that first yields a truthy schema, after any number of
      invocations that were malformed, threw or yielded a falsy schema, fixes
      it: every later execution uses it, whatever its secrets. */
  lemma SchemaWinsAfterPrefix(e: Exports, host: Host, s: Shared, before: seq<Request>,
                              first: Request, rest: seq<Request>, schema: JsValue)
    requires !Truthy(Run(Ready(e), host, s, before).shared.schema) && first.payload.Parsed?
    requires SchemaFor(e, host, Decoded(first.payload.entries)) == Normal(schema) && Truthy(schema)
    ensures Run(Ready(e), host, s, before + ([first] + rest)).shared.schema == schema
    ensures forall i :: |before| <= i < |Run(Ready(e), host, s, before + ([first] + rest)).responses| ==>
              ExecutesAgainst(Run(Ready(e), host, s, before + ([first] + rest)).responses[i], schema)
  {
    var mid := Run(Ready(e), host, s, before).shared;
    RunAppend(Ready(e), host, s, before, [first] + rest);
    FirstSchemaWins(e, host, mid, first, rest, schema);
    var ra := Run(Ready(e), host, s, before);
    var rb := Run(Ready(e), host, mid, [first] + rest);
    forall i | |before| <= i < |before| + |rb.responses|
      ensures ExecutesAgainst((ra.responses + rb.responses)[i], schema)
    {
      assert (ra.responses + rb.responses)[i] == rb.responses[i - |before|];
    }
  }

  /** When the first invocation of a series yields a truthy schema, that
      schema is fixed for the whole series: the schema function sees that
      invocation's secrets only. */
  lemma FirstSchemaWins(e: Exports, host: Host, s: Shared, first: Request, rest: seq<Request>, schema: JsValue)
    requires !Truthy(s.schema) && first.payload.Parsed?
    requires SchemaFor(e, host, Decoded(first.payload.entries)) == Normal(schema) && Truthy(schema)
    ensures Run(Ready(e), host, s, [first] + rest).shared.schema == schema
    ensures forall i :: 0 <= i < |Run(Ready(e), host, s, [first] + rest).responses| ==>
              ExecutesAgainst(Run(Ready(e), host, s, [first] + rest).responses[i], schema)
  {
    var reqs := [first] + rest;
    var step := Handle(Ready(e), host, s, first);
    SchemaFillStep(e, host, s, first, schema);
    assert reqs[0] == first && reqs[1..] == rest;
    var tail := Run(Ready(e), host, step.shared, rest);
    var whole := Run(Ready(e), host, s, reqs);
    assert whole == Trace(tail.shared, [step.response] + tail.responses);
    SchemaMemoRun(e, host, step.shared, rest);
  }

  // ---------------------------------------------------------------------------
  // Engine singleton

  /** The engine exists exactly when it has been started, once. */
  predicate EngineInvariant(s: Shared) {
    s.starts == if s.engine.Some? then 1 else 0
  }

  /** An invocation starts the engine only if none exists and its decoded
      secrets carry a truthy key; the engine then takes its key from the
      decoded secrets and its origin from the raw `url` secret. Every
      invocation that reaches the engine middleware goes through it exactly
      when an engine exists after the handler's check. */
  lemma EngineStep(guard: Guard, host: Host, s: Shared, req: Request)
    ensures var t := Handle(guard, host, s, req).shared;
            var started := guard.Ready? && s.engine.None? && CarriesEngineKey(req);
            && t.starts == (if started then s.starts + 1 else s.starts)
            && (started ==> t.engine == Some(Engine("/", Lookup(Decoded(req.payload.entries), EngineKeySecret), true, req.url)))
            && (!started ==> t.engine == s.engine)
    ensures var step := Handle(guard, host, s, req);
            step.response.Routed? ==> step.response.viaEngine == step.shared.engine.Some?
  {
  }

  /** Over any series of invocations: the engine is started at most once, it
      exists at the end exactly when it existed before or some invocation of
      a ready handler carried the key, and once it exists it stays. */
  lemma {:induction false} EngineRun(guard: Guard, host: Host, s: Shared, reqs: seq<Request>)
    requires EngineInvariant(s)
    ensures EngineInvariant(Run(guard, host, s, reqs).shared)
    ensures Run(guard, host, s, reqs).shared.starts <= 1
    ensures Run(guard, host, s, reqs).shared.engine.Some? <==>
              s.engine.Some? || (guard.Ready? && exists i :: 0 <= i < |reqs| && CarriesEngineKey(reqs[i]))
    ensures s.engine.Some? ==> Run(guard, host, s, reqs).shared.engine == s.engine
    decreases |reqs|
  {
    if reqs != [] {
      EngineStep(guard, host, s, reqs[0]);
      var step := Handle(guard, host, s, reqs[0]);
      EngineRun(guard, host, step.shared, reqs[1..]);
      if guard.Ready? {
        if exists i :: 0 <= i < |reqs[1..]| && CarriesEngineKey(reqs[1..][i]) {
          var i :| 0 <= i < |reqs[1..]| && CarriesEngineKey(reqs[1..][i]);
          assert CarriesEngineKey(reqs[i + 1]);
        }
        if exists i :: 0 <= i < |reqs| && CarriesEngineKey(reqs[i]) {
          var i :| 0 <= i < |reqs| && CarriesEngineKey(reqs[i]);
          if i > 0 {
            assert CarriesEngineKey(reqs[1..][i - 1]);
          }
        }
      }
    }
  }

  /** A response that reached the engine middleware went through the engine. */
  predicate ThroughEngine(r: Response) {
    r.Routed? ==> r.viaEngine
  }

  /** Once the engine exists, every invocation that reaches the engine
      middleware, with or without the key, goes through it. */
  lemma {:induction false} EngineRoutesAll(guard: Guard, host: Host, s: Shared, reqs: seq<Request>)
    requires s.engine.Some?
    ensures forall i :: 0 <= i < |reqs| ==> ThroughEngine(Run(guard, host, s, reqs).responses[i])
    decreases |reqs|
  {
    if reqs != [] {
      var step := Handle(guard, host, s, reqs[0]);
      EngineStep(guard, host, s, reqs[0]);
      EngineRoutesAll(guard, host, step.shared, reqs[1..]);
    }
  }

  // ---------------------------------------------------------------------------
  // Per-request assembly

  /** The options of an executed invocation: the memoised schema, the
      extension stack written over the context, and a one-key `extensions`
      map built from the tracing pair. */
  lemma ExecutedOptions(e: Exports, host: Host, s: Shared, req: Request)
    requires Handle(Ready(e), host, s, req).response.Routed?
    requires Handle(Ready(e), host, s, req).response.execution.Execute?
    ensures var step := Handle(Ready(e), host, s, req);
            var o := step.response.execution.options;
            && o.schema == step.shared.schema
            && (Truthy(s.schema) ==> o.schema == s.schema)
    ensures var o := Handle(Ready(e), host, s, req).response.execution.options;
            && o.context[ExtensionStackKey] == ExtensionStack
            && o.extensions.Keys == {req.trace.0}
            && o.extensions[req.trace.0] == req.trace.1
  {
  }

  /** The root of an executed invocation: `rootFunction(headers, secrets)` if
      that export is truthy, else `rootValue` if truthy, else `{}`. */
  lemma ExecutedRoot(e: Exports, host: Host, s: Shared, req: Request)
    requires req.payload.Parsed?
    requires Handle(Ready(e), host, s, req).response.Routed?
    requires Handle(Ready(e), host, s, req).response.execution.Execute?
    ensures var root := Handle(Ready(e), host, s, req).response.execution.options.root;
            var secrets := Decoded(req.payload.entries);
            && (Truthy(Export(e, "rootFunction")) ==>
                  Call(host, Export(e, "rootFunction"), [req.headers, Obj(secrets)]) == Normal(root))
            && (!Truthy(Export(e, "rootFunction")) && Truthy(Export(e, "rootValue")) ==>
                  root == Export(e, "rootValue"))
            && (!Truthy(Export(e, "rootFunction")) && !Truthy(Export(e, "rootValue")) ==>
                  root == Obj(map[]))
  {
  }

  /** The context of an executed invocation without a `context` export: every
      decoded secret with its value, `headers` bound to the request headers
      unless a secret of that name overrides it, and nothing else but the
      extension stack. */
  lemma ExecutedDefaultContext(e: Exports, host: Host, s: Shared, req: Request)
    requires req.payload.Parsed? && !Truthy(Export(e, "context"))
    requires Handle(Ready(e), host, s, req).response.Routed?
    requires Handle(Ready(e), host, s, req).response.execution.Execute?
    ensures var context := Handle(Ready(e), host, s, req).response.execution.options.context;
            var secrets := Decoded(req.payload.entries);
            && context.Keys == {"headers", ExtensionStackKey} + secrets.Keys
            && (forall k :: k in secrets && k != ExtensionStackKey ==> context[k] == secrets[k])
            && ("headers" !in secrets ==> context["headers"] == req.headers)
  {
  }

  /** The context of an executed invocation with a truthy `context` export:
      the properties of what that function returned, with the extension
      stack written over them. */
  lemma ExecutedUserContext(e: Exports, host: Host, s: Shared, req: Request)
    requires req.payload.Parsed? && Truthy(Export(e, "context"))
    requires Handle(Ready(e), host, s, req).response.Routed?
    requires Handle(Ready(e), host, s, req).response.execution.Execute?
    ensures var context := Handle(Ready(e), host, s, req).response.execution.options.context;
            var secrets := Decoded(req.payload.entries);
            exists v ::
              && Call(host, Export(e, "context"), [req.headers, Obj(secrets)]) == Normal(v)
              && context == OwnProps(v)[ExtensionStackKey := ExtensionStack]
  {
  }
}
