# Launchpad runtime wrapper, modelled in Dafny

Launchpad hosts a user's GraphQL "pad" as a webtask. The server wraps the
user's code in a generated program (`RUNNER_WRAPPER` in `server/code.js`).
That program does five things:

- It evaluates the user code under a load-failure guard.
- It validates the module's exports.
- It falls back to defaults for the exports the user left out.
- It decodes the invocation's `userContext` secret into an object.
- It serves each invocation through an Express chain.

Two values live for the whole warm process: a memoised schema and a
singleton Apollo Engine. This project models that generated program.

- `js_values.dfy` (`JsValues`): JavaScript values and their truthiness. It
  also covers property reads, `Object.assign` sources, and calls to user
  functions through a `Host` that gives their behaviour.
- `user_secrets.dfy` (`UserSecrets`): the `reduce` that folds the
  `{key, value}` list into an object. The method `DecodeSecrets` keeps the
  mutating loop. The function `Decoded` is its left-fold specification.
- `user_exports.dfy` (`UserExports`): evaluation under the guard (`Load`) and
  the export validator (`Validate`, `FirstUnknown`). It also holds the
  default-resolving selectors `SchemaFor`, `ContextFor`, `RootFor` and
  `DefaultContext`.
- `pipeline.dfy` (`Pipeline`): one invocation as a pure step, `Handle`, over
  the shared state (schema memo, engine, count of `engine.start()` calls).
  `Run` applies a series of invocations. The lemmas about the memo, the
  engine and the per-request assembly are stated here.
- `runtime.dfy` (`Webtask`): the class `Runtime`. Its fields are the
  module-level `schema` and `engine` variables and the start counter. Its
  `Invoke` method updates them in place and is proved equal to `Handle`.

The model follows the code in these places:

- Validation errors are thrown after the guard's `try` has closed. They
  escape module evaluation, and no handler is installed (`Load` returns
  `Escaped`). They are not turned into a per-invocation fault.
- The guard tests the captured value for truthiness. So code that throws a
  falsy value (`throw null`, `throw 0`, `throw ""`) is not treated as
  faulted. Loading then goes on with whatever exports were set up before
  the throw.
- An exported `schemaFunction` takes precedence over `schema`.
- A secret named `headers` overrides the request headers in the default
  context.
- The engine check runs in the outer handler, before the Express chain
  fills the schema memo. So an invocation whose schema function throws has
  still started the engine.
- The engine's origin URL comes from the raw `url` secret of the webtask
  context, not from the decoded `userContext`.

## Model

| member | source | states |
|---|---|---|
| `UserSecrets.Decoded` | server/code.js:139-142 | the left fold of the entries, one `acc[key] = value` per entry; every binding in the result comes from some entry with that key and value |
| `UserSecrets.DecodeSecrets` | server/code.js:137-142 | the accumulating loop yields the left fold of the entries, and its key set is exactly the set of keys in the list |
| `UserSecrets.DecodedKeys` | server/code.js:190-195 | the decoded object has exactly the keys that occur in the list |
| `UserSecrets.DecodedLastWins` | server/code.js:139-142 | every key is bound to the value of its last occurrence, so later duplicates overwrite earlier ones |
| `UserExports.FirstUnknown` | server/code.js:109-122 | the key check passes iff every exported key is in the allowed set; otherwise it stops at the first key outside it, all keys before which are allowed |
| `UserExports.Validate` | server/code.js:109-128 | fails with `Unknown export` iff some key is outside the allowed set, naming the first such key in enumeration order; fails with the missing-schema error iff all keys are allowed and neither `schema` nor `schemaFunction` is truthy; passes otherwise |
| `UserExports.MessageIdentifiesError` | server/code.js:120-127 | the two error messages (`Unknown export: ` followed by the key, and the missing-schema text) determine the error and the offending key |
| `UserExports.Load` | server/code.js:59-128 | a truthy thrown value faults the handler with that very value; otherwise nothing is faulted, loading escapes exactly when validation fails (with the validator's error), and a ready handler keeps the evaluated exports |
| `UserExports.ReadyExportsAreValid` | server/code.js:109-128 | a handler that serves requests has only allowed export keys and a truthy `schema` or `schemaFunction` |
| `UserExports.SchemaFor` | server/code.js:86-91 | `schemaFunction(userContext)`: a truthy `schemaFunction` export is called with the decoded secrets, otherwise the fallback returns `exports.schema`; only a truthy export can throw, and a truthy export that is not a function throws a TypeError |
| `UserExports.ContextFor` | server/code.js:98-107 | `contextFn(headers, userContext)`: a truthy `context` export is called, otherwise the default context is used; only a truthy export can throw, and the default is an object with the key `headers` and every secret's key |
| `UserExports.RootFor` | server/code.js:92-97 | `rootFunction(headers, userContext)`: a truthy `rootFunction` export is called, otherwise `rootValue \|\| {}`; only a truthy export can throw, and without it the root is always truthy |
| `UserExports.DefaultContext` | server/code.js:98-107 | the default context has the key `headers` and every decoded secret with its value; `headers` is the request headers unless a secret named `headers` overrides it |
| `Pipeline.Assemble` | server/code.js:161-182 | the options function: it fails iff the context or root function throws, with the context function's error when it throws and otherwise the root function's; otherwise it uses the given schema, writes the extension stack over the context, and has a one-key `extensions` map |
| `Pipeline.Handle` | server/code.js:136-218 | one invocation: a load fault answers iff the handler is faulted, and then nothing changes; a malformed payload answers iff a ready handler gets one, and then nothing changes; at most one engine start; an existing engine is never replaced or restarted; a truthy memo, or a throwing schema function, leaves the memo as it was |
| `Pipeline.Run` | server/code.js:189-218 | a series of invocations yields one response per invocation |
| `Pipeline.FaultedRun` | server/code.js:66-72 | a faulted handler answers every invocation with the identical captured error and leaves the schema memo, the engine and the start count untouched |
| `Pipeline.SchemaMemoStep` | server/code.js:143-145 | with a truthy memo, an invocation keeps the memo, executes against it, and its outcome does not depend on the `schema` or `schemaFunction` exports |
| `Pipeline.SchemaMemoRun` | server/code.js:143-145 | with a truthy memo, any series of invocations leaves it unchanged and every execution uses it, whatever the invocations' secrets |
| `Pipeline.SchemaFillStep` | server/code.js:86-91 | an invocation that finds the memo falsy stores what `schemaFunction(userContext)` (or the default returning `schema`) returned and executes against it |
| `Pipeline.SchemaFunctionPrecedence` | server/code.js:86-91 | with a falsy memo, a truthy `schemaFunction` export called with the decoded secrets fills it, and if that call throws the invocation fails in the middleware and the memo stays; without that export the memo becomes `exports.schema` |
| `Pipeline.MalformedSecretsStep` | server/code.js:189-195 | a payload that cannot be decoded is answered with the malformed-secrets fault, and the memo, the engine and the start count stay as they were |
| `Pipeline.MiddlewareFaultKeepsMemo` | server/code.js:143-146 | an invocation whose schema function threw found the memo falsy and leaves it as it was |
| `Pipeline.RunAppend` | server/code.js:189-218 | running two series one after the other gives the same final state and responses as running their concatenation |
| `Pipeline.SchemaWinsAfterPrefix` | server/code.js:143-145 | after any invocations that left the memo falsy, the first that yields a truthy schema fixes it, and every later execution uses it |
| `Pipeline.FirstSchemaWins` | server/code.js:143-145 | when the first invocation's schema function returns a truthy value, that value is the memo after any later invocations and every execution in the series uses it |
| `Pipeline.EngineStep` | server/code.js:197-215 | an invocation starts the engine (one more start) exactly when the handler is ready, no engine exists and the decoded secrets carry a truthy `APOLLO_ENGINE_KEY`; the engine takes that key and the raw `url` secret as origin; otherwise the engine is unchanged; a routed response goes through the engine exactly when one exists |
| `Pipeline.EngineRun` | server/code.js:197-215 | over any series of invocations the engine is started at most once, exists at the end iff it existed before or some invocation to a ready handler carried the key, and once it exists it is never replaced |
| `Pipeline.EngineRoutesAll` | server/code.js:148-154 | once the engine exists, every later invocation that reaches the engine middleware goes through it, with or without the key |
| `Pipeline.ExecutedOptions` | server/code.js:161-182 | an executed invocation uses the memoised schema, writes the extension stack over the context, and has an `extensions` map with the single key from the tracing pair, bound to its value |
| `Pipeline.ExecutedRoot` | server/code.js:92-97 | the root is `rootFunction(headers, secrets)` if that export is truthy, else `rootValue` if truthy, else `{}` |
| `Pipeline.ExecutedDefaultContext` | server/code.js:164-173 | without a `context` export the execution context holds every decoded secret, the request headers under `headers` unless a secret overrides them, and the extension stack, and nothing else |
| `Pipeline.ExecutedUserContext` | server/code.js:164-173 | with a truthy `context` export the execution context is the own properties of what that function returned, with the extension stack written over them |
| `Webtask.Runtime.constructor` | server/code.js:59-91 | a handler exists only when loading did not escape; it starts with the load outcome's guard, no schema, no engine and no start |
| `Webtask.Runtime.Invoke` | server/code.js:189-218 | the in-place update of `schema`, `engine` and the start count, with the response, equals `Handle`; it keeps the invariant that the engine exists iff it was started exactly once; a faulted runtime answers with the captured error and changes nothing; an existing engine is never replaced or restarted |

## Left out

- Promises and asynchronous results. `schemaFunction`, `context` and
  `rootFunction` are taken to return their final values. So `Promise.all`,
  `Promise.resolve` and the interleaving of concurrent invocations are not
  modelled. Each invocation is one sequential step.
- `JSON.parse` of the `userContext` secret. The model takes the parsed
  entry list, or `Unparseable` for any payload whose parsing or `reduce`
  throws. Entries are assumed to be `{key, value}` objects with string keys.
- Express routing, `body-parser` (and its body-parse errors),
  `express-graphql`, GraphQL execution, `enableGraphQLExtensions` and
  `Webtask.fromExpress`. The model stops at the options handed to the
  executor. It assumes that `req.webtaskContext` is the invocation's
  context.
- The apollo-tracing collector. Its `format()` result is an input pair, and
  `requestDidStart`/`requestDidEnd` are not modelled.
- Apollo Engine's networking, its middleware's proxying and its startup.
  Going through the engine is a flag on the response. Startup failures are
  not observed.
- `process.env["GOMAXPROCS"]`, an environment side effect.
- The `if (!server)` test, which is always true when the closure runs once.
- `STARTER_CODE` and the splicing of the user's code into the template text.
- `frontend/pad/PadSplit.js`, the pad editor's presentation component.
- User functions are taken as deterministic in their arguments. `Host` maps
  a function reference and its arguments to one outcome. So a `context`,
  `rootFunction` or `schemaFunction` that keeps its own state, reads a clock
  or a counter, or throws once and succeeds on a later call with the same
  arguments is not expressible.
- JavaScript details outside the wrapper's logic:
  - floating-point numbers (numbers are integers, so there is no `NaN` or `-0`);
  - object identity and user code mutating shared objects;
  - `Object.assign` copying the characters of a string source;
  - the special `__proto__` key.
- `Pipeline.Run`: it states only the number of responses. What each response
  is follows from `Handle` and is stated by the other lemmas.
