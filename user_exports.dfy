/** The user module's export surface: evaluation under the load-failure guard,
    the export validator, and the resolvers that fall back to defaults for the
    exports the user left out. */
module UserExports {
  import opened JsValues

  /** The `exports` object after the user code ran: its keys in enumeration
      order and the value bound to each. */
  datatype Exports = Exports(keys: seq<string>, values: map<string, JsValue>)

  /** A real object has each key once, and exactly the keys it enumerates. */
  ghost predicate WellFormed(e: Exports) {
    && (forall i, j :: 0 <= i < j < |e.keys| ==> e.keys[i] != e.keys[j])
    && (forall k :: k in e.values <==> k in e.keys)
  }

  /** `exports.name` */
  function Export(e: Exports, name: string): JsValue {
    Lookup(e.values, name)
  }

  const AllowedExports: set<string> :=
    {"default", "schema", "schemaFunction", "context", "rootValue", "rootFunction"}

  /** The two errors the validator throws. */
  datatype LoadError = UnknownExport(key: string) | MissingSchema

  /** The message of the `Error` the validator throws. */
  function Message(err: LoadError): string {
    match err
    case UnknownExport(k) => UnknownExportPrefix + k
    case MissingSchema => MissingSchemaMessage
  }

  const UnknownExportPrefix: string := "Unknown export: "
  /** Written as two literals so that its leading characters, which tell it
      apart from every `Unknown export` message, are visible to the verifier. */
  const MissingSchemaMessage: string :=
    "You need to export " + "object with a field `schema` or a function `schemaFunction` to run a Pad."

  /** The message of an escaped load names the error, and for an unknown
      export the offending key, unambiguously. */
  lemma MessageIdentifiesError(a: LoadError, b: LoadError)
    requires Message(a) == Message(b)
    ensures a == b
  {
    var n := |UnknownExportPrefix|;
    assert MissingSchemaMessage[0] == 'Y';
    if a.UnknownExport? && b.UnknownExport? {
      assert Message(a)[n..] == a.key;
      assert Message(b)[n..] == b.key;
    }
  }

  /** The key at which the `forEach` over `Object.keys(exports)` throws, if any. */
  function FirstUnknown(keys: seq<string>): (r: Option<string>)
    ensures r.None? <==> forall i :: 0 <= i < |keys| ==> keys[i] in AllowedExports
    ensures r.Some? ==>
      exists i :: && 0 <= i < |keys| && keys[i] == r.value && r.value !in AllowedExports
                  && forall j :: 0 <= j < i ==> keys[j] in AllowedExports
  {
    if keys == [] then None
    else if keys[0] !in AllowedExports then Some(keys[0])
    else
      var r := FirstUnknown(keys[1..]);
      if r.Some? then
        var i :| && 0 <= i < |keys[1..]| && keys[1..][i] == r.value && r.value !in AllowedExports
                 && forall j :: 0 <= j < i ==> keys[1..][j] in AllowedExports;
        assert keys[i + 1] == r.value;
        r
      else r
  }

  /** The validator: the key check runs first, then the schema check. */
  function Validate(e: Exports): (r: Option<LoadError>)
    ensures (r.Some? && r.value.UnknownExport?) <==>
              exists i :: 0 <= i < |e.keys| && e.keys[i] !in AllowedExports
    ensures r.Some? && r.value.UnknownExport? ==>
              exists i :: && 0 <= i < |e.keys| && e.keys[i] == r.value.key && r.value.key !in AllowedExports
                          && forall j :: 0 <= j < i ==> e.keys[j] in AllowedExports
    ensures r == Some(MissingSchema) <==>
              && (forall i :: 0 <= i < |e.keys| ==> e.keys[i] in AllowedExports)
              && !Truthy(Export(e, "schema")) && !Truthy(Export(e, "schemaFunction"))
    ensures r.None? <==>
              && (forall i :: 0 <= i < |e.keys| ==> e.keys[i] in AllowedExports)
              && (Truthy(Export(e, "schema")) || Truthy(Export(e, "schemaFunction")))
  {
    match FirstUnknown(e.keys)
    case Some(k) => Some(UnknownExport(k))
    case None =>
      if !Truthy(Export(e, "schema")) && !Truthy(Export(e, "schemaFunction")) then Some(MissingSchema)
      else None
  }

  /** Evaluating the user code: the exports it set up, and what it threw, if anything. */
  datatype Evaluation = Evaluation(exports: Exports, thrown: Option<JsValue>)

  /** The installed handler's mode, fixed for the life of the process. */
  datatype Guard = Faulted(error: JsValue) | Ready(exports: Exports)

  /** Loading either installs a handler or throws out of module evaluation:
      the validator runs after the guard's `try` has closed, so its errors
      are not captured. */
  datatype LoadOutcome = Installed(guard: Guard) | Escaped(error: LoadError)

  /** A thrown value is captured only when it is truthy. */
  predicate Captured(ev: Evaluation) {
    ev.thrown.Some? && Truthy(ev.thrown.value)
  }

  function Load(ev: Evaluation): (r: LoadOutcome)
    ensures Captured(ev) ==> r == Installed(Faulted(ev.thrown.value))
    ensures !Captured(ev) ==> !(r.Installed? && r.guard.Faulted?)
    ensures r.Escaped? <==> !Captured(ev) && Validate(ev.exports).Some?
    ensures r.Escaped? ==> Some(r.error) == Validate(ev.exports)
    ensures r.Installed? && r.guard.Ready? ==> r.guard.exports == ev.exports
  {
    if Captured(ev) then Installed(Faulted(ev.thrown.value))
    else
      match Validate(ev.exports)
      case Some(err) => Escaped(err)
      case None => Installed(Ready(ev.exports))
  }

  /** A handler that serves requests has exports that name only allowed
      keys and that provide a schema or a schema function. */
  lemma ReadyExportsAreValid(ev: Evaluation)
    requires WellFormed(ev.exports)
    requires Load(ev).Installed? && Load(ev).guard.Ready?
    ensures Load(ev).guard.exports.values.Keys <= AllowedExports
    ensures Truthy(Export(ev.exports, "schema")) || Truthy(Export(ev.exports, "schemaFunction"))
  {
  }

  /** `schemaFunction(userContext)`: the exported schema function if truthy,
      otherwise one that returns `exports.schema`. */
  function SchemaFor(e: Exports, host: Host, secrets: map<string, JsValue>): (r: Completion)
    ensures r.Throw? ==> Truthy(Export(e, "schemaFunction"))
    ensures Truthy(Export(e, "schemaFunction")) && !Export(e, "schemaFunction").Fn? ==> r == Throw(NotCallable)
  {
    var schemaFunction := Export(e, "schemaFunction");
    if Truthy(schemaFunction) then Call(host, schemaFunction, [Obj(secrets)])
    else Normal(Export(e, "schema"))
  }

  /** `Object.assign({headers: headers}, secrets)`: the default context. */
  function DefaultContext(headers: JsValue, secrets: map<string, JsValue>): (c: JsValue)
    ensures c.Obj? && c.props.Keys == {"headers"} + secrets.Keys
    ensures forall k :: k in secrets ==> c.props[k] == secrets[k]
    ensures "headers" !in secrets ==> c.props["headers"] == headers
  {
    Obj(map["headers" := headers] + secrets)
  }

  /** `contextFn(headers, userContext)`: the exported context function if
      truthy, otherwise the default context. */
  function ContextFor(e: Exports, host: Host, headers: JsValue, secrets: map<string, JsValue>): (r: Completion)
    ensures r.Throw? ==> Truthy(Export(e, "context"))
    ensures !Truthy(Export(e, "context")) ==>
              r.Normal? && r.value.Obj? && r.value.props.Keys == {"headers"} + secrets.Keys
  {
    var context := Export(e, "context");
    if Truthy(context) then Call(host, context, [headers, Obj(secrets)])
    else Normal(DefaultContext(headers, secrets))
  }

  /** `rootFunction(headers, userContext)`: the exported root function if
      truthy, otherwise one that returns `exports.rootValue || {}`. */
  function RootFor(e: Exports, host: Host, headers: JsValue, secrets: map<string, JsValue>): (r: Completion)
    ensures r.Throw? ==> Truthy(Export(e, "rootFunction"))
    ensures !Truthy(Export(e, "rootFunction")) ==> r.Normal? && Truthy(r.value)
  {
    var rootFunction := Export(e, "rootFunction");
    if Truthy(rootFunction) then Call(host, rootFunction, [headers, Obj(secrets)])
    else Normal(Or(Export(e, "rootValue"), Obj(map[])))
  }
}
