/** The program the wrapper generates, as one object per warm process: the
    guard fixed when the module was evaluated, and the module-level `schema`
    and `engine` variables that invocations fill in once and then read. */
module Webtask {
  import opened JsValues
  import opened UserSecrets
  import opened UserExports
  import opened Pipeline

  class Runtime {
    /** Faulted with the captured error, or ready with the validated exports. */
    const guard: Guard
    /** The behaviour of the user's exported functions. */
    const host: Host
    var schema: JsValue
    var engine: Option<Engine>
    /** How many times `engine.start()` has been called. */
    var starts: nat

    function State(): Shared
      reads this
    {
      Shared(schema, engine, starts)
    }

    ghost predicate Valid()
      reads this
    {
      EngineInvariant(State())
    }

    /** Module evaluation that completes installs a handler; one whose
        validation throws installs none, so there is no runtime to build. */
    constructor (ev: Evaluation, host: Host)
      requires Load(ev).Installed?
      ensures guard == Load(ev).guard && this.host == host
      ensures State() == Initial && Valid()
    {
      guard := Load(ev).guard;
      this.host := host;
      schema := Undefined;
      engine := None;
      starts := 0;
    }

    /** The exported webtask function, with the Express chain behind it. */
    method Invoke(req: Request) returns (resp: Response)
      requires Valid()
      modifies this
      ensures Valid()
      ensures Step(State(), resp) == Handle(guard, host, old(State()), req)
      ensures guard.Faulted? ==> resp == LoadFault(guard.error) && State() == old(State())
      ensures old(engine).Some? ==> engine == old(engine) && starts == old(starts)
    {
      if guard.Faulted? {
        return LoadFault(guard.error);
      }
      if req.payload.Unparseable? {
        return MalformedSecrets;
      }
      var secrets := DecodeSecrets(req.payload.entries);
      if engine.None? && Truthy(Lookup(secrets, EngineKeySecret)) {
        engine := Some(NewEngine(Lookup(secrets, EngineKeySecret), req.url));
        starts := starts + 1;
      }
      // The first middleware decodes the same payload again and fills the memo.
      var userContext := DecodeSecrets(req.payload.entries);
      if !Truthy(schema) {
        var resolved := SchemaFor(guard.exports, host, userContext);
        if resolved.Throw? {
          return MiddlewareFault(resolved.error);
        }
        schema := resolved.value;
      }
      resp := Routed(engine.Some?, Assemble(guard.exports, host, schema, req, userContext));
    }
  }
}
