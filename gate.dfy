/** The per-request gating decision of the `treblle(options)` middleware:
    credentials are resolved once when the middleware is created (option value,
    else environment variable), and each request is then either passed straight
    to `next` (bypassed) or captured. */
module Gate {
  import opened Values

  /** `ITreblleOptions`; a field left unset (or set to null) is `None`. */
  datatype Options = Options(
    apiKey: Option<string>,
    projectId: Option<string>,
    debug: Option<bool>,
    maskingKeys: Option<seq<string>>,
    excludeMethod: Option<seq<string>>)

  /** The `TREBLLE_API_KEY` and `TREBLLE_PROJECT_ID` environment variables. */
  datatype Env = Env(apiKey: Option<string>, projectId: Option<string>)

  /** The two warnings printed when the middleware is created. */
  datatype Warning = MissingApiKey | MissingProjectId

  /** What the middleware closure captures from `treblle(options)`. */
  datatype Middleware = Middleware(
    options: Option<Options>,
    apiKey: Option<string>,
    projectId: Option<string>,
    warnings: seq<Warning>)

  datatype BypassReason = MissingCredentials | ExcludedMethod

  /** The settings a captured request works with. */
  datatype CaptureConfig = CaptureConfig(
    apiKey: string,
    projectId: string,
    debug: bool,
    maskingKeys: seq<string>)

  datatype Decision = Bypass(reason: BypassReason) | Capture(config: CaptureConfig)

  /** `!!x` on a string that may be undefined: `Truthy` of the string, so the
      empty string is missing too. */
  predicate Present(x: Option<string>) {
    x.Some? && Truthy(Str(x.value))
  }

  function OptionApiKey(options: Option<Options>): Option<string> {
    if options.Some? then options.value.apiKey else None
  }

  function OptionProjectId(options: Option<Options>): Option<string> {
    if options.Some? then options.value.projectId else None
  }

  function Warn(credential: Option<string>, w: Warning): seq<Warning> {
    if Present(credential) then [] else [w]
  }

  /** `treblle(options)`: resolves both credentials and collects the warnings. */
  function Setup(options: Option<Options>, env: Env): (mw: Middleware)
    ensures mw.options == options
    ensures OptionApiKey(options).Some? ==> mw.apiKey == OptionApiKey(options)
    ensures OptionApiKey(options).None? ==> mw.apiKey == env.apiKey
    ensures OptionProjectId(options).Some? ==> mw.projectId == OptionProjectId(options)
    ensures OptionProjectId(options).None? ==> mw.projectId == env.projectId
    ensures MissingApiKey in mw.warnings <==> !Present(mw.apiKey)
    ensures MissingProjectId in mw.warnings <==> !Present(mw.projectId)
    ensures |mw.warnings| <= 2
    ensures |mw.warnings| == 2 ==> mw.warnings == [MissingApiKey, MissingProjectId]
  {
    var apiKey := OrElse(OptionApiKey(options), env.apiKey);
    var projectId := OrElse(OptionProjectId(options), env.projectId);
    Middleware(options, apiKey, projectId, Warn(apiKey, MissingApiKey) + Warn(projectId, MissingProjectId))
  }

  /** `options?.debug ?? false` */
  function Debug(options: Option<Options>): (debug: bool)
    ensures debug <==> options.Some? && options.value.debug == Some(true)
  {
    if options.Some? && options.value.debug.Some? then options.value.debug.value else false
  }

  /** `options?.maskingKeys ?? []` */
  function MaskingKeys(options: Option<Options>): (keys: seq<string>)
    ensures options.Some? && options.value.maskingKeys.Some? ==> keys == options.value.maskingKeys.value
    ensures options.None? || options.value.maskingKeys.None? ==> keys == []
  {
    if options.Some? && options.value.maskingKeys.Some? then options.value.maskingKeys.value else []
  }

  /** `options?.excludeMethod` */
  function ConfiguredExcludes(options: Option<Options>): Option<seq<string>> {
    if options.Some? then options.value.excludeMethod else None
  }

  /** `options?.excludeMethod?.map((m) => m.toUpperCase()) ?? []` */
  function ExcludedMethods(options: Option<Options>): (r: seq<string>)
    ensures ConfiguredExcludes(options).None? ==> r == []
    ensures ConfiguredExcludes(options).Some? ==>
      |r| == |ConfiguredExcludes(options).value| &&
      forall i :: 0 <= i < |r| ==> r[i] == ToUpper(ConfiguredExcludes(options).value[i])
  {
    match ConfiguredExcludes(options)
    case None => []
    case Some(list) => seq(|list|, i requires 0 <= i < |list| => ToUpper(list[i]))
  }

  /** The middleware's decision for a request with HTTP method `verb`. */
  function Decide(mw: Middleware, verb: string): (d: Decision)
    ensures d == Bypass(MissingCredentials) <==> !Present(mw.apiKey) || !Present(mw.projectId)
    ensures d == Bypass(ExcludedMethod) <==>
      Present(mw.apiKey) && Present(mw.projectId) && verb in ExcludedMethods(mw.options)
    ensures d.Capture? ==>
      d.config == CaptureConfig(mw.apiKey.value, mw.projectId.value, Debug(mw.options), MaskingKeys(mw.options))
  {
    if !Present(mw.apiKey) || !Present(mw.projectId) then
      Bypass(MissingCredentials)
    else if verb in ExcludedMethods(mw.options) then
      Bypass(ExcludedMethod)
    else
      Capture(CaptureConfig(mw.apiKey.value, mw.projectId.value, Debug(mw.options), MaskingKeys(mw.options)))
  }

  /** A middleware that warned at creation bypasses every request, and one that
      did not warn bypasses none for lack of credentials. */
  lemma WarnedExactlyWhenDisabled(options: Option<Options>, env: Env)
    ensures Setup(options, env).warnings != [] <==>
      forall verb :: Decide(Setup(options, env), verb) == Bypass(MissingCredentials)
  {
    var mw := Setup(options, env);
    if forall verb :: Decide(mw, verb) == Bypass(MissingCredentials) {
      assert Decide(mw, "GET") == Bypass(MissingCredentials);
    }
  }

  /** An option set to the empty string is used as is (it is not null or
      undefined), so the environment is ignored and every request is bypassed. */
  lemma EmptyOptionShadowsEnv(options: Option<Options>, env: Env, verb: string)
    requires OptionApiKey(options) == Some("") || OptionProjectId(options) == Some("")
    ensures Decide(Setup(options, env), verb) == Bypass(MissingCredentials)
    ensures Setup(options, env).warnings != []
  {
  }

  /** With neither option set, the environment alone decides whether requests
      are captured. */
  lemma UnsetOptionsFallBackToEnv(options: Option<Options>, env: Env, verb: string)
    requires OptionApiKey(options).None? && OptionProjectId(options).None?
    ensures Decide(Setup(options, env), verb).Bypass?
      <==> !Present(env.apiKey) || !Present(env.projectId) || verb in ExcludedMethods(options)
  {
  }

  /** Configured methods are upper-cased, the request method is not: a request
      method with a lower-case letter is never excluded. */
  lemma LowerCaseMethodNeverExcluded(options: Option<Options>, verb: string)
    requires HasLower(verb)
    ensures verb !in ExcludedMethods(options)
  {
  }

  /** A configured method matches the request method whatever its own case. */
  lemma ConfiguredCaseIgnored(options: Option<Options>, env: Env, configured: string)
    requires ConfiguredExcludes(options).Some? && configured in ConfiguredExcludes(options).value
    requires Present(Setup(options, env).apiKey) && Present(Setup(options, env).projectId)
    ensures Decide(Setup(options, env), ToUpper(configured)) == Bypass(ExcludedMethod)
  {
  }

  /** Without an exclude list, every request of a configured middleware is captured. */
  lemma NoExcludeListCapturesAll(mw: Middleware, verb: string)
    requires Present(mw.apiKey) && Present(mw.projectId)
    requires ConfiguredExcludes(mw.options).None?
    ensures Decide(mw, verb).Capture?
  {
  }
}
