/** The command-line options shared by every command: where the device is, the API key,
    and whether to print requests. Each option can also come from the environment, which
    is the parameter `env` here. */
module CliOptions {
  import opened Wrappers
  import opened LametricError
  import opened LametricClient

  type Environment = map<string, string>

  const DEVICE_NAME_VARIABLE := "LAMETRIC_DEVICE_NAME"
  const HOST_VARIABLE := "LAMETRIC_HOST"
  const API_KEY_VARIABLE := "LAMETRIC_API_KEY"
  const VERBOSE_VARIABLE := "VERBOSE"
  const LOCAL_PORT := 8080

  /** The options as parsed, before the environment is consulted. */
  datatype Options = Options(
    localDeviceNameOption: Option<string>,
    hostOption: Option<string>,
    port: Option<int>,
    scheme: Option<Scheme>,
    apiKeyOption: Option<string>,
    verboseFlag: bool)

  function Lookup(env: Environment, name: string): (r: Option<string>)
    ensures r.Some? <==> name in env
    ensures r.Some? ==> r.value == env[name]
  {
    if name in env then Some(env[name]) else None
  }

  /** An option given on the command line wins over its environment variable. */
  function OrEnvironment(option: Option<string>, env: Environment, name: string): (r: Option<string>)
    ensures option.Some? ==> r == option
    ensures option.None? ==> r == Lookup(env, name)
  {
    if option.Some? then option else Lookup(env, name)
  }

  function LocalDeviceName(o: Options, env: Environment): Option<string> {
    OrEnvironment(o.localDeviceNameOption, env, DEVICE_NAME_VARIABLE)
  }

  function Host(o: Options, env: Environment): Option<string> {
    OrEnvironment(o.hostOption, env, HOST_VARIABLE)
  }

  function ApiKey(o: Options, env: Environment): Option<string> {
    OrEnvironment(o.apiKeyOption, env, API_KEY_VARIABLE)
  }

  /** Swift's `Bool(_:)` on a string: only the exact words `true` and `false`. */
  function ParseBool(s: string): (r: Option<bool>)
    ensures r == Some(true) <==> s == "true"
    ensures r == Some(false) <==> s == "false"
  {
    if s == "true" then Some(true) else if s == "false" then Some(false) else None
  }

  /** `verbose` as written: the flag, or a `VERBOSE` variable that reads as `true`. */
  function VerboseAsWritten(o: Options, env: Environment): bool {
    if o.verboseFlag then true
    else
      match Lookup(env, VERBOSE_VARIABLE)
      case None => false
      case Some(s) => ParseBool(s).OrElse(false) || s == "true"
  }

  /** `verbose` as the option's help describes it: the flag, `VERBOSE=1` or `VERBOSE=true`. */
  function Verbose(o: Options, env: Environment): (v: bool)
    ensures v <==> o.verboseFlag || Lookup(env, VERBOSE_VARIABLE) == Some("1") || Lookup(env, VERBOSE_VARIABLE) == Some("true")
  {
    if o.verboseFlag then true
    else
      match Lookup(env, VERBOSE_VARIABLE)
      case None => false
      case Some(s) => s == "1" || ParseBool(s) == Some(true)
  }

  /** As written, only the flag and `VERBOSE=true` turn output on: `VERBOSE=1`, which the
      help offers, is ignored. That is the only value on which the two differ. */
  lemma VerboseOneIgnored(o: Options, env: Environment)
    ensures VerboseAsWritten(o, env) <==> o.verboseFlag || Lookup(env, VERBOSE_VARIABLE) == Some("true")
    ensures VerboseAsWritten(o, env) != Verbose(o, env) <==> !o.verboseFlag && Lookup(env, VERBOSE_VARIABLE) == Some("1")
    ensures !VerboseAsWritten(Options(None, None, None, None, None, false), map[VERBOSE_VARIABLE := "1"])
    ensures Verbose(Options(None, None, None, None, None, false), map[VERBOSE_VARIABLE := "1"])
  {
    assert "1" != "true";
  }

  /** The reasons the options are refused. `NoTarget` is raised by `makeClient` when it is
      reached without a device name or host, which validation rules out. */
  datatype ValidationError = MissingTarget | LocalWithHttps | BothTargets | MissingApiKey | NoTarget

  /** `validate()`: a device name or a host is needed; HTTPS is refused for a local device;
      both a name and a host is refused; an API key is needed. Checked in that order. */
  function Validate(o: Options, env: Environment): (r: Result<(), ValidationError>)
    ensures r.Ok? <==>
      (LocalDeviceName(o, env).Some? || Host(o, env).Some?) &&
      !(LocalDeviceName(o, env).Some? && o.scheme == Some(Https)) &&
      !(LocalDeviceName(o, env).Some? && Host(o, env).Some?) &&
      ApiKey(o, env).Some?
    ensures LocalDeviceName(o, env).None? && Host(o, env).None? ==> r == Err(MissingTarget)
    ensures LocalDeviceName(o, env).Some? && o.scheme == Some(Https) ==> r == Err(LocalWithHttps)
  {
    var name, host := LocalDeviceName(o, env), Host(o, env);
    if name.None? && host.None? then Err(MissingTarget)
    else if name.Some? && o.scheme == Some(Https) then Err(LocalWithHttps)
    else if name.Some? && host.Some? then Err(BothTargets)
    else if ApiKey(o, env).None? then Err(MissingApiKey)
    else Ok(())
  }

  /** The failures of `makeClient()`. */
  datatype MakeClientError = Invalid(validation: ValidationError) | ClientInit(error: Error)

  /** The connection `makeClient()` uses: a local device over HTTP on port 8080 unless
      another port is given, or the host with HTTPS unless another scheme is given. */
  function ConnectionFor(o: Options, env: Environment): (r: Result<Connection, MakeClientError>)
    ensures r.Err? <==> LocalDeviceName(o, env).None? && Host(o, env).None?
    ensures r.Err? ==> r.error == Invalid(NoTarget)
    ensures LocalDeviceName(o, env).Some? ==>
      r == Ok(Connection(Http, LocalDeviceName(o, env).value, Some(o.port.OrElse(LOCAL_PORT))))
    ensures LocalDeviceName(o, env).None? && Host(o, env).Some? ==>
      r == Ok(Connection(o.scheme.OrElse(Https), Host(o, env).value, o.port))
  {
    match LocalDeviceName(o, env)
    case Some(name) => Ok(Local(name, o.port.OrElse(LOCAL_PORT)))
    case None =>
      match Host(o, env)
      case Some(host) => Ok(Url(host, o.scheme.OrElse(Https), o.port))
      case None => Err(Invalid(NoTarget))
  }

  /** `makeClient()`: the connection, then the client with the key (an empty one when
      there is none) and the verbosity as the program reads it, so `VERBOSE=1` makes a
      quiet client. */
  function MakeClient(o: Options, env: Environment, platform: Platform): (r: Result<Client, MakeClientError>)
    ensures ConnectionFor(o, env).Err? ==> r == Err(ConnectionFor(o, env).error)
    ensures ConnectionFor(o, env).Ok? ==>
      r.Ok? == (ApiKey(o, env).OrElse("") != "") &&
      (r.Err? ==> r.error == ClientInit(InvalidApiKey)) &&
      (r.Ok? ==> r.value == Init(ApiKey(o, env).value, ConnectionFor(o, env).value, VerboseAsWritten(o, env), platform).value)
    ensures r.Ok? ==> (r.value.verbose <==> o.verboseFlag || Lookup(env, VERBOSE_VARIABLE) == Some("true"))
  {
    var connection :- ConnectionFor(o, env);
    match Init(ApiKey(o, env).OrElse(""), connection, VerboseAsWritten(o, env), platform)
    case Ok(client) => Ok(client)
    case Err(e) => Err(ClientInit(e))
  }

  /** Once the options validate, making the client fails only for an API key that is
      empty, and a local device is always reached over HTTP. */
  lemma ValidatedOptionsMakeClient(o: Options, env: Environment, platform: Platform)
    requires Validate(o, env).Ok?
    ensures MakeClient(o, env, platform).Err? <==> ApiKey(o, env) == Some("")
    ensures MakeClient(o, env, platform).Err? ==> MakeClient(o, env, platform).error == ClientInit(InvalidApiKey)
    ensures LocalDeviceName(o, env).Some? ==> ConnectionFor(o, env).value.scheme == Http
  {
  }
}
