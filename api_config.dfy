/**
 * The environment-configuration accessor `ApiConfigService`: it reads named values from
 * the environment, coerces them, and assembles the database, auth and app configuration
 * records. The injected configuration service is an explicit environment snapshot in
 * which an absent key means "not set"; every thrown error becomes a `Failure` carrying
 * the error's message.
 */
module ApiConfig {
  import opened Wrappers
  import opened Escapes
  import opened JsRuntime

  /** A snapshot of the environment: a key that is not in the map is not set. */
  type Env = map<string, string>

  const NODE_ENV := "NODE_ENV"
  const DB_HOST := "DB_HOST"
  const DB_PORT := "DB_PORT"
  const DB_USERNAME := "DB_USERNAME"
  const DB_PASSWORD := "DB_PASSWORD"
  const DB_DATABASE := "DB_DATABASE"
  const ENABLE_ORM_LOGS := "ENABLE_ORM_LOGS"
  const JWT_PRIVATE_KEY := "JWT_PRIVATE_KEY"
  const JWT_PUBLIC_KEY := "JWT_PUBLIC_KEY"
  const JWT_EXPIRATION_TIME := "JWT_EXPIRATION_TIME"
  const PORT := "PORT"

  /** The keys `postgresConfig` reads through `get`, in the order it reads them. */
  const POSTGRES_KEYS := [DB_HOST, DB_PORT, DB_USERNAME, DB_PASSWORD, DB_DATABASE]
  /** The keys `authConfig` reads, in the order it reads them. */
  const AUTH_KEYS := [JWT_PRIVATE_KEY, JWT_PUBLIC_KEY, JWT_EXPIRATION_TIME]

  function NotSetMessage(key: string): string {
    key + " environment variable does not set"
  }

  function NotNumberMessage(key: string): string {
    key + " environment variable is not a number"
  }

  function NotBooleanMessage(key: string): string {
    key + " env var is not a boolean"
  }

  /** The options record `postgresConfig` would build. */
  datatype PostgresOptions<N> = PostgresOptions(
    entities: seq<string>,
    dbType: string,
    host: string,
    port: N,
    username: string,
    password: string,
    database: string,
    logging: bool,
    migrationsRun: bool)

  datatype AuthOptions<N> = AuthOptions(privateKey: string, publicKey: string, jwtExpirationTime: N)

  datatype AppOptions = AppOptions(port: string)

  /** Position in `keys` of the first key that is not set, or `|keys|` if all are set. */
  function FirstAbsent(env: Env, keys: seq<string>): (i: nat)
    ensures i <= |keys|
    ensures forall j | 0 <= j < i :: keys[j] in env
    ensures i < |keys| ==> keys[i] !in env
  {
    if keys == [] || keys[0] !in env then 0
    else 1 + FirstAbsent(env, keys[1..])
  }

  /** Looking past a key that is set. */
  lemma FirstAbsentCons(env: Env, key: string, rest: seq<string>)
    ensures FirstAbsent(env, [key] + rest) == if key in env then 1 + FirstAbsent(env, rest) else 0
  {
    assert ([key] + rest)[1..] == rest;
  }

  /** The first unset key among those `authConfig` reads. */
  lemma FirstAbsentAuthKeys(env: Env)
    ensures FirstAbsent(env, AUTH_KEYS) ==
      if JWT_PRIVATE_KEY !in env then 0
      else if JWT_PUBLIC_KEY !in env then 1
      else if JWT_EXPIRATION_TIME !in env then 2
      else 3
  {
    FirstAbsentCons(env, JWT_PRIVATE_KEY, [JWT_PUBLIC_KEY, JWT_EXPIRATION_TIME]);
    FirstAbsentCons(env, JWT_PUBLIC_KEY, [JWT_EXPIRATION_TIME]);
    FirstAbsentCons(env, JWT_EXPIRATION_TIME, []);
  }

  /** The first unset key among those `postgresConfig` reads through `get`. */
  lemma FirstAbsentPostgresKeys(env: Env)
    ensures FirstAbsent(env, POSTGRES_KEYS) ==
      if DB_HOST !in env then 0
      else if DB_PORT !in env then 1
      else if DB_USERNAME !in env then 2
      else if DB_PASSWORD !in env then 3
      else if DB_DATABASE !in env then 4
      else 5
  {
    FirstAbsentCons(env, DB_HOST, [DB_PORT, DB_USERNAME, DB_PASSWORD, DB_DATABASE]);
    FirstAbsentCons(env, DB_PORT, [DB_USERNAME, DB_PASSWORD, DB_DATABASE]);
    FirstAbsentCons(env, DB_USERNAME, [DB_PASSWORD, DB_DATABASE]);
    FirstAbsentCons(env, DB_PASSWORD, [DB_DATABASE]);
    FirstAbsentCons(env, DB_DATABASE, []);
  }

  /** `get`: the raw value, or the "does not set" error when the key is not set. */
  function Get(env: Env, key: string): (r: Result<string, string>)
    ensures r.Success? <==> key in env
    ensures r.Success? ==> r.value == env[key]
    ensures r.Failure? ==> r.error == NotSetMessage(key)
  {
    if key in env then Success(env[key]) else Failure(NotSetMessage(key))
  }

  /** `getString`: the value with every escaped line break turned into a newline. */
  function GetString(env: Env, key: string): (r: Result<string, string>)
    ensures r.Success? <==> key in env
    ensures r.Success? ==> r.value == Unescape(env[key]) && EscapeFree(r.value)
    ensures r.Failure? ==> r.error == NotSetMessage(key)
  {
    var value :- Get(env, key);
    UnescapeRemovesAll(value);
    Success(Unescape(value))
  }

  /**
   * `getNumber`: `Number()` of the raw value. `Number()` never throws, so the
   * "is not a number" branch is unreachable and the only failure is a key that is not set.
   */
  function GetNumber<N>(env: Env, key: string, host: Host<N>): (r: Result<N, string>)
    ensures r.Success? <==> key in env
    ensures r.Success? ==> r.value == host.number(env[key])
    ensures r.Failure? ==> r.error == NotSetMessage(key)
    ensures r != Failure(NotNumberMessage(key))
  {
    var value :- Get(env, key);
    Success(host.number(value))
  }

  /**
   * `getBoolean`: `Boolean(JSON.parse(get(key) ? key : ''))` inside a `try`. The text
   * parsed is the key's NAME when the value is non-empty, and the empty text otherwise;
   * a missing key and a failed parse both come out as "is not a boolean".
   */
  function GetBoolean<N>(env: Env, key: string, host: Host<N>): (r: Result<bool, string>)
    ensures r.Failure? ==> r.error == NotBooleanMessage(key)
    ensures key !in env || env[key] == "" ==> r.Failure?
    ensures r.Success? ==> ParseBoolean(key, host) == Some(r.value)
    ensures key in env && env[key] != "" ==>
      r == match ParseBoolean(key, host)
           case None => Failure(NotBooleanMessage(key))
           case Some(b) => Success(b)
  {
    var parsed := match Get(env, key)
      case Failure(_) => None
      case Success(value) => ParseBoolean(if Truthy(value) then key else "", host);
    match parsed
    case None => Failure(NotBooleanMessage(key))
    case Some(b) => Success(b)
  }

  /** `nodeEnv`: the normalised NODE_ENV value. */
  function NodeEnv(env: Env): (r: Result<string, string>)
    ensures r.Success? <==> NODE_ENV in env
    ensures r.Success? ==> r.value == Unescape(env[NODE_ENV])
    ensures r.Failure? ==> r.error == NotSetMessage(NODE_ENV)
  {
    GetString(env, NODE_ENV)
  }

  /**
   * `isDevelopment`: whether `nodeEnv` is exactly "development". Reading NODE_ENV throws
   * when it is not set; otherwise the answer depends on the raw value alone, since the
   * normalisation cannot turn any other value into "development".
   */
  function IsDevelopment(env: Env): (r: Result<bool, string>)
    ensures r.Success? <==> NODE_ENV in env
    ensures r.Success? ==> (r.value <==> env[NODE_ENV] == "development")
    ensures r.Failure? ==> r.error == NotSetMessage(NODE_ENV)
  {
    var nodeEnv :- NodeEnv(env);
    UnescapeDevelopment(env[NODE_ENV]);
    Success(nodeEnv == "development")
  }

  /** The normalised value is "development" exactly when the raw value is. */
  lemma UnescapeDevelopment(raw: string)
    ensures Unescape(raw) == "development" <==> raw == "development"
  {
    UnescapeChangesOnlyByNewline(raw);
    if raw == "development" {
      UnescapeWithoutBackslash(raw);
    }
    if Unescape(raw) == "development" {
      assert '\n' !in Unescape(raw);
    }
  }

  /** The two entity discovery globs, relative to the directory of the service. */
  function EntityGlobs(dirname: string): (globs: seq<string>)
    ensures |globs| == 2
    ensures forall g | g in globs :: dirname <= g
  {
    [dirname + "/../../modules/**/**/**/*.entity{.ts,.js}",
     dirname + "/../../modules/**/**/**/*.view-entity{.ts,.js}"]
  }

  /**
   * `postgresConfig`: reads its fields in declaration order and stops at the first
   * error. The last read, `getBoolean(ENABLE_ORM_LOGS)`, always fails, so no options
   * record is ever returned: the error is that of the first DB_* key that is not set,
   * and when all five are set, the "is not a boolean" error of ENABLE_ORM_LOGS.
   */
  function PostgresConfig<N>(env: Env, host: Host<N>, dirname: string): (r: Result<PostgresOptions<N>, string>)
    ensures r.Failure?
    ensures r.error ==
      var i := FirstAbsent(env, POSTGRES_KEYS);
      if i < |POSTGRES_KEYS| then NotSetMessage(POSTGRES_KEYS[i]) else NotBooleanMessage(ENABLE_ORM_LOGS)
  {
    GetBooleanOrmLogsFails(env, host);
    FirstAbsentPostgresKeys(env);
    var entities := EntityGlobs(dirname);
    var dbHost :- GetString(env, DB_HOST);
    var port :- GetNumber(env, DB_PORT, host);
    var username :- GetString(env, DB_USERNAME);
    var password :- GetString(env, DB_PASSWORD);
    var database :- GetString(env, DB_DATABASE);
    match GetBoolean(env, ENABLE_ORM_LOGS, host)
    case Failure(e) => Failure(e)
    case Success(logging) =>
      Success(PostgresOptions(entities, "postgres", dbHost, port, username, password, database, logging, false))
  }

  /** `authConfig`: both keys normalised, the expiration time through `Number()`. */
  function AuthConfig<N>(env: Env, host: Host<N>): (r: Result<AuthOptions<N>, string>)
    ensures r.Success? <==> JWT_PRIVATE_KEY in env && JWT_PUBLIC_KEY in env && JWT_EXPIRATION_TIME in env
    ensures r.Success? ==> r.value == AuthOptions(
      Unescape(env[JWT_PRIVATE_KEY]), Unescape(env[JWT_PUBLIC_KEY]), host.number(env[JWT_EXPIRATION_TIME]))
    ensures r.Failure? ==>
      FirstAbsent(env, AUTH_KEYS) < |AUTH_KEYS| && r.error == NotSetMessage(AUTH_KEYS[FirstAbsent(env, AUTH_KEYS)])
  {
    FirstAbsentAuthKeys(env);
    var privateKey :- GetString(env, JWT_PRIVATE_KEY);
    var publicKey :- GetString(env, JWT_PUBLIC_KEY);
    var expiration :- GetNumber(env, JWT_EXPIRATION_TIME, host);
    Success(AuthOptions(privateKey, publicKey, expiration))
  }

  /** `appConfig`: the normalised PORT value, kept as a string. */
  function AppConfig(env: Env): (r: Result<AppOptions, string>)
    ensures r.Success? <==> PORT in env
    ensures r.Success? ==> r.value.port == Unescape(env[PORT]) && EscapeFree(r.value.port)
    ensures r.Failure? ==> r.error == NotSetMessage(PORT)
  {
    var port :- GetString(env, PORT);
    Success(AppOptions(port))
  }

  /** `getBoolean(ENABLE_ORM_LOGS)` fails in every environment, whatever the host's JSON parser accepts. */
  lemma GetBooleanOrmLogsFails<N>(env: Env, host: Host<N>)
    ensures GetBoolean(env, ENABLE_ORM_LOGS, host) == Failure(NotBooleanMessage(ENABLE_ORM_LOGS))
  {
    ParseBooleanRejects(ENABLE_ORM_LOGS, host);
    ParseBooleanRejects("", host);
  }

  /** `getBoolean` looks at the value only to see whether it is empty. */
  lemma GetBooleanIgnoresValue<N>(env: Env, env': Env, key: string, host: Host<N>)
    requires key in env <==> key in env'
    requires key in env ==> (env[key] == "" <==> env'[key] == "")
    ensures GetBoolean(env, key, host) == GetBoolean(env', key, host)
  {
  }

  /** `authConfig` depends only on the three keys it reads. */
  lemma AuthConfigReadsOnlyItsKeys<N>(env: Env, env': Env, host: Host<N>)
    requires forall k | k in AUTH_KEYS :: (k in env <==> k in env') && (k in env ==> env[k] == env'[k])
    ensures AuthConfig(env, host) == AuthConfig(env', host)
  {
  }
}
