# ApiConfigService, modelled in Dafny

This project models the environment-configuration accessor `ApiConfigService` of a NestJS
server (`src/shared/services/api-config.service.ts`). The accessor reads named values
from the environment and checks that they are set. It coerces some of them to numbers or
booleans and assembles three configuration records: the Postgres options, the JWT auth
options and the app options.

The model is pure, as the source is: the service's only field, the injected
`ConfigService`, is never changed. It becomes an explicit environment snapshot
`Env = map<string, string>`, where a key that is not in the map is "not set" (lodash
`isNil`). Every `throw` becomes a `Failure` that carries the thrown message verbatim.
The getters read their fields in declaration order, and the first failure is the one
reported. `:-` models that short-circuit.

Files:

- `wrappers.dfy`: `Option` and a failure-compatible `Result`.
- `escapes.dfy`: the `replaceAll` of a literal backslash-`n` by a newline (`Unescape`) and its properties.
- `js_runtime.dfy`: what the accessor takes from the JavaScript runtime. `Number()` is a
  host-supplied total function. `Boolean(JSON.parse(text))` is modelled up to the first
  significant character of the JSON grammar (section 2 of RFC 8259): skip JSON whitespace,
  then reject an empty text or a first character that cannot begin a value. Any other text
  is decided by a host-supplied function.
- `api_config.dfy`: the getters and the properties relating them.

The model follows the code, not the intent its error messages suggest:

- `getNumber` cannot report "is not a number". `Number()` on a string never throws, so the
  `catch` is unreachable. A non-numeric value yields whatever `Number()` yields (NaN).
- `getBoolean` parses the key's *name* when the value is non-empty, and the empty text
  otherwise. For `ENABLE_ORM_LOGS` both parses throw, so the getter fails in every
  environment. A missing key is re-reported as "is not a boolean".
- `postgresConfig` therefore never returns an options record. The `migrationsRun: false`
  field is built, but no caller can ever observe it.
- `isDevelopment` fails when NODE_ENV is not set; it does not answer `false`.

## Model

| member | source | states |
|---|---|---|
| `ApiConfig.Get` | src/shared/services/api-config.service.ts:32-40 | fails with "`key` environment variable does not set" exactly when the key is not set; any value that is set, the empty string included, is returned unchanged |
| `ApiConfig.GetString` | src/shared/services/api-config.service.ts:42-46 | fails exactly when the key is not set, with the `get` message; otherwise returns the normalised value, which holds no backslash-`n` pair |
| `ApiConfig.GetNumber` | src/shared/services/api-config.service.ts:14-22 | fails only when the key is not set (the `get` error); otherwise returns `Number(value)`; never fails with "is not a number" |
| `ApiConfig.GetBoolean` | src/shared/services/api-config.service.ts:24-30 | every failure is "`key` env var is not a boolean"; fails whenever the key is not set or its value is empty; when the value is set and non-empty, the result is exactly the parse of the key's name (success with its truth value, or the "is not a boolean" error), never of the value |
| `ApiConfig.GetBooleanOrmLogsFails` | src/shared/services/api-config.service.ts:24-30 | `getBoolean('ENABLE_ORM_LOGS')` fails with "ENABLE_ORM_LOGS env var is not a boolean" in every environment, whatever the rest of the JSON parser accepts |
| `ApiConfig.GetBooleanIgnoresValue` | src/shared/services/api-config.service.ts:26 | `getBoolean` depends on the value only through whether it is set and whether it is empty |
| `ApiConfig.NodeEnv` | src/shared/services/api-config.service.ts:48-50 | fails exactly when NODE_ENV is not set; otherwise returns the normalised NODE_ENV value |
| `ApiConfig.IsDevelopment` | src/shared/services/api-config.service.ts:10-12 | fails exactly when NODE_ENV is not set; otherwise true exactly when the raw NODE_ENV value is "development" |
| `ApiConfig.UnescapeDevelopment` | src/shared/services/api-config.service.ts:45-50 | the normalised value is "development" exactly when the raw value is; normalisation cannot produce it from any other value |
| `ApiConfig.PostgresConfig` | src/shared/services/api-config.service.ts:52-69 | `postgresConfig` never returns options; its error is the `get` error of the first unset key among DB_HOST, DB_PORT, DB_USERNAME, DB_PASSWORD, DB_DATABASE, and "ENABLE_ORM_LOGS env var is not a boolean" when all five are set |
| `ApiConfig.EntityGlobs` | src/shared/services/api-config.service.ts:53-56 | the `entities` list holds two globs, each rooted at the service's own directory |
| `ApiConfig.AuthConfig` | src/shared/services/api-config.service.ts:71-77 | succeeds exactly when JWT_PRIVATE_KEY, JWT_PUBLIC_KEY and JWT_EXPIRATION_TIME are all set; both keys are the normalised raw values and the expiration time is `Number()` of its value; a failure names the first unset key in that order |
| `ApiConfig.AuthConfigReadsOnlyItsKeys` | src/shared/services/api-config.service.ts:71-77 | two environments that agree on the three JWT keys give the same `authConfig` |
| `ApiConfig.AppConfig` | src/shared/services/api-config.service.ts:79-83 | fails exactly when PORT is not set; otherwise `port` is the normalised PORT value, kept as a string |
| `ApiConfig.FirstAbsent` | src/shared/services/api-config.service.ts:58-76 | the position of the first unset key among those read in order: all keys before it are set, the key at it is not |
| `Escapes.Unescape` | src/shared/services/api-config.service.ts:45 | the `replaceAll` of a literal backslash-`n` by a newline, scanning left to right without overlap; the result is never longer than the input (the exact length and the other properties are the lemmas below) |
| `Escapes.UnescapeLength` | src/shared/services/api-config.service.ts:45 | the normalised value is shorter than the raw value by exactly the number of backslash-`n` pairs in it |
| `Escapes.UnescapeRemovesAll` | src/shared/services/api-config.service.ts:45 | the normalised value contains no backslash-`n` pair |
| `Escapes.UnescapeFixedPoint` | src/shared/services/api-config.service.ts:45 | a value is left unchanged if and only if it contains no backslash-`n` pair |
| `Escapes.UnescapeIdempotent` | src/shared/services/api-config.service.ts:45 | normalising twice is the same as normalising once |
| `Escapes.UnescapeWithoutBackslash` | src/shared/services/api-config.service.ts:45 | a value without any backslash is returned unchanged |
| `Escapes.UnescapeChangesOnlyByNewline` | src/shared/services/api-config.service.ts:45 | a value the normalisation changes contains a newline afterwards |
| `JsRuntime.FirstSignificant` | src/shared/services/api-config.service.ts:26 | the position where `JSON.parse` starts reading a value: every character before it is JSON whitespace, the character at it is not |
| `JsRuntime.ParseBoolean` | src/shared/services/api-config.service.ts:26 | `Boolean(JSON.parse(text))` throws unless some character that can begin a JSON value is preceded only by JSON whitespace; for such a text the result is the host parser's |
| `JsRuntime.ParseBooleanRejects` | src/shared/services/api-config.service.ts:26 | `JSON.parse` throws on the empty text and on a text whose first character is neither JSON whitespace nor a possible start of a value |

## Left out

- `src/main.ts` (`bootstrap`): framework wiring and network I/O (creating the Nest application, listening on `process.env.PORT ?? 3000`, logging the URL).
- How `ConfigService` loads `.env` files or `process.env`: a foreign library. It is the injected `Env` map.
- `Number()`: IEEE-754 conversion, NaN and whitespace rules are not modelled. It is the host's total function `Host.number`, and the JavaScript number type is the type parameter `N`.
- `JSON.parse`: only the first-character rejection of the JSON grammar is modelled. The result for any other text is `Host.parseValue`, which stands for parsing followed by `Boolean()`.
- The `entities` globs: built from a `dirname` parameter, since `__dirname` is a runtime path. The `TypeOrmModuleOptions` typing is not modelled, and the `type: 'postgres'` field is the field `dbType`.
- The `@Injectable` dependency-injection machinery.
- JavaScript strings are sequences of UTF-16 code units. The model uses Dafny's `char` and does not distinguish them.
