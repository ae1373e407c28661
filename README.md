# tushareproxy core, modelled in Dafny

tushareproxy is a caching reverse proxy in front of the Tushare data API.
It accepts POST requests on `/dataapi`, keys each request by the
lower-case hex SHA-256 of its raw body, answers from a local key/value
store while an entry is fresh, and otherwise forwards to Tushare. The
reply is stored only when it is a semantic success: transport status 200,
a non-empty body, an envelope that decodes, and `code == 0`. Failures of
the proxy itself go back with transport status 200 and the real status in
the envelope's `code`.

The project models three parts of the Go source, one module each, plus two helper modules:

- `Hex.dfy` — the hex rendering that turns a digest into a key. It is
  proved to give two characters per byte, high nibble first, from
  `0123456789abcdef`, and to be inverted by a decoder, so it is injective.
- `Cache.dfy` — `CacheManager` as a class over `store: map<string, Record>`.
  It holds the SHA-256 function as a parameter, the TTL in nanoseconds,
  and `hasDb`, which is false for a nil engine handle. `Get`, `Set` and
  `Delete` change the map in place. The same file has the TTL arithmetic
  with Go's int64 wrap-around, the Unix-second timestamp, the expiry test
  and lemmas about round trips and expiry.
- `Handler.dfy` — `DataApiHandler` as an imperative method. It writes
  through a `ResponseWriter` class and uses the cache class, or `null`
  when caching is disabled. It returns whether the answer came from the
  cache, whether upstream was called and whether `Set` was called. Its
  contract covers each step of the request's path. It also states the
  store invariant the handler keeps: every entry sits under the key of
  its own request body and holds a cacheable reply.
- `Config.dfy` — the ordered validator, the defaults and `ConfigState`,
  a class that holds the package globals (`globalConfig`, the settings
  instance, `currentConfigPath`, `watchers`). Loading, reloading, the
  port update, watcher registration and the nil-guarded getters are
  modelled as methods and functions on it.
- `Wrappers.dfy` — `Option` and `Result`.

Collaborators outside the core become parameters:

- Upstream is a function from request bytes to `Reply(body, status)` or
  `TransportError`.
- Decoding the `{code, msg}` envelope is a function to an optional
  result. Go's decoder leaves missing fields at zero, so an object without
  `code` decodes with code 0 and counts as cacheable.
- Encoding the proxy's error envelope is a function from result to bytes.
- Reading a configuration file is a function from path to outcome.
- Each storage-engine failure is a boolean parameter of the operation
  that can meet it.
- Clock readings are integer nanoseconds since the Unix epoch, passed in
  as arguments.
- `GenerateKey` is a module-level function with the hash as an argument.
  The Go method never uses its receiver.

## Where the code and the design description differ (the model follows the code)

- The application-level expiry check in `Get` (internal/cache/cache.go:93)
  is strict. It reports an entry as expired only when more than `ttl` has
  passed since `Timestamp`, not at or after `T + ttl`. `Timestamp` is the
  write time truncated to whole seconds. The following are properties of
  that check alone, as the model's `Lookup` states it:
  - the check still passes, at exactly `T + ttl`, an entry written on a
    whole second (`WholeSecondWindow`);
  - the check expires an entry written mid-second up to one second early
    (`SetThenLookup` guarantees a hit up to `ttl - (10^9 - 1)` ns);
  - the check never passes an entry after `T + ttl` (`ExpiredAfterDeadline`).

  Every write also carries the storage engine's own TTL
  (`WithTTL(cm.ttl)`, internal/cache/cache.go:118), which the engine
  applies before this check runs. The engine is not part of this model,
  so the model does not say whether a real read at the edge of these
  windows finds the entry.
- The expired-entry delete in `Get` is a synchronous call to `Delete`,
  not an asynchronous one.
- Only transport status exactly 200 is cacheable, not any 2xx status.
- The configuration types have no cache section. Whether caching is on
  (a manager or `null`) and `ttlDays` are parameters of the model.

## Model

| member | source | states |
|---|---|---|
| `Hex.EncodeToString` | internal/cache/cache.go:65 | the encoding has exactly two characters per byte, all lower-case hex digits |
| `Hex.EncodeAt` | internal/cache/cache.go:65 | characters 2i and 2i+1 are the table digits of the high and low nibble of byte i |
| `Hex.DecodeEncode` | internal/cache/cache.go:65 | decoding the encoding gives back the original bytes |
| `Hex.EncodeInjective` | internal/cache/cache.go:65 | different byte strings never share an encoding |
| `Hex.HexDigitIsTableEntry` | internal/cache/cache.go:65 | the digit for nibble n is entry n of `0123456789abcdef` |
| `Cache.Wrap64` | internal/cache/cache.go:41 | the result is in int64 range, congruent to the input mod 2^64, and equal to it when it already fits |
| `Cache.TtlNanos` | internal/cache/cache.go:41 | the TTL of `ttlDays` days is exactly `ttlDays` × 86 400 × 10^9 ns for every day count from 0 to 106 751 |
| `Cache.UnixSeconds` | internal/cache/cache.go:109 | the timestamp is the whole second containing the write time |
| `Cache.EntryAt` | internal/cache/cache.go:105-110 | a written entry keeps request, response and status and is stamped with the second of the write |
| `Cache.GenerateKey` | internal/cache/cache.go:63-66 | the key is 64 lower-case hex characters that decode to the 32-byte digest of the body |
| `Cache.GenerateKeyDigestInjective` | internal/cache/cache.go:63-66 | two bodies with the same key have the same digest |
| `Cache.IsExpired` | internal/cache/cache.go:93 | an entry is expired exactly when more than ttl nanoseconds separate the read time from the start of its write second |
| `Cache.Lookup` | internal/cache/cache.go:72-100 | a read finds an entry exactly when the key holds a decodable record that is not older than the TTL, and then finds that record |
| `Cache.SetThenLookup` | internal/cache/cache.go:93-120 | an entry written at t is found at t2 when t2 − t ≤ ttl − (10^9 − 1), with the written response and status |
| `Cache.WholeSecondWindow` | internal/cache/cache.go:93-97 | for a write on a whole second, the entry is expired exactly when more than ttl has passed |
| `Cache.ExpiredAfterDeadline` | internal/cache/cache.go:93-97 | an entry is always expired once more than ttl has passed since its write |
| `Cache.CacheManager.Open` | internal/cache/cache.go:41-50 | an opened manager holds the engine's contents and the TTL computed from `ttlDays` |
| `Cache.CacheManager.Nil` | internal/cache/cache.go:16-19 | the zero-valued manager has no engine handle |
| `Cache.CacheManager.NewCacheManager` | internal/cache/cache.go:30-51 | a failed open returns nil and an error; otherwise a fresh manager over the persisted contents with TTL `TtlNanos(ttlDays)` |
| `Cache.CacheManager.Close` | internal/cache/cache.go:54-60 | with a nil engine the result is success and nothing happens; otherwise the result is the engine's close result |
| `Cache.CacheManager.Get` | internal/cache/cache.go:69-101 | missing key, failed read or undecodable record: a miss with the store unchanged; expired entry: a miss, and the key is removed unless its delete fails; otherwise a hit with the stored entry |
| `Cache.CacheManager.Set` | internal/cache/cache.go:104-133 | on success the key holds the new entry stamped with the write second and every other key is unchanged; on a failed write the store is unchanged and an error is returned |
| `Cache.CacheManager.Delete` | internal/cache/cache.go:136-147 | an absent key is success; afterwards the key is absent and the other keys are unchanged; a failed delete changes nothing and is reported |
| `Cache.CacheManager.RunGC` | internal/cache/cache.go:163-177 | "nothing to rewrite" is success; any other failure is returned as it came |
| `Cache.SetThenGet` | internal/cache/cache.go:69-133 | `Set` and then `Get` within the window return the written request, response and status |
| `Handler.ShouldCache` | internal/api/handler.go:94-109 | a reply is cacheable exactly when its status is 200, its body is non-empty, its envelope decodes and its code is 0 |
| `Handler.HitServesSameDigest` | internal/api/handler.go:94-119 | on a store the handler keeps consistent, a hit returns an entry recorded for a body with the same digest, with status 200 and code 0 |
| `Handler.RemoveKeepsConsistent` | internal/cache/cache.go:93-97 | removing an expired key keeps the store invariant |
| `Handler.SetKeepsConsistent` | internal/api/handler.go:112-119 | storing a cacheable reply under its own request's key keeps the store invariant |
| `Handler.SendErrorResponse` | internal/api/handler.go:174-184 | the transport status is 200 and the body is the encoded `{code, msg}` envelope carrying the proxy's status |
| `Handler.DataApiHandler` | internal/api/handler.go:36-132 | non-POST: 200 with code 405, and no cache access or upstream call; unreadable body: 200 with code 400; a hit is emitted verbatim with no upstream call and no `Set`; every miss, and every request while caching is off, is forwarded; transport failure: 200 with code 500 and no `Set`; `Set` is called exactly when caching is on and the reply is cacheable; upstream's status and body are emitted verbatim whether or not `Set` failed; the store invariant is preserved |
| `Handler.RepeatAfterCacheableReply` | internal/api/handler.go:64-126 | a cacheable reply for a body the cache does not answer (absent, expired or undecodable) is fetched once: the same POST again within the window is served from the cache with status 200 and upstream's body, without a second upstream call |
| `Handler.RepeatAfterUncacheableReply` | internal/api/handler.go:94-119 | a reply that is not cacheable is never stored: the same POST is forwarded again |
| `Config.ValidateConfig` | internal/config/config.go:63-100 | success only when all nine checks pass (non-empty host, port 1..65535, non-empty token, level, format and output, positive MaxSize, MaxAge and MaxBackups); otherwise the error of the first failing check, carrying the offending value |
| `Config.PortRange` | internal/config/config.go:70-72 | with every other field valid, a configuration is accepted exactly when its port is between 1 and 65535 |
| `Config.ApplyDefaults` | internal/config/config.go:52-60 | a missing host is `0.0.0.0`, a missing port 1155, a missing log table the logger's defaults; file values win otherwise |
| `Config.DefaultsAreValid` | internal/config/config.go:52-60 | a file that sets only the token yields a configuration the validator accepts |
| `Config.LoadOutcome` | internal/config/config.go:103-163 | loading succeeds exactly when the file is read, decodes and validates, yielding the defaulted configuration; a missing specified file is reported as such |
| `Config.ConfigState.constructor` | internal/config/config.go:37-44 | at start there is no configuration, no settings instance, no path and no watcher |
| `Config.ConfigState.LoadConfig` | internal/config/config.go:103-163 | the settings instance and current path are set only when loading succeeds, and nothing changes on failure |
| `Config.ConfigState.InitConfigFromPath` | internal/config/config.go:240-251 | the current configuration is replaced only on success; a failed load leaves all state unchanged |
| `Config.ConfigState.InitConfig` | internal/config/config.go:235-237 | initialisation with the conventional search path behaves as `InitConfigFromPath("")`: on success the configuration, the settings instance and the empty path are set; on failure its error is returned and all state is kept; the watchers never change |
| `Config.ConfigState.NotifyWatchers` | internal/config/config.go:204-208 | every registered watcher, in order, is given the new configuration |
| `Config.ConfigState.ReloadConfigFromPath` | internal/config/config.go:214-232 | on success the configuration is replaced and every watcher notified; on failure nothing changes and nobody is notified |
| `Config.ConfigState.ReloadConfig` | internal/config/config.go:192-211 | reloads from the remembered path: on success the configuration and settings instance are replaced and every watcher, in order, is given the new configuration; a failed reload returns its error, leaves all state unchanged and notifies nobody |
| `Config.ConfigState.UpdateServerPort` | internal/config/config.go:176-182 | without a configuration nothing changes; otherwise only the server port changes |
| `Config.ConfigState.WatchConfig` | internal/config/config.go:254-258 | the watcher is appended after the existing ones and nothing else changes |
| `Config.ConfigState.GetConfigValue` | internal/config/config.go:268-273 | nil without a settings instance, otherwise the instance's lookup |
| `Config.ConfigState.GetConfigString` | internal/config/config.go:276-281 | "" without a settings instance, otherwise the instance's lookup |
| `Config.ConfigState.GetConfigInt` | internal/config/config.go:284-289 | 0 without a settings instance, otherwise the instance's lookup |
| `Config.ConfigState.GetConfigBool` | internal/config/config.go:292-297 | false without a settings instance, otherwise the instance's lookup |
| `Config.ConfigState.GetConfigStringSlice` | internal/config/config.go:300-305 | empty without a settings instance, otherwise the instance's lookup |
| `Config.FailedReloadKeepsConfig` | internal/config/config.go:192-201 | after a successful load, a failed reload keeps the loaded configuration and path |

## Left out

- `forwardRawRequestToTushareAPI` (internal/api/handler.go:135-171): network I/O with a 30-second timeout. It is the `forward` parameter.
- SHA-256, JSON encoding and decoding: foreign library code. They are parameters. The SHA-256 parameter returns 32 bytes.
- `GetStats` and the sizes it logs in `RunGC`: storage-engine internals.
- The engine's native TTL (`WithTTL(cm.ttl)`, internal/cache/cache.go:118): the engine hides an entry once the whole second ⌊(t + ttl)/10^9⌋ of its deadline is reached, and the model's `Lookup` does not. Near the end of the window a real read can therefore miss where `Lookup`, `SetThenLookup` and `WholeSecondWindow` say it hits. The engine's code is not part of this model.
- Value-log collection: the model keeps only the store's logical contents, and collection does not change those.
- Cache.CacheManager.Get, Set, Delete and RunGC require `hasDb`: the Go methods dereference a nil `db` and panic (internal/cache/cache.go:72, 117, 137, 151). The program never calls them on a nil manager. Only `Close` has a nil guard, and the model keeps it.
- `StartGCRoutine`: a background goroutine on a five-minute ticker. It is concurrency, not sequential logic.
- DataApiHandler: concurrent requests, the mutexes in config.go and the goroutines that notify watchers are outside the sequential model. `NotifyWatchers` gives the set and order of notifications, not their concurrency.
- DataApiHandler: logging and the elapsed-time measurement are left out. `Write` errors are ignored by the source and have no effect on state. The `WriteHeader` panic for status codes outside 100..999 is not modelled.
- DataApiHandler: the global set by `SetCacheManager` is the `cm` parameter.
- DataApiHandler: it reads the clock twice, at lookup and at store time. These are the separate arguments `lookupAt` and `storeAt`.
- Cache.CacheManager.Get: `time.Since` saturates at the int64 range; the model subtracts exactly.
- Cache.CacheManager.Close: closing does not change the engine's contents in the model, and engine behaviour after close is not modelled.
- Config.LoadOutcome: viper's file discovery, the file-existence check and reading are one oracle from path to outcome. "" stands for the search for `proxy.toml` in `./` and `./config`.
- Config.ApplyDefaults: a default registered for the whole `log` table applies only when the file has no log table. A present table with missing fields gives their zero values.
- Config getters: viper's type conversions behind `GetString`, `GetInt`, `GetBool` and `GetStringSlice` are lookups of the settings instance, not a model of viper.
- Config: `GetConfig` returns a pointer in the source. The model returns the value, so a caller does not see later in-place updates through an alias.
- `loadConfigDefault` and `loadConfigFromPath`: one-line wrappers that call `loadConfig` with `""` or the given path. They are `ConfigState.LoadConfig` itself.
- `GetConfig` and `GetCurrentConfigPath` are plain field reads with no row.
- pkg/logger/logger.go, main.go and internal/server/http_server.go are not part of this model. Only the logger's default configuration, used as a default value, is taken from them.
