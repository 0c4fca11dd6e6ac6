# kmyh-config, modelled in Dafny

kmyh-config is a Go configuration layer. It keeps typed configuration documents in
sync with a watchable etcd key space. This project models its sequential logic:

- **The configuration manager** (manager.go), as two classes.
  - `ConfigManager` derives a storage key `prefix/app/env/group/content.yaml` for each
    (application, environment, group) triple.
  - It keeps a registry of groups under those keys and creates a group on first use.
  - It records which groups have had their watch started, and `Stop` closes it.
  - `ConfigGroup` holds the last document read, its typed getters and an append-only
    list of change callbacks.
  - One watch response refreshes a group per event and starts its callbacks.
- **The field validators**: every `Validate` in types.go and the config_*.go files.
  Each is an ordered chain of early-return checks. Each is tied to one reference
  function, `FirstFailure`: the first failing check decides the error, and nil means
  every check held.
- **The connection-string builders and address formatters.**
  - `DatabaseConfig.Dsn` with its parameter parser, in config_database.go.
  - The verbatim-parameters `DSN` of remote/database.go.
  - `HttpConfig.ListenAddr` and `RedisConfig.Addr`.
- **The log-level logic** of zap.go and src/zap.go.
  - The case-insensitive `toLevel` parser.
  - The four level enablers, which route each entry to one core.
  - The JSON/console encoder choice.

Files:

- `wrappers.dfy`: `Option`.
- `strings.dfy`: the Go library string functions the code relies on, over
  `seq<char>`. These are `strings.Split`, `strings.SplitN(…, 2)`, `strings.TrimSpace`
  with `unicode.IsSpace`, `%d` formatting and its inverse.
- `configs.dfy`: the configuration datatypes and their `Validate`, `ListenAddr` and `Addr`.
- `conn_strings.dfy`: the DSN builders and `parseParameters`.
- `logging.dfy`: `toLevel`, the enablers and the encoder choice.
- `manager.dfy`: the registry, the groups and the watch loop.

Go types declared twice with the same fields and methods are modelled once:

- `DatabaseConfig`'s Validate (types.go and config_database.go).
- `EtcdConfig` (types.go and config_etcd.go).
- `AppConfig` (types.go and app.go).
- The Weixin, middleware, Dify, NATS, Fuiou and PRTG types.

The two `HttpConfig` declarations differ, so they are kept apart:

- `HttpListenConfig` for types.go (a `Listen` field).
- `HttpConfig` for config_http.go (`Host`/`Port`).

Integers (`int`, `int64`, `time.Duration`) are unbounded. No operation here does
arithmetic on them; they are only compared and printed. zap's `Level` is an
`int8` newtype, with Debug = -1 up to Fatal = 5.

The run is modelled as sequential: each method call and each watch response is one
atomic step. A goroutine start is recorded, not run:

- `GetGroup` appends the group whose watch it starts to `watched`.
- `NotifyWatchers` returns the callbacks it starts, in order.

A remote read (the initial read and each re-read) is an input. It yields either an
error (`ReadErr`) or, on success, an abstract key/value map (`ReadOk`). That map
stands for viper's store after the read, not for the fetched document alone.

Points of the code that the model keeps as they are:

- `GetString`, `GetInt` and `GetBool` (manager.go:155-167) do no conversion. They are
  bare Go type assertions, which panic on an absent key or a value of another type.
  The model gives them a precondition that the stored value is present and of that
  type.
- `GetGroup` looks the key up under the read lock, releases it, and later inserts
  under the write lock without looking again (manager.go:49-54, 80-82). The
  sequential model does not depend on this; see "Left out".
- The watch loop re-reads the document and notifies once per event, not once per
  response (manager.go:100-112), and the model does the same.

## Model

| member | source | states |
|---|---|---|
| Manager.GroupKey | manager.go:47 | the storage key is prefix, app, env, group and `content.yaml` joined by '/', i.e. the group directory plus `/content.yaml` |
| Manager.GroupKeyInjective | manager.go:47 | under one prefix, components free of '/' are determined by the key: equal keys mean equal app, env and group |
| Manager.GroupKeyAliasing | manager.go:47 | with a '/' inside a component, two different triples share one key |
| Manager.Delivered | manager.go:94-95 | a prefix watch on a key receives exactly the changes to keys that start with it |
| Manager.WatchKeyAsWritten | manager.go:92 | the watched prefix as written is the group key with one '/' appended |
| Manager.DocumentChangeMissedAsWritten | manager.go:92-95 | the prefix watch as written never covers the group's own document key |
| Manager.WatchPrefix | manager.go:142 | the corrected watch prefix is the group directory with a trailing '/': the key with `content.yaml` removed |
| Manager.DocumentChangeDelivered | manager.go:92-95 | with the corrected prefix, a change to the group's document is delivered to its watch |
| Manager.ConfigManager.constructor | manager.go:34-43 | a new manager has the etcd prefix from the config, an empty registry, no watch started and an open client, and satisfies the registry invariant |
| Manager.ConfigManager.GetGroup | manager.go:46-88 | an existing key returns the stored group with registry and watches unchanged. An unknown key creates a fresh group with that key, the corrected watch prefix, no watchers and the store left by the initial read (empty when it failed). It registers the group under the key and starts exactly one watch for it. No key is removed or rebound, and the registry invariant is preserved |
| Manager.GetGroupTwice | manager.go:49-53 | two sequential calls with the same names return the identical object, and the registry is the old one with only that key bound |
| Manager.ConfigManager.WatchResponse | manager.go:99-113 | processing a response leaves the snapshot equal to `Refreshed` of the events and the watchers unchanged. The callbacks started are `Notifications`: all watchers, in order, per successful re-read, and nothing for a failed one |
| Manager.ConfigManager.Stop | manager.go:123-126 | marks the client closed, returns the close error, and leaves the registry and the watches as they were |
| Manager.ConfigGroup.constructor | manager.go:72-77 | a new group has the given key and watch prefix, no watchers, and the store left by the initial read, or an empty snapshot when it failed |
| Manager.ConfigGroup.Get | manager.go:148-152 | the value stored under the key, or None (nil) exactly when the key is absent |
| Manager.ConfigGroup.GetString | manager.go:155-157 | defined only where the stored value is a string, and returns that string |
| Manager.ConfigGroup.GetInt | manager.go:160-162 | defined only where the stored value is an int, and returns that int |
| Manager.ConfigGroup.GetBool | manager.go:165-167 | defined only where the stored value is a bool, and returns that bool |
| Manager.ConfigGroup.OnChange | manager.go:179-183 | the callback is appended at the end; earlier watchers, their order and the snapshot are unchanged |
| Manager.ConfigGroup.NotifyWatchers | manager.go:186-192 | starts every registered watcher exactly once, in slice order |
| Manager.FailedRereadsAreInert | manager.go:106-109 | if every re-read fails, no callback starts and the snapshot is kept |
| Manager.NotificationCount | manager.go:99-113 | the number of callbacks started is the number of watchers times the number of successful re-reads |
| Manager.NotificationsAppend | manager.go:99-100 | two responses in turn start the concatenation of what each starts |
| Manager.RefreshedIsLastSuccess | manager.go:105-109 | after a response, the snapshot is the store left by its last successful re-read |
| Configs.FirstFailure | types.go:26-39 | an early-return chain yields nil iff every check holds; otherwise it yields the message of some check that fails while all earlier ones hold |
| Configs.FirstFailureAt | types.go:99-113 | when check i is the first to fail, its message is the one returned |
| Configs.EtcdConfig.Validate | config_etcd.go:26-39 | the chain: endpoints present, then no endpoint empty, then a positive dial timeout. Each error's exact circumstances are stated both ways, and nil iff all three hold |
| Configs.EtcdIgnoresCredentialsTlsPrefix | types.go:26-39 | username, password, TLS and prefix never change the result |
| Configs.AppConfig.Validate | app.go:17-28 | the chain: app name, then environment, then a non-empty endpoint list. Each error's circumstances are stated both ways, and nil iff all three hold |
| Configs.AppValidFromEtcdValid | types.go:69-80 | a valid etcd section and both names give a valid application config |
| Configs.AppValidDoesNotValidateEtcd | app.go:24-26 | an application config with an empty endpoint string and a zero timeout passes, while its etcd section fails |
| Configs.DatabaseConfig.Validate | config_database.go:26-40 | the chain: engine, host, positive port, name, in that order (identical in types.go:99-113); fails iff any of the four is missing |
| Configs.HttpListenConfig.Validate | types.go:122-127 | fails iff the listen address is empty; the prefix is never checked |
| Configs.HttpConfig.Validate | config_http.go:20-28 | the host is checked before the port; nil iff a host is present and the port is positive |
| Configs.HttpConfig.ListenAddr | config_http.go:15-17 | splitting at the last ':' gives back the host and the port's `%d` text, which parses back to the port |
| Configs.HostPort | config_http.go:16 | `%s:%d` separates at its last ':' into the host and the rendered port, whatever the host contains |
| Configs.ListenAddrDoesNotValidate | config_http.go:15-17 | a negative port is rendered as it is (`:-1`), though Validate rejects the config |
| Configs.RedisConfig.Addr | config_redis.go:13-15 | host and `%d` port around the last ':'; the port text starts with '-' iff the port is negative |
| Configs.RedisAddrIgnoresOtherFields | config_redis.go:13-15 | password, key prefix and database index never change the address |
| Configs.RedisAddrEmptyHost | config_redis.go:14 | an empty host gives ':' followed by the port |
| Configs.DifyConfig.Validate | config_dify.go:16-24 | base URL first, then API key; each error's circumstances both ways, nil iff both are present |
| Configs.DifyDependsOnUrlAndKey | types.go:140-148 | cache period, prompt, bot type and workflow id never change the result |
| Configs.FuiouConfig.Validate | config_fuiou.go:11-16 | fails iff the merchant key is empty, with the fuiou message |
| Configs.NatsConfig.Validate | config_natsmq.go:14-19 | fails iff the address is empty, with the nats message |
| Configs.NatsDependsOnAddress | types.go:172-177 | username, password and subscriptions never change the result |
| Configs.PrtgConfig.Validate | config_prtg.go:11-16 | fails iff the subject is empty, with the prtg message |
| Configs.WorkwxWebHookConfig.Validate | config_weixin.go:30-35 | fails iff the key is empty; the subject is never checked |
| Configs.WorkwxAppConfig.Validate | config_weixin.go:49-63 | the chain: address, corp secret, positive agent id, token; nil iff all four hold |
| Configs.WorkwxAppIgnoresKeyAndSubjects | types.go:236-250 | the AES key and the two subjects never change the result |
| Configs.WeixinConfig.Validate | config_weixin.go:16-21 | fails iff enabled without a corp id; a disabled config always passes |
| Configs.WeixinIgnoresNested | types.go:203-208 | with a corp id the config passes whatever the nested webhook and app configs hold |
| Configs.IpWhiteListConfig.Validate | config_middle.go:22-27 | fails iff enabled with no entries |
| Configs.MiddleConfig.Validate | config_middle.go:11-13 | the whitelist's own chain, so it fails iff the whitelist is enabled and empty |
| Configs.WhiteListEntriesNotInspected | types.go:258-274 | any non-empty whitelist passes, even one holding an empty entry |
| Strings.Split | config_database.go:75 | there is always at least one piece, so the text without any separator is a single piece |
| Strings.SplitJoin | config_database.go:75 | the pieces contain no separator and joined with it give back the text |
| Strings.SplitOfJoin | config_database.go:75 | splitting a join of separator-free pieces gives back the pieces |
| Strings.SplitFirst | config_database.go:82-83 | two parts exactly when the text holds the separator; the first part is separator-free and the parts rebuild the text |
| Strings.SplitFirstAt | config_database.go:82-85 | the split happens at the first '=', so later '=' stay in the value |
| Strings.IsSpace | config_database.go:77 | the runes `strings.TrimSpace` removes, as `unicode.IsSpace` defines them (tab, newline, vertical tab, form feed, carriage return, space, U+0085, U+00A0 and the other Unicode White_Space runes); none of them is a letter, a digit or '=', so trimming never removes one |
| Strings.TrimSpace | config_database.go:77 | the result is a slice of the input with only white space outside it, and it neither starts nor ends with white space |
| Strings.TrimSpaceKeepsTrimmed | config_database.go:77 | a text without leading or trailing white space is unchanged |
| Strings.FormatInt | config_http.go:16 | `%d` gives decimal digits with a leading '-' exactly for negative numbers, and no leading zero except for 0 itself |
| Strings.FormatIntRoundTrip | config_redis.go:14 | parsing the `%d` text gives back the number |
| ConnStrings.Base | config_database.go:43-49 | the `%s:%s@tcp(%s:%d)/%s` text (also the start of remote/database.go:21): `user:password@tcp(` first, `)/name` last, and between them an address whose last ':' separates the host from the port's `%d` text |
| ConnStrings.Add | config_database.go:84 | `url.Values.Add` appends the value to the key's list and leaves every other key alone |
| ConnStrings.Separator | config_database.go:70-73 | ',' iff the text has no '&' but has a ','; '&' otherwise |
| ConnStrings.PiecePair | config_database.go:76-85 | a piece yields a pair iff its trimmed form holds '='. If so, the key is the text before the first '=' and the value the rest, possibly empty or holding more '=' |
| ConnStrings.PiecePairOfWellFormed | config_database.go:82-85 | an already-trimmed `key=value` piece with '='-free key yields exactly that pair |
| ConnStrings.PiecePairsFromPieces | config_database.go:75-86 | every pair comes from some piece's trimmed text split at its first '=' |
| ConnStrings.CollectLookup | config_database.go:84 | repeated keys are all kept: a key is present iff some pair has it, with all its values in input order |
| ConnStrings.CollectEmpty | config_database.go:53 | the value map is empty iff no pair survived parsing |
| ConnStrings.PairsOfEmpty | config_database.go:65-67 | empty parameters yield no pairs |
| ConnStrings.ParseParameters | config_database.go:62-89 | the loop builds exactly the values of adding each usable piece's pair in order |
| ConnStrings.Dsn | config_database.go:42-58 | always starts with `user:password@tcp(host:port)/name`. It equals that prefix iff no pair survives. Otherwise the prefix is followed by '?' and the encoded values, and empty parameters give no '?' |
| ConnStrings.RemoteDsn | remote/database.go:20-22 | the shared prefix and '?' always come first, then the parameters verbatim |
| ConnStrings.RemoteDsnIgnoresOtherFields | remote/database.go:20-22 | engine, table prefix and pool sizes never change either builder's output |
| ConnStrings.BuildersDifferOnEmptyParameters | remote/database.go:21 | with empty parameters the remote DSN still ends in '?' |
| Logging.ToLower | zap.go:81 | lowers the ASCII capitals, U+0130 and U+212A and keeps every other rune; the length is kept and no ASCII capital remains |
| Logging.ToLowerIdempotent | zap.go:81 | lower-casing twice equals lower-casing once |
| Logging.ToLevel | zap.go:80-98 | the result is always one of the seven levels from Debug to Fatal |
| Logging.ToLevelOfName | zap.go:82-95 | a text whose lower-cased form is one of the seven names yields that level |
| Logging.ToLevelDefault | zap.go:96-97 | any other text, the empty one included, yields Info |
| Logging.ToLevelCaseInsensitive | src/zap.go:89-90 | a text and its lower-cased form give the same level |
| Logging.ToLevelRoundTrip | src/zap.go:91-104 | parsing a level's name gives back the level |
| Logging.Enabled | zap.go:43-61 | the four `LevelEnablerFunc` predicates (also src/zap.go:51-69): none accepts a level below Debug, and from Error up only the error core accepts |
| Logging.EnablersPartition | zap.go:43-61 | every level from Debug up is accepted by exactly one of the four enablers; a level below Debug by none |
| Logging.ParsedLevelHasOneCore | src/zap.go:51-69 | whatever the configured text, its level is accepted by exactly one core |
| Logging.EncoderFor | zap.go:37-41 | the JSON encoder iff the format is exactly "json" |
| Logging.EncoderForApp | src/zap.go:42-46 | the JSON encoder iff the application's logger format is exactly "json" |
| Logging.EncoderCaseSensitive | zap.go:37 | "JSON" gets the console encoder, although it lower-cases to "json" |

## Left out

- Concurrency: the goroutines, the `sync.RWMutex` locks and the blocking range over the watch channel. Each call and each watch response is one atomic step. Nothing is claimed about concurrent first access: `GetGroup` does not re-check the map under the write lock, so racing callers can replace each other's group.
- How viper's store changes on a read: `ReadRemoteConfig` decodes the fetched document into the store it already holds, so a key deleted from the document can stay after a successful re-read, and a failed decode can leave the store partly updated. The model takes the store after a successful read as the input (`ReadOk`) and keeps the store unchanged on a failed read.
- The etcd and viper calls (`AddRemoteProvider`, `ReadRemoteConfig`, `viper.Get`, `client.Watch`, `client.Close`). They are foreign code and network I/O. Their results are inputs to the model: `ReadResult` for each read, the event list for each watch response, the close error for `Stop`. viper's own lookup rules for keys are not modelled; `Get` is a plain map lookup in the snapshot.
- The `logger.Fatal` path when `AddRemoteProvider` fails (manager.go:61-64): it ends the process.
- All logging calls, which make no difference to the state.
- `Unmarshal` (manager.go:170-176): decoding through mapstructure is library behaviour.
- `StartWatching` (manager.go:118-120): it only logs.
- `url.Values.Encode` (config_database.go:54): percent-encoding and key sorting are library behaviour. `Dsn` takes the encoder as a function parameter.
- `NewAppConfig` (app.go), `NewZapLogger`'s core assembly, `toWriter` and `localTimeEncoder` (zap.go, src/zap.go). They read files, build writers on disk and stdout, and format time.
- The etcd client builders (etcd.go, src/etcd.go, pkg/etcd.go) and the dependency-injection wiring (module.go). They are network and framework code.
- The typed accessor that maps a schema type to a group. No source file defines it: example/usage_example.go only calls `GetConfig` and `NewConfigManagerDirect`.
- Struct-only files, whose tags only matter to mapstructure.
- Logging.ToLower (through Logging.LowerChar): lowers the ASCII capitals plus U+0130 and U+212A, the two non-ASCII runes Go lowers to ASCII letters. Other non-ASCII capitals are kept as they are, while Go lowers them ("É" stays "É" here, Go gives "é"). This makes no difference to which level name matches, since a name can only match a text whose every rune lowers to an ASCII letter.
- Configs.FuiouConfig.Validate, Configs.NatsConfig.Validate, Configs.PrtgConfig.Validate: the promise that Validate never changes its receiver holds by construction, since the configs are immutable values; no lemma states it.
- Manager.ConfigManager.GetGroup: newly created groups get the corrected watch prefix (see Findings), not the prefix the code builds.

## Findings

| source | as written | input that shows it | evidently intended | confidence | as-written member | corrected member |
|---|---|---|---|---|---|---|
| manager.go:92 | the watch is opened on `groupKey + "/"`, where `groupKey` already ends in `/content.yaml` | prefix `/configs`, app `myapp`, env `prod`, group `database`: the document key `/configs/myapp/prod/database/content.yaml` does not start with the watched prefix `/configs/myapp/prod/database/content.yaml/`, so changes to the document never reach the watch | watch the group's directory `/configs/myapp/prod/database/`, the form the `groupKey` comment at manager.go:142 shows | medium, not executed | Manager.DocumentChangeMissedAsWritten | Manager.DocumentChangeDelivered |
