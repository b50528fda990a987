# prepconf: first-boot configuration materialisation, in Dafny

This project models the `prepconf` package of skybian. At a node's first boot,
`Prepare` writes the node's default configuration, once. The boot mode selects
the role. A **hypervisor** gets its configuration file at `Config.HypervisorConf`
and a **visor** at `Config.VisorConf`. If that file already exists, nothing
happens. Otherwise the file is created. The chosen builder assembles the
configuration record, which is serialised as indented JSON, written and closed.
The builders derive the node's key pair with `genKeyPair`, which reuses the
secret key supplied at boot or generates a fresh pair.

The model's layout:

- `types.dfy`: Option/Result, the error values and `prepconf.Config`.
- `cipher.dfy`: the key types; the null secret key is all zeros.
- `boot.dfy`: the boot mode and the fields of `boot.Params` that the core reads.
- `externals.dfy`: what the core reads but cannot see:
  - the library defaults, as one `Library` record;
  - public-key derivation and `GenCert`, as function values;
  - the random draws of one run, as an `Entropy` record.
  Every property holds for every value of these.
- `key_pair_deriver.dfy`: `genKeyPair`.
- `visor_config_builder.dfy`: `generateVisorConfig` with its `skysocksArgs` and
  `hypervisors` closures. The closure's append loop is a method. The builder is
  a method proved equal to the specification function `VisorConfigOf`.
- `hypervisor_config_builder.dfy`: `generateHypervisorConfig`. It is a method
  proved equal to the specification function `HypervisorConfigOf`.
- `os.dfy`: the filesystem, as a class whose `files: map<Path, Bytes>` the four
  calls update. Each call may fail, and the environment chooses which one does.
- `config_materializer.dfy`: `Prepare` and its `ensureExists` closure.
  - The methods return a ghost `Trace` and a ghost step log. The trace records
    which calls failed. The step log records what happened, in order.
  - Their postconditions equate the outcome with the pure `PrepareSpec` or
    `EnsureExistsSpec` of the same trace.
  - The write-once, error-priority and idempotence policies are lemmas about
    `PrepareSpec`, and they hold for every trace.

## Model

| member | source | states |
|---|---|---|
| `KeyPairDeriver.NullKeyUsesDraw` | pkg/prepconf/prepare.go:72-74 | A null boot secret key yields exactly the freshly generated pair, so different draws give different pairs. |
| `KeyPairDeriver.SuppliedKeyKept` | pkg/prepconf/prepare.go:72-79 | A non-null boot key is kept as the secret key. The result succeeds exactly when derivation does and then carries the derived public key. Otherwise the derivation error is passed through. The result does not depend on the random draw. |
| `KeyPairDeriver.PublicKeyDerived` | pkg/prepconf/prepare.go:72-79 | If the random source is well formed, every pair handed out has a non-null secret key and a public key derived from that secret key. |
| `VisorConfigBuilder.SkysocksArgsRoundTrip` | pkg/prepconf/prepare.go:82-87 | The proxy-server argument list is empty exactly when the passcode is `""`, and the passcode can always be read back from it. |
| `VisorConfigBuilder.AllowListOnePerKey` | pkg/prepconf/prepare.go:88-93 | The allow-list has one entry per boot hypervisor key, in the same order, each holding only that key. |
| `VisorConfigBuilder.AllowListRoundTrip` | pkg/prepconf/prepare.go:88-93 | Reading the keys back from the allow-list gives exactly the boot keys. |
| `VisorConfigBuilder.Hypervisors` | pkg/prepconf/prepare.go:88-93 | The append loop builds exactly the allow-list specification: same length as the keys, and entry i holds key i. |
| `VisorConfigBuilder.AppTableShape` | pkg/prepconf/prepare.go:124-143 | There are three apps, in the order chat, proxy server, proxy client. Their auto-start flags are true, true, false, and each runs on its library port. Chat and proxy client get `["-addr", addr]` with their library address. Proxy-server args are `[]` with no passcode and `["-passcode", p]` otherwise. The other two entries do not depend on the passcode. |
| `VisorConfigBuilder.GenerateVisorConfig` | pkg/prepconf/prepare.go:81-145 | Filling the visor record step by step returns exactly `VisorConfigOf`, the specification whose properties the lemmas below state. |
| `VisorConfigBuilder.VisorConfigErrors` | pkg/prepconf/prepare.go:94-107 | A key-derivation error wins over everything else, then a failing STCP default. A record is produced exactly when neither fails. |
| `VisorConfigBuilder.VisorConfigContents` | pkg/prepconf/prepare.go:98-143 | A produced visor record holds the version, the run's key pair, the order-preserving allow-list and exactly the three-app table `AppTable` carrying the passcode. It also holds the dmsgpty and transport overrides on top of the defaults, and the app paths. |
| `VisorConfigBuilder.TwoHypervisorsWithPasscode` | pkg/prepconf/prepare.go:81-145 | With keys [pkA, pkB] and passcode "secret", the allow-list is exactly those two entries and the proxy server gets `-passcode secret`. |
| `HypervisorConfigBuilder.GenerateHypervisorConfig` | pkg/prepconf/prepare.go:147-169 | Starting from a zero record (`new(hypervisor.Config)`), it sets one field per step, fills the cookie defaults and then calls GenCert on the copied TLS paths. The result is exactly `HypervisorConfigOf`, the specification whose properties the two lemmas below state. |
| `HypervisorConfigBuilder.HypervisorConfigErrors` | pkg/prepconf/prepare.go:147-169 | A key-derivation error wins, then the GenCert error. In the model, the builder returns a record exactly when neither fails. Go returns the record alongside the GenCert error, but ensureExists discards it (lines 47-48), so the two agree on what `Prepare` does. |
| `HypervisorConfigBuilder.HypervisorConfigContents` | pkg/prepconf/prepare.go:152-166 | A produced hypervisor record holds the run's key pair, the TLS paths copied from `Config` and the drawn cookie keys, which are 32 and 64 bytes from a well-formed source, with the library's other cookie settings filled in. Auth and TLS are enabled, and the database path, HTTP address and discovery defaults are set. |
| `Os.WriteAt0Prefix` | pkg/prepconf/prepare.go:41-54 | A write through a handle opened without truncation puts the written bytes first and keeps the tail of a longer prior file. |
| `Os.FileSystem.Stat` | pkg/prepconf/prepare.go:37 | Stat succeeds only on a file that exists. It may fail on one that exists. |
| `Os.FileSystem.OpenFile` | pkg/prepconf/prepare.go:41-44 | Opening creates an empty file if none exists and keeps an existing one unchanged. On failure it returns an open path error and changes nothing. |
| `Os.FileSystem.Write` | pkg/prepconf/prepare.go:54 | A write writes n <= len bytes at offset 0, all of them unless it fails. |
| `Os.FileSystem.Close` | pkg/prepconf/prepare.go:55 | Close changes no file and may fail with a close path error. |
| `ConfigMaterializer.Build` | pkg/prepconf/prepare.go:46-49 | Running the chosen genFn gives the chosen builder's specification. |
| `ConfigMaterializer.EnsureExists` | pkg/prepconf/prepare.go:35-59 | The stat, open, build, serialise, write and close sequence has exactly the outcome `EnsureExistsSpec` gives for the choices the filesystem made: the error, the files and the steps. |
| `ConfigMaterializer.Prepare` | pkg/prepconf/prepare.go:28-70 | The mode switch over ensureExists has exactly the outcome `PrepareSpec` gives for the filesystem's choices. |
| `ConfigMaterializer.InvalidModeTouchesNothing` | pkg/prepconf/prepare.go:67-68 | An unrecognised mode returns InvalidMode, leaves the filesystem unchanged and takes no step. |
| `ConfigMaterializer.OnlyTargetTouched` | pkg/prepconf/prepare.go:62-66 | Hypervisor mode can change only `Config.HypervisorConf`, and visor mode only `Config.VisorConf`. Of the files the model tracks, every other one keeps its contents and no other one appears. GenCert's certificate files are not tracked. |
| `ConfigMaterializer.ExistingTargetUntouched` | pkg/prepconf/prepare.go:37-39 | When Stat sees the target, the run returns nil, leaves every file unchanged and never reaches the builder. |
| `ConfigMaterializer.AbsentTargetWritten` | pkg/prepconf/prepare.go:41-58 | On an absent target, the run returns nil exactly when open, build, serialisation, write and close all succeed. The new file then holds exactly the serialised configuration. |
| `ConfigMaterializer.BuildFailureLeavesEmptyFile` | pkg/prepconf/prepare.go:41-53 | A build or serialisation failure after the create returns that error and writes nothing, so the target is left empty. |
| `ConfigMaterializer.WriteErrorTakesPriority` | pkg/prepconf/prepare.go:54-58 | Once the file is open and the bytes are ready, close is always called. A write error is returned even when close also fails. A close error is returned only after a successful write. |
| `ConfigMaterializer.SecondRunIsNoop` | pkg/prepconf/prepare.go:35-39 | After a successful run, a second run for the same mode is a no-op returning nil when its Stat sees the file. This holds with any randomness, collaborators or encoder. |
| `ConfigMaterializer.FailedBuildSticks` | pkg/prepconf/prepare.go:37-53 | A run that fails in the builder or encoder leaves an empty target. Every later run whose Stat sees the file then succeeds without filling it. |
| `ConfigMaterializer.StatFailureOverwritesPrefix` | pkg/prepconf/prepare.go:37-41 | If Stat fails on an existing, longer file and the rest succeeds, the untruncated open lets the new bytes overwrite only a prefix and the old tail survives. |

## Left out

- Real filesystem calls are replaced by `Os.FileSystem` over a path-to-bytes map. Permission bits (`0644`), errno values and the file handle left open on the error paths are not modelled. The error Stat returns is not modelled beyond "it failed", since the source discards it.
- `Os.FileSystem.Write`: writes only at offset 0, because ensureExists makes a single write on a freshly opened handle.
- JSON encoding (`json.MarshalIndent`) is a function parameter that may fail. Its output format is not modelled.
- Cryptography is not modelled. The random draws (`cipher.GenerateKeyPair`, `cipher.RandByte(32)`, `cipher.RandByte(64)`) are the `Entropy` parameter and `sk.PubKey()` is a function parameter. The claim that two runs draw different pairs is stated only relative to different draws.
- `CookieConfig.FillDefaults` is modelled as keeping the two drawn keys and adding the library's other cookie settings. Its own logic is not part of this model.
- `GenCert` is not part of this model beyond its returned error. The certificate and key files it writes are not in the modelled filesystem.
- The library defaults (`visor.Default*`, `skyenv.*`, `restart.DefaultCheckDelay`, `appcommon.DefaultServerAddr`) are one `Library` record parameter, and the library's own structures are abstract types. `visor.DefaultSTCPConfig` keeps its possible error.
- The fields of `boot.Params`, `visor.Config`, `visor.HypervisorConfig` and `hypervisor.Config` that the core never sets or reads are not represented.
- Go's nil slice and empty slice are both the empty sequence. The JSON encoder writes a nil slice as `null`, for example the proxy-server args with no passcode or an empty allow-list.
- The race between Stat and OpenFile, when two provisioning processes run at once, is left out because it is a concurrency issue.
- The model follows what the code does at two points:
  - The open is `O_WRONLY|O_CREATE` with neither `O_EXCL` nor `O_TRUNC`, not an exclusive create, hence `StatFailureOverwritesPrefix`.
  - A close error is reported too, after a successful write.
- `HypervisorConfigBuilder.HypervisorConfigOf` returns only the GenCert error, where Go's `generateHypervisorConfig` also returns the filled record. ensureExists discards that record as soon as the error is non-nil, so `Prepare` behaves the same either way.
