/**
 * What the core reads from code it cannot see. The package-level defaults
 * of the visor, skyenv, restart and appcommon packages form one Library
 * record; the foreign calls (public-key derivation, certificate
 * generation) are function values; the random draws of one run form an
 * Entropy record. Every property of the model holds for all of them.
 */
module Externals {
  import opened Types
  import opened Cipher

  /** routing.Port, a 16-bit port number. */
  type Port = p: int | 0 <= p < 0x1_0000

  // Library structures whose contents the core copies without looking inside.
  type STCPConfig
  type DmsgConfig
  type DmsgPtyOther
  type TransportOther
  type LogStoreOther
  type RoutingConfig
  type UptimeTrackerConfig
  type InterfaceConfig
  type Duration
  type CookieSettings

  /** visor.DmsgPtyConfig: the two fields the core overrides, and the rest. */
  datatype DmsgPtyConfig = DmsgPtyConfig(authFile: Path, cliAddr: string, other: DmsgPtyOther)

  /** visor.LogStoreConfig: the location the core overrides, and the rest. */
  datatype LogStoreConfig = LogStoreConfig(location: Path, other: LogStoreOther)

  /** visor.TransportConfig: the log store the core adjusts, and the rest. */
  datatype TransportConfig = TransportConfig(logStore: LogStoreConfig, other: TransportOther)

  /** The package-level defaults the two builders copy into their output. */
  datatype Library = Library(
    stcp: Result<STCPConfig, Error>,     // visor.DefaultSTCPConfig(), which may fail
    dmsg: DmsgConfig,                    // visor.DefaultDmsgConfig()
    dmsgPty: DmsgPtyConfig,              // visor.DefaultDmsgPtyConfig()
    transport: TransportConfig,          // visor.DefaultTransportConfig()
    routing: RoutingConfig,              // visor.DefaultRoutingConfig()
    uptimeTracker: UptimeTrackerConfig,  // visor.DefaultUptimeTrackerConfig()
    logLevel: string,                    // visor.DefaultLogLevel
    timeout: Duration,                   // visor.DefaultTimeout
    restartCheckDelay: string,           // restart.DefaultCheckDelay.String()
    interfaces: InterfaceConfig,         // visor.DefaultInterfaceConfig()
    appServerAddr: string,               // appcommon.DefaultServerAddr
    skychatName: string,                 // skyenv.SkychatName
    skychatPort: Port,                   // skyenv.SkychatPort
    skychatAddr: string,                 // skyenv.SkychatAddr
    skysocksName: string,                // skyenv.SkysocksName
    skysocksPort: Port,                  // skyenv.SkysocksPort
    skysocksClientName: string,          // skyenv.SkysocksClientName
    skysocksClientPort: Port,            // skyenv.SkysocksClientPort
    skysocksClientAddr: string,          // skyenv.SkysocksClientAddr
    cookieSettings: CookieSettings,      // what CookieConfig.FillDefaults adds besides the keys
    dmsgDiscAddr: string,                // skyenv.DefaultDmsgDiscAddr
    dmsgHypervisorPort: Port)            // skyenv.DmsgHypervisorPort

  /** The library defaults and the deterministic foreign calls. */
  datatype Env = Env(
    lib: Library,
    pubKeyOf: SecKey -> Result<PubKey, Error>,  // cipher.SecKey.PubKey
    genCert: (Path, Path) -> Option<Error>)     // GenCert(certFile, keyFile)

  /** The random draws of one run. */
  datatype Entropy = Entropy(
    keyPair: KeyPair,  // cipher.GenerateKeyPair()
    blockKey: Bytes,   // cipher.RandByte(32)
    hashKey: Bytes)    // cipher.RandByte(64)

  /**
   * What the random source guarantees: a generated pair is non-null and
   * consistent with key derivation, and RandByte(n) yields n bytes.
   */
  predicate WellFormedEntropy(env: Env, ent: Entropy) {
    && !IsNull(ent.keyPair.sk)
    && env.pubKeyOf(ent.keyPair.sk) == Success(ent.keyPair.pk)
    && |ent.blockKey| == 32
    && |ent.hashKey| == 64
  }
}
