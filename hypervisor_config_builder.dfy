/**
 * generateHypervisorConfig: the hypervisor's configuration record, built
 * from the key pair of the run, fresh cookie keys, the library defaults and
 * the TLS paths of prepconf.Config; it also asks for the TLS certificate.
 */
module HypervisorConfigBuilder {
  import opened Types
  import opened Cipher
  import opened Boot
  import opened Externals
  import opened KeyPairDeriver

  const DB_PATH := "/var/skywire-hypervisor/users.db"
  const HTTP_ADDR := ":8000"

  /**
   * hypervisor.CookieConfig: the two random keys, and the remaining settings,
   * None while they still hold their zero values.
   */
  datatype CookieConfig = CookieConfig(blockKey: Bytes, hashKey: Bytes, settings: Option<CookieSettings>)

  /** hypervisor.Config, restricted to the fields the core sets. */
  datatype HypervisorConfig = HypervisorConfig(
    pk: PubKey,
    sk: SecKey,
    dbPath: Path,
    enableAuth: bool,
    cookies: CookieConfig,
    dmsgDiscovery: string,
    dmsgPort: Port,
    httpAddr: string,
    enableTLS: bool,
    tlsCertFile: Path,
    tlsKeyFile: Path)

  /** new(hypervisor.Config): every field at its zero value. */
  const ZERO_HYPERVISOR_CONFIG: HypervisorConfig := HypervisorConfig(
    seq(PUB_KEY_LEN, _ => 0), seq(SEC_KEY_LEN, _ => 0), "", false,
    CookieConfig([], [], None), "", 0, "", false, "", "")

  /** CookieConfig.FillDefaults: keeps the keys and gives the other settings the library's values. */
  function FillDefaults(c: CookieConfig, lib: Library): CookieConfig {
    c.(settings := Some(lib.cookieSettings))
  }

  /** The record generateHypervisorConfig returns, or the first error it meets. */
  function HypervisorConfigOf(conf: Config, bp: Params, env: Env, ent: Entropy): Result<HypervisorConfig, Error> {
    var keys := GenKeyPair(bp, env, ent);
    if keys.Failure? then Failure(keys.error)
    else
      var certErr := env.genCert(conf.tlsCert, conf.tlsKey);
      if certErr.Some? then Failure(certErr.value)
      else
        Success(HypervisorConfig(
          keys.value.pk, keys.value.sk, DB_PATH, true,
          CookieConfig(ent.blockKey, ent.hashKey, Some(env.lib.cookieSettings)),
          env.lib.dmsgDiscAddr, env.lib.dmsgHypervisorPort, HTTP_ADDR, true,
          conf.tlsCert, conf.tlsKey))
  }

  /**
   * generateHypervisorConfig: starting from a zero record, sets one field
   * per step, then generates the certificate for the TLS paths it copied.
   */
  method GenerateHypervisorConfig(conf: Config, bp: Params, env: Env, ent: Entropy)
    returns (r: Result<HypervisorConfig, Error>)
    ensures r == HypervisorConfigOf(conf, bp, env, ent)
  {
    var keys := GenKeyPair(bp, env, ent);
    if keys.Failure? {
      return Failure(keys.error);
    }
    var out := ZERO_HYPERVISOR_CONFIG;
    out := out.(pk := keys.value.pk);
    out := out.(sk := keys.value.sk);
    out := out.(dbPath := DB_PATH);
    out := out.(enableAuth := true);
    out := out.(cookies := out.cookies.(blockKey := ent.blockKey));
    out := out.(cookies := out.cookies.(hashKey := ent.hashKey));
    out := out.(cookies := FillDefaults(out.cookies, env.lib));
    out := out.(dmsgDiscovery := env.lib.dmsgDiscAddr);
    out := out.(dmsgPort := env.lib.dmsgHypervisorPort);
    out := out.(httpAddr := HTTP_ADDR);
    out := out.(enableTLS := true);
    out := out.(tlsCertFile := conf.tlsCert);
    out := out.(tlsKeyFile := conf.tlsKey);
    var certErr := env.genCert(out.tlsCertFile, out.tlsKeyFile);
    r := if certErr.Some? then Failure(certErr.value) else Success(out);
  }

  /**
   * Error order: a key-derivation failure wins, then the certificate error;
   * the record is produced exactly when neither fails.
   */
  lemma HypervisorConfigErrors(conf: Config, bp: Params, env: Env, ent: Entropy)
    ensures HypervisorConfigOf(conf, bp, env, ent).Success? <==>
              GenKeyPair(bp, env, ent).Success? && env.genCert(conf.tlsCert, conf.tlsKey).None?
    ensures GenKeyPair(bp, env, ent).Failure? ==>
              HypervisorConfigOf(conf, bp, env, ent) == Failure(GenKeyPair(bp, env, ent).error)
    ensures GenKeyPair(bp, env, ent).Success? && env.genCert(conf.tlsCert, conf.tlsKey).Some? ==>
              HypervisorConfigOf(conf, bp, env, ent) == Failure(env.genCert(conf.tlsCert, conf.tlsKey).value)
  {
  }

  /**
   * What a produced hypervisor record holds: the run's key pair, the TLS
   * paths of the caller's Config, the drawn cookie keys (32 and 64 bytes
   * from a well-formed source), and auth and TLS switched on.
   */
  lemma HypervisorConfigContents(conf: Config, bp: Params, env: Env, ent: Entropy)
    requires HypervisorConfigOf(conf, bp, env, ent).Success?
    ensures var c := HypervisorConfigOf(conf, bp, env, ent).value;
      && GenKeyPair(bp, env, ent) == Success(KeyPair(c.pk, c.sk))
      && c.tlsCertFile == conf.tlsCert && c.tlsKeyFile == conf.tlsKey
      && c.cookies.blockKey == ent.blockKey && c.cookies.hashKey == ent.hashKey
      && c.cookies.settings == Some(env.lib.cookieSettings)
      && (WellFormedEntropy(env, ent) ==> |c.cookies.blockKey| == 32 && |c.cookies.hashKey| == 64)
      && c.enableAuth && c.enableTLS
      && c.dbPath == DB_PATH && c.httpAddr == HTTP_ADDR
      && c.dmsgDiscovery == env.lib.dmsgDiscAddr && c.dmsgPort == env.lib.dmsgHypervisorPort
  {
  }
}
