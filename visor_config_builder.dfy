/**
 * generateVisorConfig: the visor's configuration record, built from the
 * boot parameters, the library defaults and the key pair of the run.
 */
module VisorConfigBuilder {
  import opened Types
  import opened Cipher
  import opened Boot
  import opened Externals
  import opened KeyPairDeriver

  const VERSION := "1.0"
  const DMSGPTY_AUTH_FILE := "/var/skywire-visor/dsmgpty/whitelist.json"
  const DMSGPTY_CLI_ADDR := "/run/skywire-visor/dmsgpty/cli.sock"
  const TRANSPORT_LOG_STORE := "/var/skywire-visor/transports"
  const APPS_PATH := "/usr/bin/apps"
  const LOCAL_PATH := "/var/skywire-visor/apps"
  const PASSCODE_FLAG := "-passcode"
  const ADDR_FLAG := "-addr"

  /** visor.HypervisorConfig as the core fills it: only the public key is set. */
  datatype HypervisorEntry = HypervisorEntry(pubKey: PubKey)

  /** visor.AppConfig. */
  datatype AppConfig = AppConfig(app: string, autoStart: bool, port: Port, args: seq<string>)

  /** visor.Config, restricted to the fields the core sets. */
  datatype VisorConfig = VisorConfig(
    version: string,
    keyPair: KeyPair,
    stcp: STCPConfig,
    dmsg: DmsgConfig,
    dmsgPty: DmsgPtyConfig,
    transport: TransportConfig,
    routing: RoutingConfig,
    uptimeTracker: UptimeTrackerConfig,
    hypervisors: seq<HypervisorEntry>,
    logLevel: string,
    shutdownTimeout: Duration,
    restartCheckDelay: string,
    interfaces: InterfaceConfig,
    appServerAddr: string,
    appsPath: Path,
    localPath: Path,
    apps: seq<AppConfig>)

  /** The skysocksArgs closure: no arguments without a passcode, else the passcode flag and its value. */
  function SkysocksArgs(passcode: string): seq<string> {
    if passcode != "" then [PASSCODE_FLAG, passcode] else []
  }

  /** Reads the passcode back out of a proxy-server argument list; "" when there is none. */
  function PasscodeOf(args: seq<string>): string {
    if |args| == 2 && args[0] == PASSCODE_FLAG then args[1] else ""
  }

  /** The argument list is empty exactly when there is no passcode, and always gives the passcode back. */
  lemma SkysocksArgsRoundTrip(passcode: string)
    ensures SkysocksArgs(passcode) == [] <==> passcode == ""
    ensures PasscodeOf(SkysocksArgs(passcode)) == passcode
  {
  }

  /** The allow-list as the hypervisors closure appends it, one entry per key. */
  function AllowList(pks: seq<PubKey>): seq<HypervisorEntry> {
    if pks == [] then [] else AllowList(pks[..|pks| - 1]) + [HypervisorEntry(pks[|pks| - 1])]
  }

  /** The keys an allow-list admits, in order. */
  function AllowedKeys(hvs: seq<HypervisorEntry>): seq<PubKey> {
    if hvs == [] then [] else AllowedKeys(hvs[..|hvs| - 1]) + [hvs[|hvs| - 1].pubKey]
  }

  /** The allow-list has one entry per key, in the keys' order, each carrying that key and nothing else. */
  lemma {:induction false} AllowListOnePerKey(pks: seq<PubKey>)
    ensures |AllowList(pks)| == |pks|
    ensures forall i :: 0 <= i < |pks| ==> AllowList(pks)[i] == HypervisorEntry(pks[i])
  {
    if pks != [] {
      AllowListOnePerKey(pks[..|pks| - 1]);
    }
  }

  /** Reading the keys back from the allow-list gives exactly the boot keys. */
  lemma {:induction false} AllowListRoundTrip(pks: seq<PubKey>)
    ensures AllowedKeys(AllowList(pks)) == pks
  {
    if pks != [] {
      var init := pks[..|pks| - 1];
      AllowListRoundTrip(init);
      var hvs := AllowList(pks);
      assert hvs[..|hvs| - 1] == AllowList(init);
      assert init + [pks[|pks| - 1]] == pks;
    }
  }

  /** The hypervisors closure: a loop that appends one entry per boot key. */
  method Hypervisors(pks: seq<PubKey>) returns (hvs: seq<HypervisorEntry>)
    ensures hvs == AllowList(pks)
    ensures |hvs| == |pks| && forall i :: 0 <= i < |pks| ==> hvs[i].pubKey == pks[i]
  {
    hvs := [];
    var i := 0;
    while i < |pks|
      invariant 0 <= i <= |pks|
      invariant hvs == AllowList(pks[..i])
    {
      assert pks[..i + 1][..i] == pks[..i];
      hvs := hvs + [HypervisorEntry(pks[i])];
      i := i + 1;
    }
    assert pks[..i] == pks;
    AllowListOnePerKey(pks);
  }

  /** The fixed three-entry application table: chat, proxy server, proxy client. */
  function AppTable(lib: Library, passcode: string): seq<AppConfig> {
    [ AppConfig(lib.skychatName, true, lib.skychatPort, [ADDR_FLAG, lib.skychatAddr]),
      AppConfig(lib.skysocksName, true, lib.skysocksPort, SkysocksArgs(passcode)),
      AppConfig(lib.skysocksClientName, false, lib.skysocksClientPort, [ADDR_FLAG, lib.skysocksClientAddr]) ]
  }

  /**
   * The table always has three entries in the order chat, proxy server,
   * proxy client, auto-started, auto-started and not auto-started, each on
   * its library port; chat and proxy client get their address argument;
   * only the proxy server's arguments depend on the boot parameters, and
   * they carry the passcode exactly when one was given.
   */
  lemma AppTableShape(lib: Library, passcode: string)
    ensures var apps := AppTable(lib, passcode);
      && |apps| == 3
      && apps[0].app == lib.skychatName && apps[0].autoStart
      && apps[0].port == lib.skychatPort && apps[0].args == [ADDR_FLAG, lib.skychatAddr]
      && apps[1].app == lib.skysocksName && apps[1].autoStart
      && apps[1].port == lib.skysocksPort
      && apps[2].app == lib.skysocksClientName && !apps[2].autoStart
      && apps[2].port == lib.skysocksClientPort && apps[2].args == [ADDR_FLAG, lib.skysocksClientAddr]
      && (passcode == "" ==> apps[1].args == [])
      && (passcode != "" ==> apps[1].args == [PASSCODE_FLAG, passcode])
      && PasscodeOf(apps[1].args) == passcode
      && forall other :: AppTable(lib, other)[0] == apps[0] && AppTable(lib, other)[2] == apps[2]
  {
  }

  /** The record generateVisorConfig returns, or the first error it meets. */
  function VisorConfigOf(bp: Params, env: Env, ent: Entropy): Result<VisorConfig, Error> {
    var keys := GenKeyPair(bp, env, ent);
    if keys.Failure? then Failure(keys.error)
    else if env.lib.stcp.Failure? then Failure(env.lib.stcp.error)
    else
      Success(VisorConfig(
        VERSION,
        keys.value,
        env.lib.stcp.value,
        env.lib.dmsg,
        env.lib.dmsgPty.(authFile := DMSGPTY_AUTH_FILE, cliAddr := DMSGPTY_CLI_ADDR),
        env.lib.transport.(logStore := env.lib.transport.logStore.(location := TRANSPORT_LOG_STORE)),
        env.lib.routing,
        env.lib.uptimeTracker,
        AllowList(bp.hypervisorPKs),
        env.lib.logLevel,
        env.lib.timeout,
        env.lib.restartCheckDelay,
        env.lib.interfaces,
        env.lib.appServerAddr,
        APPS_PATH,
        LOCAL_PATH,
        AppTable(env.lib, bp.skysocksPasscode)))
  }

  /** generateVisorConfig, filling the record step by step. */
  method GenerateVisorConfig(bp: Params, env: Env, ent: Entropy) returns (r: Result<VisorConfig, Error>)
    ensures r == VisorConfigOf(bp, env, ent)
  {
    var keys := GenKeyPair(bp, env, ent);
    if keys.Failure? {
      return Failure(keys.error);
    }
    var stcp := env.lib.stcp;
    if stcp.Failure? {
      return Failure(stcp.error);
    }
    var dmsgPty := env.lib.dmsgPty;
    dmsgPty := dmsgPty.(authFile := DMSGPTY_AUTH_FILE);
    dmsgPty := dmsgPty.(cliAddr := DMSGPTY_CLI_ADDR);
    var transport := env.lib.transport;
    transport := transport.(logStore := transport.logStore.(location := TRANSPORT_LOG_STORE));
    var hvs := Hypervisors(bp.hypervisorPKs);
    var apps := AppTable(env.lib, bp.skysocksPasscode);
    r := Success(VisorConfig(
      VERSION, keys.value, stcp.value, env.lib.dmsg, dmsgPty, transport, env.lib.routing,
      env.lib.uptimeTracker, hvs, env.lib.logLevel, env.lib.timeout, env.lib.restartCheckDelay,
      env.lib.interfaces, env.lib.appServerAddr, APPS_PATH, LOCAL_PATH, apps));
  }

  /**
   * Error order: a key-derivation failure wins over everything else, then a
   * failing STCP default; the record is produced exactly when neither fails.
   */
  lemma VisorConfigErrors(bp: Params, env: Env, ent: Entropy)
    ensures VisorConfigOf(bp, env, ent).Success? <==> GenKeyPair(bp, env, ent).Success? && env.lib.stcp.Success?
    ensures GenKeyPair(bp, env, ent).Failure? ==>
              VisorConfigOf(bp, env, ent) == Failure(GenKeyPair(bp, env, ent).error)
    ensures GenKeyPair(bp, env, ent).Success? && env.lib.stcp.Failure? ==>
              VisorConfigOf(bp, env, ent) == Failure(env.lib.stcp.error)
  {
  }

  /**
   * What a produced visor record holds: the run's key pair, one allow-list
   * entry per boot key in order (and nothing else), the three-entry app
   * table carrying the passcode, and the fixed paths over the defaults.
   */
  lemma VisorConfigContents(bp: Params, env: Env, ent: Entropy)
    requires VisorConfigOf(bp, env, ent).Success?
    ensures var c := VisorConfigOf(bp, env, ent).value;
      && c.version == VERSION
      && Success(c.keyPair) == GenKeyPair(bp, env, ent)
      && |c.hypervisors| == |bp.hypervisorPKs|
      && (forall i :: 0 <= i < |c.hypervisors| ==> c.hypervisors[i] == HypervisorEntry(bp.hypervisorPKs[i]))
      && AllowedKeys(c.hypervisors) == bp.hypervisorPKs
      && c.apps == AppTable(env.lib, bp.skysocksPasscode)
      && |c.apps| == 3
      && [c.apps[0].autoStart, c.apps[1].autoStart, c.apps[2].autoStart] == [true, true, false]
      && PasscodeOf(c.apps[1].args) == bp.skysocksPasscode
      && (bp.skysocksPasscode == "" <==> c.apps[1].args == [])
      && c.dmsgPty == env.lib.dmsgPty.(authFile := DMSGPTY_AUTH_FILE, cliAddr := DMSGPTY_CLI_ADDR)
      && c.transport.logStore.location == TRANSPORT_LOG_STORE
      && c.transport.other == env.lib.transport.other
      && c.appsPath == APPS_PATH && c.localPath == LOCAL_PATH
  {
    AllowListOnePerKey(bp.hypervisorPKs);
    AllowListRoundTrip(bp.hypervisorPKs);
    AppTableShape(env.lib, bp.skysocksPasscode);
    SkysocksArgsRoundTrip(bp.skysocksPasscode);
  }

  /**
   * The worked example: a visor with two hypervisor keys and passcode
   * "secret" gets a two-entry allow-list naming them and a proxy server
   * started with the passcode flag.
   */
  lemma TwoHypervisorsWithPasscode(bp: Params, env: Env, ent: Entropy, pkA: PubKey, pkB: PubKey)
    requires bp.hypervisorPKs == [pkA, pkB] && bp.skysocksPasscode == "secret"
    requires VisorConfigOf(bp, env, ent).Success?
    ensures var c := VisorConfigOf(bp, env, ent).value;
      && c.hypervisors == [HypervisorEntry(pkA), HypervisorEntry(pkB)]
      && |c.apps| == 3
      && c.apps[1].args == [PASSCODE_FLAG, "secret"]
  {
    AllowListOnePerKey(bp.hypervisorPKs);
  }
}
