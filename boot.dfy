/**
 * The part of boot.Params this core reads: the deployment mode, the secret
 * key supplied at boot (null when none was), the public keys of the
 * hypervisors a visor accepts, and the proxy passcode ("" when none).
 */
module Boot {
  import opened Cipher

  /** boot.Mode: the two recognised roles, or any other raw value. */
  datatype Mode = HypervisorMode | VisorMode | OtherMode(raw: nat)

  datatype Params = Params(
    mode: Mode,
    localSK: SecKey,
    hypervisorPKs: seq<PubKey>,
    skysocksPasscode: string)
}
