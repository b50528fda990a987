/**
 * The key types of the dmsg cipher package: a secret key is 32 bytes, a
 * public key 33 bytes, and the all-zero secret key is the "null" key that
 * asks for a fresh pair to be generated.
 */
module Cipher {
  import opened Types

  const SEC_KEY_LEN := 32
  const PUB_KEY_LEN := 33

  type SecKey = s: Bytes | |s| == SEC_KEY_LEN witness seq(SEC_KEY_LEN, _ => 0)
  type PubKey = p: Bytes | |p| == PUB_KEY_LEN witness seq(PUB_KEY_LEN, _ => 0)

  /** cipher.SecKey.Null(): the key equals the zero value, every byte 0. */
  predicate IsNull(sk: SecKey) {
    forall i | 0 <= i < |sk| :: sk[i] == 0
  }

  datatype KeyPair = KeyPair(pk: PubKey, sk: SecKey)
}
