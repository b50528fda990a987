/**
 * genKeyPair: reuse the secret key supplied at boot, deriving its public
 * key, or generate a fresh pair when the supplied key is null.
 */
module KeyPairDeriver {
  import opened Types
  import opened Cipher
  import opened Boot
  import opened Externals

  /** The key pair for a run: the fresh draw when bp.localSK is null, else localSK with its derived public key. */
  function GenKeyPair(bp: Params, env: Env, ent: Entropy): Result<KeyPair, Error> {
    if IsNull(bp.localSK) then
      Success(ent.keyPair)
    else
      var derived := env.pubKeyOf(bp.localSK);
      if derived.Success? then Success(KeyPair(derived.value, bp.localSK)) else Failure(derived.error)
  }

  /** A null boot key yields exactly the generated pair; two different draws give two different pairs. */
  lemma NullKeyUsesDraw(bp: Params, env: Env, ent1: Entropy, ent2: Entropy)
    requires IsNull(bp.localSK)
    ensures GenKeyPair(bp, env, ent1) == Success(ent1.keyPair)
    ensures ent1.keyPair != ent2.keyPair ==> GenKeyPair(bp, env, ent1) != GenKeyPair(bp, env, ent2)
  {
  }

  /**
   * A non-null boot key is kept: the result succeeds exactly when derivation
   * does, carries that key and its derived public key, passes the derivation
   * error through otherwise, and does not depend on the random draw.
   */
  lemma SuppliedKeyKept(bp: Params, env: Env, ent1: Entropy, ent2: Entropy)
    requires !IsNull(bp.localSK)
    ensures GenKeyPair(bp, env, ent1).Success? <==> env.pubKeyOf(bp.localSK).Success?
    ensures GenKeyPair(bp, env, ent1).Success? ==>
              GenKeyPair(bp, env, ent1).value == KeyPair(env.pubKeyOf(bp.localSK).value, bp.localSK)
    ensures GenKeyPair(bp, env, ent1).Failure? ==>
              GenKeyPair(bp, env, ent1).error == env.pubKeyOf(bp.localSK).error
    ensures GenKeyPair(bp, env, ent1) == GenKeyPair(bp, env, ent2)
  {
  }

  /** With a well-formed random source, every pair handed out has its public key derived from its secret key. */
  lemma PublicKeyDerived(bp: Params, env: Env, ent: Entropy)
    requires WellFormedEntropy(env, ent)
    requires GenKeyPair(bp, env, ent).Success?
    ensures env.pubKeyOf(GenKeyPair(bp, env, ent).value.sk) == Success(GenKeyPair(bp, env, ent).value.pk)
    ensures !IsNull(GenKeyPair(bp, env, ent).value.sk)
  {
  }
}
