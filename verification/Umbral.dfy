/** Umbral proxy re-encryption as a symbolic scheme: keys, capsules and fragments are terms,
    fragments carry the identity of the key fragment they come from, and a ciphertext opens
    exactly for the holder of the receiving key who has enough distinct fragments of one
    generation. The randomness of an encryption and of a fragment generation is a number that
    the caller never uses twice. */
module Umbral {
  import opened Types

  /** A key pair is named by the node that owns it. */
  type KeyId = PeerId

  datatype Capsule = Capsule(delegator: KeyId, seal: nat)

  datatype Ciphertext<+T> = Ciphertext(capsule: Capsule, plaintext: T)

  datatype KeyFrag = KeyFrag(
    delegator: KeyId,
    receiver: KeyId,
    signer: KeyId,
    generation: nat,
    threshold: nat,
    index: nat)

  datatype CapsuleFrag = CapsuleFrag(capsule: Capsule, kfrag: KeyFrag)

  datatype DecryptError = NotOpened

  function GenerateKeyFrags(delegator: KeyId, receiver: KeyId, threshold: nat, shares: nat, generation: nat)
    : (kfrags: seq<KeyFrag>)
  {
    seq(shares, (i: nat) => KeyFrag(delegator, receiver, delegator, generation, threshold, i))
  }

  predicate VerifyKeyFrag(kfrag: KeyFrag, verifying: KeyId, delegating: KeyId, receiving: KeyId) {
    kfrag.signer == verifying && kfrag.delegator == delegating && kfrag.receiver == receiving
  }

  function Reencrypt(capsule: Capsule, kfrag: KeyFrag): CapsuleFrag {
    CapsuleFrag(capsule, kfrag)
  }

  predicate VerifyCapsuleFrag(
    cfrag: CapsuleFrag, capsule: Capsule, verifying: KeyId, delegating: KeyId, receiving: KeyId)
  {
    cfrag.capsule == capsule && VerifyKeyFrag(cfrag.kfrag, verifying, delegating, receiving)
  }

  /** The fragments interpolate the re-encryption key of one generation. */
  predicate Opens(receiver: KeyId, delegator: KeyId, capsule: Capsule, cfrags: seq<CapsuleFrag>) {
    && capsule.delegator == delegator
    && 0 < |cfrags|
    && cfrags[0].kfrag.threshold <= |cfrags|
    && (forall i :: 0 <= i < |cfrags| ==>
                      && cfrags[i].capsule == capsule
                      && cfrags[i].kfrag.delegator == delegator
                      && cfrags[i].kfrag.receiver == receiver
                      && cfrags[i].kfrag.generation == cfrags[0].kfrag.generation
                      && cfrags[i].kfrag.threshold == cfrags[0].kfrag.threshold)
    && (forall i, j :: 0 <= i < j < |cfrags| ==> cfrags[i].kfrag.index != cfrags[j].kfrag.index)
  }

  function DecryptReencrypted<T>(
    receiver: KeyId, delegator: KeyId, capsule: Capsule, cfrags: seq<CapsuleFrag>, ciphertext: Ciphertext<T>)
    : Result<T, DecryptError>
  {
    if ciphertext.capsule == capsule && Opens(receiver, delegator, capsule, cfrags)
    then Ok(ciphertext.plaintext)
    else Err(NotOpened)
  }

  /** Fragments of one generation open what their delegator sealed exactly for the receiver they
      were made for, and when they are non-empty, pairwise distinct and at least the threshold in
      number. */
  lemma FragmentsOpenIffEnough<T>(
    opener: KeyId, delegator: KeyId, receiver: KeyId, threshold: nat, shares: nat, seal: nat, generation: nat,
    chosen: seq<nat>, plaintext: T)
    requires forall k :: 0 <= k < |chosen| ==> chosen[k] < shares
    ensures
      var capsule := Capsule(delegator, seal);
      var kfrags := GenerateKeyFrags(delegator, receiver, threshold, shares, generation);
      var cfrags := seq(|chosen|, k requires 0 <= k < |chosen| => Reencrypt(capsule, kfrags[chosen[k]]));
      DecryptReencrypted(opener, delegator, capsule, cfrags, Ciphertext(capsule, plaintext))
      == if opener == receiver && 0 < |chosen| && threshold <= |chosen| && Distinct(chosen)
      then Ok(plaintext) else Err(NotOpened)
  {
    var capsule := Capsule(delegator, seal);
    var kfrags := GenerateKeyFrags(delegator, receiver, threshold, shares, generation);
    var cfrags := seq(|chosen|, k requires 0 <= k < |chosen| => Reencrypt(capsule, kfrags[chosen[k]]));
    forall k | 0 <= k < |chosen|
      ensures cfrags[k].kfrag == KeyFrag(delegator, receiver, delegator, generation, threshold, chosen[k])
    {
    }
    if !Distinct(chosen) {
      var i, j :| 0 <= i < j < |chosen| && chosen[i] == chosen[j];
      assert cfrags[i].kfrag.index == cfrags[j].kfrag.index;
    }
  }
}
