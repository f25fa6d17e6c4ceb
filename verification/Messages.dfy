/** Reveries, their fragments, the requests nodes exchange and the commands a client queues. */
module Messages {
  import opened Types
  import opened Umbral

  datatype AccessCondition = UmbralSigner(key: KeyId) | ExternalCheck

  datatype CapsuleFragBytes = CapsuleFragJson(cfrag: CapsuleFrag) | NotACapsuleFrag

  /** A provider's stored fragment. */
  datatype ReverieCapsulefrag = ReverieCapsulefrag(
    id: ReverieId,
    reverieType: ReverieType,
    fragNum: nat,
    threshold: nat,
    umbralCapsuleFrag: CapsuleFragBytes,
    sourcePubkey: KeyId,
    sourceVerifyingPubkey: KeyId,
    targetPubkey: KeyId,
    targetVerifyingPubkey: KeyId,
    accessCondition: AccessCondition,
    kfragProvider: PeerId)

  datatype Secrets =
    | AgentSecrets(agent: ReverieName, body: string)
    | OtherSecrets(body: string)

  datatype Reverie = Reverie(
    id: ReverieId,
    reverieType: ReverieType,
    threshold: nat,
    totalFrags: nat,
    targetPublicKey: KeyId,
    verifyingPublicKey: KeyId,
    accessCondition: AccessCondition,
    umbralCapsule: Capsule,
    umbralCiphertext: Ciphertext<Secrets>)

  datatype ReverieMessage = ReverieMessage(
    reverie: Reverie,
    source: PeerId,
    target: PeerId,
    keyfragProviders: seq<PeerId>)

  function VesselInfoOf(msg: ReverieMessage): AgentVesselInfo {
    AgentVesselInfo(msg.reverie.id, msg.reverie.reverieType, msg.reverie.threshold, msg.reverie.totalFrags,
                    msg.source, msg.target)
  }

  datatype ReverieKeyfrag = ReverieKeyfrag(
    id: ReverieId,
    reverieType: ReverieType,
    fragNum: nat,
    threshold: nat,
    totalFrags: nat,
    umbralKeyfrag: KeyFrag,
    umbralCapsule: Capsule,
    sourcePubkey: KeyId,
    sourceVerifyingPubkey: KeyId,
    targetPubkey: KeyId,
    targetVerifyingPubkey: KeyId,
    accessCondition: AccessCondition)

  datatype KeyfragMessage = KeyfragMessage(keyfrag: ReverieKeyfrag, source: PeerId, target: PeerId)

  /** A signature names its signer and what was signed; other keys carry the verdict of the
      outside check they trigger. */
  datatype AccessKey = UmbralSignature(signer: KeyId, signed: ReverieId) | ExternalKey(granted: bool)

  predicate AccessGranted(key: AccessKey, condition: AccessCondition, r: ReverieId) {
    match key
    case ExternalKey(granted) => granted
    case UmbralSignature(signer, signed) => condition == UmbralSigner(signer) && signed == r
  }

  datatype FragmentRequest =
    | GetFragment(reverieId: ReverieId, accessKey: AccessKey)
    | SaveFragment(keyfragMsg: KeyfragMessage)
    | ProvidingFragment(reverieId: ReverieId, fragNum: nat, kfragProvider: PeerId)
    | SaveCiphertext(reverieMsg: ReverieMessage)
    | MarkRespawnComplete(prevReverieId: ReverieId, prevPeer: PeerId, prevAgent: ReverieName)

  /** The serialized fragment in a reply, and whether it can be decoded. */
  datatype CfragBytes = CfragJson(cfrag: ReverieCapsulefrag) | NotJson

  datatype SendError = SendError

  type FragmentReply = Result<CfragBytes, SendError>

  /** The waiting half of a fragment request: the reverie and which of its fragments, and which of
      the client's retrievals asked for it, or `None` if a respawn did. */
  datatype ReplySender = ReplySender(reverieId: ReverieId, slot: nat, retrieval: Option<nat>)

  datatype NodeCommand =
    | SendReverieKeyfrag(provider: PeerId, keyfragMsg: KeyfragMessage)
    | SendReverieToSpecificPeer(holder: PeerId, reverieMsg: ReverieMessage)
    | SaveReverieOnNetwork(reverieMsg: ReverieMessage)
    | RequestCapsuleFragment(reverieId: ReverieId, provider: PeerId, accessKey: AccessKey, sender: ReplySender)
    | MarkPendingRespawnComplete(prevReverieId: ReverieId, prevPeer: PeerId, prevAgent: ReverieName)
}
