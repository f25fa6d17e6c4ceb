/** The client half of a node: splitting a reverie among providers, collecting fragments back,
    and re-creating an agent after its vessel failed. */
module NodeClients {
  import opened Types
  import opened Umbral
  import opened Messages

  datatype VesselStatus = NeverVessel | EmptyVessel | ActiveVessel

  datatype NodeKeys = NodeKeys(peerId: PeerId, publicKey: KeyId, verifyingKey: KeyId, status: VesselStatus)

  datatype ParseError = Transport | BadJson | BadCapsuleFrag | NotVerified | InsufficientCfrags | NoCfrags

  datatype ClientError =
    | ThresholdTooHigh
    | NoPeers
    | TargetIsProvider
    | NotEnoughPeers
    | CannotParse(reason: ParseError)
    | CannotDecrypt
    | NotAgentSecrets

  // ---------------------------------------------------------------- splitting and broadcasting

  function EmptyVessels(vessels: seq<NodeKeys>): (empty: seq<NodeKeys>)
    ensures forall v :: v in empty <==> v in vessels && v.status.EmptyVessel?
  {
    if vessels == [] then []
    else (if vessels[0].status.EmptyVessel? then [vessels[0]] else []) + EmptyVessels(vessels[1..])
  }

  function GetProspectVessels(vessels: seq<NodeKeys>): Result<(NodeKeys, seq<NodeKeys>), ClientError> {
    var empty := EmptyVessels(vessels);
    if empty == [] then Err(NoPeers)
    else if empty[0] in empty[1..] then Err(TargetIsProvider)
    else Ok((empty[0], empty[1..]))
  }

  function PeerIds(vessels: seq<NodeKeys>): seq<PeerId> {
    seq(|vessels|, i requires 0 <= i < |vessels| => vessels[i].peerId)
  }

  lemma {:induction false} EmptyVesselsDistinct(vessels: seq<NodeKeys>)
    requires Distinct(PeerIds(vessels))
    ensures Distinct(PeerIds(EmptyVessels(vessels)))
  {
    if vessels != [] {
      var rest := vessels[1..];
      assert PeerIds(vessels) == [vessels[0].peerId] + PeerIds(rest);
      DistinctInFront(vessels[0].peerId, PeerIds(rest));
      EmptyVesselsDistinct(rest);
      var empty := EmptyVessels(rest);
      forall p | p in PeerIds(empty)
        ensures p in PeerIds(rest)
      {
        var i :| 0 <= i < |empty| && empty[i].peerId == p;
        var k :| 0 <= k < |rest| && rest[k] == empty[i];
        assert PeerIds(rest)[k] == p;
      }
      DistinctInFront(vessels[0].peerId, PeerIds(empty));
      assert PeerIds([vessels[0]] + empty) == [vessels[0].peerId] + PeerIds(empty);
      assert [] + empty == empty;
    }
  }

  lemma DistinctInFront<T>(x: T, s: seq<T>)
    ensures Distinct([x] + s) <==> x !in s && Distinct(s)
  {
    var all := [x] + s;
    assert all[0] == x;
    assert forall i :: 0 <= i < |s| ==> all[i + 1] == s[i];
    if Distinct(all) {
      forall j | 0 <= j < |s|
        ensures s[j] != x
      {
        assert all[0] != all[j + 1];
      }
      forall i, j | 0 <= i < j < |s|
        ensures s[i] != s[j]
      {
        assert all[i + 1] != all[j + 1];
      }
    }
  }

  function KeyfragOf(self: KeyId, reverie: Reverie, i: nat): ReverieKeyfrag {
    ReverieKeyfrag(reverie.id, reverie.reverieType, i, reverie.threshold, reverie.totalFrags,
                   KeyFrag(self, reverie.targetPublicKey, self, reverie.id, reverie.threshold, i),
                   reverie.umbralCapsule,
                   self, self, reverie.targetPublicKey, reverie.verifyingPublicKey, reverie.accessCondition)
  }

  function CreateReverieKeyfrags(self: KeyId, reverie: Reverie): (keyfrags: seq<ReverieKeyfrag>)
    ensures |keyfrags| == reverie.totalFrags
    ensures forall i :: 0 <= i < |keyfrags| ==> keyfrags[i] == KeyfragOf(self, reverie, i)
  {
    var kfrags := GenerateKeyFrags(self, reverie.targetPublicKey, reverie.threshold, reverie.totalFrags, reverie.id);
    seq(|kfrags|, (i: nat) requires i < |kfrags| => KeyfragOf(self, reverie, i).(umbralKeyfrag := kfrags[i]))
  }

  function KeyfragCommand(self: PeerId, msg: ReverieMessage, i: nat): NodeCommand
    requires i < |msg.keyfragProviders|
  {
    SendReverieKeyfrag(msg.keyfragProviders[i], KeyfragMessage(KeyfragOf(self, msg.reverie, i), self, msg.target))
  }

  function KeyfragCommands(self: PeerId, msg: ReverieMessage): (commands: seq<NodeCommand>) {
    seq(|msg.keyfragProviders|, i requires 0 <= i < |msg.keyfragProviders| => KeyfragCommand(self, msg, i))
  }

  function CiphertextCommands(msg: ReverieMessage): seq<NodeCommand> {
    (if msg.reverie.reverieType.SovereignAgent? then [] else [SaveReverieOnNetwork(msg)])
    + [SendReverieToSpecificPeer(msg.target, msg)]
  }

  /** The message a broadcast settles on, if there are providers enough. */
  function Addressed(
    self: PeerId, reverie: Reverie, target: PeerId, providers: seq<NodeKeys>): Result<ReverieMessage, ClientError>
  {
    if |providers| < reverie.totalFrags then Err(NotEnoughPeers)
    else Ok(ReverieMessage(reverie, self, target, PeerIds(providers[..reverie.totalFrags])))
  }

  function BroadcastCommands(self: PeerId, msg: ReverieMessage): seq<NodeCommand> {
    KeyfragCommands(self, msg) + CiphertextCommands(msg)
  }

  function NewReverie(
    self: KeyId, reverieType: ReverieType, secrets: Secrets, threshold: nat, totalFrags: nat,
    target: NodeKeys, access: Option<AccessCondition>, id: ReverieId): Reverie
  {
    var capsule := Capsule(self, id);
    Reverie(id, reverieType, threshold, totalFrags, target.publicKey, target.verifyingKey,
            if access.Some? then access.value else UmbralSigner(target.verifyingKey), capsule,
            Ciphertext(capsule, secrets))
  }

  /** Pick vessels, encrypt, and address the fragments. */
  function Compose(
    self: PeerId, reverieType: ReverieType, secrets: Secrets, threshold: nat, totalFrags: nat,
    access: Option<AccessCondition>, vessels: seq<NodeKeys>, id: ReverieId): Result<ReverieMessage, ClientError>
  {
    match GetProspectVessels(vessels)
    case Err(e) => Err(e)
    case Ok((target, providers)) =>
      Addressed(self, NewReverie(self, reverieType, secrets, threshold, totalFrags, target, access, id),
                target.peerId, providers)
  }

  /** Creating a reverie on a client's request. */
  function ComposeSpawn(
    self: PeerId, reverieType: ReverieType, secrets: Secrets, threshold: nat, totalFrags: nat,
    access: Option<AccessCondition>, vessels: seq<NodeKeys>, id: ReverieId): Result<ReverieMessage, ClientError>
  {
    if threshold > totalFrags then Err(ThresholdTooHigh)
    else Compose(self, reverieType, secrets, threshold, totalFrags, access, vessels, id)
  }

  /** Statuses read from the network: one per connected peer, signed by it, never the node itself. */
  ghost predicate GenuineVessels(self: PeerId, vessels: seq<NodeKeys>) {
    && Distinct(PeerIds(vessels))
    && forall v :: v in vessels ==> v.peerId != self && v.publicKey == v.peerId && v.verifyingKey == v.peerId
  }

  /** A reverie message whose fragments have been addressed as the protocol intends. */
  ghost predicate WellAddressed(msg: ReverieMessage) {
    && |msg.keyfragProviders| == msg.reverie.totalFrags
    && Distinct(msg.keyfragProviders)
    && msg.target !in msg.keyfragProviders
    && msg.source !in msg.keyfragProviders
    && msg.source != msg.target
    && msg.reverie.targetPublicKey == msg.target
    && msg.reverie.verifyingPublicKey == msg.target
    && msg.reverie.umbralCapsule == Capsule(msg.source, msg.reverie.id)
    && msg.reverie.umbralCiphertext.capsule == msg.reverie.umbralCapsule
  }

  /** Composition either fails or addresses fragment i to the i-th of `totalFrags` distinct
      providers, none of which is the target or the sender. */
  lemma ComposeWellAddressed(
    self: PeerId, reverieType: ReverieType, secrets: Secrets, threshold: nat, totalFrags: nat,
    access: Option<AccessCondition>, vessels: seq<NodeKeys>, id: ReverieId)
    requires GenuineVessels(self, vessels)
    ensures
      match Compose(self, reverieType, secrets, threshold, totalFrags, access, vessels, id)
      case Err(_) => |EmptyVessels(vessels)| < totalFrags + 1
      case Ok(msg) =>
        && totalFrags + 1 <= |EmptyVessels(vessels)|
        && WellAddressed(msg)
        && (forall p :: p in [msg.target] + msg.keyfragProviders ==>
                          exists v :: v in vessels && v.status.EmptyVessel? && v.peerId == p)
        && msg.source == self
        && msg.reverie.id == id && msg.reverie.reverieType == reverieType
        && msg.reverie.threshold == threshold && msg.reverie.totalFrags == totalFrags
        && msg.reverie.umbralCiphertext.plaintext == secrets
        && msg.reverie.accessCondition == (if access.Some? then access.value else UmbralSigner(msg.target))
        && [msg.target] + msg.keyfragProviders == PeerIds(EmptyVessels(vessels))[..totalFrags + 1]
  {
    var empty := EmptyVessels(vessels);
    EmptyVesselsDistinct(vessels);
    if empty != [] {
      TargetIsNoProvider(empty);
      if totalFrags + 1 <= |empty| {
        ChosenProviders(vessels, totalFrags);
        assert [empty[0].peerId] + PeerIds(empty[1..][..totalFrags]) == PeerIds(empty)[..totalFrags + 1];
      }
    }
  }

  /** Spawning fails exactly on a threshold above the total or too few empty vessels. */
  lemma SpawnComposesIff(
    self: PeerId, reverieType: ReverieType, secrets: Secrets, threshold: nat, totalFrags: nat,
    access: Option<AccessCondition>, vessels: seq<NodeKeys>, id: ReverieId)
    requires GenuineVessels(self, vessels)
    ensures ComposeSpawn(self, reverieType, secrets, threshold, totalFrags, access, vessels, id).Ok?
       <==> threshold <= totalFrags && totalFrags + 1 <= |EmptyVessels(vessels)|
  {
    ComposeWellAddressed(self, reverieType, secrets, threshold, totalFrags, access, vessels, id);
  }

  lemma TargetIsNoProvider(empty: seq<NodeKeys>)
    requires empty != [] && Distinct(PeerIds(empty))
    ensures empty[0] !in empty[1..]
  {
    forall j | 0 < j < |empty|
      ensures empty[0] != empty[j]
    {
      assert PeerIds(empty)[0] != PeerIds(empty)[j];
    }
  }

  /** The target and the first providers are distinct empty vessels. */
  lemma ChosenProviders(vessels: seq<NodeKeys>, totalFrags: nat)
    requires totalFrags + 1 <= |EmptyVessels(vessels)| && Distinct(PeerIds(EmptyVessels(vessels)))
    ensures
      var empty := EmptyVessels(vessels);
      var providers := PeerIds(empty[1..][..totalFrags]);
      && empty[0] in vessels && empty[0].status.EmptyVessel?
      && |providers| == totalFrags && Distinct(providers) && empty[0].peerId !in providers
      && forall p :: p in providers ==> exists v :: v in vessels && v.status.EmptyVessel? && v.peerId == p
  {
    var empty := EmptyVessels(vessels);
    var chosen := empty[1..][..totalFrags];
    assert empty[0] in empty;
    assert forall i :: 0 <= i < |chosen| ==> chosen[i] == empty[i + 1] && chosen[i] in empty;
    assert forall i :: 0 <= i < |chosen| ==> PeerIds(chosen)[i] == PeerIds(empty)[i + 1];
    forall i | 0 <= i < |chosen|
      ensures PeerIds(chosen)[i] != PeerIds(empty)[0]
    {
      assert PeerIds(empty)[0] != PeerIds(empty)[i + 1];
    }
  }

  /** A new reverie is sealed by its sender for the target's keys, opens to the secrets given, and is
      guarded by the condition given or else by the target's signature. */
  lemma ReverieSealed(
    self: KeyId, reverieType: ReverieType, secrets: Secrets, threshold: nat, totalFrags: nat,
    target: NodeKeys, access: Option<AccessCondition>, id: ReverieId)
    ensures
      var reverie := NewReverie(self, reverieType, secrets, threshold, totalFrags, target, access, id);
      && reverie.id == id && reverie.reverieType == reverieType
      && reverie.threshold == threshold && reverie.totalFrags == totalFrags
      && reverie.targetPublicKey == target.publicKey && reverie.verifyingPublicKey == target.verifyingKey
      && reverie.accessCondition == (if access.Some? then access.value else UmbralSigner(target.verifyingKey))
      && reverie.umbralCapsule.delegator == self
      && reverie.umbralCiphertext == Ciphertext(reverie.umbralCapsule, secrets)
  {
  }

  /** Fragment i of a reverie, made by `self`, says what its provider has to know, and its key
      fragment is the i-th of one generation from `self` to the target's key. */
  lemma KeyfragsDescribe(self: KeyId, reverie: Reverie, i: nat)
    requires i < reverie.totalFrags
    ensures
      var k := CreateReverieKeyfrags(self, reverie)[i];
      && Describes(k, reverie) && k.fragNum == i
      && k.sourcePubkey == self && k.sourceVerifyingPubkey == self
      && k.umbralKeyfrag == GenerateKeyFrags(self, reverie.targetPublicKey, reverie.threshold, reverie.totalFrags,
                                             reverie.id)[i]
  {
  }

  /** What a broadcast sends: every fragment once, to the provider of the same rank, then, unless
      the reverie is a sovereign agent's, one copy to the network, and last the ciphertext, once, to
      the target. */
  lemma BroadcastSendsEachFragmentOnce(self: PeerId, msg: ReverieMessage)
    requires WellAddressed(msg)
    ensures
      var commands := BroadcastCommands(self, msg);
      && (forall i :: 0 <= i < msg.reverie.totalFrags ==>
                        && commands[i].SendReverieKeyfrag?
                        && commands[i].provider == msg.keyfragProviders[i]
                        && commands[i].keyfragMsg.source == self && commands[i].keyfragMsg.target == msg.target
                        && var k := commands[i].keyfragMsg.keyfrag;
                        && k.fragNum == i && Describes(k, msg.reverie))
      && commands[msg.reverie.totalFrags..]
         == (if msg.reverie.reverieType.SovereignAgent? then [SendReverieToSpecificPeer(msg.target, msg)]
             else [SaveReverieOnNetwork(msg), SendReverieToSpecificPeer(msg.target, msg)])
      && (forall i, j :: 0 <= i < j < |commands| ==> commands[i] != commands[j])
  {
    var commands := BroadcastCommands(self, msg);
    forall i, j | 0 <= i < j < |commands|
      ensures commands[i] != commands[j]
    {
      if j < msg.reverie.totalFrags {
        assert commands[i].keyfragMsg.keyfrag.fragNum == i && commands[j].keyfragMsg.keyfrag.fragNum == j;
      }
    }
  }

  /** The key fragment repeats what a provider has to know of the reverie. */
  predicate Describes(k: ReverieKeyfrag, reverie: Reverie) {
    && k.id == reverie.id && k.reverieType == reverie.reverieType
    && k.threshold == reverie.threshold && k.totalFrags == reverie.totalFrags
    && k.umbralCapsule == reverie.umbralCapsule && k.accessCondition == reverie.accessCondition
    && k.targetPubkey == reverie.targetPublicKey && k.targetVerifyingPubkey == reverie.verifyingPublicKey
  }

  // ---------------------------------------------------------------- collecting fragments

  datatype ParsedCfrags = ParsedCfrags(
    verified: seq<CapsuleFrag>,
    delegator: KeyId,
    targetVerifying: KeyId,
    access: AccessCondition,
    received: nat)

  /** One raw reply: transported, decoded and verified. */
  function CheckReply(raw: FragmentReply, capsule: Capsule): Result<ReverieCapsulefrag, ParseError> {
    match raw
    case Err(_) => Err(Transport)
    case Ok(NotJson) => Err(BadJson)
    case Ok(CfragJson(c)) =>
      if c.umbralCapsuleFrag.NotACapsuleFrag? then Err(BadCapsuleFrag)
      else if !VerifyCapsuleFrag(c.umbralCapsuleFrag.cfrag, capsule, c.sourceVerifyingPubkey, c.sourcePubkey,
                                 c.targetPubkey)
      then Err(NotVerified)
      else Ok(c)
  }

  function FirstFailure(raws: seq<FragmentReply>, capsule: Capsule): (e: Option<ParseError>)
    ensures e.None? <==> forall i :: 0 <= i < |raws| ==> CheckReply(raws[i], capsule).Ok?
  {
    if raws == [] then None
    else
      match CheckReply(raws[0], capsule)
      case Err(e) => Some(e)
      case Ok(_) => FirstFailure(raws[1..], capsule)
  }

  function Fragments(raws: seq<FragmentReply>, capsule: Capsule): seq<ReverieCapsulefrag>
    requires FirstFailure(raws, capsule).None?
  {
    seq(|raws|, i requires 0 <= i < |raws| => CheckReply(raws[i], capsule).value)
  }

  function UmbralFragments(cfrags: seq<ReverieCapsulefrag>): seq<CapsuleFrag>
    requires forall i :: 0 <= i < |cfrags| ==> cfrags[i].umbralCapsuleFrag.CapsuleFragJson?
  {
    seq(|cfrags|, i requires 0 <= i < |cfrags| => cfrags[i].umbralCapsuleFrag.cfrag)
  }

  function ParseCfragsResult(raws: seq<FragmentReply>, capsule: Capsule): Result<ParsedCfrags, ParseError> {
    match FirstFailure(raws, capsule)
    case Some(e) => Err(e)
    case None =>
      var cfrags := Fragments(raws, capsule);
      if cfrags == [] then Err(NoCfrags)
      else if |cfrags| < cfrags[|cfrags| - 1].threshold then Err(InsufficientCfrags)
      else Ok(ParsedCfrags(UmbralFragments(cfrags), cfrags[0].sourcePubkey, cfrags[0].targetVerifyingPubkey,
                           cfrags[0].accessCondition, |cfrags|))
  }

  /** A reply that arrived and decoded, with a fragment of this capsule whose signer, delegator and
      receiver are the keys that the reply names. */
  predicate Usable(raw: FragmentReply, capsule: Capsule) {
    && raw.Ok? && raw.value.CfragJson?
    && var c := raw.value.cfrag;
    && c.umbralCapsuleFrag.CapsuleFragJson?
    && var f := c.umbralCapsuleFrag.cfrag;
    && f.capsule == capsule
    && f.kfrag.signer == c.sourceVerifyingPubkey
    && f.kfrag.delegator == c.sourcePubkey
    && f.kfrag.receiver == c.targetPubkey
  }

  /** What is wrong with a reply that is not usable. */
  function Fault(raw: FragmentReply): ParseError {
    if raw.Err? then Transport
    else if raw.value.NotJson? then BadJson
    else if raw.value.cfrag.umbralCapsuleFrag.NotACapsuleFrag? then BadCapsuleFrag
    else NotVerified
  }

  lemma CheckedIffUsable(raw: FragmentReply, capsule: Capsule)
    ensures CheckReply(raw, capsule) == if Usable(raw, capsule) then Ok(raw.value.cfrag) else Err(Fault(raw))
  {
  }

  /** Parsing succeeds exactly when every reply is usable, there is one, and there are as many as
      the last one asks for; it then hands on all fragments in order and the first one's keys. */
  lemma ParseSucceedsIff(raws: seq<FragmentReply>, capsule: Capsule)
    ensures
      var parsed := ParseCfragsResult(raws, capsule);
      && (parsed.Ok?
          <==> && 0 < |raws|
               && (forall i :: 0 <= i < |raws| ==> Usable(raws[i], capsule))
               && raws[|raws| - 1].value.cfrag.threshold <= |raws|)
      && (parsed.Ok? ==>
            && |parsed.value.verified| == |raws| == parsed.value.received
            && (forall i :: 0 <= i < |raws| ==>
                              parsed.value.verified[i] == raws[i].value.cfrag.umbralCapsuleFrag.cfrag)
            && parsed.value.delegator == raws[0].value.cfrag.sourcePubkey
            && parsed.value.targetVerifying == raws[0].value.cfrag.targetVerifyingPubkey
            && parsed.value.access == raws[0].value.cfrag.accessCondition)
  {
    forall i | 0 <= i < |raws|
      ensures CheckReply(raws[i], capsule).Ok? <==> Usable(raws[i], capsule)
    {
      CheckedIffUsable(raws[i], capsule);
    }
    if FirstFailure(raws, capsule).None? && raws != [] {
      assert forall i :: 0 <= i < |raws| ==> Fragments(raws, capsule)[i] == raws[i].value.cfrag;
    }
  }

  /** One reply that is not usable loses the rest: the first of them decides the error. */
  lemma {:induction false} FirstFaultDecides(raws: seq<FragmentReply>, capsule: Capsule, i: nat)
    requires i < |raws| && !Usable(raws[i], capsule)
    requires forall k :: 0 <= k < i ==> Usable(raws[k], capsule)
    ensures ParseCfragsResult(raws, capsule) == Err(Fault(raws[i]))
    decreases |raws|
  {
    CheckedIffUsable(raws[0], capsule);
    if i > 0 {
      FirstFaultDecides(raws[1..], capsule, i - 1);
    }
  }

  lemma {:induction false} FirstFailureAppend(raws: seq<FragmentReply>, raw: FragmentReply, capsule: Capsule)
    requires FirstFailure(raws, capsule).None?
    ensures FirstFailure(raws + [raw], capsule)
         == match CheckReply(raw, capsule) case Err(e) => Some(e) case Ok(_) => None
  {
    if raws == [] {
      assert raws + [raw] == [raw] && [raw][1..] == [];
    } else {
      assert (raws + [raw])[1..] == raws[1..] + [raw];
      FirstFailureAppend(raws[1..], raw, capsule);
    }
  }

  lemma {:induction false} FirstFailurePrefix(raws: seq<FragmentReply>, n: nat, capsule: Capsule)
    requires n <= |raws| && FirstFailure(raws[..n], capsule).Some?
    ensures FirstFailure(raws, capsule) == FirstFailure(raws[..n], capsule)
  {
    if CheckReply(raws[0], capsule).Ok? {
      assert raws[..n][1..] == raws[1..][..n - 1];
      FirstFailurePrefix(raws[1..], n - 1, capsule);
    }
  }

  /** What a retrieval makes of the replies: parsed, and opened with the client's own key. */
  function OpenReverie(self: KeyId, msg: ReverieMessage, raws: seq<FragmentReply>): Result<Secrets, ClientError> {
    match ParseCfragsResult(raws, msg.reverie.umbralCapsule)
    case Err(e) => Err(CannotParse(e))
    case Ok(parsed) =>
      match DecryptReencrypted(self, parsed.delegator, msg.reverie.umbralCapsule, parsed.verified,
                               msg.reverie.umbralCiphertext)
      case Err(_) => Err(CannotDecrypt)
      case Ok(secrets) => Ok(secrets)
  }

  /** A respawn's retrieval, which must bring the secrets of an agent. */
  function Reconstruct(self: KeyId, msg: ReverieMessage, raws: seq<FragmentReply>): Result<Secrets, ClientError> {
    match OpenReverie(self, msg, raws)
    case Err(e) => Err(e)
    case Ok(secrets) => if secrets.AgentSecrets? then Ok(secrets) else Err(NotAgentSecrets)
  }

  /** The fragment that provider i derives from its key fragment. */
  function CapsulefragOf(msg: ReverieMessage, i: nat, provider: PeerId): ReverieCapsulefrag {
    var k := KeyfragOf(msg.source, msg.reverie, i);
    ReverieCapsulefrag(k.id, k.reverieType, k.fragNum, k.threshold,
                       CapsuleFragJson(Reencrypt(k.umbralCapsule, k.umbralKeyfrag)),
                       k.sourcePubkey, k.sourceVerifyingPubkey, k.targetPubkey, k.targetVerifyingPubkey,
                       k.accessCondition,
                       provider)
  }

  /** A reply that, when it brings anything, brings fragment i of the reverie. */
  ghost predicate GoodReply(msg: ReverieMessage, i: nat, raw: FragmentReply) {
    raw.Ok? ==> i < |msg.keyfragProviders| && raw.value == CfragJson(CapsulefragOf(msg, i, msg.keyfragProviders[i]))
  }

  /** Replies that all brought their fragment parse, and their fragments are those generated. */
  lemma GoodRepliesParse(msg: ReverieMessage, raws: seq<FragmentReply>)
    requires WellAddressed(msg) && 1 <= msg.reverie.threshold <= msg.reverie.totalFrags == |raws|
    requires forall i :: 0 <= i < |raws| ==> GoodReply(msg, i, raws[i]) && raws[i].Ok?
    ensures
      var parsed := ParseCfragsResult(raws, msg.reverie.umbralCapsule);
      var kfrags := GenerateKeyFrags(msg.source, msg.target, msg.reverie.threshold, msg.reverie.totalFrags,
                                     msg.reverie.id);
      && parsed.Ok? && parsed.value.delegator == msg.source
      && parsed.value.verified
         == seq(|raws|, i requires 0 <= i < |raws| => Reencrypt(msg.reverie.umbralCapsule, kfrags[i]))
  {
    var capsule := msg.reverie.umbralCapsule;
    forall i | 0 <= i < |raws|
      ensures CheckReply(raws[i], capsule) == Ok(CapsulefragOf(msg, i, msg.keyfragProviders[i]))
    {
      assert GoodReply(msg, i, raws[i]);
    }
    var cfrags := Fragments(raws, capsule);
    assert forall i :: 0 <= i < |cfrags| ==> cfrags[i] == CapsulefragOf(msg, i, msg.keyfragProviders[i]);
  }

  /** With replies that fit their slots, the original secrets come back exactly for the target and
      when no provider failed it. */
  lemma OpensIff(self: KeyId, msg: ReverieMessage, raws: seq<FragmentReply>)
    requires WellAddressed(msg)
    requires 1 <= msg.reverie.threshold <= msg.reverie.totalFrags
    requires |raws| == msg.reverie.totalFrags
    requires forall i :: 0 <= i < |raws| ==> GoodReply(msg, i, raws[i])
    ensures OpenReverie(self, msg, raws)
         == if exists i :: 0 <= i < |raws| && raws[i].Err? then Err(CannotParse(Transport))
            else if self == msg.target then Ok(msg.reverie.umbralCiphertext.plaintext)
            else Err(CannotDecrypt)
  {
    if forall i :: 0 <= i < |raws| ==> raws[i].Ok? {
      GoodRepliesParse(msg, raws);
      AllFragmentsOpenIff(self, msg);
    } else {
      OnlyTransportFailures(msg, raws, 0);
      assert raws[0..] == raws;
    }
  }

  /** Taken together, the fragments of a reverie open it exactly for its target. */
  lemma AllFragmentsOpenIff(self: KeyId, msg: ReverieMessage)
    requires WellAddressed(msg) && 1 <= msg.reverie.threshold <= msg.reverie.totalFrags
    ensures
      var n, capsule := msg.reverie.totalFrags, msg.reverie.umbralCapsule;
      var kfrags := GenerateKeyFrags(msg.source, msg.target, msg.reverie.threshold, n, msg.reverie.id);
      var cfrags := seq(n, i requires 0 <= i < n => Reencrypt(capsule, kfrags[i]));
      DecryptReencrypted(self, msg.source, capsule, cfrags, msg.reverie.umbralCiphertext)
      == if self == msg.target then Ok(msg.reverie.umbralCiphertext.plaintext) else Err(NotOpened)
  {
    var n, capsule := msg.reverie.totalFrags, msg.reverie.umbralCapsule;
    var kfrags := GenerateKeyFrags(msg.source, msg.target, msg.reverie.threshold, n, msg.reverie.id);
    var all := seq(n, (i: nat) => i);
    FragmentsOpenIffEnough(self, msg.source, msg.target, msg.reverie.threshold, n, msg.reverie.id, msg.reverie.id, all,
                           msg.reverie.umbralCiphertext.plaintext);
    assert seq(n, i requires 0 <= i < n => Reencrypt(capsule, kfrags[i]))
        == seq(|all|, k requires 0 <= k < |all| => Reencrypt(capsule, kfrags[all[k]]));
  }

  /** The target gets the original secrets back exactly when no provider failed it. */
  lemma ReconstructIff(msg: ReverieMessage, raws: seq<FragmentReply>)
    requires WellAddressed(msg)
    requires 1 <= msg.reverie.threshold <= msg.reverie.totalFrags
    requires msg.reverie.umbralCiphertext.plaintext.AgentSecrets?
    requires |raws| == msg.reverie.totalFrags
    requires forall i :: 0 <= i < |raws| ==> GoodReply(msg, i, raws[i])
    ensures Reconstruct(msg.target, msg, raws)
         == if forall i :: 0 <= i < |raws| ==> raws[i].Ok?
            then Ok(msg.reverie.umbralCiphertext.plaintext)
            else Err(CannotParse(Transport))
  {
    OpensIff(msg.target, msg, raws);
  }

  /** A respawn ends with the secrets of an agent, or refuses those of anything else. */
  lemma OnlyAgentsReconstructed(self: KeyId, msg: ReverieMessage, raws: seq<FragmentReply>)
    ensures
      var found, secrets := OpenReverie(self, msg, raws), Reconstruct(self, msg, raws);
      && (secrets.Ok? <==> found.Ok? && found.value.AgentSecrets?)
      && (secrets.Ok? ==> secrets == found)
      && (secrets == Err(NotAgentSecrets) <==> found.Ok? && !found.value.AgentSecrets?)
  {
  }

  lemma {:induction false} OnlyTransportFailures(msg: ReverieMessage, raws: seq<FragmentReply>, from: nat)
    requires WellAddressed(msg)
    requires |raws| == msg.reverie.totalFrags
    requires from <= |raws|
    requires forall i :: 0 <= i < |raws| ==> GoodReply(msg, i, raws[i])
    requires exists i :: from <= i < |raws| && raws[i].Err?
    ensures FirstFailure(raws[from..], msg.reverie.umbralCapsule) == Some(Transport)
    decreases |raws| - from
  {
    assert raws[from..][1..] == raws[from + 1..];
    assert GoodReply(msg, from, raws[from]);
    if raws[from].Ok? {
      OnlyTransportFailures(msg, raws, from + 1);
    }
  }

  /** The reverie of the next incarnation: same agent and split, nonce one higher, secrets
      carrying that nonce. */
  function ComposeRespawn(
    self: PeerId, info: AgentVesselInfo, msg: ReverieMessage, raws: seq<FragmentReply>,
    vessels: seq<NodeKeys>, id: ReverieId)
    : Result<ReverieMessage, ClientError>
    requires info.reverieType.SovereignAgent?
  {
    var next := info.reverieType.agent.IncrementNonce();
    match Reconstruct(self, msg, raws)
    case Err(e) => Err(e)
    case Ok(secrets) =>
      if !secrets.AgentSecrets? then Err(NotAgentSecrets)
      else
        var renamed := secrets.(agent := secrets.agent.(nonce := next.nonce));
        Compose(self, SovereignAgent(next), renamed, info.threshold, info.totalFrags, None, vessels, id)
  }

  function RespawnCommands(self: PeerId, info: AgentVesselInfo, msg: ReverieMessage): seq<NodeCommand>
    requires info.reverieType.SovereignAgent?
  {
    BroadcastCommands(self, msg)
    + [MarkPendingRespawnComplete(info.reverieId, info.currentVessel, info.reverieType.agent)]
  }

  // ---------------------------------------------------------------- the client object

  /** A client and its end of the command channel. */
  class NodeClient {
    const peerId: PeerId
    var commandSender: seq<NodeCommand>

    constructor (peerId: PeerId)
      ensures this.peerId == peerId && commandSender == []
    {
      this.peerId := peerId;
      commandSender := [];
    }

    method BroadcastReverieKeyfrags(reverie: Reverie, target: PeerId, providers: seq<NodeKeys>)
      returns (result: Result<ReverieMessage, ClientError>)
      modifies this
      ensures result == Addressed(peerId, reverie, target, providers)
      ensures commandSender == old(commandSender)
                               + match result case Ok(msg) => BroadcastCommands(peerId, msg) case Err(_) => []
    {
      var keyfrags := CreateReverieKeyfrags(peerId, reverie);
      var chosen := providers;
      if |providers| < reverie.totalFrags {
        return Err(NotEnoughPeers);
      } else if |providers| > reverie.totalFrags {
        chosen := providers[..reverie.totalFrags];
      }
      assert chosen == providers[..reverie.totalFrags];
      var msg := ReverieMessage(reverie, peerId, target, PeerIds(chosen));
      var i := 0;
      while i < |keyfrags|
        invariant 0 <= i <= |keyfrags| == |chosen|
        invariant commandSender == old(commandSender) + KeyfragCommands(peerId, msg)[..i]
      {
        commandSender := commandSender
        + [SendReverieKeyfrag(chosen[i].peerId, KeyfragMessage(keyfrags[i], peerId, target))];
        assert KeyfragCommands(peerId, msg)[..i + 1]
            == KeyfragCommands(peerId, msg)[..i] + [KeyfragCommand(peerId, msg, i)];
        i := i + 1;
      }
      if !reverie.reverieType.SovereignAgent? {
        commandSender := commandSender + [SaveReverieOnNetwork(msg)];
      }
      commandSender := commandSender + [SendReverieToSpecificPeer(target, msg)];
      return Ok(msg);
    }

    method ParseCfrags(raws: seq<FragmentReply>, capsule: Capsule) returns (result: Result<ParsedCfrags, ParseError>)
      ensures result == ParseCfragsResult(raws, capsule)
    {
      var verified: seq<CapsuleFrag> := [];
      var cfrags: seq<ReverieCapsulefrag> := [];
      var requiredThreshold := 0;
      var received := 0;
      while received < |raws|
        invariant 0 <= received <= |raws|
        invariant FirstFailure(raws[..received], capsule).None?
        invariant cfrags == Fragments(raws[..received], capsule)
        invariant verified == UmbralFragments(cfrags)
        invariant requiredThreshold == if cfrags == [] then 0 else cfrags[|cfrags| - 1].threshold
      {
        assert raws[..received + 1] == raws[..received] + [raws[received]];
        FirstFailureAppend(raws[..received], raws[received], capsule);
        match CheckReply(raws[received], capsule) {
          case Err(e) =>
            FirstFailurePrefix(raws, received + 1, capsule);
            return Err(e);
          case Ok(c) =>
            verified := verified + [c.umbralCapsuleFrag.cfrag];
            cfrags := cfrags + [c];
            requiredThreshold := c.threshold;
            received := received + 1;
        }
      }
      assert raws[..received] == raws;
      if received < requiredThreshold {
        return Err(InsufficientCfrags);
      }
      if cfrags == [] {
        return Err(NoCfrags);
      }
      return Ok(ParsedCfrags(verified, cfrags[0].sourcePubkey, cfrags[0].targetVerifyingPubkey,
                             cfrags[0].accessCondition, received));
    }

    /** The part of a retrieval that follows the collection of the replies. */
    method Retrieve(msg: ReverieMessage, raws: seq<FragmentReply>) returns (result: Result<Secrets, ClientError>)
      ensures result == OpenReverie(peerId, msg, raws)
    {
      var parsed := ParseCfrags(raws, msg.reverie.umbralCapsule);
      if parsed.Err? {
        return Err(CannotParse(parsed.error));
      }
      var decrypted := DecryptReencrypted(peerId, parsed.value.delegator, msg.reverie.umbralCapsule,
                                          parsed.value.verified, msg.reverie.umbralCiphertext);
      return if decrypted.Ok? then Ok(decrypted.value) else Err(CannotDecrypt);
    }

    method SpawnReverie(
      reverieType: ReverieType, secrets: Secrets, threshold: nat, totalFrags: nat,
      access: Option<AccessCondition>, vessels: seq<NodeKeys>, id: ReverieId)
      returns (result: Result<ReverieMessage, ClientError>)
      modifies this
      ensures result == ComposeSpawn(peerId, reverieType, secrets, threshold, totalFrags, access, vessels, id)
      ensures commandSender == old(commandSender)
                               + match result case Ok(msg) => BroadcastCommands(peerId, msg) case Err(_) => []
    {
      if threshold > totalFrags {
        return Err(ThresholdTooHigh);
      }
      match GetProspectVessels(vessels) {
        case Err(e) => return Err(e);
        case Ok((target, providers)) =>
          var reverie := NewReverie(peerId, reverieType, secrets, threshold, totalFrags, target, access, id);
          result := BroadcastReverieKeyfrags(reverie, target.peerId, providers);
      }
    }

    /** The part of a respawn that follows the collection of the replies. */
    method FinishRespawn(
      info: AgentVesselInfo, msg: ReverieMessage, raws: seq<FragmentReply>, vessels: seq<NodeKeys>,
      id: ReverieId)
      returns (result: Result<ReverieMessage, ClientError>)
      requires info.reverieType.SovereignAgent?
      modifies this
      ensures result == ComposeRespawn(peerId, info, msg, raws, vessels, id)
      ensures commandSender == old(commandSender)
                               + match result case Ok(m) => RespawnCommands(peerId, info, m) case Err(_) => []
    {
      var next := info.reverieType.agent.IncrementNonce();
      var retrieved := Retrieve(msg, raws);
      if retrieved.Err? {
        return Err(retrieved.error);
      }
      var secrets := retrieved.value;
      if !secrets.AgentSecrets? {
        return Err(NotAgentSecrets);
      }
      secrets := secrets.(agent := secrets.agent.(nonce := next.nonce));
      match GetProspectVessels(vessels) {
        case Err(e) => return Err(e);
        case Ok((target, providers)) =>
          var reverie := NewReverie(peerId, SovereignAgent(next), secrets, info.threshold, info.totalFrags, target,
                                    None, id);
          result := BroadcastReverieKeyfrags(reverie, target.peerId, providers);
          if result.Ok? {
            commandSender := commandSender
            + [MarkPendingRespawnComplete(info.reverieId, info.currentVessel, info.reverieType.agent)];
          }
      }
    }
  }
}
