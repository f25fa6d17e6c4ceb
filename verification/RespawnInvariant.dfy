/** What every step of the respawn protocol keeps. */
module RespawnInvariant {
  import opened Types
  import opened Umbral
  import opened Messages
  import opened PeerManagement
  import opened NodeClients
  import opened NetworkEventLoop
  import opened RespawnNetwork

  // ---------------------------------------------------------------- the reveries

  /** `next` re-creates the agent of `prev` on the vessel that `prev` named as the next one. */
  ghost predicate Succeeds(prev: ReverieMessage, next: ReverieMessage) {
    && prev.reverie.reverieType.SovereignAgent?
    && next.reverie.reverieType == SovereignAgent(prev.reverie.reverieType.agent.IncrementNonce())
    && next.reverie.threshold == prev.reverie.threshold
    && next.reverie.totalFrags == prev.reverie.totalFrags
    && next.source == prev.target
    && next.reverie.umbralCiphertext.plaintext == NextSecrets(prev.reverie.umbralCiphertext.plaintext)
  }

  function NextSecrets(secrets: Secrets): Secrets {
    if secrets.AgentSecrets? then secrets.(agent := secrets.agent.IncrementNonce()) else secrets
  }

  ghost predicate MessageOk(msg: ReverieMessage) {
    && WellAddressed(msg)
    && 1 <= msg.reverie.threshold <= msg.reverie.totalFrags
    && (msg.reverie.reverieType.SovereignAgent? ==>
          && msg.reverie.umbralCiphertext.plaintext.AgentSecrets?
          && msg.reverie.umbralCiphertext.plaintext.agent == msg.reverie.reverieType.agent
          && msg.reverie.accessCondition == UmbralSigner(msg.target))
  }

  ghost predicate EntryOk(history: seq<Entry>, r: ReverieId)
    requires r < |history|
  {
    && history[r].msg.reverie.id == r
    && MessageOk(history[r].msg)
    && (history[r].parent.Some? ==>
          && history[r].parent.value < r
          && Succeeds(history[history[r].parent.value].msg, history[r].msg)
          && history[history[r].parent.value].stage == Finished)
  }

  ghost predicate HistoryOk(history: seq<Entry>) {
    && (forall r: nat :: r < |history| ==> EntryOk(history, r))
    && (forall r: nat, r': nat :: r < r' < |history| && history[r].parent.Some? ==>
                                    history[r].parent != history[r'].parent)
  }

  // ---------------------------------------------------------------- what a node remembers

  /** The record says what was broadcast. */
  ghost predicate InfoOk(history: seq<Entry>, info: AgentVesselInfo) {
    info.reverieId < |history| && info == VesselInfoOf(history[info.reverieId].msg)
  }

  ghost predicate RecordOk(history: seq<Entry>, p: PeerId, info: AgentVesselInfo) {
    InfoOk(history, info) && (info.nextVessel == p ==> history[info.reverieId].stage == Held)
  }

  ghost predicate RecordsOk(history: seq<Entry>, p: PeerId, peerInfo: map<PeerId, PeerInfo>) {
    forall q :: q in peerInfo && peerInfo[q].agentVessel.Some? ==> RecordOk(history, p, peerInfo[q].agentVessel.value)
  }

  /** The fragment is the one that the broadcast assigned to this provider. */
  ghost predicate HoldsOwnFragment(history: seq<Entry>, p: PeerId, r: ReverieId, cfrag: ReverieCapsulefrag) {
    && r < |history|
    && cfrag.fragNum < |history[r].msg.keyfragProviders|
    && history[r].msg.keyfragProviders[cfrag.fragNum] == p
    && cfrag == CapsulefragOf(history[r].msg, cfrag.fragNum, p)
  }

  ghost predicate CfragsOk(history: seq<Entry>, p: PeerId, cfrags: map<ReverieId, ReverieCapsulefrag>) {
    forall r :: r in cfrags ==> HoldsOwnFragment(history, p, r, cfrags[r])
  }

  ghost predicate HoldsReverie(history: seq<Entry>, p: PeerId, r: ReverieId, msg: ReverieMessage) {
    r < |history| && msg == history[r].msg && msg.target == p
  }

  ghost predicate ReveriesOk(history: seq<Entry>, p: PeerId, reverie: map<ReverieId, ReverieMessage>) {
    forall r :: r in reverie ==> HoldsReverie(history, p, r, reverie[r])
  }

  ghost predicate ProvidersOk(history: seq<Entry>, p: PeerId, m: Peers) {
    && m.IndexesAgree()
    && (forall q: PeerId, r: ReverieId, n: nat :: m.Provides(q, r, n) ==> AnnouncedOk(history, p, r, n, q))
  }

  ghost predicate AnnouncedOk(history: seq<Entry>, p: PeerId, r: ReverieId, n: nat, provider: PeerId) {
    && r < |history| && history[r].msg.target == p
    && n < |history[r].msg.keyfragProviders| && history[r].msg.keyfragProviders[n] == provider
  }

  ghost predicate MetadataOk(history: seq<Entry>, metadata: map<ReverieId, AgentVesselInfo>) {
    forall r :: r in metadata ==> metadata[r].reverieId == r && InfoOk(history, metadata[r])
  }

  ghost predicate OwnAgentOk(history: seq<Entry>, p: PeerId, own: Option<AgentVesselInfo>) {
    own.Some? ==> InfoOk(history, own.value) && own.value.currentVessel == p
  }

  /** A node holds the reverie of every agent that it is to take over. */
  ghost predicate HoldsNext(p: PeerId, peerInfo: map<PeerId, PeerInfo>, reverie: map<ReverieId, ReverieMessage>) {
    forall q :: q in peerInfo && peerInfo[q].agentVessel.Some? && peerInfo[q].agentVessel.value.nextVessel == p ==>
                  peerInfo[q].agentVessel.value.reverieId in reverie
  }

  ghost predicate PeersOk(history: seq<Entry>, p: PeerId, m: Peers) {
    && m.self == p
    && m.RecordsPlaced()
    && RecordsOk(history, p, m.peerInfo)
    && HoldsNext(p, m.peerInfo, m.reverie)
    && CfragsOk(history, p, m.cfrags)
    && ReveriesOk(history, p, m.reverie)
    && ProvidersOk(history, p, m)
    && MetadataOk(history, m.reverieMetadata)
    && OwnAgentOk(history, p, m.vesselAgent)
  }

  // ---------------------------------------------------------------- what a node is about to do

  ghost predicate KeyfragOk(history: seq<Entry>, src: PeerId, dst: PeerId, k: KeyfragMessage) {
    var r, n := k.keyfrag.id, k.keyfrag.fragNum;
    && r < |history|
    && n < |history[r].msg.keyfragProviders|
    && dst == history[r].msg.keyfragProviders[n]
    && src == history[r].msg.source
    && k == KeyfragMessage(KeyfragOf(src, history[r].msg.reverie, n), src, history[r].msg.target)
  }

  ghost predicate BroadcastBy(history: seq<Entry>, src: PeerId, msg: ReverieMessage) {
    msg.reverie.id < |history| && msg == history[msg.reverie.id].msg && msg.source == src
  }

  /** The key is the target's own signature if a respawn asks, and any key if a retrieval does. */
  ghost predicate FragmentAskOk(
    history: seq<Entry>, p: PeerId, provider: PeerId, r: ReverieId, key: AccessKey, sender: ReplySender)
  {
    && SenderOk(history, p, sender) && sender.reverieId == r
    && provider == history[r].msg.keyfragProviders[sender.slot]
    && (sender.retrieval.None? ==> key == UmbralSignature(p, r))
  }

  ghost predicate SenderOk(history: seq<Entry>, p: PeerId, sender: ReplySender) {
    && sender.reverieId < |history|
    && sender.slot < |history[sender.reverieId].msg.keyfragProviders|
    && (sender.retrieval.None? ==>
          && history[sender.reverieId].msg.reverie.reverieType.SovereignAgent?
          && history[sender.reverieId].msg.target == p)
  }

  ghost predicate HasSuccessor(history: seq<Entry>, r: ReverieId) {
    exists next: nat :: next < |history| && history[next].parent == Some(r)
  }

  /** What is marked complete is a finished respawn with a successor. */
  ghost predicate NoticeOk(history: seq<Entry>, r: ReverieId, prevPeer: PeerId, prevAgent: ReverieName) {
    && r < |history| && history[r].stage == Finished && HasSuccessor(history, r)
    && prevPeer == history[r].msg.source
    && history[r].msg.reverie.reverieType == SovereignAgent(prevAgent)
  }

  ghost predicate CommandOk(history: seq<Entry>, p: PeerId, command: NodeCommand) {
    match command
    case SendReverieKeyfrag(provider, k) => KeyfragOk(history, p, provider, k)
    case SaveReverieOnNetwork(msg) => BroadcastBy(history, p, msg)
    case SendReverieToSpecificPeer(holder, msg) =>
      BroadcastBy(history, p, msg) && holder == msg.target && history[msg.reverie.id].stage == Queued
    case RequestCapsuleFragment(r, provider, key, sender) => FragmentAskOk(history, p, provider, r, key, sender)
    case MarkPendingRespawnComplete(r, prevPeer, prevAgent) => NoticeOk(history, r, prevPeer, prevAgent)
  }

  ghost predicate SendOnce(commands: seq<NodeCommand>) {
    forall i, j :: 0 <= i < j < |commands| && commands[i].SendReverieToSpecificPeer?
                   && commands[j].SendReverieToSpecificPeer? ==>
                     commands[i].reverieMsg.reverie.id != commands[j].reverieMsg.reverie.id
  }

  ghost predicate CommandsOk(history: seq<Entry>, p: PeerId, commands: seq<NodeCommand>) {
    SendOnce(commands) && forall c :: c in commands ==> CommandOk(history, p, c)
  }

  ghost predicate RequestedOk(history: seq<Entry>, p: PeerId, info: AgentVesselInfo) {
    InfoOk(history, info) && info.nextVessel == p && history[info.reverieId].stage == Requested
  }

  ghost predicate DistinctIds(infos: seq<AgentVesselInfo>) {
    forall i, j :: 0 <= i < j < |infos| ==> infos[i].reverieId != infos[j].reverieId
  }

  ghost predicate RequestsOk(history: seq<Entry>, p: PeerId, infos: seq<AgentVesselInfo>) {
    DistinctIds(infos) && forall v :: v in infos ==> RequestedOk(history, p, v)
  }

  ghost predicate SlotOk(msg: ReverieMessage, i: nat, reply: Option<FragmentReply>) {
    reply.Some? ==> GoodReply(msg, i, reply.value)
  }

  ghost predicate JobOk(history: seq<Entry>, p: PeerId, job: Job) {
    && InfoOk(history, job.info)
    && job.info.reverieType.SovereignAgent?
    && job.info.nextVessel == p
    && history[job.info.reverieId].stage == Working
    && job.msg == history[job.info.reverieId].msg
    && |job.replies| == |job.msg.keyfragProviders|
    && forall i :: 0 <= i < |job.replies| ==> SlotOk(job.msg, i, job.replies[i])
  }

  ghost predicate RetrievalOk(history: seq<Entry>, asked: Retrieval) {
    && asked.msg.reverie.id < |history|
    && asked.msg == history[asked.msg.reverie.id].msg
    && |asked.replies| == |asked.msg.keyfragProviders|
    && forall i :: 0 <= i < |asked.replies| ==> SlotOk(asked.msg, i, asked.replies[i])
  }

  ghost predicate RetrievalsOk(history: seq<Entry>, retrievals: seq<Retrieval>) {
    forall k :: 0 <= k < |retrievals| ==> RetrievalOk(history, retrievals[k])
  }

  ghost predicate HoldsRequested(infos: seq<AgentVesselInfo>, reverie: map<ReverieId, ReverieMessage>) {
    forall v :: v in infos ==> v.reverieId in reverie
  }

  ghost predicate SendersOk(history: seq<Entry>, nextRequest: nat, p: PeerId, senders: map<nat, ReplySender>) {
    forall id :: id in senders ==> id < nextRequest && SenderOk(history, p, senders[id])
  }

  ghost predicate NodeOk(history: seq<Entry>, nextRequest: nat, p: PeerId, node: Node) {
    && PeersOk(history, p, node.events.peers)
    && CommandsOk(history, p, node.commands)
    && RequestsOk(history, p, node.events.networkEvents)
    && HoldsRequested(node.events.networkEvents, node.events.peers.reverie)
    && (node.job.Some? ==> JobOk(history, p, node.job.value))
    && RetrievalsOk(history, node.retrievals)
    && SendersOk(history, nextRequest, p, node.events.requestFragments)
  }

  // ---------------------------------------------------------------- what is in flight

  ghost predicate Waits(nodes: map<PeerId, Node>, p: PeerId, id: nat) {
    p in nodes && id in nodes[p].events.requestFragments
  }

  ghost predicate PacketOk(history: seq<Entry>, nodes: map<PeerId, Node>, id: nat, packet: Packet) {
    match packet.body
    case Request(SaveFragment(k)) => KeyfragOk(history, packet.src, packet.dst, k)
    case Request(SaveCiphertext(msg)) =>
      BroadcastBy(history, packet.src, msg) && packet.dst == msg.target && history[msg.reverie.id].stage == OnWire
    case Request(ProvidingFragment(r, n, provider)) => AnnouncedOk(history, packet.dst, r, n, provider)
    case Request(MarkRespawnComplete(r, prevPeer, prevAgent)) => NoticeOk(history, r, prevPeer, prevAgent)
    case Request(GetFragment(r, key)) =>
      !packet.reported ==>
        && Waits(nodes, packet.src, id)
        && FragmentAskOk(history, packet.src, packet.dst, r, key, nodes[packet.src].events.requestFragments[id])
    case Reply(reply) =>
      && !packet.reported
      && Waits(nodes, packet.dst, id)
      && ReplyFits(history, nodes[packet.dst].events.requestFragments[id], reply)
  }

  ghost predicate ReplyFits(history: seq<Entry>, sender: ReplySender, reply: FragmentReply) {
    && sender.reverieId < |history|
    && GoodReply(history[sender.reverieId].msg, sender.slot, reply)
  }

  predicate CarriesCiphertext(packet: Packet, r: ReverieId) {
    packet.body.Request? && packet.body.request.SaveCiphertext? && packet.body.request.reverieMsg.reverie.id == r
  }

  ghost predicate WireOk(net: Network) {
    && (forall id :: id in net.wire ==> id < net.nextRequest && PacketOk(net.history, net.nodes, id, net.wire[id]))
    && SentOnce(net.wire)
  }

  /** At most one packet carries the ciphertext of a reverie. */
  ghost predicate SentOnce(wire: map<nat, Packet>) {
    forall id, id', r: ReverieId ::
      (id in wire && id' in wire && CarriesCiphertext(wire[id], r) && CarriesCiphertext(wire[id'], r)) ==> id == id'
  }

  ghost predicate DispatchedOk(history: seq<Entry>, dispatched: seq<(PeerId, ReverieId)>) {
    && (forall i :: 0 <= i < |dispatched| ==>
                      && dispatched[i].1 < |history|
                      && history[dispatched[i].1].msg.target == dispatched[i].0
                      && history[dispatched[i].1].stage in {Requested, Working, Finished})
    && (forall i, j :: 0 <= i < j < |dispatched| ==> dispatched[i].1 != dispatched[j].1)
  }

  ghost predicate NodesOk(history: seq<Entry>, nextRequest: nat, nodes: map<PeerId, Node>) {
    forall p :: p in nodes ==> NodeOk(history, nextRequest, p, nodes[p])
  }

  ghost predicate Inv(net: Network) {
    && HistoryOk(net.history)
    && NodesOk(net.history, net.nextRequest, net.nodes)
    && WireOk(net)
    && DispatchedOk(net.history, net.dispatched)
  }

  lemma StartOk(peers: set<PeerId>)
    ensures Inv(Start(peers))
  {
  }

  // ---------------------------------------------------------------- growing histories

  /** Old reveries stay what they were; only their stages move, and the last one is final. */
  ghost predicate Extends(history: seq<Entry>, history': seq<Entry>) {
    && |history| <= |history'|
    && forall r: nat :: r < |history| ==>
                          && history'[r].msg == history[r].msg && history'[r].parent == history[r].parent
                          && (history[r].stage == Finished ==> history'[r].stage == Finished)
  }

  lemma NoticeFrame(history: seq<Entry>, history': seq<Entry>, r: ReverieId, prevPeer: PeerId, prevAgent: ReverieName)
    requires NoticeOk(history, r, prevPeer, prevAgent) && Extends(history, history')
    ensures NoticeOk(history', r, prevPeer, prevAgent)
  {
    var next: nat :| next < |history| && history[next].parent == Some(r);
    assert history'[next].parent == Some(r);
  }

  /** Whether node p is the one whose state speaks for the stage of r. */
  ghost predicate Speaks(p: PeerId, entry: Entry) {
    match entry.stage
    case Queued => entry.msg.source == p
    case OnWire => false
    case Held => entry.msg.target == p
    case Requested => entry.msg.target == p
    case Working => entry.msg.target == p
    case Finished => false
  }

  /** No stage that p speaks for has moved. */
  ghost predicate QuietFor(p: PeerId, history: seq<Entry>, history': seq<Entry>) {
    && Extends(history, history')
    && forall r: nat :: r < |history| && Speaks(p, history[r]) ==> history'[r].stage == history[r].stage
  }

  /** No reverie that p speaks for has left this stage. */
  ghost predicate Keeps(p: PeerId, history: seq<Entry>, history': seq<Entry>, stage: Stage) {
    && Extends(history, history')
    && forall r: nat :: r < |history| && history[r].stage == stage && Speaks(p, history[r]) ==>
                          history'[r].stage == stage
  }

  lemma PeersFrame(history: seq<Entry>, history': seq<Entry>, p: PeerId, m: Peers)
    requires PeersOk(history, p, m) && Keeps(p, history, history', Held)
    ensures PeersOk(history', p, m)
  {
    forall q | q in m.peerInfo && m.peerInfo[q].agentVessel.Some?
      ensures RecordOk(history', p, m.peerInfo[q].agentVessel.value)
    {
      assert RecordOk(history, p, m.peerInfo[q].agentVessel.value);
    }
    forall q: PeerId, r: ReverieId, n: nat | m.Provides(q, r, n)
      ensures AnnouncedOk(history', p, r, n, q)
    {
      assert AnnouncedOk(history, p, r, n, q);
    }
    forall r | r in m.cfrags
      ensures HoldsOwnFragment(history', p, r, m.cfrags[r])
    {
      assert HoldsOwnFragment(history, p, r, m.cfrags[r]);
    }
    forall r | r in m.reverie
      ensures HoldsReverie(history', p, r, m.reverie[r])
    {
      assert HoldsReverie(history, p, r, m.reverie[r]);
    }
  }

  lemma CommandsFrame(history: seq<Entry>, history': seq<Entry>, p: PeerId, commands: seq<NodeCommand>)
    requires CommandsOk(history, p, commands) && Keeps(p, history, history', Queued)
    ensures CommandsOk(history', p, commands)
  {
    forall c | c in commands
      ensures CommandOk(history', p, c)
    {
      assert CommandOk(history, p, c);
      if c.MarkPendingRespawnComplete? {
        NoticeFrame(history, history', c.prevReverieId, c.prevPeer, c.prevAgent);
      }
    }
  }

  lemma RequestsFrame(history: seq<Entry>, history': seq<Entry>, p: PeerId, infos: seq<AgentVesselInfo>)
    requires RequestsOk(history, p, infos) && Keeps(p, history, history', Requested)
    ensures RequestsOk(history', p, infos)
  {
    forall v | v in infos
      ensures RequestedOk(history', p, v)
    {
      assert RequestedOk(history, p, v);
    }
  }

  lemma SendersFrame(
    history: seq<Entry>, history': seq<Entry>, next: nat, next': nat, p: PeerId,
    senders: map<nat, ReplySender>)
    requires SendersOk(history, next, p, senders) && Extends(history, history') && next <= next'
    ensures SendersOk(history', next', p, senders)
  {
    forall id | id in senders
      ensures id < next' && SenderOk(history', p, senders[id])
    {
      assert SenderOk(history, p, senders[id]);
    }
  }

  lemma JobFrame(history: seq<Entry>, history': seq<Entry>, p: PeerId, job: Job)
    requires JobOk(history, p, job) && Keeps(p, history, history', Working)
    ensures JobOk(history', p, job)
  {
  }

  lemma RetrievalsFrame(history: seq<Entry>, history': seq<Entry>, retrievals: seq<Retrieval>)
    requires RetrievalsOk(history, retrievals) && Extends(history, history')
    ensures RetrievalsOk(history', retrievals)
  {
    forall k | 0 <= k < |retrievals|
      ensures RetrievalOk(history', retrievals[k])
    {
      assert RetrievalOk(history, retrievals[k]);
    }
  }

  lemma NodeFrame(history: seq<Entry>, history': seq<Entry>, next: nat, next': nat, p: PeerId, node: Node)
    requires NodeOk(history, next, p, node) && QuietFor(p, history, history') && next <= next'
    ensures NodeOk(history', next', p, node)
  {
    PeersFrame(history, history', p, node.events.peers);
    CommandsFrame(history, history', p, node.commands);
    RequestsFrame(history, history', p, node.events.networkEvents);
    SendersFrame(history, history', next, next', p, node.events.requestFragments);
    RetrievalsFrame(history, history', node.retrievals);
    if node.job.Some? {
      JobFrame(history, history', p, node.job.value);
    }
  }

  lemma PacketFrame(
    history: seq<Entry>, history': seq<Entry>, nodes: map<PeerId, Node>, nodes': map<PeerId, Node>, id: nat,
    packet: Packet)
    requires PacketOk(history, nodes, id, packet) && Extends(history, history')
    requires packet.body.Request? && packet.body.request.SaveCiphertext? ==>
               history'[packet.body.request.reverieMsg.reverie.id].stage == OnWire
    requires !packet.reported && Waits(nodes, Requester(packet), id) ==>
               && Waits(nodes', Requester(packet), id)
               && nodes'[Requester(packet)].events.requestFragments[id]
                  == nodes[Requester(packet)].events.requestFragments[id]
    ensures PacketOk(history', nodes', id, packet)
  {
    match packet.body
    case Request(MarkRespawnComplete(r, prevPeer, prevAgent)) => NoticeFrame(history, history', r, prevPeer, prevAgent);
    case _ =>
  }
}
