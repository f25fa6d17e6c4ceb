/** What the respawn protocol guarantees in every reachable network. */
module RespawnTheorems {
  import opened Types
  import opened Umbral
  import opened Messages
  import opened PeerManagement
  import opened NodeClients
  import opened NetworkEventLoop
  import opened RespawnNetwork
  import opened RespawnInvariant
  import opened RespawnSteps
  import opened RespawnProgress

  // ---------------------------------------------------------------- agreement

  /** One of node p's maps holds this vessel record, or a reverie with it. */
  ghost predicate StoredAt(m: Peers, info: AgentVesselInfo) {
    || (exists q :: q in m.peerInfo && m.peerInfo[q].agentVessel == Some(info))
    || (exists r :: r in m.reverieMetadata && m.reverieMetadata[r] == info)
    || m.vesselAgent == Some(info)
    || (exists r :: r in m.reverie && VesselInfoOf(m.reverie[r]) == info)
  }

  /** The vessel record that a queued command carries. */
  function CommandInfo(command: NodeCommand): Option<AgentVesselInfo> {
    match command
    case SendReverieKeyfrag(_, k) => Some(VesselInfoOfKeyfrag(k))
    case SendReverieToSpecificPeer(_, msg) => Some(VesselInfoOf(msg))
    case SaveReverieOnNetwork(msg) => Some(VesselInfoOf(msg))
    case _ => None
  }

  /** Node p holds this vessel record or is about to act on it. */
  ghost predicate RemembersAt(net: Network, p: PeerId, info: AgentVesselInfo) {
    && p in net.nodes
    && var node := net.nodes[p];
    || StoredAt(node.events.peers, info)
    || info in node.events.networkEvents
    || (node.job.Some? && (node.job.value.info == info || VesselInfoOf(node.job.value.msg) == info))
    || (exists asked :: asked in node.retrievals && VesselInfoOf(asked.msg) == info)
    || (exists c :: c in node.commands && CommandInfo(c) == Some(info))
  }

  /** A request in flight carries this vessel record. */
  ghost predicate InFlight(net: Network, info: AgentVesselInfo) {
    exists id :: id in net.wire && net.wire[id].body.Request? && CarriedInfo(net.wire[id].body.request) == Some(info)
  }

  function CarriedInfo(request: FragmentRequest): Option<AgentVesselInfo> {
    match request
    case SaveFragment(k) => Some(VesselInfoOfKeyfrag(k))
    case SaveCiphertext(msg) => Some(VesselInfoOf(msg))
    case _ => None
  }

  ghost predicate Mentioned(net: Network, info: AgentVesselInfo) {
    (exists p :: RemembersAt(net, p, info)) || InFlight(net, info)
  }

  lemma MentionedOk(net: Network, info: AgentVesselInfo)
    requires Inv(net) && Mentioned(net, info)
    ensures InfoOk(net.history, info)
  {
    if InFlight(net, info) {
      var id :| id in net.wire && net.wire[id].body.Request? && CarriedInfo(net.wire[id].body.request) == Some(info);
      assert PacketOk(net.history, net.nodes, id, net.wire[id]);
    } else {
      var p :| RemembersAt(net, p, info);
      RememberedOk(net, p, info);
    }
  }

  lemma StoredOk(history: seq<Entry>, p: PeerId, m: Peers, info: AgentVesselInfo)
    requires HistoryOk(history) && PeersOk(history, p, m) && StoredAt(m, info)
    ensures InfoOk(history, info)
  {
    if exists q :: q in m.peerInfo && m.peerInfo[q].agentVessel == Some(info) {
      var q :| q in m.peerInfo && m.peerInfo[q].agentVessel == Some(info);
      assert RecordOk(history, p, m.peerInfo[q].agentVessel.value);
    } else if exists r :: r in m.reverie && VesselInfoOf(m.reverie[r]) == info {
      var r :| r in m.reverie && VesselInfoOf(m.reverie[r]) == info;
      assert HoldsReverie(history, p, r, m.reverie[r]);
      assert EntryOk(history, r);
    }
  }

  lemma RememberedOk(net: Network, p: PeerId, info: AgentVesselInfo)
    requires Inv(net) && RemembersAt(net, p, info)
    ensures InfoOk(net.history, info)
  {
    var node := net.nodes[p];
    assert NodeOk(net.history, net.nextRequest, p, node);
    if StoredAt(node.events.peers, info) {
      StoredOk(net.history, p, node.events.peers, info);
    } else if info in node.events.networkEvents {
      assert RequestedOk(net.history, p, info);
    } else if exists asked :: asked in node.retrievals && VesselInfoOf(asked.msg) == info {
      var asked :| asked in node.retrievals && VesselInfoOf(asked.msg) == info;
      assert RetrievalOk(net.history, asked);
    } else if exists c :: c in node.commands && CommandInfo(c) == Some(info) {
      var c :| c in node.commands && CommandInfo(c) == Some(info);
      assert CommandOk(net.history, p, c);
    }
  }

  /** All that the nodes store, queue or have in flight about one reverie agrees on its type, its
      vessels, threshold and total. */
  lemma MentionsAgree(net: Network, a: AgentVesselInfo, b: AgentVesselInfo)
    requires Reachable(net) && Mentioned(net, a) && Mentioned(net, b) && a.reverieId == b.reverieId
    ensures a == b
  {
    ReachableOk(net);
    MentionedOk(net, a);
    MentionedOk(net, b);
  }

  /** Some node stores this fragment, or has been or is being sent it. */
  ghost predicate HasFragment(net: Network, cfrag: ReverieCapsulefrag) {
    || (exists p :: p in net.nodes && cfrag in net.nodes[p].events.peers.cfrags.Values)
    || (exists id :: id in net.wire && net.wire[id].body == Reply(Ok(CfragJson(cfrag))))
    || (exists p :: p in net.nodes && net.nodes[p].job.Some?
                    && Some(Ok(CfragJson(cfrag))) in net.nodes[p].job.value.replies)
  }

  /** The fragment is one of the broadcast reverie's. */
  ghost predicate FragmentOf(history: seq<Entry>, cfrag: ReverieCapsulefrag) {
    && cfrag.id < |history| && cfrag.fragNum < |history[cfrag.id].msg.keyfragProviders|
    && cfrag == CapsulefragOf(history[cfrag.id].msg, cfrag.fragNum,
                              history[cfrag.id].msg.keyfragProviders[cfrag.fragNum])
  }

  lemma StoredFragmentIsGenuine(
    history: seq<Entry>, p: PeerId, cfrags: map<ReverieId, ReverieCapsulefrag>, r: ReverieId)
    requires HistoryOk(history) && CfragsOk(history, p, cfrags) && r in cfrags
    ensures FragmentOf(history, cfrags[r])
  {
    assert HoldsOwnFragment(history, p, r, cfrags[r]);
    assert EntryOk(history, r);
  }

  /** A reply that fits its slot brings a fragment of the reverie asked for. */
  lemma FittingFragmentIsGenuine(history: seq<Entry>, r: ReverieId, i: nat, cfrag: ReverieCapsulefrag)
    requires HistoryOk(history) && r < |history| && GoodReply(history[r].msg, i, Ok(CfragJson(cfrag)))
    ensures FragmentOf(history, cfrag)
  {
    assert EntryOk(history, r);
  }

  lemma FragmentIsGenuine(net: Network, cfrag: ReverieCapsulefrag)
    requires Inv(net) && HasFragment(net, cfrag)
    ensures FragmentOf(net.history, cfrag)
  {
    if p :| p in net.nodes && cfrag in net.nodes[p].events.peers.cfrags.Values {
      var cfrags := net.nodes[p].events.peers.cfrags;
      var r :| r in cfrags && cfrags[r] == cfrag;
      assert NodeOk(net.history, net.nextRequest, p, net.nodes[p]);
      StoredFragmentIsGenuine(net.history, p, cfrags, r);
    } else if id :| id in net.wire && net.wire[id].body == Reply(Ok(CfragJson(cfrag))) {
      assert PacketOk(net.history, net.nodes, id, net.wire[id]);
      var sender := net.nodes[net.wire[id].dst].events.requestFragments[id];
      FittingFragmentIsGenuine(net.history, sender.reverieId, sender.slot, cfrag);
    } else {
      var p :| p in net.nodes && net.nodes[p].job.Some? && Some(Ok(CfragJson(cfrag))) in net.nodes[p].job.value.replies;
      CollectedFragmentIsGenuine(net, p, cfrag);
    }
  }

  lemma CollectedFragmentIsGenuine(net: Network, p: PeerId, cfrag: ReverieCapsulefrag)
    requires Inv(net) && p in net.nodes && net.nodes[p].job.Some?
    requires Some(Ok(CfragJson(cfrag))) in net.nodes[p].job.value.replies
    ensures FragmentOf(net.history, cfrag)
  {
    var job := net.nodes[p].job.value;
    assert JobOk(net.history, p, job) by {
      assert NodeOk(net.history, net.nextRequest, p, net.nodes[p]);
    }
    var i :| 0 <= i < |job.replies| && job.replies[i] == Some(Ok(CfragJson(cfrag)));
    assert SlotOk(job.msg, i, job.replies[i]);
    FittingFragmentIsGenuine(net.history, job.info.reverieId, i, cfrag);
  }

  /** Fragments agree with the records too. */
  lemma FragmentsAgree(net: Network, cfrag: ReverieCapsulefrag, info: AgentVesselInfo)
    requires Reachable(net) && HasFragment(net, cfrag) && Mentioned(net, info) && cfrag.id == info.reverieId
    ensures cfrag.reverieType == info.reverieType && cfrag.threshold == info.threshold
    ensures cfrag.sourcePubkey == info.currentVessel && cfrag.targetPubkey == info.nextVessel
    ensures cfrag.fragNum < info.totalFrags
  {
    ReachableOk(net);
    MentionedOk(net, info);
    FragmentIsGenuine(net, cfrag);
    assert EntryOk(net.history, info.reverieId);
  }

  /** Only the recorded next vessel dispatches a respawn of a reverie, and only once in the
      whole network. */
  lemma DispatchedByNextVesselOnce(net: Network)
    requires Reachable(net)
    ensures forall i, j :: 0 <= i < j < |net.dispatched| ==> net.dispatched[i].1 != net.dispatched[j].1
    ensures forall i, info :: 0 <= i < |net.dispatched| && Mentioned(net, info)
                              && net.dispatched[i].1 == info.reverieId ==>
                                net.dispatched[i].0 == info.nextVessel
  {
    ReachableOk(net);
    forall i, info | 0 <= i < |net.dispatched| && Mentioned(net, info) && net.dispatched[i].1 == info.reverieId
      ensures net.dispatched[i].0 == info.nextVessel
    {
      MentionedOk(net, info);
    }
  }

  // ---------------------------------------------------------------- fragments

  /** A node holding a fragment of a reverie is that fragment's entry, and no other, in the list of
      providers that was broadcast, and is neither its target nor its source. */
  lemma FragmentsSitWhereSent(net: Network, p: PeerId, r: ReverieId)
    requires Reachable(net) && p in net.nodes && r in net.nodes[p].events.peers.cfrags
    ensures r < |net.history|
    ensures
      var cfrag, msg := net.nodes[p].events.peers.cfrags[r], net.history[r].msg;
      && cfrag.fragNum < |msg.keyfragProviders| == msg.reverie.totalFrags
      && msg.keyfragProviders[cfrag.fragNum] == p
      && (forall i :: 0 <= i < |msg.keyfragProviders| && msg.keyfragProviders[i] == p ==> i == cfrag.fragNum)
      && p != msg.target && p != msg.source
  {
    ReachableOk(net);
    assert NodeOk(net.history, net.nextRequest, p, net.nodes[p]);
    assert HoldsOwnFragment(net.history, p, r, net.nodes[p].events.peers.cfrags[r]);
    assert EntryOk(net.history, r);
  }

  /** The reverie that its target keeps is the one broadcast, so the same holds of that list. */
  lemma FragmentsSitWhereListed(net: Network, p: PeerId, holder: PeerId, r: ReverieId)
    requires Reachable(net) && p in net.nodes && holder in net.nodes
    requires r in net.nodes[p].events.peers.cfrags && r in net.nodes[holder].events.peers.reverie
    ensures
      var cfrag, msg := net.nodes[p].events.peers.cfrags[r], net.nodes[holder].events.peers.reverie[r];
      && cfrag.fragNum < |msg.keyfragProviders| == msg.reverie.totalFrags
      && msg.keyfragProviders[cfrag.fragNum] == p
      && (forall i :: 0 <= i < |msg.keyfragProviders| && msg.keyfragProviders[i] == p ==> i == cfrag.fragNum)
      && p != msg.target && p != msg.source && holder == msg.target
  {
    FragmentsSitWhereSent(net, p, r);
    ReachableOk(net);
    assert NodeOk(net.history, net.nextRequest, holder, net.nodes[holder]);
    assert HoldsReverie(net.history, holder, r, net.nodes[holder].events.peers.reverie[r]);
  }

  /** Delivering a request ends its receiver's event loop exactly when the requester's connection
      is gone, or the request asks for a fragment that the receiver does not hold or that the
      given key does not open. Key fragments always verify. */
  lemma EndsReceiverIff(net: Network, id: nat, at: Instant, served: bool)
    requires Reachable(net) && id in net.wire && net.wire[id].body.Request? && net.Runs(net.wire[id].dst)
    ensures
      var p, request := net.wire[id].dst, net.wire[id].body.request;
      !Next(net, Deliver(id, at, served)).Runs(p)
      <==> !served || (request.GetFragment? && !Grants(net.nodes[p].events.peers, request.reverieId, request.accessKey))
  {
    ReachableOk(net);
    var p, request := net.wire[id].dst, net.wire[id].body.request;
    assert PacketOk(net.history, net.nodes, id, net.wire[id]);
    assert NodeOk(net.history, net.nextRequest, p, net.nodes[p]);
    if request.SaveFragment? {
      SaveFragmentOk(net.history, p, net.nodes[p].events, net.wire[id].src, request.keyfragMsg, at);
    }
    assert Next(net, Deliver(id, at, served)) == DeliverRequest(net, id, at, served);
  }

  /** A request signed by the next vessel of an agent is refused only for a missing fragment: the
      signature opens every fragment that is there. */
  lemma RefusedIffMissing(net: Network, p: PeerId, r: ReverieId)
    requires Reachable(net) && p in net.nodes && r < |net.history|
    requires net.history[r].msg.reverie.reverieType.SovereignAgent?
    ensures
      var m := net.nodes[p].events.peers;
      Grants(m, r, UmbralSignature(net.history[r].msg.target, r)) <==> r in m.cfrags
  {
    ReachableOk(net);
    assert NodeOk(net.history, net.nextRequest, p, net.nodes[p]);
    if r in net.nodes[p].events.peers.cfrags {
      assert HoldsOwnFragment(net.history, p, r, net.nodes[p].events.peers.cfrags[r]);
      assert EntryOk(net.history, r);
    }
  }

  /** A signed request for an agent's fragment is answered exactly if the fragment is held and the
      signature is the next vessel's, over that reverie; the answer is the fragment broadcast. */
  lemma SignedRequestServedIff(net: Network, p: PeerId, r: ReverieId, signer: PeerId, signed: ReverieId, at: Instant)
    requires Reachable(net) && p in net.nodes && r < |net.history|
    requires net.history[r].msg.reverie.reverieType.SovereignAgent?
    ensures
      var reply := RequestStep(net.nodes[p].events, GetFragment(r, UmbralSignature(signer, signed)), at).1.reply;
      && (reply.Some? <==> r in net.nodes[p].events.peers.cfrags && signer == net.history[r].msg.target && signed == r)
      && (reply.Some? ==> exists i: nat :: i < |net.history[r].msg.keyfragProviders|
                                           && net.history[r].msg.keyfragProviders[i] == p
                                           && reply.value == Ok(CfragJson(CapsulefragOf(net.history[r].msg, i, p))))
  {
    ReachableOk(net);
    assert NodeOk(net.history, net.nextRequest, p, net.nodes[p]);
    FragmentServedIff(net.nodes[p].events, r, UmbralSignature(signer, signed), at);
    var cfrags := net.nodes[p].events.peers.cfrags;
    if r in cfrags {
      assert HoldsOwnFragment(net.history, p, r, cfrags[r]);
      assert EntryOk(net.history, r);
      var i := cfrags[r].fragNum;
      assert net.history[r].msg.keyfragProviders[i] == p;
    }
  }

  /** Every request of a respawn, as long as its failure has not been reported, is one of those: its
      sender waits, is the agent's next vessel and has signed it. */
  lemma RespawnSigns(net: Network, id: nat)
    requires Reachable(net) && id in net.wire && !net.wire[id].reported
    requires net.wire[id].body.Request? && net.wire[id].body.request.GetFragment?
    ensures Waits(net.nodes, net.wire[id].src, id)
    ensures
      var p, request := net.wire[id].src, net.wire[id].body.request;
      net.nodes[p].events.requestFragments[id].retrieval.None? ==>
        && request.reverieId < |net.history|
        && net.history[request.reverieId].msg.reverie.reverieType.SovereignAgent?
        && net.history[request.reverieId].msg.target == p
        && request.accessKey == UmbralSignature(p, request.reverieId)
  {
    ReachableOk(net);
    assert PacketOk(net.history, net.nodes, id, net.wire[id]);
  }

  /** Neither a delivered reply nor a tick ends an event loop. */
  lemma RepliesAndTicksNeverFail(net: Network, id: nat, p: PeerId, order: seq<PeerId>, at: Instant, maxTime: int)
    requires Reachable(net) && net.Runs(p) && Enumerates(order, net.nodes[p].events.peers.peerInfo.Keys)
    ensures Tick(net.nodes[p].events, order, at, maxTime).ok
    ensures id in net.wire && net.wire[id].body.Reply? && net.wire[id].dst == p ==>
              ReplyStep(net.nodes[p].events, id).1.Some?
  {
    ReachableOk(net);
    TickKeepsInv(net, p, order, at, maxTime);
    if id in net.wire && net.wire[id].body.Reply? && net.wire[id].dst == p {
      DeliverReplyKeepsInv(net, id);
    }
  }

  // ---------------------------------------------------------------- respawns are taken up and completed

  /** A node that dispatched a respawn holds its reverie, so the client takes the request up exactly
      when the agent is sovereign; one of type `Agent` is dropped. */
  lemma TakenUpIff(net: Network, p: PeerId)
    requires Reachable(net) && net.Runs(p) && net.nodes[p].job.None? && net.nodes[p].events.networkEvents != []
    ensures Next(net, StartRespawn(p)).nodes[p].job.Some?
       <==> net.nodes[p].events.networkEvents[0].reverieType.SovereignAgent?
  {
    ReachableOk(net);
    var node := net.nodes[p];
    assert NodeOk(net.history, net.nextRequest, p, node);
    assert node.events.networkEvents[0] in node.events.networkEvents;
    assert Next(net, StartRespawn(p)) == StartStep(net, p);
  }

  /** A completion notice, queued or in flight. */
  ghost predicate Announced(net: Network, r: ReverieId, prevPeer: PeerId, prevAgent: ReverieName) {
    || (exists p :: p in net.nodes && MarkPendingRespawnComplete(r, prevPeer, prevAgent) in net.nodes[p].commands)
    || (exists id :: id in net.wire && net.wire[id].body == Request(MarkRespawnComplete(r, prevPeer, prevAgent)))
  }

  /** Completion is announced only after the next incarnation was broadcast, and names the vessel
      and the agent that were replaced. */
  lemma CompletionFollowsRespawn(net: Network, r: ReverieId, prevPeer: PeerId, prevAgent: ReverieName)
    requires Reachable(net) && Announced(net, r, prevPeer, prevAgent)
    ensures r < |net.history| && prevPeer == net.history[r].msg.source
    ensures net.history[r].msg.reverie.reverieType == SovereignAgent(prevAgent)
    ensures exists next: nat :: next < |net.history| && net.history[next].parent == Some(r)
                                && Succeeds(net.history[r].msg, net.history[next].msg)
  {
    ReachableOk(net);
    if p :| p in net.nodes && MarkPendingRespawnComplete(r, prevPeer, prevAgent) in net.nodes[p].commands {
      assert NodeOk(net.history, net.nextRequest, p, net.nodes[p]);
      assert CommandOk(net.history, p, MarkPendingRespawnComplete(r, prevPeer, prevAgent));
    } else {
      var id :| id in net.wire && net.wire[id].body == Request(MarkRespawnComplete(r, prevPeer, prevAgent));
      assert PacketOk(net.history, net.nodes, id, net.wire[id]);
    }
    assert NoticeOk(net.history, r, prevPeer, prevAgent);
    var next: nat :| next < |net.history| && net.history[next].parent == Some(r);
    assert EntryOk(net.history, next);
  }

  // ---------------------------------------------------------------- reconstruction

  /** Once all replies are in, the next vessel has the original secrets exactly when no provider
      failed it; it never gets anything else. */
  lemma ReconstructsOriginal(net: Network, p: PeerId)
    requires Reachable(net) && p in net.nodes && net.nodes[p].job.Some? && AllAnswered(net.nodes[p].job.value)
    ensures
      var job := net.nodes[p].job.value;
      && job.info.reverieId < |net.history|
      && Reconstruct(p, job.msg, RawReplies(job))
         == if forall i :: 0 <= i < |job.replies| ==> job.replies[i].value.Ok?
            then Ok(net.history[job.info.reverieId].msg.reverie.umbralCiphertext.plaintext)
            else Err(CannotParse(Transport))
  {
    ReachableOk(net);
    assert NodeOk(net.history, net.nextRequest, p, net.nodes[p]);
    JobReconstructs(net.history, p, net.nodes[p].job.value);
  }

  /** Once all replies to a retrieval are in, the client has the original secrets exactly when no
      provider failed it and it is the reverie's target; it never gets anything else. */
  lemma RetrievesOriginal(net: Network, p: PeerId, k: nat)
    requires Reachable(net) && p in net.nodes && k < |net.nodes[p].retrievals|
             && AllIn(net.nodes[p].retrievals[k].replies)
    ensures
      var asked := net.nodes[p].retrievals[k];
      var r := asked.msg.reverie.id;
      && r < |net.history| && asked.msg == net.history[r].msg
      && OpenReverie(p, asked.msg, Raw(asked.replies))
         == if exists i :: 0 <= i < |asked.replies| && asked.replies[i].value.Err? then Err(CannotParse(Transport))
            else if p == net.history[r].msg.target then Ok(net.history[r].msg.reverie.umbralCiphertext.plaintext)
            else Err(CannotDecrypt)
  {
    ReachableOk(net);
    assert NodeOk(net.history, net.nextRequest, p, net.nodes[p]);
    var asked := net.nodes[p].retrievals[k];
    assert RetrievalOk(net.history, asked);
    assert EntryOk(net.history, asked.msg.reverie.id);
    var raws := Raw(asked.replies);
    forall i | 0 <= i < |raws|
      ensures GoodReply(asked.msg, i, raws[i])
    {
      assert SlotOk(asked.msg, i, asked.replies[i]);
    }
    OpensIff(p, asked.msg, raws);
    assert forall i :: 0 <= i < |raws| ==> raws[i] == asked.replies[i].value;
  }

  /** Every provider answered and there are vessels enough for the next incarnation. */
  ghost predicate CanRespawn(job: Job, vessels: seq<NodeKeys>)
    requires AllAnswered(job)
  {
    && (forall i :: 0 <= i < |job.replies| ==> job.replies[i].value.Ok?)
    && job.info.totalFrags + 1 <= |EmptyVessels(vessels)|
  }

  lemma ComposesIff(history: seq<Entry>, p: PeerId, job: Job, vessels: seq<NodeKeys>, id: ReverieId)
    requires HistoryOk(history) && JobOk(history, p, job) && AllAnswered(job) && GenuineVessels(p, vessels)
    ensures ComposeRespawn(p, job.info, job.msg, RawReplies(job), vessels, id).Ok? <==> CanRespawn(job, vessels)
  {
    JobReconstructs(history, p, job);
    assert EntryOk(history, job.info.reverieId);
    var next := job.info.reverieType.agent.IncrementNonce();
    var secrets := NextSecrets(history[job.info.reverieId].msg.reverie.umbralCiphertext.plaintext);
    ComposeWellAddressed(p, SovereignAgent(next), secrets, job.info.threshold, job.info.totalFrags, None, vessels, id);
  }

  /** A respawn re-creates the agent exactly when it can; either way the job is over. */
  lemma RespawnSucceedsIff(net: Network, p: PeerId, vessels: seq<NodeKeys>)
    requires Reachable(net) && net.Runs(p) && net.nodes[p].job.Some? && AllAnswered(net.nodes[p].job.value)
    requires GenuineVessels(p, vessels)
    ensures
      var job, net' := net.nodes[p].job.value, Next(net, FinishRespawn(p, vessels));
      && net'.nodes[p].job.None?
      && |net'.history| == |net.history| + (if CanRespawn(job, vessels) then 1 else 0)
      && (CanRespawn(job, vessels) ==>
            && job.info.reverieId < |net.history|
            && net'.history[|net.history|].parent == Some(job.info.reverieId)
            && Succeeds(net.history[job.info.reverieId].msg, net'.history[|net.history|].msg))
  {
    ReachableOk(net);
    assert NodeOk(net.history, net.nextRequest, p, net.nodes[p]);
    ComposesIff(net.history, p, net.nodes[p].job.value, vessels, |net.history|);
    RespawnMessageOk(net.history, p, net.nodes[p].job.value, vessels, |net.history|);
    assert Next(net, FinishRespawn(p, vessels)) == FinishStep(net, p, vessels);
  }

  // ---------------------------------------------------------------- the chain of incarnations

  /** How many respawns lie between a reverie and the spawn it descends from. */
  function Generation(history: seq<Entry>, r: ReverieId): nat
    requires r < |history|
    decreases r
  {
    match history[r].parent
    case None => 0
    case Some(prev) => if prev < r then Generation(history, prev) + 1 else 0
  }

  function Root(history: seq<Entry>, r: ReverieId): (root: ReverieId)
    requires r < |history|
    ensures root <= r
    decreases r
  {
    match history[r].parent
    case None => r
    case Some(prev) => if prev < r then Root(history, prev) else r
  }

  /** The k-th incarnation: same name, split and secrets as the spawn, nonce k higher. */
  ghost predicate Incarnation(root: ReverieMessage, k: nat, msg: ReverieMessage) {
    var secrets := root.reverie.umbralCiphertext.plaintext;
    && root.reverie.reverieType.SovereignAgent? && secrets.AgentSecrets?
    && var agent := root.reverie.reverieType.agent;
    && msg.reverie.reverieType == SovereignAgent(ReverieName(agent.name, agent.nonce + k))
    && msg.reverie.threshold == root.reverie.threshold
    && msg.reverie.totalFrags == root.reverie.totalFrags
    && msg.reverie.umbralCiphertext.plaintext == secrets.(agent := ReverieName(agent.name, agent.nonce + k))
  }

  lemma {:induction false} IncarnationOfRoot(history: seq<Entry>, r: ReverieId)
    requires HistoryOk(history) && r < |history| && history[r].msg.reverie.reverieType.SovereignAgent?
    ensures history[Root(history, r)].parent.None?
    ensures Incarnation(history[Root(history, r)].msg, Generation(history, r), history[r].msg)
    decreases r
  {
    assert EntryOk(history, r);
    if history[r].parent.Some? {
      IncarnationOfRoot(history, history[r].parent.value);
    }
  }

  lemma {:induction false} SameGenerationSameReverie(history: seq<Entry>, r: ReverieId, r': ReverieId)
    requires HistoryOk(history) && r < |history| && r' < |history|
    requires Root(history, r) == Root(history, r') && Generation(history, r) == Generation(history, r')
    ensures r == r'
    decreases r
  {
    assert EntryOk(history, r) && EntryOk(history, r');
    if history[r].parent.Some? && history[r'].parent.Some? {
      SameGenerationSameReverie(history, history[r].parent.value, history[r'].parent.value);
    }
  }

  /** The reveries descending from one spawn form one chain: each is the incarnation of its
      rank, and no rank occurs twice. */
  lemma SingleChain(net: Network, r: ReverieId, r': ReverieId)
    requires Reachable(net) && r < |net.history| && r' < |net.history|
    requires net.history[r].msg.reverie.reverieType.SovereignAgent?
    ensures Incarnation(net.history[Root(net.history, r)].msg, Generation(net.history, r), net.history[r].msg)
    ensures
      var history := net.history;
      Root(history, r) == Root(history, r') && Generation(history, r) == Generation(history, r') ==> r == r'
  {
    ReachableOk(net);
    IncarnationOfRoot(net.history, r);
    if Root(net.history, r) == Root(net.history, r') && Generation(net.history, r) == Generation(net.history, r') {
      SameGenerationSameReverie(net.history, r, r');
    }
  }
}
