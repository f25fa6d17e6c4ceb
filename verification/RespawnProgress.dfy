/** The steps that move an agent to its next vessel keep the invariant: the tick that finds a
    silent vessel, and the client's reconstruction. */
module RespawnProgress {
  import opened Types
  import opened Umbral
  import opened Messages
  import opened PeerManagement
  import opened NodeClients
  import opened NetworkEventLoop
  import opened RespawnNetwork
  import opened RespawnInvariant
  import opened RespawnSteps

  // ---------------------------------------------------------------- ticks

  lemma RemoveAllOk(history: seq<Entry>, p: PeerId, m: Peers, gone: set<PeerId>)
    requires PeersOk(history, p, m)
    ensures PeersOk(history, p, RemoveAll(m, gone))
  {
    var m' := RemoveAll(m, gone);
    forall q: PeerId, r: ReverieId
      ensures q in m'.ProvidersOf(r) <==> exists n: nat :: m'.Provides(q, r, n)
    {
      RemoveAllProvides(m, gone, q, r);
    }
    forall q: PeerId, r: ReverieId, n: nat | m'.Provides(q, r, n)
      ensures AnnouncedOk(history, p, r, n, q)
    {
      assert m.Provides(q, r, n);
    }
  }

  lemma RemoveAllProvides(m: Peers, gone: set<PeerId>, q: PeerId, r: ReverieId)
    requires m.IndexesAgree()
    ensures q in RemoveAll(m, gone).ProvidersOf(r) <==> exists n: nat :: RemoveAll(m, gone).Provides(q, r, n)
  {
    var m' := RemoveAll(m, gone);
    if q in m.ProvidersOf(r) {
      var n: nat :| m.Provides(q, r, n);
      assert TrackedFragment(r, n) in m.TrackedBy(q) && TrackedFragment(r, n).reverieId == r;
      if q !in gone {
        assert m'.Provides(q, r, n);
      }
    } else {
      assert forall n: nat :: m'.Provides(q, r, n) ==> m.Provides(q, r, n);
    }
  }

  /** What the invariant says of the requests a tick dispatches. */
  ghost predicate DispatchOk(history: seq<Entry>, p: PeerId, m: Peers, v: AgentVesselInfo) {
    && v.currentVessel in m.peerInfo && m.peerInfo[v.currentVessel].agentVessel == Some(v)
    && InfoOk(history, v) && v.nextVessel == p && history[v.reverieId].stage == Held
  }

  lemma AddedAreHeld(
    history: seq<Entry>, p: PeerId, m: Peers, order: seq<PeerId>, at: Instant, maxTime: int,
    added: seq<AgentVesselInfo>)
    requires PeersOk(history, p, m) && AddedBy(p, m.peerInfo, order, at, maxTime, added)
    ensures forall v :: v in added ==> DispatchOk(history, p, m, v)
    ensures DistinctIds(added)
  {
    forall v | v in added
      ensures DispatchOk(history, p, m, v)
    {
      assert RecordOk(history, p, m.peerInfo[v.currentVessel].agentVessel.value);
    }
    forall i, j | 0 <= i < j < |added|
      ensures added[i].reverieId != added[j].reverieId
    {
      assert added[i] in added && added[j] in added;
      assert added[i] != added[j];
    }
  }

  lemma MarkedHistory(history: seq<Entry>, p: PeerId, m: Peers, added: seq<AgentVesselInfo>)
    requires HistoryOk(history)
    requires forall v :: v in added ==> DispatchOk(history, p, m, v)
    ensures
      var history' := MarkRequested(history, added);
      && HistoryOk(history') && Extends(history, history')
      && (forall q :: q != p ==> QuietFor(q, history, history'))
      && (forall r: nat :: r < |history| && history[r].stage != Held ==> history'[r] == history[r])
      && (forall v :: v in added && InfoOk(history, v) ==> history'[v.reverieId].stage == Requested)
  {
    var history' := MarkRequested(history, added);
    forall r: nat | r < |history|
      ensures
        || history'[r] == history[r]
        || (history'[r] == history[r].(stage := Requested) && history[r].stage == Held && history[r].msg.target == p)
    {
    }
    forall r: nat | r < |history'|
      ensures EntryOk(history', r)
    {
      assert EntryOk(history, r);
    }
  }

  /** After the tick the dispatched vessels have been forgotten, so no record is out of date. */
  lemma RecordsAfterTick(
    history: seq<Entry>, p: PeerId, m: Peers, order: seq<PeerId>, at: Instant, maxTime: int,
    added: seq<AgentVesselInfo>)
    requires HistoryOk(history) && PeersOk(history, p, m)
    requires AddedBy(p, m.peerInfo, order, at, maxTime, added)
    requires forall v :: v in added ==> DispatchOk(history, p, m, v)
    ensures PeersOk(MarkRequested(history, added), p, RemoveAll(m, Forgotten(p, m.peerInfo, order, at, maxTime)))
  {
    var gone := Forgotten(p, m.peerInfo, order, at, maxTime);
    var m' := RemoveAll(m, gone);
    var history' := MarkRequested(history, added);
    RemoveAllOk(history, p, m, gone);
    MarkedHistory(history, p, m, added);
    forall q | q in m'.peerInfo && m'.peerInfo[q].agentVessel.Some?
      ensures RecordOk(history', p, m'.peerInfo[q].agentVessel.value)
    {
      var info := m'.peerInfo[q].agentVessel.value;
      assert RecordOk(history, p, info);
      forall v | v in added
        ensures v.reverieId != info.reverieId
      {
        assert DispatchOk(history, p, m, v);
        assert v.currentVessel in gone;
      }
    }
    forall q: PeerId, r: ReverieId, n: nat | m'.Provides(q, r, n)
      ensures AnnouncedOk(history', p, r, n, q)
    {
      assert AnnouncedOk(history, p, r, n, q);
    }
    forall r | r in m'.cfrags
      ensures HoldsOwnFragment(history', p, r, m'.cfrags[r])
    {
      assert HoldsOwnFragment(history, p, r, m'.cfrags[r]);
    }
    forall r | r in m'.reverie
      ensures HoldsReverie(history', p, r, m'.reverie[r])
    {
      assert HoldsReverie(history, p, r, m'.reverie[r]);
    }
  }

  lemma RequestsAfterTick(
    history: seq<Entry>, p: PeerId, m: Peers, before: seq<AgentVesselInfo>, added: seq<AgentVesselInfo>)
    requires HistoryOk(history) && RequestsOk(history, p, before)
    requires DistinctIds(added) && forall v :: v in added ==> DispatchOk(history, p, m, v)
    ensures RequestsOk(MarkRequested(history, added), p, before + added)
  {
    var history' := MarkRequested(history, added);
    MarkedHistory(history, p, m, added);
    forall v | v in before
      ensures RequestedOk(history', p, v)
    {
      assert RequestedOk(history, p, v);
    }
    forall i, j | 0 <= i < j < |before + added|
      ensures (before + added)[i].reverieId != (before + added)[j].reverieId
    {
      if i < |before| <= j {
        assert RequestedOk(history, p, before[i]);
        assert DispatchOk(history, p, m, added[j - |before|]);
      }
    }
  }

  lemma DispatchedAfterTick(
    history: seq<Entry>, p: PeerId, m: Peers, dispatched: seq<(PeerId, ReverieId)>,
    added: seq<AgentVesselInfo>)
    requires HistoryOk(history) && DispatchedOk(history, dispatched)
    requires DistinctIds(added) && forall v :: v in added ==> DispatchOk(history, p, m, v)
    ensures DispatchedOk(MarkRequested(history, added), dispatched + LogOf(p, added))
  {
    MarkedHistory(history, p, m, added);
    var log := LogOf(p, added);
    forall i | 0 <= i < |log|
      ensures log[i].0 == p && log[i].1 == added[i].reverieId && DispatchOk(history, p, m, added[i])
    {
      assert added[i] in added;
    }
  }

  lemma TickedKeepsInv(net: Network, p: PeerId, st': EventState, added: seq<AgentVesselInfo>)
    requires Inv(net) && p in net.nodes
    requires st'.requestFragments == net.nodes[p].events.requestFragments
    requires forall v :: v in added ==> DispatchOk(net.history, p, net.nodes[p].events.peers, v)
    requires DistinctIds(added)
    requires NodeOk(MarkRequested(net.history, added), net.nextRequest, p, net.nodes[p].(events := st'))
    ensures Inv(net.With(p, net.nodes[p].(events := st'))
                .(history := MarkRequested(net.history, added), dispatched := net.dispatched + LogOf(p, added)))
  {
    var m, node := net.nodes[p].events.peers, net.nodes[p].(events := st');
    var history' := MarkRequested(net.history, added);
    var net' := net.With(p, node).(history := history', dispatched := net.dispatched + LogOf(p, added));
    MarkedHistory(net.history, p, m, added);
    DispatchedAfterTick(net.history, p, m, net.dispatched, added);
    NodesStep(net, history', net.nextRequest, p, node);
    WireUntouched(net, net');
  }

  lemma TickKeepsInv(net: Network, p: PeerId, order: seq<PeerId>, at: Instant, maxTime: int)
    requires Inv(net) && net.Runs(p) && Enumerates(order, net.nodes[p].events.peers.peerInfo.Keys)
    ensures Inv(TickStep(net, p, order, at, maxTime))
    ensures Tick(net.nodes[p].events, order, at, maxTime).ok
  {
    var st, m := net.nodes[p].events, net.nodes[p].events.peers;
    assert NodeOk(net.history, net.nextRequest, p, net.nodes[p]);
    TickLoopEffect(st, m.peerInfo, order, at, maxTime);
    var st' := Tick(st, order, at, maxTime).state;
    var added := st'.networkEvents[|st.networkEvents|..];
    AddedAreHeld(net.history, p, m, order, at, maxTime, added);
    TickedNode(net, p, order, at, maxTime, st', added);
    TickedKeepsInv(net, p, st', added);
  }

  lemma TickedNode(
    net: Network, p: PeerId, order: seq<PeerId>, at: Instant, maxTime: int, st': EventState,
    added: seq<AgentVesselInfo>)
    requires Inv(net) && p in net.nodes
    requires TickEffect(net.nodes[p].events, net.nodes[p].events.peers.peerInfo, order, at, maxTime, st')
    requires added == st'.networkEvents[|net.nodes[p].events.networkEvents|..]
    requires forall v :: v in added ==> DispatchOk(net.history, p, net.nodes[p].events.peers, v)
    requires DistinctIds(added)
    ensures NodeOk(MarkRequested(net.history, added), net.nextRequest, p, net.nodes[p].(events := st'))
  {
    var node := net.nodes[p];
    var m, history' := node.events.peers, MarkRequested(net.history, added);
    assert NodeOk(net.history, net.nextRequest, p, node);
    assert st'.networkEvents == node.events.networkEvents + added;
    RecordsAfterTick(net.history, p, m, order, at, maxTime, added);
    RequestsAfterTick(net.history, p, m, node.events.networkEvents, added);
    MarkedHistory(net.history, p, m, added);
    CommandsFrame(net.history, history', p, node.commands);
    SendersFrame(net.history, history', net.nextRequest, net.nextRequest, p, node.events.requestFragments);
    RetrievalsFrame(net.history, history', node.retrievals);
    assert forall v :: v in added ==> DispatchOk(net.history, p, m, v) && v.reverieId in m.reverie;
    if node.job.Some? {
      JobFrame(net.history, history', p, node.job.value);
    }
  }

  // ---------------------------------------------------------------- retrieving and starting a respawn

  lemma FragmentCommandsOk(history: seq<Entry>, p: PeerId, msg: ReverieMessage, key: AccessKey, retrieval: Option<nat>)
    requires msg.reverie.id < |history| && msg == history[msg.reverie.id].msg
    requires retrieval.None? ==>
               msg.target == p && msg.reverie.reverieType.SovereignAgent? && key == UmbralSignature(p, msg.reverie.id)
    ensures forall c :: c in FragmentCommands(msg, key, retrieval) ==>
                          !c.SendReverieToSpecificPeer? && CommandOk(history, p, c)
  {
  }

  /** Whatever a client finds when it looks a reverie up is what was broadcast under that id. */
  lemma LookupFinds(net: Network, p: PeerId, r: ReverieId)
    requires Inv(net) && net.Runs(p) && Lookup(net, p, r).Some?
    ensures r < |net.history| && Lookup(net, p, r).value == net.history[r].msg
    ensures net.history[r].msg.reverie.id == r
  {
    assert NodeOk(net.history, net.nextRequest, p, net.nodes[p]);
    var held := net.nodes[p].events.peers.reverie;
    if r in held {
      assert HoldsReverie(net.history, p, r, held[r]);
    }
    assert EntryOk(net.history, r);
  }

  lemma RetrieveKeepsInv(net: Network, p: PeerId, r: ReverieId, key: AccessKey)
    requires Inv(net) && net.Runs(p) && Lookup(net, p, r).Some?
    ensures Inv(RetrieveStep(net, p, Lookup(net, p, r).value, key))
  {
    var node, msg := net.nodes[p], Lookup(net, p, r).value;
    var net' := RetrieveStep(net, p, msg, key);
    LookupFinds(net, p, r);
    assert NodeOk(net.history, net.nextRequest, p, net'.nodes[p]) by {
      assert NodeOk(net.history, net.nextRequest, p, node);
      FragmentCommandsOk(net.history, p, msg, key, Some(|node.retrievals|));
      AppendOthers(net.history, p, node.commands, FragmentCommands(msg, key, Some(|node.retrievals|)));
      assert RetrievalOk(net.history, Retrieval(msg, NoReplies(msg)));
    }
    NodesStep(net, net.history, net.nextRequest, p, net'.nodes[p]);
    WireUntouched(net, net');
  }

  lemma NextRequestOk(history: seq<Entry>, p: PeerId, infos: seq<AgentVesselInfo>, stage: Stage)
    requires HistoryOk(history) && RequestsOk(history, p, infos) && infos != []
    ensures RequestsOk(SetStage(history, infos[0].reverieId, stage), p, infos[1..])
  {
    var history' := SetStage(history, infos[0].reverieId, stage);
    forall i | 1 <= i < |infos|
      ensures RequestedOk(history', p, infos[i])
    {
      assert infos[i] in infos && infos[0] in infos;
      assert RequestedOk(history, p, infos[i]) && RequestedOk(history, p, infos[0]);
    }
    assert forall i :: 0 <= i < |infos[1..]| ==> infos[1..][i] == infos[i + 1];
  }

  /** A node moves on with a reverie that only it speaks for. */
  lemma StageStepKeepsInv(net: Network, p: PeerId, r: ReverieId, stage: Stage, node: Node)
    requires Inv(net) && p in net.nodes && r < |net.history|
    requires net.history[r].stage in {Requested, Working} && stage in {Working, Finished}
    requires net.history[r].msg.target == p
    requires NodeOk(SetStage(net.history, r, stage), net.nextRequest, p, node)
    requires node.events.requestFragments == net.nodes[p].events.requestFragments
    ensures Inv(net.With(p, node).(history := SetStage(net.history, r, stage)))
  {
    var net' := net.With(p, node).(history := SetStage(net.history, r, stage));
    StageMoveAt(net.history, p, r, stage);
    NodesStep(net, net'.history, net.nextRequest, p, node);
    StagedWireOk(net, net', p, r, stage);
    DispatchedFrame(net.history, net'.history, net.dispatched);
  }

  lemma StageMoveAt(history: seq<Entry>, p: PeerId, r: ReverieId, stage: Stage)
    requires HistoryOk(history) && r < |history|
    requires history[r].stage in {Requested, Working} && stage in {Working, Finished} && history[r].msg.target == p
    ensures
      var history' := SetStage(history, r, stage);
      HistoryOk(history') && Extends(history, history') && forall q :: q != p ==> QuietFor(q, history, history')
  {
    StageMove(history, r, stage);
  }

  lemma StagedWireOk(net: Network, net': Network, p: PeerId, r: ReverieId, stage: Stage)
    requires WireOk(net) && p in net.nodes && r < |net.history|
    requires net.history[r].stage in {Requested, Working}
    requires Extends(net.history, SetStage(net.history, r, stage))
    requires p in net'.nodes && net' == net.With(p, net'.nodes[p]).(history := SetStage(net.history, r, stage))
    requires net'.nodes[p].events.requestFragments == net.nodes[p].events.requestFragments
    ensures WireOk(net')
  {
    WireUntouched(net, net');
  }

  lemma StartKeepsInv(net: Network, p: PeerId)
    requires Inv(net) && net.Runs(p) && net.nodes[p].job.None? && net.nodes[p].events.networkEvents != []
    ensures Inv(StartStep(net, p))
  {
    var node := net.nodes[p];
    var info := node.events.networkEvents[0];
    assert NodeOk(net.history, net.nextRequest, p, node);
    assert RequestedOk(net.history, p, info);
    var taken := info.reverieType.SovereignAgent? && info.reverieId in node.events.peers.reverie;
    var stage := if taken then Working else Finished;
    StageMove(net.history, info.reverieId, stage);
    NextRequestOk(net.history, p, node.events.networkEvents, stage);
    var node' := StartStep(net, p).nodes[p];
    StartedNode(net, p, info, StartStep(net, p));
    StageStepKeepsInv(net, p, info.reverieId, stage, node');
  }

  lemma StartedNode(net: Network, p: PeerId, info: AgentVesselInfo, net': Network)
    requires HistoryOk(net.history) && net.Runs(p) && NodeOk(net.history, net.nextRequest, p, net.nodes[p])
    requires net.nodes[p].job.None? && net.nodes[p].events.networkEvents != []
    requires info == net.nodes[p].events.networkEvents[0] && RequestedOk(net.history, p, info)
    requires net' == StartStep(net, p)
    requires Extends(net.history, net'.history)
    requires RequestsOk(net'.history, p, net.nodes[p].events.networkEvents[1..])
    ensures NodeOk(net'.history, net.nextRequest, p, net'.nodes[p])
  {
    var node := net.nodes[p];
    PeersFrame(net.history, net'.history, p, node.events.peers);
    CommandsFrame(net.history, net'.history, p, node.commands);
    SendersFrame(net.history, net'.history, net.nextRequest, net.nextRequest, p, node.events.requestFragments);
    RetrievalsFrame(net.history, net'.history, node.retrievals);
    if net'.nodes[p].job.Some? {
      var msg := node.events.peers.reverie[info.reverieId];
      assert HoldsReverie(net.history, p, info.reverieId, msg);
      assert EntryOk(net.history, info.reverieId);
      var key := UmbralSignature(p, msg.reverie.id);
      FragmentCommandsOk(net'.history, p, msg, key, None);
      AppendOthers(net'.history, p, node.commands, FragmentCommands(msg, key, None));
    }
  }

  // ---------------------------------------------------------------- finishing a respawn

  /** The reconstruction of a job whose replies are all in. */
  lemma JobReconstructs(history: seq<Entry>, p: PeerId, job: Job)
    requires HistoryOk(history) && JobOk(history, p, job) && AllAnswered(job)
    ensures Reconstruct(p, job.msg, RawReplies(job))
         == if forall i :: 0 <= i < |job.replies| ==> job.replies[i].value.Ok?
            then Ok(history[job.info.reverieId].msg.reverie.umbralCiphertext.plaintext)
            else Err(CannotParse(Transport))
  {
    var raws := RawReplies(job);
    assert EntryOk(history, job.info.reverieId);
    forall i | 0 <= i < |raws|
      ensures GoodReply(job.msg, i, raws[i])
    {
      assert SlotOk(job.msg, i, job.replies[i]);
    }
    ReconstructIff(job.msg, raws);
    assert forall i :: 0 <= i < |raws| ==> raws[i] == job.replies[i].value;
  }

  lemma RespawnMessageOk(history: seq<Entry>, p: PeerId, job: Job, vessels: seq<NodeKeys>, id: ReverieId)
    requires HistoryOk(history) && JobOk(history, p, job) && AllAnswered(job) && GenuineVessels(p, vessels)
    ensures
      var composed := ComposeRespawn(p, job.info, job.msg, RawReplies(job), vessels, id);
      composed.Ok? ==>
        && MessageOk(composed.value) && composed.value.reverie.id == id
        && Succeeds(history[job.info.reverieId].msg, composed.value)
  {
    JobReconstructs(history, p, job);
    assert EntryOk(history, job.info.reverieId);
    var next := job.info.reverieType.agent.IncrementNonce();
    var secrets := NextSecrets(history[job.info.reverieId].msg.reverie.umbralCiphertext.plaintext);
    ComposeWellAddressed(p, SovereignAgent(next), secrets, job.info.threshold, job.info.totalFrags, None, vessels, id);
  }

  lemma JobDone(net: Network, p: PeerId)
    requires Inv(net) && p in net.nodes && net.nodes[p].job.Some?
    ensures
      var r := net.nodes[p].job.value.info.reverieId;
      && r < |net.history|
      && (forall x: nat :: x < |net.history| ==> net.history[x].parent != Some(r))
      && Inv(net.With(p, net.nodes[p].(job := None)).(history := SetStage(net.history, r, Finished)))
  {
    var node := net.nodes[p];
    var r := node.job.value.info.reverieId;
    assert NodeOk(net.history, net.nextRequest, p, node);
    var net' := net.With(p, node.(job := None)).(history := SetStage(net.history, r, Finished));
    forall x: nat | x < |net.history|
      ensures net.history[x].parent != Some(r)
    {
      assert EntryOk(net.history, x);
    }
    StageMove(net.history, r, Finished);
    PeersFrame(net.history, net'.history, p, node.events.peers);
    CommandsFrame(net.history, net'.history, p, node.commands);
    RequestsFrame(net.history, net'.history, p, node.events.networkEvents);
    SendersFrame(net.history, net'.history, net.nextRequest, net.nextRequest, p, node.events.requestFragments);
    RetrievalsFrame(net.history, net'.history, node.retrievals);
    StageStepKeepsInv(net, p, r, Finished, net'.nodes[p]);
  }

  lemma NextIncarnationKeepsInv(net: Network, p: PeerId, info: AgentVesselInfo, msg: ReverieMessage)
    requires Inv(net) && p in net.nodes
    requires info.reverieType.SovereignAgent? && InfoOk(net.history, info)
    requires net.history[info.reverieId].stage == Finished
    requires forall x: nat :: x < |net.history| ==> net.history[x].parent != Some(info.reverieId)
    requires MessageOk(msg) && msg.reverie.id == |net.history| && msg.source == p
    requires Succeeds(net.history[info.reverieId].msg, msg)
    ensures
      var node := net.nodes[p];
      Inv(net.With(p, node.(commands := node.commands + RespawnCommands(p, info, msg)))
          .(history := net.history + [Entry(msg, Some(info.reverieId), Queued)]))
  {
    var node, entry := net.nodes[p], Entry(msg, Some(info.reverieId), Queued);
    var notice := [MarkPendingRespawnComplete(info.reverieId, info.currentVessel, info.reverieType.agent)];
    NewEntryOk(net.history, entry);
    assert (net.history + [entry])[|net.history|].parent == Some(info.reverieId);
    BroadcastKeepsInv(net, p, entry, notice);
    assert node.commands + RespawnCommands(p, info, msg) == node.commands + BroadcastCommands(p, msg) + notice;
  }

  lemma FinishKeepsInv(net: Network, p: PeerId, vessels: seq<NodeKeys>)
    requires Inv(net) && net.Runs(p) && net.nodes[p].job.Some? && AllAnswered(net.nodes[p].job.value)
    requires net.nodes[p].job.value.info.reverieType.SovereignAgent? && GenuineVessels(p, vessels)
    ensures Inv(FinishStep(net, p, vessels))
  {
    var node := net.nodes[p];
    var job := node.job.value;
    assert JobOk(net.history, p, job) by {
      assert NodeOk(net.history, net.nextRequest, p, node);
    }
    JobDone(net, p);
    RespawnMessageOk(net.history, p, job, vessels, |net.history|);
    var composed := ComposeRespawn(p, job.info, job.msg, RawReplies(job), vessels, |net.history|);
    var idle := net.With(p, node.(job := None)).(history := SetStage(net.history, job.info.reverieId, Finished));
    if composed.Ok? {
      ComposedKeepsInv(net, p, vessels, idle, composed.value);
    }
  }

  lemma ComposedKeepsInv(net: Network, p: PeerId, vessels: seq<NodeKeys>, idle: Network, msg: ReverieMessage)
    requires net.Runs(p) && net.nodes[p].job.Some? && AllAnswered(net.nodes[p].job.value)
    requires net.nodes[p].job.value.info.reverieType.SovereignAgent?
    requires ComposeRespawn(p, net.nodes[p].job.value.info, net.nodes[p].job.value.msg,
                            RawReplies(net.nodes[p].job.value), vessels, |net.history|) == Ok(msg)
    requires idle == net.With(p, net.nodes[p].(job := None))
                     .(history := SetStage(net.history, net.nodes[p].job.value.info.reverieId, Finished))
    requires Inv(idle) && InfoOk(net.history, net.nodes[p].job.value.info)
    requires forall x: nat :: x < |net.history| ==> net.history[x].parent != Some(net.nodes[p].job.value.info.reverieId)
    requires MessageOk(msg) && msg.reverie.id == |net.history| && msg.source == p
    requires Succeeds(net.history[net.nodes[p].job.value.info.reverieId].msg, msg)
    ensures Inv(FinishStep(net, p, vessels))
  {
    NextIncarnationKeepsInv(idle, p, net.nodes[p].job.value.info, msg);
    FinishedNetwork(net, p, vessels, idle, msg);
  }

  lemma FinishedNetwork(net: Network, p: PeerId, vessels: seq<NodeKeys>, idle: Network, msg: ReverieMessage)
    requires net.Runs(p) && net.nodes[p].job.Some? && AllAnswered(net.nodes[p].job.value)
    requires net.nodes[p].job.value.info.reverieType.SovereignAgent?
    requires ComposeRespawn(p, net.nodes[p].job.value.info, net.nodes[p].job.value.msg,
                            RawReplies(net.nodes[p].job.value), vessels, |net.history|) == Ok(msg)
    requires idle == net.With(p, net.nodes[p].(job := None))
                     .(history := SetStage(net.history, net.nodes[p].job.value.info.reverieId, Finished))
    ensures
      var info := net.nodes[p].job.value.info;
      FinishStep(net, p, vessels)
      == idle.With(p, idle.nodes[p].(commands := idle.nodes[p].commands + RespawnCommands(p, info, msg)))
      .(history := idle.history + [Entry(msg, Some(info.reverieId), Queued)])
  {
  }

  // ---------------------------------------------------------------- the other steps, and runs

  lemma PeersOnlyKeepsInv(net: Network, p: PeerId, m: Peers)
    requires Inv(net) && p in net.nodes && PeersOk(net.history, p, m) && m.reverie == net.nodes[p].events.peers.reverie
    ensures Inv(net.With(p, net.nodes[p].(events := net.nodes[p].events.(peers := m))))
  {
    var node := net.nodes[p].(events := net.nodes[p].events.(peers := m));
    assert NodeOk(net.history, net.nextRequest, p, node) by {
      assert NodeOk(net.history, net.nextRequest, p, net.nodes[p]);
    }
    NodesStep(net, net.history, net.nextRequest, p, node);
    WireUntouched(net, net.With(p, node));
  }

  lemma ConnectKeepsInv(net: Network, p: PeerId, other: PeerId, at: Instant)
    requires Inv(net) && net.Runs(p)
    ensures Inv(Next(net, Connect(p, other, at)))
  {
    assert NodeOk(net.history, net.nextRequest, p, net.nodes[p]);
    InsertPeerOk(net.history, p, net.nodes[p].events.peers, other, at);
    PeersOnlyKeepsInv(net, p, net.nodes[p].events.peers.InsertPeerInfo(other, at));
  }

  lemma HeartbeatKeepsInv(net: Network, p: PeerId, other: PeerId, at: Instant)
    requires Inv(net) && net.Runs(p)
    ensures Inv(Next(net, Heartbeat(p, other, at)))
  {
    assert NodeOk(net.history, net.nextRequest, p, net.nodes[p]);
    HeartbeatOk(net.history, p, net.nodes[p].events.peers, other, at);
    PeersOnlyKeepsInv(net, p, net.nodes[p].events.peers.UpdateHeartbeat(other, at));
  }

  lemma DeliverKeepsInv(net: Network, id: nat, at: Instant, served: bool)
    requires Inv(net) && id in net.wire && net.Runs(net.wire[id].dst)
    ensures Inv(Next(net, Deliver(id, at, served)))
  {
    if net.wire[id].body.Request? {
      DeliverRequestKeepsInv(net, id, at, served);
    } else {
      DeliverReplyKeepsInv(net, id);
    }
  }

  /** What a client does. */
  lemma ClientStepKeepsInv(net: Network, a: Action)
    requires Inv(net) && (a.Spawn? || a.Retrieve? || a.StartRespawn? || a.FinishRespawn?)
    ensures Inv(Next(net, a))
  {
    if Next(net, a) != net {
      match a
      case Spawn(_, _, _, _, _, _, _) => SpawnKeepsInv(net, a);
      case Retrieve(p, r, key) => RetrieveKeepsInv(net, p, r, key);
      case StartRespawn(p) => StartKeepsInv(net, p);
      case FinishRespawn(p, vessels) => FinishKeepsInv(net, p, vessels);
    }
  }

  lemma StepKeepsInv(net: Network, a: Action)
    requires Inv(net)
    ensures Inv(Next(net, a))
  {
    if a.Spawn? || a.Retrieve? || a.StartRespawn? || a.FinishRespawn? {
      ClientStepKeepsInv(net, a);
    } else if Next(net, a) != net {
      match a
      case Execute(p, notified) => ExecuteKeepsInv(net, p, notified);
      case Deliver(id, at, served) => DeliverKeepsInv(net, id, at, served);
      case Fail(id, lost) => FailKeepsInv(net, id, lost);
      case TickAt(p, order, at, maxTime) => TickKeepsInv(net, p, order, at, maxTime);
      case Connect(p, other, at) => ConnectKeepsInv(net, p, other, at);
      case Heartbeat(p, other, at) => HeartbeatKeepsInv(net, p, other, at);
      case Stop(p) => StopKeepsInv(net, p);
    }
  }

  lemma {:induction false} RunKeepsInv(net: Network, actions: seq<Action>)
    requires Inv(net)
    ensures Inv(Run(net, actions))
    decreases |actions|
  {
    if actions != [] {
      StepKeepsInv(net, actions[0]);
      RunKeepsInv(Next(net, actions[0]), actions[1..]);
    }
  }

  lemma ReachableOk(net: Network)
    requires Reachable(net)
    ensures Inv(net)
  {
    var peers, actions :| net == Run(Start(peers), actions);
    StartOk(peers);
    RunKeepsInv(Start(peers), actions);
  }
}
