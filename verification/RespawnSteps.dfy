/** Each step of the respawn protocol keeps the invariant. */
module RespawnSteps {
  import opened Types
  import opened Umbral
  import opened Messages
  import opened PeerManagement
  import opened NodeClients
  import opened NetworkEventLoop
  import opened RespawnNetwork
  import opened RespawnInvariant

  // ---------------------------------------------------------------- putting a step together

  lemma NodesStep(net: Network, history': seq<Entry>, next': nat, p: PeerId, node: Node)
    requires NodesOk(net.history, net.nextRequest, net.nodes) && net.nextRequest <= next'
    requires forall q :: q in net.nodes && q != p ==> QuietFor(q, net.history, history')
    requires NodeOk(history', next', p, node)
    ensures NodesOk(history', next', net.nodes[p := node])
  {
    forall q | q in net.nodes && q != p
      ensures NodeOk(history', next', q, net.nodes[q])
    {
      NodeFrame(net.history, history', net.nextRequest, next', q, net.nodes[q]);
    }
  }

  /** The packets in `kept` still find what they found before. */
  ghost predicate Undisturbed(net: Network, net': Network, kept: set<nat>) {
    && kept <= net.wire.Keys
    && Extends(net.history, net'.history)
    && (forall id, r: ReverieId :: id in kept && r < |net'.history| && CarriesCiphertext(net.wire[id], r) ==>
                                     net'.history[r].stage == OnWire)
    && (forall id, q :: id in kept && !net.wire[id].reported && Waits(net.nodes, q, id) ==>
                          && Waits(net'.nodes, q, id)
                          && net'.nodes[q].events.requestFragments[id] == net.nodes[q].events.requestFragments[id])
  }

  /** A new packet with a ciphertext is the only one with it. */
  ghost predicate NewSentOnce(wire: map<nat, Packet>, kept: set<nat>) {
    forall id, id', r: ReverieId ::
      (id in wire && id !in kept && CarriesCiphertext(wire[id], r) && id' in wire && id' != id) ==>
        !CarriesCiphertext(wire[id'], r)
  }

  lemma WireStep(net: Network, net': Network, kept: set<nat>)
    requires WireOk(net) && Undisturbed(net, net', kept) && net.nextRequest <= net'.nextRequest
    requires forall id :: id in kept ==> id in net'.wire && net'.wire[id] == net.wire[id]
    requires forall id :: id in net'.wire && id !in kept ==>
                            id < net'.nextRequest && PacketOk(net'.history, net'.nodes, id, net'.wire[id])
    requires NewSentOnce(net'.wire, kept)
    ensures WireOk(net')
  {
    forall id | id in kept
      ensures id < net'.nextRequest && PacketOk(net'.history, net'.nodes, id, net'.wire[id])
    {
      var packet := net.wire[id];
      assert PacketOk(net.history, net.nodes, id, packet);
      if packet.body.Request? && packet.body.request.SaveCiphertext? {
        assert CarriesCiphertext(packet, packet.body.request.reverieMsg.reverie.id);
      }
      PacketFrame(net.history, net'.history, net.nodes, net'.nodes, id, packet);
    }
  }

  // ---------------------------------------------------------------- changes of the peer maps

  lemma ProvidersFrame(history: seq<Entry>, p: PeerId, m: Peers, m': Peers)
    requires ProvidersOk(history, p, m)
    requires m'.kfragProviders == m.kfragProviders && m'.peersToFrags == m.peersToFrags
    ensures ProvidersOk(history, p, m')
  {
    forall q: PeerId, r: ReverieId
      ensures q in m'.ProvidersOf(r) <==> exists n: nat :: m'.Provides(q, r, n)
    {
      assert q in m'.ProvidersOf(r) <==> q in m.ProvidersOf(r);
      assert forall n: nat :: m'.Provides(q, r, n) <==> m.Provides(q, r, n);
    }
    forall q: PeerId, r: ReverieId, n: nat | m'.Provides(q, r, n)
      ensures AnnouncedOk(history, p, r, n, q)
    {
      assert m.Provides(q, r, n);
    }
  }

  lemma InsertPeerOk(history: seq<Entry>, p: PeerId, m: Peers, q: PeerId, now: Instant)
    requires PeersOk(history, p, m)
    ensures PeersOk(history, p, m.InsertPeerInfo(q, now))
  {
    ProvidersFrame(history, p, m, m.InsertPeerInfo(q, now));
  }

  lemma HeartbeatOk(history: seq<Entry>, p: PeerId, m: Peers, q: PeerId, now: Instant)
    requires PeersOk(history, p, m)
    ensures PeersOk(history, p, m.UpdateHeartbeat(q, now))
  {
    ProvidersFrame(history, p, m, m.UpdateHeartbeat(q, now));
  }

  lemma SetVesselOk(history: seq<Entry>, p: PeerId, m: Peers, info: AgentVesselInfo)
    requires PeersOk(history, p, m) && RecordOk(history, p, info)
    requires info.nextVessel == p ==> info.reverieId in m.reverie
    ensures PeersOk(history, p, m.SetAgentVessel(info))
  {
    VesselPlaced(history, p, m, info);
    PeersStillOk(history, p, m, m.SetAgentVessel(info));
  }

  lemma VesselPlaced(history: seq<Entry>, p: PeerId, m: Peers, info: AgentVesselInfo)
    requires m.RecordsPlaced() && RecordsOk(history, p, m.peerInfo) && RecordOk(history, p, info)
    requires HoldsNext(p, m.peerInfo, m.reverie) && (info.nextVessel == p ==> info.reverieId in m.reverie)
    requires m.self == p && OwnAgentOk(history, p, m.vesselAgent)
    ensures
      var m' := m.SetAgentVessel(info);
      && m'.RecordsPlaced() && RecordsOk(history, p, m'.peerInfo)
      && HoldsNext(p, m'.peerInfo, m.reverie) && OwnAgentOk(history, p, m'.vesselAgent)
  {
  }

  /** Only the peers' entries and the node's own agent have changed. */
  lemma PeersStillOk(history: seq<Entry>, p: PeerId, m: Peers, m': Peers)
    requires PeersOk(history, p, m)
    requires m'.RecordsPlaced() && RecordsOk(history, p, m'.peerInfo)
    requires HoldsNext(p, m'.peerInfo, m.reverie) && OwnAgentOk(history, p, m'.vesselAgent)
    requires m'.reverieMetadata == m.reverieMetadata
    requires m'.self == m.self && m'.cfrags == m.cfrags && m'.reverie == m.reverie
    requires m'.kfragProviders == m.kfragProviders && m'.peersToFrags == m.peersToFrags
    ensures PeersOk(history, p, m')
  {
    ProvidersFrame(history, p, m, m');
  }

  lemma RecordVesselOk(history: seq<Entry>, p: PeerId, m: Peers, info: AgentVesselInfo)
    requires PeersOk(history, p, m) && RecordOk(history, p, info)
    requires info.nextVessel == p ==> info.reverieId in m.reverie
    ensures PeersOk(history, p, Record(m, info))
  {
    SetVesselOk(history, p, m, info);
    ProvidersFrame(history, p, m, Record(m, info));
  }

  lemma AnnounceOk(history: seq<Entry>, p: PeerId, m: Peers, q: PeerId, r: ReverieId, n: nat)
    requires PeersOk(history, p, m) && AnnouncedOk(history, p, r, n, q)
    ensures PeersOk(history, p, m.InsertKfragProvider(q, r, n))
  {
    InsertProviderRefines(m, q, r, n);
  }

  lemma RemovePeerOk(history: seq<Entry>, p: PeerId, m: Peers, q: PeerId)
    requires PeersOk(history, p, m)
    ensures PeersOk(history, p, m.RemovePeer(q))
    ensures PeersOk(history, p, m.RemovePeerInfo(q))
  {
    RemoveProviderRefines(m, q);
    assert PeersOk(history, p, m.RemoveKfragProvider(q));
    RemoveInfoOk(history, p, m, q);
    RemoveInfoOk(history, p, m.RemoveKfragProvider(q), q);
  }

  lemma RemoveInfoOk(history: seq<Entry>, p: PeerId, m: Peers, q: PeerId)
    requires PeersOk(history, p, m)
    ensures PeersOk(history, p, m.RemovePeerInfo(q))
  {
    ProvidersFrame(history, p, m, m.RemovePeerInfo(q));
  }

  // ---------------------------------------------------------------- a new reverie

  lemma AppendCommands(history: seq<Entry>, p: PeerId, a: seq<NodeCommand>, b: seq<NodeCommand>, id: ReverieId)
    requires CommandsOk(history, p, a) && CommandsOk(history, p, b)
    requires forall c :: c in a && c.SendReverieToSpecificPeer? ==> c.reverieMsg.reverie.id != id
    requires forall c :: c in b && c.SendReverieToSpecificPeer? ==> c.reverieMsg.reverie.id == id
    ensures CommandsOk(history, p, a + b)
  {
    var s := a + b;
    forall i, j | 0 <= i < j < |s| && s[i].SendReverieToSpecificPeer? && s[j].SendReverieToSpecificPeer?
      ensures s[i].reverieMsg.reverie.id != s[j].reverieMsg.reverie.id
    {
      if j < |a| {
        assert a[i] == s[i] && a[j] == s[j];
      } else if i < |a| {
        assert s[i] in a && s[j] in b;
      } else {
        assert b[i - |a|] == s[i] && b[j - |a|] == s[j];
      }
    }
  }

  lemma AppendOthers(history: seq<Entry>, p: PeerId, a: seq<NodeCommand>, b: seq<NodeCommand>)
    requires CommandsOk(history, p, a)
    requires forall c :: c in b ==> !c.SendReverieToSpecificPeer? && CommandOk(history, p, c)
    ensures CommandsOk(history, p, a + b)
  {
    var s := a + b;
    forall j | |a| <= j < |s|
      ensures !s[j].SendReverieToSpecificPeer?
    {
      assert s[j] in b;
    }
    assert forall i :: 0 <= i < |a| ==> s[i] == a[i];
  }

  lemma BroadcastCommandsOk(history: seq<Entry>, p: PeerId, msg: ReverieMessage)
    requires BroadcastBy(history, p, msg) && MessageOk(msg) && history[msg.reverie.id].stage == Queued
    ensures CommandsOk(history, p, BroadcastCommands(p, msg))
    ensures forall c :: c in BroadcastCommands(p, msg) && c.SendReverieToSpecificPeer? ==> c.reverieMsg == msg
  {
    var commands := BroadcastCommands(p, msg);
    forall c | c in commands
      ensures CommandOk(history, p, c)
      ensures c.SendReverieToSpecificPeer? ==> c.reverieMsg == msg
    {
      var i :| 0 <= i < |commands| && commands[i] == c;
      if i < |msg.keyfragProviders| {
        assert c == KeyfragCommand(p, msg, i);
      }
    }
    BroadcastSendsEachFragmentOnce(p, msg);
  }

  lemma NewEntryOk(history: seq<Entry>, entry: Entry)
    requires HistoryOk(history)
    requires entry.msg.reverie.id == |history| && MessageOk(entry.msg)
    requires entry.parent.Some? ==>
               && entry.parent.value < |history|
               && Succeeds(history[entry.parent.value].msg, entry.msg)
               && history[entry.parent.value].stage == Finished
               && forall r: nat :: r < |history| ==> history[r].parent != entry.parent
    ensures HistoryOk(history + [entry])
  {
    var history' := history + [entry];
    forall r: nat | r < |history'|
      ensures EntryOk(history', r)
    {
      if r < |history| {
        assert EntryOk(history, r);
      }
    }
  }

  /** Nothing a node remembers or plans can be about a reverie not yet created. */
  lemma CommandsAreOld(history: seq<Entry>, p: PeerId, commands: seq<NodeCommand>)
    requires CommandsOk(history, p, commands)
    ensures forall c :: c in commands && c.SendReverieToSpecificPeer? ==> c.reverieMsg.reverie.id != |history|
  {
    forall c | c in commands && c.SendReverieToSpecificPeer?
      ensures c.reverieMsg.reverie.id != |history|
    {
      assert CommandOk(history, p, c);
    }
  }

  lemma SpawnMessageOk(a: Action, id: ReverieId)
    requires a.Spawn? && SpawnAllowed(a)
    ensures
      var composed := ComposeSpawn(a.peer, a.reverieType, a.secrets, a.threshold, a.totalFrags, a.access, a.vessels,
                                   id);
      composed.Ok? ==> MessageOk(composed.value) && composed.value.reverie.id == id && composed.value.source == a.peer
  {
    ComposeWellAddressed(a.peer, a.reverieType, a.secrets, a.threshold, a.totalFrags, a.access, a.vessels, id);
  }

  lemma SpawnKeepsInv(net: Network, a: Action)
    requires Inv(net) && a.Spawn? && net.Runs(a.peer) && SpawnAllowed(a)
    ensures Inv(SpawnStep(net, a))
  {
    var p, id := a.peer, |net.history|;
    SpawnMessageOk(a, id);
    var composed := ComposeSpawn(p, a.reverieType, a.secrets, a.threshold, a.totalFrags, a.access, a.vessels, id);
    if composed.Ok? {
      var entry := Entry(composed.value, None, Queued);
      NewEntryOk(net.history, entry);
      BroadcastKeepsInv(net, p, entry, []);
      var node := net.nodes[p];
      assert node.commands + BroadcastCommands(p, entry.msg) + [] == node.commands + BroadcastCommands(p, entry.msg);
    }
  }

  lemma BroadcastKeepsInv(net: Network, p: PeerId, entry: Entry, extra: seq<NodeCommand>)
    requires Inv(net) && p in net.nodes
    requires HistoryOk(net.history + [entry])
    requires entry.stage == Queued && entry.msg.source == p
    requires forall c :: c in extra ==> c.MarkPendingRespawnComplete? && CommandOk(net.history + [entry], p, c)
    ensures
      var node := net.nodes[p];
      Inv(net.With(p, node.(commands := node.commands + BroadcastCommands(p, entry.msg) + extra))
          .(history := net.history + [entry]))
  {
    var history, history', node := net.history, net.history + [entry], net.nodes[p];
    var commands := BroadcastCommands(p, entry.msg);
    var net' := net.With(p, node.(commands := node.commands + commands + extra)).(history := history');
    assert Extends(history, history');
    assert EntryOk(history', |history|);
    assert NodeOk(history', net.nextRequest, p, net'.nodes[p]) by {
      assert NodeOk(history, net.nextRequest, p, node);
      CommandsAreOld(history, p, node.commands);
      NodeFrame(history, history', net.nextRequest, net.nextRequest, p, node);
      BroadcastCommandsOk(history', p, entry.msg);
      AppendCommands(history', p, node.commands, commands, |history|);
      AppendOthers(history', p, node.commands + commands, extra);
    }
    NodesStep(net, history', net.nextRequest, p, net'.nodes[p]);
    assert WireOk(net') by {
      WireUntouched(net, net');
    }
  }

  lemma KeptOnWire(net: Network, net': Network)
    requires WireOk(net) && Extends(net.history, net'.history)
    requires forall r: nat :: r < |net.history| && net.history[r].stage == OnWire ==> net'.history[r].stage == OnWire
    ensures forall id, r: ReverieId :: id in net.wire && r < |net'.history| && CarriesCiphertext(net.wire[id], r) ==>
                                         net'.history[r].stage == OnWire
  {
    forall id, r: ReverieId | id in net.wire && r < |net'.history| && CarriesCiphertext(net.wire[id], r)
      ensures net'.history[r].stage == OnWire
    {
      assert PacketOk(net.history, net.nodes, id, net.wire[id]);
    }
  }

  /** A step that sends nothing and answers nothing leaves the wire in order. */
  lemma WireUntouched(net: Network, net': Network)
    requires WireOk(net) && net'.wire == net.wire && net'.nextRequest == net.nextRequest
    requires Extends(net.history, net'.history)
    requires forall r: nat :: r < |net.history| && net.history[r].stage == OnWire ==> net'.history[r].stage == OnWire
    requires net'.nodes.Keys == net.nodes.Keys
    requires forall q :: q in net.nodes ==>
                           net'.nodes[q].events.requestFragments == net.nodes[q].events.requestFragments
    ensures WireOk(net')
  {
    KeptOnWire(net, net');
    WireStep(net, net', net.wire.Keys);
  }

  // ---------------------------------------------------------------- executing a command

  lemma CompletionOk(history: seq<Entry>, p: PeerId, st: EventState, prevPeer: PeerId, prevAgent: ReverieName)
    requires PeersOk(history, p, st.peers)
    ensures PeersOk(history, p, MarkComplete(st, prevPeer, prevAgent).peers)
  {
    RemovePeerOk(history, p, st.peers, prevPeer);
    RemoveInfoOk(history, p, st.peers.RemovePeer(prevPeer), prevPeer);
  }

  /** A command leaves the peer maps in order; the sender's own record names another next vessel. */
  lemma CommandPeersOk(
    history: seq<Entry>, p: PeerId, st: EventState, command: NodeCommand, id: nat, notified: seq<PeerId>)
    requires HistoryOk(history) && PeersOk(history, p, st.peers) && CommandOk(history, p, command)
    ensures PeersOk(history, p, CommandStep(st, command, id, notified).0.peers)
  {
    match command
    case SaveReverieOnNetwork(msg) =>
      OwnRecordOk(history, p, msg);
      SetVesselOk(history, p, st.peers, VesselInfoOf(msg));
    case SendReverieToSpecificPeer(_, msg) =>
      OwnRecordOk(history, p, msg);
      SetVesselOk(history, p, st.peers, VesselInfoOf(msg));
    case MarkPendingRespawnComplete(_, prevPeer, prevAgent) => CompletionOk(history, p, st, prevPeer, prevAgent);
    case _ =>
  }

  lemma OwnRecordOk(history: seq<Entry>, p: PeerId, msg: ReverieMessage)
    requires HistoryOk(history) && BroadcastBy(history, p, msg)
    ensures RecordOk(history, p, VesselInfoOf(msg)) && msg.target != p
  {
    assert EntryOk(history, msg.reverie.id);
  }

  lemma TailOk(history: seq<Entry>, p: PeerId, commands: seq<NodeCommand>)
    requires CommandsOk(history, p, commands) && commands != []
    ensures CommandsOk(history, p, commands[1..])
    ensures CommandOk(history, p, commands[0])
    ensures commands[0].SendReverieToSpecificPeer? ==>
              forall c :: c in commands[1..] && c.SendReverieToSpecificPeer? ==>
                            c.reverieMsg.reverie.id != commands[0].reverieMsg.reverie.id
  {
    var rest := commands[1..];
    assert forall i :: 0 <= i < |rest| ==> rest[i] == commands[i + 1];
  }

  lemma AfterCommandHistory(history: seq<Entry>, p: PeerId, command: NodeCommand)
    requires HistoryOk(history) && CommandOk(history, p, command)
    ensures HistoryOk(AfterCommand(history, command))
    ensures Extends(history, AfterCommand(history, command))
    ensures forall q :: q != p ==> QuietFor(q, history, AfterCommand(history, command))
    ensures forall r: nat :: r < |history| && history[r].stage != Queued ==>
                               AfterCommand(history, command)[r] == history[r]
  {
    var history' := AfterCommand(history, command);
    forall r: nat | r < |history'|
      ensures EntryOk(history', r)
    {
      assert EntryOk(history, r);
    }
  }

  /** The rest of the queue does not depend on the stage that the first command moves. */
  lemma CommandsAfter(history: seq<Entry>, p: PeerId, commands: seq<NodeCommand>)
    requires HistoryOk(history) && CommandsOk(history, p, commands) && commands != []
    ensures CommandsOk(AfterCommand(history, commands[0]), p, commands[1..])
  {
    TailOk(history, p, commands);
    AfterCommandHistory(history, p, commands[0]);
    var history' := AfterCommand(history, commands[0]);
    forall c | c in commands[1..]
      ensures CommandOk(history', p, c)
    {
      assert CommandOk(history, p, c);
    }
  }

  lemma NodeAfterCommand(history: seq<Entry>, next: nat, p: PeerId, node: Node, notified: seq<PeerId>)
    requires HistoryOk(history) && NodeOk(history, next, p, node) && node.commands != []
    ensures
      var (events, sent) := CommandStep(node.events, node.commands[0], next, notified);
      NodeOk(AfterCommand(history, node.commands[0]), next + |sent|, p,
             node.(events := events, commands := node.commands[1..]))
  {
    var command := node.commands[0];
    var (events, sent) := CommandStep(node.events, command, next, notified);
    var history' := AfterCommand(history, command);
    TailOk(history, p, node.commands);
    AfterCommandHistory(history, p, command);
    CommandsAfter(history, p, node.commands);
    CommandPeersOk(history, p, node.events, command, next, notified);
    PeersFrame(history, history', p, events.peers);
    RequestsFrame(history, history', p, events.networkEvents);
    SendersFrame(history, history', next + |sent|, next + |sent|, p, events.requestFragments);
    RetrievalsFrame(history, history', node.retrievals);
  }

  /** Everything a command sends is in order. */
  lemma SentOk(net: Network, p: PeerId, notified: seq<PeerId>, net': Network, i: nat)
    requires HistoryOk(net.history) && net.Runs(p) && net.nodes[p].commands != []
    requires CommandOk(net.history, p, net.nodes[p].commands[0])
    requires net' == ExecuteStep(net, p, notified)
    requires i < |CommandStep(net.nodes[p].events, net.nodes[p].commands[0], net.nextRequest, notified).1|
    ensures
      var sent := CommandStep(net.nodes[p].events, net.nodes[p].commands[0], net.nextRequest, notified).1;
      PacketOk(net'.history, net'.nodes, net.nextRequest + i, Packet(p, sent[i].0, Request(sent[i].1)))
  {
    AfterCommandHistory(net.history, p, net.nodes[p].commands[0]);
  }

  lemma ExecuteKeepsInv(net: Network, p: PeerId, notified: seq<PeerId>)
    requires Inv(net) && net.Runs(p) && net.nodes[p].commands != []
    ensures Inv(ExecuteStep(net, p, notified))
  {
    var node, command := net.nodes[p], net.nodes[p].commands[0];
    var (events, sent) := CommandStep(node.events, command, net.nextRequest, notified);
    var net' := ExecuteStep(net, p, notified);
    assert NodeOk(net.history, net.nextRequest, p, node);
    AfterCommandHistory(net.history, p, command);
    NodeAfterCommand(net.history, net.nextRequest, p, node, notified);
    NodesStep(net, net'.history, net'.nextRequest, p, net'.nodes[p]);
    ExecutedWireOk(net, p, notified, net');
  }

  lemma ExecutedWireOk(net: Network, p: PeerId, notified: seq<PeerId>, net': Network)
    requires HistoryOk(net.history) && WireOk(net) && net.Runs(p) && net.nodes[p].commands != []
    requires CommandOk(net.history, p, net.nodes[p].commands[0])
    requires net' == ExecuteStep(net, p, notified)
    ensures WireOk(net')
  {
    var node, command := net.nodes[p], net.nodes[p].commands[0];
    var sent := CommandStep(node.events, command, net.nextRequest, notified).1;
    var posted := Posted(p, sent, net.nextRequest);
    AfterCommandHistory(net.history, p, command);
    KeptOnWire(net, net');
    assert net.wire.Keys !! posted.Keys;
    forall id | id in posted
      ensures id < net'.nextRequest && PacketOk(net'.history, net'.nodes, id, posted[id])
    {
      SentOk(net, p, notified, net', id - net.nextRequest);
    }
    NewCiphertextOnce(net, p, notified, net', posted);
    ExecuteUndisturbed(net, p, notified, net');
    WireStep(net, net', net.wire.Keys);
  }

  lemma ExecuteUndisturbed(net: Network, p: PeerId, notified: seq<PeerId>, net': Network)
    requires net.Runs(p) && net.nodes[p].commands != [] && WireOk(net)
    requires net' == ExecuteStep(net, p, notified)
    requires Extends(net.history, net'.history)
    requires forall id, r: ReverieId :: id in net.wire && r < |net'.history| && CarriesCiphertext(net.wire[id], r) ==>
                                          net'.history[r].stage == OnWire
    ensures Undisturbed(net, net', net.wire.Keys)
  {
  }

  lemma NewCiphertextOnce(net: Network, p: PeerId, notified: seq<PeerId>, net': Network, posted: map<nat, Packet>)
    requires WireOk(net) && net.Runs(p) && net.nodes[p].commands != []
    requires CommandOk(net.history, p, net.nodes[p].commands[0])
    requires net' == ExecuteStep(net, p, notified)
    requires
      var sent := CommandStep(net.nodes[p].events, net.nodes[p].commands[0], net.nextRequest, notified).1;
      posted == Posted(p, sent, net.nextRequest)
    ensures NewSentOnce(net'.wire, net.wire.Keys)
  {
    forall id, id', r: ReverieId | id in net'.wire && id !in net.wire && CarriesCiphertext(net'.wire[id], r)
                                   && id' in net'.wire && id' != id
      ensures !CarriesCiphertext(net'.wire[id'], r)
    {
      assert id in posted;
      if id' in net.wire && id' !in posted {
        assert PacketOk(net.history, net.nodes, id', net.wire[id']);
      }
    }
  }

  // ---------------------------------------------------------------- deliveries

  lemma RequestPeersOk(
    history: seq<Entry>, p: PeerId, st: EventState, packet: Packet, nodes: map<PeerId, Node>, id: nat,
    at: Instant)
    requires HistoryOk(history) && PeersOk(history, p, st.peers)
    requires PacketOk(history, nodes, id, packet) && packet.dst == p && packet.body.Request?
    ensures
      var request := packet.body.request;
      var after := if request.SaveCiphertext? then SetStage(history, request.reverieMsg.reverie.id, Held) else history;
      PeersOk(after, p, RequestStep(st, request, at).0.peers)
  {
    match packet.body.request
    case GetFragment(_, _) =>
    case SaveFragment(k) => SaveFragmentOk(history, p, st, packet.src, k, at);
    case ProvidingFragment(r, n, provider) =>
      AnnounceOk(history, p, st.peers, provider, r, n);
      InsertPeerOk(history, p, st.peers.InsertKfragProvider(provider, r, n), provider, at);
    case SaveCiphertext(msg) => SaveCiphertextOk(history, p, st, packet.src, msg, at);
    case MarkRespawnComplete(_, prevPeer, prevAgent) => CompletionOk(history, p, st, prevPeer, prevAgent);
  }

  lemma SaveFragmentOk(history: seq<Entry>, p: PeerId, st: EventState, src: PeerId, k: KeyfragMessage, at: Instant)
    requires HistoryOk(history) && PeersOk(history, p, st.peers) && KeyfragOk(history, src, p, k)
    ensures PeersOk(history, p, RequestStep(st, SaveFragment(k), at).0.peers)
    ensures RequestStep(st, SaveFragment(k), at).1.ok
  {
    var r := k.keyfrag.id;
    assert EntryOk(history, r);
    var info := VesselInfoOfKeyfrag(k);
    assert info == VesselInfoOf(history[r].msg);
    assert info.nextVessel != p;
    RecordVesselOk(history, p, st.peers, info);
    var recorded := Record(st.peers, info);
    var cfrag := DeriveCapsulefrag(k.keyfrag, p);
    assert HoldsOwnFragment(history, p, r, cfrag);
    ProvidersFrame(history, p, recorded, recorded.(cfrags := st.peers.cfrags[r := cfrag]));
  }

  lemma SaveCiphertextOk(history: seq<Entry>, p: PeerId, st: EventState, src: PeerId, msg: ReverieMessage, at: Instant)
    requires HistoryOk(history) && PeersOk(history, p, st.peers)
    requires BroadcastBy(history, src, msg) && msg.target == p && history[msg.reverie.id].stage == OnWire
    ensures PeersOk(SetStage(history, msg.reverie.id, Held), p, RequestStep(st, SaveCiphertext(msg), at).0.peers)
  {
    var r := msg.reverie.id;
    var history' := SetStage(history, r, Held);
    PeersFrame(history, history', p, st.peers);
    var info := VesselInfoOf(msg);
    var received := st.peers.(reverie := st.peers.reverie[r := msg]);
    assert HoldsReverie(history', p, r, msg);
    ProvidersFrame(history', p, st.peers, received);
    RecordVesselOk(history', p, received, info);
    assert RequestStep(st, SaveCiphertext(msg), at).0.peers == Record(received, info);
  }

  lemma StageMove(history: seq<Entry>, r: ReverieId, stage: Stage)
    requires HistoryOk(history) && r < |history| && history[r].stage != Finished
    ensures HistoryOk(SetStage(history, r, stage))
    ensures Extends(history, SetStage(history, r, stage))
    ensures forall q :: !Speaks(q, history[r]) ==> QuietFor(q, history, SetStage(history, r, stage))
  {
    var history' := SetStage(history, r, stage);
    forall x: nat | x < |history'|
      ensures EntryOk(history', x)
    {
      assert EntryOk(history, x);
    }
  }

  lemma DispatchedFrame(history: seq<Entry>, history': seq<Entry>, dispatched: seq<(PeerId, ReverieId)>)
    requires DispatchedOk(history, dispatched) && Extends(history, history')
    requires forall r: nat :: r < |history| && history[r].stage in {Requested, Working, Finished} ==>
                                history'[r].stage in {Requested, Working, Finished}
    ensures DispatchedOk(history', dispatched)
  {
  }

  lemma AfterRequestHistory(net: Network, id: nat)
    requires HistoryOk(net.history) && DispatchedOk(net.history, net.dispatched)
    requires id in net.wire && net.wire[id].body.Request? && PacketOk(net.history, net.nodes, id, net.wire[id])
    ensures
      var history' := AfterRequest(net.history, net.wire[id].body.request);
      && HistoryOk(history') && DispatchedOk(history', net.dispatched)
      && (forall q :: QuietFor(q, net.history, history'))
      && Extends(net.history, history')
      && (forall r: nat :: r < |net.history| && net.history[r].stage == OnWire
                           && !CarriesCiphertext(net.wire[id], r) ==>
                             history'[r].stage == OnWire)
  {
    var request := net.wire[id].body.request;
    if request.SaveCiphertext? {
      StageMove(net.history, request.reverieMsg.reverie.id, Held);
      DispatchedFrame(net.history, AfterRequest(net.history, request), net.dispatched);
    }
  }

  lemma NodeAfterRequest(net: Network, id: nat, at: Instant)
    requires Inv(net) && id in net.wire && net.wire[id].body.Request? && net.Runs(net.wire[id].dst)
    ensures
      var p, request := net.wire[id].dst, net.wire[id].body.request;
      var node := net.nodes[p];
      NodeOk(AfterRequest(net.history, request), net.nextRequest, p,
             node.(events := RequestStep(node.events, request, at).0))
  {
    var p, request := net.wire[id].dst, net.wire[id].body.request;
    var node := net.nodes[p];
    assert NodeOk(net.history, net.nextRequest, p, node);
    assert PacketOk(net.history, net.nodes, id, net.wire[id]);
    AfterRequestHistory(net, id);
    NodeFrame(net.history, AfterRequest(net.history, request), net.nextRequest, net.nextRequest, p, node);
    RequestPeersOk(net.history, p, node.events, net.wire[id], net.nodes, id, at);
  }

  /** What a provider answers fits what is waiting for it. */
  lemma AnswerFits(net: Network, id: nat, at: Instant)
    requires Inv(net) && id in net.wire && net.wire[id].body.Request? && net.Runs(net.wire[id].dst)
    ensures
      var packet := net.wire[id];
      var outcome := RequestStep(net.nodes[packet.dst].events, packet.body.request, at).1;
      outcome.reply.Some? && !packet.reported ==>
        && Waits(net.nodes, packet.src, id)
        && ReplyFits(net.history, net.nodes[packet.src].events.requestFragments[id], outcome.reply.value)
  {
    var packet := net.wire[id];
    var p := packet.dst;
    assert PacketOk(net.history, net.nodes, id, packet);
    assert NodeOk(net.history, net.nextRequest, p, net.nodes[p]);
    if packet.body.request.GetFragment? {
      var r := packet.body.request.reverieId;
      var cfrags := net.nodes[p].events.peers.cfrags;
      if r in cfrags && !packet.reported {
        assert HoldsOwnFragment(net.history, p, r, cfrags[r]);
        assert EntryOk(net.history, r);
        var sender := net.nodes[packet.src].events.requestFragments[id];
        assert net.history[r].msg.keyfragProviders[cfrags[r].fragNum]
            == net.history[r].msg.keyfragProviders[sender.slot];
      }
    }
  }

  /** What the arms send on is in order: only a provider's announcement to the target. */
  lemma ForwardedOk(net: Network, id: nat, at: Instant, history': seq<Entry>)
    requires Inv(net) && id in net.wire && net.wire[id].body.Request? && net.Runs(net.wire[id].dst)
    requires Extends(net.history, history')
    ensures
      var sent := RequestStep(net.nodes[net.wire[id].dst].events, net.wire[id].body.request, at).1.sent;
      forall i :: 0 <= i < |sent| ==> sent[i].1.ProvidingFragment? && AnnouncementOk(history', sent[i])
  {
    assert PacketOk(net.history, net.nodes, id, net.wire[id]);
    assert NodeOk(net.history, net.nextRequest, net.wire[id].dst, net.nodes[net.wire[id].dst]);
  }

  lemma RequestKeepsSenders(st: EventState, request: FragmentRequest, at: Instant)
    ensures RequestStep(st, request, at).0.requestFragments == st.requestFragments
  {
  }

  lemma HandledUndisturbed(net: Network, id: nat, events: EventState, outcome: Outcome, history': seq<Entry>)
    requires WireOk(net) && id in net.wire && net.wire[id].dst in net.nodes
    requires events.requestFragments == net.nodes[net.wire[id].dst].events.requestFragments
    requires Extends(net.history, history')
    requires forall r: nat :: r < |net.history| && net.history[r].stage == OnWire
                              && !CarriesCiphertext(net.wire[id], r) ==>
                                history'[r].stage == OnWire
    ensures Undisturbed(net, Handled(net, id, events, outcome, history'), net.wire.Keys - {id})
  {
    forall x, r: ReverieId | x in net.wire.Keys - {id} && r < |history'| && CarriesCiphertext(net.wire[x], r)
      ensures history'[r].stage == OnWire
    {
      assert PacketOk(net.history, net.nodes, x, net.wire[x]);
      assert !CarriesCiphertext(net.wire[id], r);
    }
  }

  lemma HandledWire(net: Network, id: nat, events: EventState, outcome: Outcome, history': seq<Entry>)
    requires WireOk(net) && id in net.wire && net.wire[id].dst in net.nodes
    requires events.requestFragments == net.nodes[net.wire[id].dst].events.requestFragments
    requires Extends(net.history, history')
    requires Undisturbed(net, Handled(net, id, events, outcome, history'), net.wire.Keys - {id})
    requires outcome.reply.Some? && !net.wire[id].reported ==>
               && Waits(net.nodes, net.wire[id].src, id)
               && ReplyFits(net.history, net.nodes[net.wire[id].src].events.requestFragments[id], outcome.reply.value)
    requires forall i :: 0 <= i < |outcome.sent| ==>
                           outcome.sent[i].1.ProvidingFragment? && AnnouncementOk(history', outcome.sent[i])
    ensures WireOk(Handled(net, id, events, outcome, history'))
  {
    var net' := Handled(net, id, events, outcome, history');
    var kept := net.wire.Keys - {id};
    var posted := Posted(net.wire[id].dst, outcome.sent, net.nextRequest);
    assert net.wire.Keys !! posted.Keys;
    forall x | x in net'.wire && x !in kept
      ensures x < net'.nextRequest && PacketOk(history', net'.nodes, x, net'.wire[x])
      ensures forall r: ReverieId :: !CarriesCiphertext(net'.wire[x], r)
    {
      if x in posted {
        assert AnnouncementOk(history', outcome.sent[x - net.nextRequest]);
      }
    }
    WireStep(net, net', kept);
  }

  ghost predicate AnnouncementOk(history: seq<Entry>, sent: (PeerId, FragmentRequest)) {
    sent.1.ProvidingFragment? && AnnouncedOk(history, sent.0, sent.1.reverieId, sent.1.fragNum, sent.1.kfragProvider)
  }

  lemma DeliverRequestKeepsInv(net: Network, id: nat, at: Instant, served: bool)
    requires Inv(net) && id in net.wire && net.wire[id].body.Request? && net.Runs(net.wire[id].dst)
    ensures Inv(DeliverRequest(net, id, at, served))
  {
    var packet := net.wire[id];
    var p := packet.dst;
    var (events, outcome) := ServeRequest(net.nodes[p].events, packet.body.request, at, served);
    var history' := AfterRequest(net.history, packet.body.request);
    assert PacketOk(net.history, net.nodes, id, packet);
    AfterRequestHistory(net, id);
    NodeAfterRequest(net, id, at);
    AnswerFits(net, id, at);
    ForwardedOk(net, id, at, history');
    RequestKeepsSenders(net.nodes[p].events, packet.body.request, at);
    HandledKeepsInv(net, id, events, outcome, history');
    StopKeepsInv(Handled(net, id, events, outcome, history'), p);
  }

  lemma HandledKeepsInv(net: Network, id: nat, events: EventState, outcome: Outcome, history': seq<Entry>)
    requires Inv(net) && id in net.wire && net.wire[id].dst in net.nodes
    requires events.requestFragments == net.nodes[net.wire[id].dst].events.requestFragments
    requires HistoryOk(history') && DispatchedOk(history', net.dispatched) && Extends(net.history, history')
    requires forall q :: QuietFor(q, net.history, history')
    requires forall r: nat :: r < |net.history| && net.history[r].stage == OnWire
                              && !CarriesCiphertext(net.wire[id], r) ==>
                                history'[r].stage == OnWire
    requires NodeOk(history', net.nextRequest, net.wire[id].dst, net.nodes[net.wire[id].dst].(events := events))
    requires outcome.reply.Some? && !net.wire[id].reported ==>
               && Waits(net.nodes, net.wire[id].src, id)
               && ReplyFits(net.history, net.nodes[net.wire[id].src].events.requestFragments[id], outcome.reply.value)
    requires forall i :: 0 <= i < |outcome.sent| ==>
                           outcome.sent[i].1.ProvidingFragment? && AnnouncementOk(history', outcome.sent[i])
    ensures Inv(Handled(net, id, events, outcome, history'))
  {
    var p := net.wire[id].dst;
    var net' := Handled(net, id, events, outcome, history');
    HandledUndisturbed(net, id, events, outcome, history');
    HandledWire(net, id, events, outcome, history');
    NodeFrame(history', history', net.nextRequest, net'.nextRequest, p, net'.nodes[p]);
    NodesStep(net, history', net'.nextRequest, p, net'.nodes[p]);
  }

  lemma StopKeepsInv(net: Network, p: PeerId)
    requires Inv(net) && p in net.nodes
    ensures Inv(net.Halt(p))
  {
    assert NodeOk(net.history, net.nextRequest, p, net.nodes[p]);
    NodesStep(net, net.history, net.nextRequest, p, net.nodes[p].(halted := true));
    WireUntouched(net, net.Halt(p));
  }

  // ---------------------------------------------------------------- replies and failures

  lemma AnswerOk(history: seq<Entry>, p: PeerId, job: Option<Job>, sender: ReplySender, reply: FragmentReply)
    requires job.Some? ==> JobOk(history, p, job.value)
    requires ReplyFits(history, sender, reply)
    ensures Answer(job, sender, reply).Some? ==> JobOk(history, p, Answer(job, sender, reply).value)
  {
    if job.Some? {
      var job' := Answer(job, sender, reply).value;
      forall i | 0 <= i < |job'.replies|
        ensures SlotOk(job'.msg, i, job'.replies[i])
      {
        assert SlotOk(job.value.msg, i, job.value.replies[i]);
      }
    }
  }

  lemma AnswerRetrievalOk(history: seq<Entry>, retrievals: seq<Retrieval>, sender: ReplySender, reply: FragmentReply)
    requires RetrievalsOk(history, retrievals) && ReplyFits(history, sender, reply)
    ensures RetrievalsOk(history, AnswerRetrieval(retrievals, sender, reply))
  {
    var answered := AnswerRetrieval(retrievals, sender, reply);
    forall k | 0 <= k < |answered|
      ensures RetrievalOk(history, answered[k])
    {
      assert RetrievalOk(history, retrievals[k]);
      forall i | 0 <= i < |answered[k].replies|
        ensures SlotOk(answered[k].msg, i, answered[k].replies[i])
      {
        assert SlotOk(retrievals[k].msg, i, retrievals[k].replies[i]);
      }
    }
  }

  lemma TakeReplyKeepsInv(net: Network, p: PeerId, id: nat, reply: FragmentReply, mustWait: bool)
    requires Inv(net) && net.Runs(p) && (id in net.wire ==> net.wire[id].reported)
    requires Waits(net.nodes, p, id) ==> ReplyFits(net.history, net.nodes[p].events.requestFragments[id], reply)
    ensures Inv(TakeReply(net, p, id, reply, mustWait))
  {
    var net' := TakeReply(net, p, id, reply, mustWait);
    TakenNodeOk(net, p, id, reply, mustWait);
    NodesStep(net, net.history, net.nextRequest, p, net'.nodes[p]);
    TakenWireOk(net, p, id, reply, mustWait);
  }

  lemma TakenNodeOk(net: Network, p: PeerId, id: nat, reply: FragmentReply, mustWait: bool)
    requires net.Runs(p) && NodeOk(net.history, net.nextRequest, p, net.nodes[p])
    requires Waits(net.nodes, p, id) ==> ReplyFits(net.history, net.nodes[p].events.requestFragments[id], reply)
    ensures NodeOk(net.history, net.nextRequest, p, TakeReply(net, p, id, reply, mustWait).nodes[p])
  {
    var node := net.nodes[p];
    if Waits(net.nodes, p, id) {
      AnswerOk(net.history, p, node.job, node.events.requestFragments[id], reply);
      AnswerRetrievalOk(net.history, node.retrievals, node.events.requestFragments[id], reply);
    }
  }

  lemma TakenWireOk(net: Network, p: PeerId, id: nat, reply: FragmentReply, mustWait: bool)
    requires WireOk(net) && net.Runs(p) && (id in net.wire ==> net.wire[id].reported)
    ensures WireOk(TakeReply(net, p, id, reply, mustWait))
  {
    var net' := TakeReply(net, p, id, reply, mustWait);
    KeptOnWire(net, net');
    OthersStillWait(net, p, id, reply, mustWait);
    WireStep(net, net', net.wire.Keys);
  }

  lemma OthersStillWait(net: Network, p: PeerId, id: nat, reply: FragmentReply, mustWait: bool)
    requires net.Runs(p)
    ensures forall x, q :: x in net.wire && x != id && Waits(net.nodes, q, x) ==>
                             Waits(TakeReply(net, p, id, reply, mustWait).nodes, q, x)
  {
  }

  lemma WithoutKeepsInv(net: Network, id: nat)
    requires Inv(net)
    ensures Inv(Without(net, id))
  {
    KeptOnWire(net, Without(net, id));
    WireStep(net, Without(net, id), net.wire.Keys - {id});
  }

  lemma AfterFailureKeepsInv(net: Network, id: nat, lost: bool)
    requires Inv(net) && id in net.wire
    ensures Inv(AfterFailure(net, id, lost))
  {
    if lost || net.wire[id].body.Reply? {
      WithoutKeepsInv(net, id);
    } else {
      var net' := AfterFailure(net, id, lost);
      assert PacketOk(net.history, net.nodes, id, net.wire[id]);
      forall x | x in net'.wire
        ensures x < net.nextRequest && PacketOk(net.history, net.nodes, x, net'.wire[x])
      {
        assert PacketOk(net.history, net.nodes, x, net.wire[x]);
      }
      assert SentOnce(net'.wire) by {
        assert forall x, r: ReverieId :: x in net.wire && CarriesCiphertext(net'.wire[x], r) ==>
                                           CarriesCiphertext(net.wire[x], r);
      }
    }
  }

  /** A delivered reply always finds its sender waiting. */
  lemma DeliverReplyKeepsInv(net: Network, id: nat)
    requires Inv(net) && id in net.wire && net.wire[id].body.Reply? && net.Runs(net.wire[id].dst)
    ensures Inv(TakeReply(Without(net, id), net.wire[id].dst, id, net.wire[id].body.reply, true))
    ensures ReplyStep(net.nodes[net.wire[id].dst].events, id).1.Some?
  {
    var packet := net.wire[id];
    assert PacketOk(net.history, net.nodes, id, packet);
    WithoutKeepsInv(net, id);
    TakeReplyKeepsInv(Without(net, id), packet.dst, id, packet.body.reply, true);
  }

  lemma FailKeepsInv(net: Network, id: nat, lost: bool)
    requires Inv(net) && id in net.wire
    ensures Inv(FailStep(net, id, lost))
  {
    var p, left := Requester(net.wire[id]), AfterFailure(net, id, lost);
    AfterFailureKeepsInv(net, id, lost);
    if net.Runs(p) && !net.wire[id].reported {
      if Waits(net.nodes, p, id) {
        assert NodeOk(net.history, net.nextRequest, p, net.nodes[p]);
        assert SenderOk(net.history, p, net.nodes[p].events.requestFragments[id]);
      }
      TakeReplyKeepsInv(left, p, id, Err(SendError), false);
    }
  }
}
