/** Whole runs, step by step: a respawn that succeeds, one that a single provider spoils, and a
    retrieval that ends a provider. What the theorems speak of does happen. */
module RespawnScenario {
  import opened Types
  import opened Umbral
  import opened Messages
  import opened PeerManagement
  import opened NodeClients
  import opened NetworkEventLoop
  import opened RespawnNetwork
  import opened RespawnInvariant
  import opened RespawnTheorems

  lemma {:induction false} RunOneMore(net: Network, actions: seq<Action>, a: Action)
    ensures Run(net, actions + [a]) == Next(Run(net, actions), a)
    decreases |actions|
  {
    if actions == [] {
      assert actions + [a] == [a] && [a][1..] == [];
      assert Run(Next(net, a), []) == Next(net, a);
    } else {
      assert (actions + [a])[1..] == actions[1..] + [a];
      RunOneMore(Next(net, actions[0]), actions[1..], a);
    }
  }

  lemma StepReachable(net: Network, a: Action)
    requires Reachable(net)
    ensures Reachable(Next(net, a))
  {
    var peers, actions :| net == Run(Start(peers), actions);
    RunOneMore(Start(peers), actions, a);
  }

  // ---------------------------------------------------------------- the cast

  function Empty(p: PeerId): NodeKeys {
    NodeKeys(p, p, p, EmptyVessel)
  }

  function Idle(p: PeerId): Node {
    Node(NoEvents(p), [], None, [], false)
  }

  /** Node 0 hosts the agent, node 1 is its next vessel, nodes 2 and 3 provide the two fragments,
      and one fragment is enough. */
  function Nodes(n0: Node, n1: Node, n2: Node, n3: Node): map<PeerId, Node> {
    map[0 := n0, 1 := n1, 2 := n2, 3 := n3]
  }

  function First(agent: ReverieName, body: string): (msg: ReverieMessage)
    ensures IsFirst(msg)
  {
    ReverieMessage(
      NewReverie(0, SovereignAgent(agent), AgentSecrets(agent, body), 1, 2, Empty(1), None, 0),
      0, 1, [2, 3])
  }

  predicate IsFirst(msg: ReverieMessage) {
    && msg.source == 0 && msg.target == 1 && msg.reverie.id == 0 && msg.keyfragProviders == [2, 3]
    && msg.reverie.reverieType.SovereignAgent?
    && msg.reverie.targetPublicKey == 1 && msg.reverie.accessCondition == UmbralSigner(1)
  }

  function KeyfragTo(msg: ReverieMessage, i: nat): KeyfragMessage {
    KeyfragMessage(KeyfragOf(0, msg.reverie, i), 0, 1)
  }

  function Acquainted(): Node {
    Idle(1).(events := NoEvents(1).(peers := EmptyPeers(1).InsertPeerInfo(0, 0)))
  }

  /** The sender has its vessel recorded. */
  function Sent(msg: ReverieMessage): Node {
    Idle(0).(events := NoEvents(0).(peers := EmptyPeers(0).SetAgentVessel(VesselInfoOf(msg))))
  }

  function Provider(msg: ReverieMessage, i: nat): Node {
    Idle(2 + i).(events := RequestStep(NoEvents(2 + i), SaveFragment(KeyfragTo(msg, i)), 0).0)
  }

  function Holder(msg: ReverieMessage): Node {
    Acquainted().(events := RequestStep(Acquainted().events, SaveCiphertext(msg), 0).0)
  }

  function Announcement(i: nat): Packet {
    Packet(2 + i, 1, Request(ProvidingFragment(0, i, 2 + i)))
  }

  function Only(msg: ReverieMessage, stage: Stage): seq<Entry> {
    [Entry(msg, None, stage)]
  }

  function Answered(msg: ReverieMessage, i: nat): FragmentReply {
    Ok(CfragJson(CapsulefragOf(msg, i, 2 + i)))
  }

  // ---------------------------------------------------------------- single steps

  lemma Executes(net: Network, p: PeerId, dst: PeerId, request: FragmentRequest)
    requires net.Runs(p) && net.nodes[p].commands != [] && !net.nodes[p].commands[0].MarkPendingRespawnComplete?
    requires CommandStep(net.nodes[p].events, net.nodes[p].commands[0], net.nextRequest, []).1 == [(dst, request)]
    ensures
      var node := net.nodes[p];
      var events := CommandStep(node.events, node.commands[0], net.nextRequest, []).0;
      Next(net, Execute(p, []))
      == Network(net.nodes[p := node.(events := events, commands := node.commands[1..])],
                 net.wire[net.nextRequest := Packet(p, dst, Request(request))], net.nextRequest + 1,
                 AfterCommand(net.history, node.commands[0]), net.dispatched)
  {
    PostedOne(p, dst, request, net.nextRequest);
    assert net.wire + map[net.nextRequest := Packet(p, dst, Request(request))]
        == net.wire[net.nextRequest := Packet(p, dst, Request(request))];
  }

  lemma Delivers(net: Network, id: nat, at: Instant, events: EventState, outcome: Outcome)
    requires id in net.wire && net.wire[id].body.Request? && net.Runs(net.wire[id].dst)
    requires RequestStep(net.nodes[net.wire[id].dst].events, net.wire[id].body.request, at) == (events, outcome)
             && outcome.ok
    ensures Next(net, Deliver(id, at, true))
         == Handled(net, id, events, outcome, AfterRequest(net.history, net.wire[id].body.request))
  {
  }

  lemma DeliversReply(net: Network, id: nat, at: Instant)
    requires id in net.wire && net.wire[id].body.Reply? && net.Runs(net.wire[id].dst)
    ensures Next(net, Deliver(id, at, true))
         == TakeReply(Without(net, id), net.wire[id].dst, id, net.wire[id].body.reply, true)
  {
  }

  lemma FailsRequest(net: Network, id: nat)
    requires id in net.wire && net.wire[id].body.Request? && !net.wire[id].reported && net.Runs(net.wire[id].src)
    ensures Next(net, Fail(id, true)) == TakeReply(Without(net, id), net.wire[id].src, id, Err(SendError), false)
  {
  }

  lemma TicksOnce(
    net: Network, p: PeerId, order: seq<PeerId>, at: Instant, maxTime: int, st: EventState,
    added: seq<AgentVesselInfo>)
    requires net.Runs(p) && Enumerates(order, net.nodes[p].events.peers.peerInfo.Keys)
    requires Tick(net.nodes[p].events, order, at, maxTime) == TickOutcome(st, true)
    requires net.nodes[p].events.networkEvents == [] && st.networkEvents == added
    ensures Next(net, TickAt(p, order, at, maxTime))
         == net.With(p, net.nodes[p].(events := st))
            .(history := MarkRequested(net.history, added), dispatched := net.dispatched + LogOf(p, added))
  {
    assert st.networkEvents[0..] == added;
  }

  lemma StartsOnce(net: Network, p: PeerId)
    requires net.Runs(p) && net.nodes[p].job.None? && net.nodes[p].events.networkEvents != []
    ensures Next(net, StartRespawn(p)) == StartStep(net, p)
  {
  }

  lemma SpawnsOnce(net: Network, spawn: Action)
    requires spawn.Spawn? && net.Runs(spawn.peer) && SpawnAllowed(spawn)
    ensures Next(net, spawn) == SpawnStep(net, spawn)
  {
  }

  lemma PostedOne(src: PeerId, dst: PeerId, request: FragmentRequest, from: nat)
    ensures Posted(src, [(dst, request)], from) == map[from := Packet(src, dst, Request(request))]
  {
    assert [(dst, request)][1..] == [];
  }

  // ---------------------------------------------------------------- from spawn to storage

  ghost function AtFirst(): Network {
    Network(Nodes(Idle(0), Idle(1), Idle(2), Idle(3)), map[], 0, [], [])
  }

  lemma FirstReachable()
    ensures Reachable(AtFirst())
  {
    var start := Start({0, 1, 2, 3});
    assert start.nodes == Nodes(Idle(0), Idle(1), Idle(2), Idle(3));
    assert Run(start, []) == start;
  }

  ghost function Met(): Network {
    Network(Nodes(Idle(0), Acquainted(), Idle(2), Idle(3)), map[], 0, [], [])
  }

  lemma MetReachable()
    ensures Reachable(Met())
  {
    FirstReachable();
    StepReachable(AtFirst(), Connect(1, 0, 0));
    assert Next(AtFirst(), Connect(1, 0, 0)).nodes == Met().nodes;
  }

  function FirstCommands(msg: ReverieMessage): seq<NodeCommand> {
    [SendReverieKeyfrag(2, KeyfragTo(msg, 0)), SendReverieKeyfrag(3, KeyfragTo(msg, 1)),
     SendReverieToSpecificPeer(1, msg)]
  }

  function FirstPackets(msg: ReverieMessage): seq<Packet> {
    [Packet(0, 2, Request(SaveFragment(KeyfragTo(msg, 0)))), Packet(0, 3, Request(SaveFragment(KeyfragTo(msg, 1)))),
     Packet(0, 1, Request(SaveCiphertext(msg)))]
  }

  lemma AllEmpty(p: PeerId, q: PeerId, r: PeerId)
    ensures EmptyVessels([Empty(p), Empty(q), Empty(r)]) == [Empty(p), Empty(q), Empty(r)]
  {
    assert [Empty(r)][1..] == [];
    assert EmptyVessels([Empty(r)]) == [Empty(r)];
    assert [Empty(q), Empty(r)][1..] == [Empty(r)];
    assert EmptyVessels([Empty(q), Empty(r)]) == [Empty(q), Empty(r)];
    assert [Empty(p), Empty(q), Empty(r)][1..] == [Empty(q), Empty(r)];
  }

  lemma FirstComposed(agent: ReverieName, body: string)
    ensures
      var msg := First(agent, body);
      var vessels := [Empty(1), Empty(2), Empty(3)];
      && ComposeSpawn(0, SovereignAgent(agent), AgentSecrets(agent, body), 1, 2, None, vessels, 0) == Ok(msg)
      && BroadcastCommands(0, msg) == FirstCommands(msg)
  {
    var vessels, providers, msg := [Empty(1), Empty(2), Empty(3)], [Empty(2), Empty(3)], First(agent, body);
    AllEmpty(1, 2, 3);
    assert vessels[1..] == providers && providers[..2] == providers;
    assert PeerIds(providers) == [2, 3];
    assert KeyfragCommands(0, msg) == FirstCommands(msg)[..2];
  }

  /** The sender's commands from i on are still to be executed. */
  ghost function Sending(msg: ReverieMessage, i: nat): Network
    requires i <= 2
  {
    var packets := FirstPackets(msg);
    Network(Nodes(Idle(0).(commands := FirstCommands(msg)[i..]), Acquainted(), Idle(2), Idle(3)),
            map id: nat | id < i :: packets[id], i, Only(msg, Queued), [])
  }

  lemma SpawnedReachable(agent: ReverieName, body: string)
    ensures Reachable(Sending(First(agent, body), 0))
  {
    var msg, secrets, vessels := First(agent, body), AgentSecrets(agent, body), [Empty(1), Empty(2), Empty(3)];
    var spawn := Spawn(0, SovereignAgent(agent), secrets, 1, 2, None, vessels);
    MetReachable();
    StepReachable(Met(), spawn);
    FirstComposed(agent, body);
    FirstVesselsGenuine();
    SpawnsOnce(Met(), spawn);
    FirstQueued(msg);
  }

  lemma FirstVesselsGenuine()
    ensures GenuineVessels(0, [Empty(1), Empty(2), Empty(3)])
  {
    assert PeerIds([Empty(1), Empty(2), Empty(3)]) == [1, 2, 3];
  }

  lemma FirstQueued(msg: ReverieMessage)
    ensures Met().With(0, Idle(0).(commands := [] + FirstCommands(msg))).(history := [] + [Entry(msg, None, Queued)])
         == Sending(msg, 0)
  {
    assert [] + FirstCommands(msg) == FirstCommands(msg) == FirstCommands(msg)[0..];
    assert map[] == Sending(msg, 0).wire;
  }

  ghost function OnTheWire(msg: ReverieMessage): Network {
    var packets := FirstPackets(msg);
    Network(Nodes(Sent(msg), Acquainted(), Idle(2), Idle(3)), map[0 := packets[0], 1 := packets[1], 2 := packets[2]],
            3, Only(msg, OnWire), [])
  }

  lemma FragmentSent(msg: ReverieMessage, i: nat)
    requires i < 2
    ensures Next(Sending(msg, i), Execute(0, [])) == Sending(msg, i + 1)
  {
    var net := Sending(msg, i);
    assert FirstCommands(msg)[i..][1..] == FirstCommands(msg)[i + 1..];
    Executes(net, 0, 2 + i, SaveFragment(KeyfragTo(msg, i)));
    assert net.wire[i := FirstPackets(msg)[i]] == Sending(msg, i + 1).wire;
    assert net.nodes[0 := Idle(0).(commands := FirstCommands(msg)[i + 1..])] == Sending(msg, i + 1).nodes;
  }

  lemma CiphertextSent(msg: ReverieMessage)
    requires IsFirst(msg)
    ensures Next(Sending(msg, 2), Execute(0, [])) == OnTheWire(msg)
  {
    LastCommand(msg);
    Executes(Sending(msg, 2), 0, 1, SaveCiphertext(msg));
    LastPacket(msg);
  }

  lemma LastCommand(msg: ReverieMessage)
    ensures FirstCommands(msg)[2..][0] == SendReverieToSpecificPeer(1, msg) && FirstCommands(msg)[2..][1..] == []
  {
  }

  lemma LastPacket(msg: ReverieMessage)
    requires IsFirst(msg)
    ensures AfterCommand(Only(msg, Queued), SendReverieToSpecificPeer(1, msg)) == Only(msg, OnWire)
    ensures Sending(msg, 2).wire[2 := Packet(0, 1, Request(SaveCiphertext(msg)))] == OnTheWire(msg).wire
    ensures Sending(msg, 2).nodes[0 := Sent(msg)] == OnTheWire(msg).nodes
  {
  }

  ghost function OneStored(msg: ReverieMessage): Network {
    var packets := FirstPackets(msg);
    Network(Nodes(Sent(msg), Acquainted(), Provider(msg, 0), Idle(3)),
            map[1 := packets[1], 2 := packets[2], 3 := Announcement(0)],
            4, Only(msg, OnWire), [])
  }

  ghost function BothStored(msg: ReverieMessage): Network {
    Network(Nodes(Sent(msg), Acquainted(), Provider(msg, 0), Provider(msg, 1)),
            map[2 := FirstPackets(msg)[2], 3 := Announcement(0), 4 := Announcement(1)], 5, Only(msg, OnWire), [])
  }

  function Announcements(): map<nat, Packet> {
    map[3 := Announcement(0), 4 := Announcement(1)]
  }

  ghost function Stored(msg: ReverieMessage): Network {
    Network(Nodes(Sent(msg), Holder(msg), Provider(msg, 0), Provider(msg, 1)), Announcements(), 5, Only(msg, Held), [])
  }

  lemma Stores(msg: ReverieMessage, i: nat)
    requires IsFirst(msg)
    ensures RequestStep(NoEvents(2 + i), SaveFragment(KeyfragTo(msg, i)), 0)
         == (Provider(msg, i).events, Outcome(true, [(1, ProvidingFragment(0, i, 2 + i))], None))
  {
  }

  lemma FirstFragmentStored(msg: ReverieMessage)
    requires IsFirst(msg)
    ensures Next(OnTheWire(msg), Deliver(0, 0, true)) == OneStored(msg)
  {
    var net := OnTheWire(msg);
    Stores(msg, 0);
    Delivers(net, 0, 0, Provider(msg, 0).events, Outcome(true, [(1, ProvidingFragment(0, 0, 2))], None));
    PostedOne(2, 1, ProvidingFragment(0, 0, 2), 3);
    assert net.wire - {0} + map[3 := Announcement(0)] == OneStored(msg).wire;
  }

  lemma SecondFragmentStored(msg: ReverieMessage)
    requires IsFirst(msg)
    ensures Next(OneStored(msg), Deliver(1, 0, true)) == BothStored(msg)
  {
    var net := OneStored(msg);
    Stores(msg, 1);
    Delivers(net, 1, 0, Provider(msg, 1).events, Outcome(true, [(1, ProvidingFragment(0, 1, 3))], None));
    PostedOne(3, 1, ProvidingFragment(0, 1, 3), 4);
    assert net.wire - {1} + map[4 := Announcement(1)] == BothStored(msg).wire;
  }

  lemma CiphertextStored(msg: ReverieMessage)
    requires IsFirst(msg)
    ensures Next(BothStored(msg), Deliver(2, 0, true)) == Stored(msg)
  {
    var net := BothStored(msg);
    CiphertextKept(msg);
    Delivers(net, 2, 0, Holder(msg).events, Outcome(true, [], None));
  }

  lemma CiphertextKept(msg: ReverieMessage)
    requires IsFirst(msg)
    ensures RequestStep(Acquainted().events, SaveCiphertext(msg), 0) == (Holder(msg).events, Outcome(true, [], None))
    ensures AfterRequest(Only(msg, OnWire), SaveCiphertext(msg)) == Only(msg, Held)
    ensures BothStored(msg).wire - {2} + map[] == Announcements()
  {
  }

  lemma StoredReachable(agent: ReverieName, body: string)
    ensures Reachable(Stored(First(agent, body)))
  {
    var msg := First(agent, body);
    SpawnedReachable(agent, body);
    StepReachable(Sending(msg, 0), Execute(0, []));
    FragmentSent(msg, 0);
    StepReachable(Sending(msg, 1), Execute(0, []));
    FragmentSent(msg, 1);
    StepReachable(Sending(msg, 2), Execute(0, []));
    CiphertextSent(msg);
    StepReachable(OnTheWire(msg), Deliver(0, 0, true));
    FirstFragmentStored(msg);
    StepReachable(OneStored(msg), Deliver(1, 0, true));
    SecondFragmentStored(msg);
    StepReachable(BothStored(msg), Deliver(2, 0, true));
    CiphertextStored(msg);
  }

  // ---------------------------------------------------------------- from silence to takeover

  function Ask(i: nat): NodeCommand {
    RequestCapsuleFragment(0, 2 + i, UmbralSignature(1, 0), ReplySender(0, i, None))
  }

  function Question(i: nat): Packet {
    Packet(1, 2 + i, Request(GetFragment(0, UmbralSignature(1, 0))))
  }

  function Ticked(msg: ReverieMessage): EventState {
    Tick(Holder(msg).events, [0], 1, 0).state
  }

  /** The next vessel, having dispatched the respawn and taken it up. */
  function Asking(
    ticked: EventState, msg: ReverieMessage, pending: map<nat, ReplySender>, commands: seq<NodeCommand>,
    replies: seq<Option<FragmentReply>>): Node
  {
    Node(ticked.(networkEvents := [], requestFragments := pending), commands,
         Some(Job(VesselInfoOf(msg), msg, replies)), [], false)
  }

  ghost function Silenced(msg: ReverieMessage): Network {
    Network(Nodes(Sent(msg), Holder(msg).(events := Ticked(msg)), Provider(msg, 0), Provider(msg, 1)),
            Announcements(), 5, Only(msg, Requested), [(1, 0)])
  }

  /** The respawn under way: what waits, what is to be asked, what was answered, and what is in
      flight besides the announcements. */
  ghost function Respawning(
    ticked: EventState, msg: ReverieMessage, pending: map<nat, ReplySender>, commands: seq<NodeCommand>,
    replies: seq<Option<FragmentReply>>,
    flying: map<nat, Packet>, next: nat): Network
  {
    Network(Nodes(Sent(msg), Asking(ticked, msg, pending, commands, replies), Provider(msg, 0), Provider(msg, 1)),
            Announcements() + flying, next, Only(msg, Working), [(1, 0)])
  }

  lemma TickDispatches(msg: ReverieMessage)
    requires IsFirst(msg)
    ensures Holder(msg).events.peers.peerInfo.Keys == {0}
    ensures
      var TickOutcome(state, ok) := Tick(Holder(msg).events, [0], 1, 0);
      ok && state.networkEvents == [VesselInfoOf(msg)] && state.peers.reverie == map[0 := msg]
      && state.requestFragments == map[]
  {
    var st := Holder(msg).events;
    assert st.peers.peerInfo == map[0 := PeerInfo(0, 0, Some(VesselInfoOf(msg)))];
    var visited := TickVisit(st, st.peers.peerInfo, 0, 1, 0);
    assert [0][1..] == [];
    assert TickLoop(visited.state, st.peers.peerInfo, [], 1, 0) == visited;
  }

  lemma Ticks(msg: ReverieMessage)
    requires IsFirst(msg)
    ensures Next(Stored(msg), TickAt(1, [0], 1, 0)) == Silenced(msg)
  {
    TickDispatches(msg);
    assert Holder(msg).events.networkEvents == [];
    TickRecorded(msg);
    TicksOnce(Stored(msg), 1, [0], 1, 0, Ticked(msg), [VesselInfoOf(msg)]);
  }

  lemma TickRecorded(msg: ReverieMessage)
    requires IsFirst(msg)
    ensures MarkRequested(Only(msg, Held), [VesselInfoOf(msg)]) == Only(msg, Requested)
    ensures LogOf(1, [VesselInfoOf(msg)]) == [(1, 0)]
  {
    assert [VesselInfoOf(msg)][0] in [VesselInfoOf(msg)];
  }

  lemma Starts(msg: ReverieMessage)
    requires IsFirst(msg)
    ensures Next(Silenced(msg), StartRespawn(1))
         == Respawning(Ticked(msg), msg, map[], [Ask(0), Ask(1)], [None, None], map[], 5)
  {
    TickDispatches(msg);
    var waiting: seq<Option<FragmentReply>> := [None, None];
    assert NoReplies(msg) == waiting;
    assert FragmentCommands(msg, UmbralSignature(1, 0), None) == [Ask(0), Ask(1)];
    assert [VesselInfoOf(msg)][1..] == [];
    assert SetStage(Only(msg, Requested), 0, Working) == Only(msg, Working);
    StartsOnce(Silenced(msg), 1);
    var taken := StartStep(Silenced(msg), 1);
    assert taken.nodes[1] == Asking(Ticked(msg), msg, map[], [Ask(0), Ask(1)], [None, None]);
    assert Announcements() + map[] == Announcements();
    assert taken.nodes == Respawning(Ticked(msg), msg, map[], [Ask(0), Ask(1)], [None, None], map[], 5).nodes;
  }

  // ---------------------------------------------------------------- asking and answering

  /** The client's i-th question is put on the wire. */
  lemma Asks(
    ticked: EventState, msg: ReverieMessage, i: nat, pending: map<nat, ReplySender>, rest: seq<NodeCommand>,
    replies: seq<Option<FragmentReply>>, flying: map<nat, Packet>, next: nat)
    requires next >= 5
    ensures Next(Respawning(ticked, msg, pending, [Ask(i)] + rest, replies, flying, next), Execute(1, []))
         == Respawning(ticked, msg, pending[next := ReplySender(0, i, None)], rest, replies,
                       flying[next := Question(i)], next + 1)
  {
    var net := Respawning(ticked, msg, pending, [Ask(i)] + rest, replies, flying, next);
    var node := Asking(ticked, msg, pending, [Ask(i)] + rest, replies);
    assert node.commands[0] == Ask(i) && node.commands[1..] == rest;
    assert CommandStep(node.events, Ask(i), next, [])
        == (node.events.(requestFragments := pending[next := ReplySender(0, i, None)]),
            [(2 + i, Question(i).body.request)]);
    Executes(net, 1, 2 + i, Question(i).body.request);
    AsksResult(ticked, msg, i, pending, rest, replies, flying, next);
  }

  lemma AsksResult(
    ticked: EventState, msg: ReverieMessage, i: nat, pending: map<nat, ReplySender>, rest: seq<NodeCommand>,
    replies: seq<Option<FragmentReply>>, flying: map<nat, Packet>, next: nat)
    requires next >= 5
    ensures
      var net := Respawning(ticked, msg, pending, [Ask(i)] + rest, replies, flying, next);
      var net' := Respawning(ticked, msg, pending[next := ReplySender(0, i, None)], rest, replies,
                             flying[next := Question(i)], next + 1);
      && net.nodes[1 := Asking(ticked, msg, pending[next := ReplySender(0, i, None)], rest, replies)] == net'.nodes
      && net.wire[next := Question(i)] == net'.wire
  {
  }

  lemma ProviderAnswers(agent: ReverieName, body: string, i: nat)
    requires i < 2
    ensures
      var msg := First(agent, body);
      RequestStep(Provider(msg, i).events, GetFragment(0, UmbralSignature(1, 0)), 1)
      == (Provider(msg, i).events, Outcome(true, [], Some(Answered(msg, i))))
  {
    var msg := First(agent, body);
    assert Provider(msg, i).events.peers.cfrags == map[0 := CapsulefragOf(msg, i, 2 + i)];
  }

  lemma Replies(ticked: EventState, agent: ReverieName, body: string, i: nat, id: nat, pending: map<nat, ReplySender>,
                replies: seq<Option<FragmentReply>>,
                flying: map<nat, Packet>, next: nat)
    requires i < 2 && id >= 5 && id in flying && flying[id] == Question(i)
    ensures
      var msg := First(agent, body);
      Next(Respawning(ticked, msg, pending, [], replies, flying, next), Deliver(id, 1, true))
      == Respawning(ticked, msg, pending, [], replies, flying[id := Packet(2 + i, 1, Reply(Answered(msg, i)))], next)
  {
    var msg := First(agent, body);
    var net := Respawning(ticked, msg, pending, [], replies, flying, next);
    var reply := Packet(2 + i, 1, Reply(Answered(msg, i)));
    ProviderAnswers(agent, body, i);
    Delivers(net, id, 1, Provider(msg, i).events, Outcome(true, [], Some(Answered(msg, i))));
    assert net.wire[id := reply] + map[] == Announcements() + flying[id := reply];
    assert net.nodes[2 + i := Provider(msg, i)] == net.nodes;
  }

  /** A reply, or the news of a failure, reaches the waiting job. */
  lemma Collects(
    ticked: EventState, msg: ReverieMessage, i: nat, id: nat, pending: map<nat, ReplySender>,
    replies: seq<Option<FragmentReply>>, flying: map<nat, Packet>, next: nat, reply: FragmentReply, mustWait: bool)
    requires IsFirst(msg) && i < |replies| && id >= 5 && id in flying
    requires id in pending && pending[id] == ReplySender(0, i, None)
    ensures TakeReply(Without(Respawning(ticked, msg, pending, [], replies, flying, next), id), 1, id, reply, mustWait)
         == Respawning(ticked, msg, pending - {id}, [], replies[i := Some(reply)], flying - {id}, next)
  {
    var net := Respawning(ticked, msg, pending, [], replies, flying, next);
    var collected := Asking(ticked, msg, pending - {id}, [], replies[i := Some(reply)]);
    assert net.wire - {id} == Announcements() + (flying - {id});
    assert net.nodes[1 := collected] == Nodes(Sent(msg), collected, Provider(msg, 0), Provider(msg, 1));
  }

  /** A provider that was asked answers, and its answer is collected. */
  lemma AnswerReachable(
    ticked: EventState, agent: ReverieName, body: string, i: nat, id: nat, pending: map<nat, ReplySender>,
    replies: seq<Option<FragmentReply>>, flying: map<nat, Packet>, next: nat)
    requires i < 2 && i < |replies| && id >= 5 && id in flying && flying[id] == Question(i)
    requires id in pending && pending[id] == ReplySender(0, i, None)
    requires Reachable(Respawning(ticked, First(agent, body), pending, [], replies, flying, next))
    ensures
      var msg := First(agent, body);
      Reachable(Respawning(ticked, msg, pending - {id}, [], replies[i := Some(Answered(msg, i))], flying - {id}, next))
  {
    var msg := First(agent, body);
    var replied := flying[id := Packet(2 + i, 1, Reply(Answered(msg, i)))];
    var asked, answered := Respawning(ticked, msg, pending, [], replies, flying, next),
                           Respawning(ticked, msg, pending, [], replies, replied, next);
    Replies(ticked, agent, body, i, id, pending, replies, flying, next);
    StepReachable(asked, Deliver(id, 1, true));
    DeliversReply(answered, id, 1);
    StepReachable(answered, Deliver(id, 1, true));
    Collects(ticked, msg, i, id, pending, replies, replied, next, Answered(msg, i), true);
    assert replied - {id} == flying - {id};
  }

  function SecondPending(): map<nat, ReplySender> {
    map[6 := ReplySender(0, 1, None)]
  }

  /** The first provider has answered, the second has been asked. */
  ghost function HalfAnswered(msg: ReverieMessage): Network {
    Respawning(Ticked(msg), msg, SecondPending(), [], [Some(Answered(msg, 0)), None], map[6 := Question(1)], 7)
  }

  lemma BothAskedReachable(agent: ReverieName, body: string)
    ensures Reachable(Respawning(Ticked(First(agent, body)), First(agent, body),
                                 map[5 := ReplySender(0, 0, None), 6 := ReplySender(0, 1, None)], [],
                                 [None, None], map[5 := Question(0), 6 := Question(1)], 7))
  {
    var msg := First(agent, body);
    var waiting: seq<Option<FragmentReply>> := [None, None];
    StoredReachable(agent, body);
    StepReachable(Stored(msg), TickAt(1, [0], 1, 0));
    Ticks(msg);
    StepReachable(Silenced(msg), StartRespawn(1));
    Starts(msg);
    assert [Ask(0), Ask(1)] == [Ask(0)] + [Ask(1)];
    StepReachable(Respawning(Ticked(msg), msg, map[], [Ask(0)] + [Ask(1)], waiting, map[], 5), Execute(1, []));
    Asks(Ticked(msg), msg, 0, map[], [Ask(1)], waiting, map[], 5);
    assert [Ask(1)] == [Ask(1)] + [];
    StepReachable(Respawning(Ticked(msg), msg, map[5 := ReplySender(0, 0, None)], [Ask(1)] + [], waiting,
                             map[5 := Question(0)], 6), Execute(1, []));
    Asks(Ticked(msg), msg, 1, map[5 := ReplySender(0, 0, None)], [], waiting, map[5 := Question(0)], 6);
  }

  lemma SecondLeft(msg: ReverieMessage)
    ensures map[5 := ReplySender(0, 0, None), 6 := ReplySender(0, 1, None)] - {5} == SecondPending()
    ensures map[5 := Question(0), 6 := Question(1)] - {5} == map[6 := Question(1)]
    ensures
      var waiting: seq<Option<FragmentReply>> := [None, None];
      waiting[0 := Some(Answered(msg, 0))] == [Some(Answered(msg, 0)), None]
  {
  }

  lemma HalfAnsweredReachable(agent: ReverieName, body: string)
    ensures Reachable(HalfAnswered(First(agent, body)))
  {
    var msg := First(agent, body);
    var pending := map[5 := ReplySender(0, 0, None), 6 := ReplySender(0, 1, None)];
    var asked := map[5 := Question(0), 6 := Question(1)];
    var waiting: seq<Option<FragmentReply>> := [None, None];
    BothAskedReachable(agent, body);
    SecondLeft(msg);
    AnswerReachable(Ticked(msg), agent, body, 0, 5, pending, waiting, asked, 7);
  }

  ghost function AllCollected(msg: ReverieMessage, last: FragmentReply): Network {
    Respawning(Ticked(msg), msg, map[], [], [Some(Answered(msg, 0)), Some(last)], map[], 7)
  }

  lemma NoneLeft()
    ensures SecondPending() - {6} == map[] && map[6 := Question(1)] - {6} == map[]
  {
  }

  lemma ReadyReachable(agent: ReverieName, body: string)
    ensures Reachable(AllCollected(First(agent, body), Answered(First(agent, body), 1)))
  {
    var msg := First(agent, body);
    var half: seq<Option<FragmentReply>> := [Some(Answered(msg, 0)), None];
    HalfAnsweredReachable(agent, body);
    AnswerReachable(Ticked(msg), agent, body, 1, 6, SecondPending(), half, map[6 := Question(1)], 7);
    NoneLeft();
    assert half[1 := Some(Answered(msg, 1))] == [Some(Answered(msg, 0)), Some(Answered(msg, 1))];
  }

  lemma SpoiledReachable(agent: ReverieName, body: string)
    ensures Reachable(AllCollected(First(agent, body), Err(SendError)))
  {
    var msg := First(agent, body);
    var half: seq<Option<FragmentReply>> := [Some(Answered(msg, 0)), None];
    HalfAnsweredReachable(agent, body);
    StepReachable(HalfAnswered(msg), Fail(6, true));
    FailsRequest(HalfAnswered(msg), 6);
    Collects(Ticked(msg), msg, 1, 6, SecondPending(), half, map[6 := Question(1)], 7, Err(SendError), false);
    NoneLeft();
    assert half[1 := Some(Err(SendError))] == [Some(Answered(msg, 0)), Some(Err(SendError))];
  }

  // ---------------------------------------------------------------- what does happen

  /** Every agent can be lost with its vessel and re-created from its fragments on the next one,
      with its secrets and a nonce one higher. */
  lemma RespawnHappens(agent: ReverieName, body: string)
    ensures exists net ::
              && Reachable(net) && |net.history| == 2 && net.dispatched == [(1, 0)]
              && net.history[0].msg == First(agent, body)
              && net.history[1].parent == Some(0)
              && net.history[1].msg.reverie.umbralCiphertext.plaintext == AgentSecrets(agent.IncrementNonce(), body)
  {
    var msg := First(agent, body);
    ReadyReachable(agent, body);
    CollectedFacts(msg, Answered(msg, 1));
    NextVesselsSuffice();
    RespawnFinishes(AllCollected(msg, Answered(msg, 1)), agent, body, NextVessels());
  }

  function NextVessels(): seq<NodeKeys> {
    [Empty(3), Empty(4), Empty(5)]
  }

  lemma NextVesselsSuffice()
    ensures GenuineVessels(1, NextVessels()) && |EmptyVessels(NextVessels())| == 3
  {
    AllEmpty(3, 4, 5);
    assert PeerIds(NextVessels()) == [3, 4, 5];
  }

  lemma CollectedFacts(msg: ReverieMessage, last: FragmentReply)
    ensures
      var net := AllCollected(msg, last);
      && net.Runs(1) && net.nodes[1].job.Some? && net.history == Only(msg, Working) && net.dispatched == [(1, 0)]
      && net.nodes[1].job.value == Job(VesselInfoOf(msg), msg, [Some(Answered(msg, 0)), Some(last)])
  {
  }

  lemma RespawnFinishes(net: Network, agent: ReverieName, body: string, vessels: seq<NodeKeys>)
    requires Reachable(net) && net.Runs(1) && net.nodes[1].job.Some? && AllAnswered(net.nodes[1].job.value)
    requires GenuineVessels(1, vessels) && CanRespawn(net.nodes[1].job.value, vessels)
    requires net.history == Only(First(agent, body), Working) && net.dispatched == [(1, 0)]
    requires net.nodes[1].job.value.info.reverieId == 0
    ensures
      var net' := Next(net, FinishRespawn(1, vessels));
      && Reachable(net') && |net'.history| == 2 && net'.dispatched == [(1, 0)]
      && net'.history[0].msg == First(agent, body)
      && net'.history[1].parent == Some(0)
      && net'.history[1].msg.reverie.umbralCiphertext.plaintext == AgentSecrets(agent.IncrementNonce(), body)
  {
    RespawnSucceedsIff(net, 1, vessels);
    StepReachable(net, FinishRespawn(1, vessels));
    FinishKeepsPast(net, 1, vessels);
  }

  lemma FinishKeepsPast(net: Network, p: PeerId, vessels: seq<NodeKeys>)
    ensures
      var net' := Next(net, FinishRespawn(p, vessels));
      net'.dispatched == net.dispatched && |net.history| <= |net'.history|
      && forall r: nat :: r < |net.history| ==> net'.history[r].msg == net.history[r].msg
  {
  }

  function CountGood(replies: seq<Option<FragmentReply>>): nat {
    if replies == [] then 0
    else (if replies[0].Some? && replies[0].value.Ok? then 1 else 0) + CountGood(replies[1..])
  }

  /** As many good fragments as the threshold asks for are not enough: one provider that fails
      loses the agent. */
  lemma OneFailureSpoilsRespawn(agent: ReverieName, body: string)
    ensures exists net, p: PeerId ::
              && Reachable(net) && p in net.nodes && net.nodes[p].job.Some? && AllAnswered(net.nodes[p].job.value)
              && var job := net.nodes[p].job.value;
              && job.msg == First(agent, body) && net.history == [Entry(job.msg, None, Working)]
              && CountGood(job.replies) >= job.msg.reverie.threshold
              && Reconstruct(p, job.msg, RawReplies(job)) == Err(CannotParse(Transport))
  {
    var msg := First(agent, body);
    var net := AllCollected(msg, Err(SendError));
    SpoiledReachable(agent, body);
    CollectedFacts(msg, Err(SendError));
    var job := net.nodes[1].job.value;
    assert job.replies == [Some(Answered(msg, 0)), Some(Err(SendError))];
    assert CountGood(job.replies) == 1 + CountGood(job.replies[1..]);
    assert !job.replies[1].value.Ok?;
    ReconstructsOriginal(net, 1);
  }

  // ---------------------------------------------------------------- a retrieval that ends a provider

  function Denied(i: nat): NodeCommand {
    RequestCapsuleFragment(0, 2 + i, ExternalKey(false), ReplySender(0, i, Some(0)))
  }

  /** The holder asks with a key that does not open the fragments. */
  function Retrieving(msg: ReverieMessage, commands: seq<NodeCommand>, pending: map<nat, ReplySender>): Node {
    var node := Holder(msg);
    node.(commands := commands, retrievals := [Retrieval(msg, [None, None])],
    events := node.events.(requestFragments := pending))
  }

  ghost function RetrievalQueued(msg: ReverieMessage): Network {
    Stored(msg).With(1, Retrieving(msg, [Denied(0), Denied(1)], map[]))
  }

  ghost function RetrievalAsked(msg: ReverieMessage): Network {
    Stored(msg).With(1, Retrieving(msg, [Denied(1)], map[5 := ReplySender(0, 0, Some(0))]))
    .(wire := Announcements()[5 := Packet(1, 2, Request(GetFragment(0, ExternalKey(false))))], nextRequest := 6)
  }

  lemma RetrievalStarts(msg: ReverieMessage)
    requires IsFirst(msg)
    ensures Next(Stored(msg), Retrieve(1, 0, ExternalKey(false))) == RetrievalQueued(msg)
  {
    var waiting: seq<Option<FragmentReply>> := [None, None];
    assert NoReplies(msg) == waiting;
    assert FragmentCommands(msg, ExternalKey(false), Some(0)) == [Denied(0), Denied(1)];
    assert Lookup(Stored(msg), 1, 0) == Some(msg);
    var net := RetrieveStep(Stored(msg), 1, msg, ExternalKey(false));
    assert net.nodes[1] == Retrieving(msg, [Denied(0), Denied(1)], map[]);
    assert Next(Stored(msg), Retrieve(1, 0, ExternalKey(false))) == net;
  }

  lemma RetrievalAskedReachable(agent: ReverieName, body: string)
    ensures Reachable(RetrievalAsked(First(agent, body)))
  {
    var msg := First(agent, body);
    StoredReachable(agent, body);
    StepReachable(Stored(msg), Retrieve(1, 0, ExternalKey(false)));
    RetrievalStarts(msg);
    StepReachable(RetrievalQueued(msg), Execute(1, []));
    RetrievalExecuted(msg);
  }

  lemma RetrievalExecuted(msg: ReverieMessage)
    ensures Next(RetrievalQueued(msg), Execute(1, [])) == RetrievalAsked(msg)
  {
    assert [Denied(0), Denied(1)][1..] == [Denied(1)];
    Executes(RetrievalQueued(msg), 1, 2, GetFragment(0, ExternalKey(false)));
    assert Next(RetrievalQueued(msg), Execute(1, [])).nodes == RetrievalAsked(msg).nodes;
  }

  /** A provider that holds the fragment asked for is ended by a request whose key does not open it. */
  lemma RetrievalEndsProvider(agent: ReverieName, body: string)
    ensures exists net, id: nat ::
              && Reachable(net) && id in net.wire && net.Runs(net.wire[id].dst)
              && net.wire[id].body.Request? && net.wire[id].body.request.GetFragment?
              && net.wire[id].body.request.reverieId in net.nodes[net.wire[id].dst].events.peers.cfrags
              && !Next(net, Deliver(id, 0, true)).Runs(net.wire[id].dst)
  {
    var net := RetrievalAsked(First(agent, body));
    RetrievalAskedReachable(agent, body);
    EndsReceiverIff(net, 5, 0, true);
    assert net.wire[5].dst == 2 && 0 in net.nodes[2].events.peers.cfrags;
  }

  // ---------------------------------------------------------------- a vessel that is not noticed

  /** The next vessel once its connection to the vessel has been set up again. */
  function Reconnected(msg: ReverieMessage): Node {
    Holder(msg).(events := Holder(msg).events.(peers := Holder(msg).events.peers.InsertPeerInfo(0, 0)))
  }

  function Forgetful(msg: ReverieMessage): Node {
    Reconnected(msg).(events := Tick(Reconnected(msg).events, [0], 1, 0).state)
  }

  lemma TickForgets(msg: ReverieMessage)
    requires IsFirst(msg)
    ensures Reconnected(msg).events.peers.peerInfo.Keys == {0} && Reconnected(msg).events.networkEvents == []
    ensures
      var TickOutcome(state, ok) := Tick(Reconnected(msg).events, [0], 1, 0);
      ok && state.networkEvents == [] && state.peers.peerInfo == map[]
  {
    var st := Reconnected(msg).events;
    assert st.peers.peerInfo == map[0 := PeerInfo(0, 0, None)];
    var visited := TickVisit(st, st.peers.peerInfo, 0, 1, 0);
    assert [0][1..] == [];
    assert TickLoop(visited.state, st.peers.peerInfo, [], 1, 0) == visited;
    assert st.peers.peerInfo - {0} == map[];
  }

  lemma NothingRequested(history: seq<Entry>)
    ensures MarkRequested(history, []) == history
  {
  }

  lemma Forgets(msg: ReverieMessage)
    requires IsFirst(msg)
    ensures Next(Stored(msg).With(1, Reconnected(msg)), TickAt(1, [0], 1, 0)) == Stored(msg).With(1, Forgetful(msg))
  {
    TickForgets(msg);
    NothingRequested(Only(msg, Held));
    assert LogOf(1, []) == [];
    TicksOnce(Stored(msg).With(1, Reconnected(msg)), 1, [0], 1, 0, Forgetful(msg).events, []);
  }

  /** The same tick takes over a silent vessel, or forgets it with nothing dispatched, if the
      connection to it was set up once more in between. */
  lemma ReconnectHidesVessel(agent: ReverieName, body: string)
    ensures
      var tick, reconnect := TickAt(1, [0], 1, 0), Connect(1, 0, 0);
      exists net ::
        && Reachable(net) && net.history == Only(First(agent, body), Held)
        && Next(net, tick).dispatched == [(1, 0)]
        && Reachable(Next(Next(net, reconnect), tick))
        && Next(Next(net, reconnect), tick).dispatched == []
        && 0 !in Next(Next(net, reconnect), tick).nodes[1].events.peers.peerInfo
  {
    var msg, tick, reconnect := First(agent, body), TickAt(1, [0], 1, 0), Connect(1, 0, 0);
    var net := Stored(msg);
    StoredReachable(agent, body);
    Ticks(msg);
    StepReachable(net, reconnect);
    Reconnects(msg);
    StepReachable(Next(net, reconnect), tick);
    Forgets(msg);
    TickForgets(msg);
  }

  lemma Reconnects(msg: ReverieMessage)
    ensures Next(Stored(msg), Connect(1, 0, 0)) == Stored(msg).With(1, Reconnected(msg))
  {
  }
}
