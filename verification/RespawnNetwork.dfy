/** The respawn protocol over a whole network: every node's event loop and client, their command
    and event channels, and the requests and replies in flight. */
module RespawnNetwork {
  import opened Types
  import opened Umbral
  import opened Messages
  import opened PeerManagement
  import opened NodeClients
  import opened NetworkEventLoop

  /** How far a reverie has come towards its next incarnation. */
  datatype Stage = Queued | OnWire | Held | Requested | Working | Finished

  /** The history of one reverie: what was broadcast, and which reverie it re-creates. */
  datatype Entry = Entry(msg: ReverieMessage, parent: Option<ReverieId>, stage: Stage)

  /** A client rebuilding an agent: the replies of the providers, as they come in. */
  datatype Job = Job(info: AgentVesselInfo, msg: ReverieMessage, replies: seq<Option<FragmentReply>>)

  /** A client retrieving a reverie with a key of its own choice. */
  datatype Retrieval = Retrieval(msg: ReverieMessage, replies: seq<Option<FragmentReply>>)

  datatype Node = Node(
    events: EventState, commands: seq<NodeCommand>, job: Option<Job>, retrievals: seq<Retrieval>, halted: bool)

  datatype Body = Request(request: FragmentRequest) | Reply(reply: FragmentReply)

  /** A request is `reported` once its sender has been told that it failed. It may arrive all the
      same, and then its response goes nowhere. */
  datatype Packet = Packet(src: PeerId, dst: PeerId, body: Body, reported: bool := false)

  /** `wire` maps the id of a request to what is in flight for it: the request, then its reply.
      `history` lists every reverie ever broadcast; a reverie's id is its place there.
      `dispatched` lists the respawn requests dispatched, and by whom. */
  datatype Network = Network(
    nodes: map<PeerId, Node>,
    wire: map<nat, Packet>,
    nextRequest: nat,
    history: seq<Entry>,
    dispatched: seq<(PeerId, ReverieId)>)
  {
    predicate Runs(p: PeerId) {
      p in nodes && !nodes[p].halted
    }

    function With(p: PeerId, node: Node): Network {
      this.(nodes := nodes[p := node])
    }

    function WithPeers(p: PeerId, peers: Peers): Network
      requires p in nodes
    {
      With(p, nodes[p].(events := nodes[p].events.(peers := peers)))
    }

    function Halt(p: PeerId): Network
      requires p in nodes
    {
      With(p, nodes[p].(halted := true))
    }
  }

  datatype Action =
    | Spawn(peer: PeerId, reverieType: ReverieType, secrets: Secrets, threshold: nat, totalFrags: nat,
            access: Option<AccessCondition>, vessels: seq<NodeKeys>)
    | Execute(peer: PeerId, notified: seq<PeerId>)
    | Deliver(id: nat, at: Instant, served: bool)
    | Fail(id: nat, lost: bool)
    | TickAt(peer: PeerId, order: seq<PeerId>, at: Instant, maxTime: int)
    | Retrieve(peer: PeerId, reverieId: ReverieId, key: AccessKey)
    | StartRespawn(peer: PeerId)
    | FinishRespawn(peer: PeerId, vessels: seq<NodeKeys>)
    | Connect(peer: PeerId, other: PeerId, at: Instant)
    | Heartbeat(peer: PeerId, other: PeerId, at: Instant)
    | Stop(peer: PeerId)

  function Start(peers: set<PeerId>): Network {
    Network(map p | p in peers :: Node(NoEvents(p), [], None, [], false), map[], 0, [], [])
  }

  /** Requests sent in one step, under the next free ids. */
  function Posted(src: PeerId, sent: seq<(PeerId, FragmentRequest)>, from: nat): (posted: map<nat, Packet>)
    ensures forall i: nat :: i in posted <==> from <= i < from + |sent|
    ensures forall i: nat :: i in posted ==> posted[i] == Packet(src, sent[i - from].0, Request(sent[i - from].1))
  {
    if sent == [] then map[]
    else Posted(src, sent[1..], from + 1)[from := Packet(src, sent[0].0, Request(sent[0].1))]
  }

  function SetStage(history: seq<Entry>, r: ReverieId, stage: Stage): (history': seq<Entry>)
    ensures |history'| == |history|
  {
    if r < |history| then history[r := history[r].(stage := stage)] else history
  }

  ghost function MarkRequested(history: seq<Entry>, added: seq<AgentVesselInfo>): (history': seq<Entry>)
    ensures |history'| == |history|
  {
    seq(|history|, (r: nat) requires r < |history| =>
      if exists v :: v in added && v.reverieId == r then history[r].(stage := Requested) else history[r])
  }

  /** Spawning requires what the program leaves to its caller and its libraries: a positive
      threshold, and secrets that are those of the agent named. */
  ghost predicate SpawnAllowed(a: Action)
    requires a.Spawn?
  {
    && 1 <= a.threshold
    && GenuineVessels(a.peer, a.vessels)
    && (a.reverieType.SovereignAgent? ==>
          a.secrets.AgentSecrets? && a.secrets.agent == a.reverieType.agent && a.access.None?)
  }

  ghost function SpawnStep(net: Network, a: Action): Network
    requires a.Spawn? && net.Runs(a.peer)
  {
    var node := net.nodes[a.peer];
    match ComposeSpawn(a.peer, a.reverieType, a.secrets, a.threshold, a.totalFrags, a.access, a.vessels, |net.history|)
    case Err(_) => net
    case Ok(msg) =>
      net.With(a.peer, node.(commands := node.commands + BroadcastCommands(a.peer, msg)))
      .(history := net.history + [Entry(msg, None, Queued)])
  }

  /** Executing the command that sends a ciphertext puts it on the wire. */
  function AfterCommand(history: seq<Entry>, command: NodeCommand): seq<Entry> {
    if command.SendReverieToSpecificPeer? then SetStage(history, command.reverieMsg.reverie.id, OnWire) else history
  }

  ghost function ExecuteStep(net: Network, p: PeerId, notified: seq<PeerId>): Network
    requires net.Runs(p) && net.nodes[p].commands != []
  {
    var node := net.nodes[p];
    var command := node.commands[0];
    var (events, sent) := CommandStep(node.events, command, net.nextRequest, notified);
    net.With(p, node.(events := events, commands := node.commands[1..]))
    .(wire := net.wire + Posted(p, sent, net.nextRequest),
    nextRequest := net.nextRequest + |sent|,
    history := AfterCommand(net.history, command))
  }

  /** Delivering a ciphertext hands the reverie to its target. */
  function AfterRequest(history: seq<Entry>, request: FragmentRequest): seq<Entry> {
    if request.SaveCiphertext? then SetStage(history, request.reverieMsg.reverie.id, Held) else history
  }

  /** The network after a node has handled request `id`, with what it made of it. */
  ghost function Handled(net: Network, id: nat, events: EventState, outcome: Outcome, history: seq<Entry>): Network
    requires id in net.wire && net.wire[id].dst in net.nodes
  {
    var Packet(src, p, _, reported) := net.wire[id];
    var answered :=
      if outcome.reply.Some? && !reported then net.wire[id := Packet(p, src, Reply(outcome.reply.value))]
      else net.wire - {id};
    net.With(p, net.nodes[p].(events := events))
    .(wire := answered + Posted(p, outcome.sent, net.nextRequest), nextRequest := net.nextRequest + |outcome.sent|,
    history := history)
  }

  ghost function DeliverRequest(net: Network, id: nat, at: Instant, served: bool): Network
    requires id in net.wire && net.wire[id].body.Request? && net.Runs(net.wire[id].dst)
  {
    var p, request := net.wire[id].dst, net.wire[id].body.request;
    var (events, outcome) := ServeRequest(net.nodes[p].events, request, at, served);
    var handled := Handled(net, id, events, outcome, AfterRequest(net.history, request));
    if outcome.ok then handled else handled.Halt(p)
  }

  /** Hands a reply to the respawn waiting for it, if it still is. */
  function Answer(job: Option<Job>, sender: ReplySender, reply: FragmentReply): Option<Job> {
    if sender.retrieval.None? && job.Some? && job.value.info.reverieId == sender.reverieId
       && sender.slot < |job.value.replies|
    then Some(job.value.(replies := job.value.replies[sender.slot := Some(reply)]))
    else job
  }

  /** Hands a reply to the retrieval waiting for it. */
  function AnswerRetrieval(
    retrievals: seq<Retrieval>, sender: ReplySender, reply: FragmentReply): (answered: seq<Retrieval>)
    ensures |answered| == |retrievals|
  {
    if sender.retrieval.None? || sender.retrieval.value >= |retrievals| then retrievals
    else
      var k := sender.retrieval.value;
      var asked := retrievals[k];
      if asked.msg.reverie.id == sender.reverieId && sender.slot < |asked.replies|
      then retrievals[k := asked.(replies := asked.replies[sender.slot := Some(reply)])]
      else retrievals
  }

  /** A reply without a waiting sender panics; a failure without one is only logged. */
  ghost function TakeReply(net: Network, p: PeerId, id: nat, reply: FragmentReply, mustWait: bool): Network
    requires net.Runs(p)
  {
    var node := net.nodes[p];
    var (events, sender) := ReplyStep(node.events, id);
    if sender.None? then (if mustWait then net.Halt(p) else net)
    else
      net.With(p, node.(events := events,
               job := Answer(node.job, sender.value, reply),
               retrievals := AnswerRetrieval(node.retrievals, sender.value, reply)))
  }

  function Requester(packet: Packet): PeerId {
    if packet.body.Request? then packet.src else packet.dst
  }

  function Without(net: Network, id: nat): Network {
    net.(wire := net.wire - {id})
  }

  /** What stays in flight after a failure: a request that is only late, but no reply. */
  function AfterFailure(net: Network, id: nat, lost: bool): Network
    requires id in net.wire
  {
    if lost || net.wire[id].body.Reply? then Without(net, id)
    else net.(wire := net.wire[id := net.wire[id].(reported := true)])
  }

  /** A failure is reported once. */
  ghost function FailStep(net: Network, id: nat, lost: bool): Network
    requires id in net.wire
  {
    var p, left := Requester(net.wire[id]), AfterFailure(net, id, lost);
    if net.Runs(p) && !net.wire[id].reported then TakeReply(left, p, id, Err(SendError), false) else left
  }

  ghost function TickStep(net: Network, p: PeerId, order: seq<PeerId>, at: Instant, maxTime: int): Network
    requires net.Runs(p) && Enumerates(order, net.nodes[p].events.peers.peerInfo.Keys)
  {
    var node := net.nodes[p];
    var TickOutcome(events, ok) := Tick(node.events, order, at, maxTime);
    if !ok then net.With(p, node.(events := events, halted := true))
    else
      var added := events.networkEvents[|node.events.networkEvents|..];
      net.With(p, node.(events := events))
      .(history := MarkRequested(net.history, added),
      dispatched := net.dispatched + LogOf(p, added))
  }

  function LogOf(p: PeerId, added: seq<AgentVesselInfo>): (log: seq<(PeerId, ReverieId)>)
    ensures |log| == |added|
  {
    seq(|added|, i requires 0 <= i < |added| => (p, added[i].reverieId))
  }

  function FragmentCommands(msg: ReverieMessage, key: AccessKey, retrieval: Option<nat>): (commands: seq<NodeCommand>)
    ensures |commands| == |msg.keyfragProviders|
  {
    seq(|msg.keyfragProviders|, (i: nat) requires i < |msg.keyfragProviders| =>
      RequestCapsuleFragment(msg.reverie.id, msg.keyfragProviders[i], key,
                             ReplySender(msg.reverie.id, i, retrieval)))
  }

  function NoReplies(msg: ReverieMessage): (waiting: seq<Option<FragmentReply>>)
    ensures |waiting| == |msg.keyfragProviders|
  {
    seq(|msg.keyfragProviders|, _ => None)
  }

  /** What a client finds when it looks a reverie up: its node's own, or one published on the
      network, as all are but those of sovereign agents. */
  function Lookup(net: Network, p: PeerId, r: ReverieId): Option<ReverieMessage>
    requires net.Runs(p)
  {
    var held := net.nodes[p].events.peers.reverie;
    if r in held then Some(held[r])
    else if r < |net.history| && !net.history[r].msg.reverie.reverieType.SovereignAgent? then Some(net.history[r].msg)
    else None
  }

  /** The client asks all providers for their fragments, with the key it was given. */
  ghost function RetrieveStep(net: Network, p: PeerId, msg: ReverieMessage, key: AccessKey): Network
    requires net.Runs(p)
  {
    var node := net.nodes[p];
    net.With(p, node.(commands := node.commands + FragmentCommands(msg, key, Some(|node.retrievals|)),
             retrievals := node.retrievals + [Retrieval(msg, NoReplies(msg))]))
  }

  /** The client takes the next respawn request and looks the reverie up. */
  ghost function StartStep(net: Network, p: PeerId): Network
    requires net.Runs(p) && net.nodes[p].job.None? && net.nodes[p].events.networkEvents != []
  {
    var node := net.nodes[p];
    var info := node.events.networkEvents[0];
    var taken := node.(events := node.events.(networkEvents := node.events.networkEvents[1..]));
    if !info.reverieType.SovereignAgent? || info.reverieId !in node.events.peers.reverie
    then net.With(p, taken).(history := SetStage(net.history, info.reverieId, Finished))
    else
      var msg := node.events.peers.reverie[info.reverieId];
      net.With(p, taken.(job := Some(Job(info, msg, NoReplies(msg))),
               commands := node.commands + FragmentCommands(msg, UmbralSignature(p, msg.reverie.id), None)))
      .(history := SetStage(net.history, info.reverieId, Working))
  }

  predicate AllIn(replies: seq<Option<FragmentReply>>) {
    forall i :: 0 <= i < |replies| ==> replies[i].Some?
  }

  function Raw(replies: seq<Option<FragmentReply>>): (raws: seq<FragmentReply>)
    requires AllIn(replies)
    ensures |raws| == |replies|
  {
    seq(|replies|, i requires 0 <= i < |replies| => replies[i].value)
  }

  predicate AllAnswered(job: Job) {
    AllIn(job.replies)
  }

  function RawReplies(job: Job): (raws: seq<FragmentReply>)
    requires AllAnswered(job)
    ensures |raws| == |job.replies|
  {
    Raw(job.replies)
  }

  ghost function FinishStep(net: Network, p: PeerId, vessels: seq<NodeKeys>): Network
    requires net.Runs(p) && net.nodes[p].job.Some? && AllAnswered(net.nodes[p].job.value)
    requires net.nodes[p].job.value.info.reverieType.SovereignAgent?
  {
    var node := net.nodes[p];
    var job := node.job.value;
    var history := SetStage(net.history, job.info.reverieId, Finished);
    match ComposeRespawn(p, job.info, job.msg, RawReplies(job), vessels, |net.history|)
    case Err(_) => net.With(p, node.(job := None)).(history := history)
    case Ok(msg) =>
      net.With(p, node.(job := None, commands := node.commands + RespawnCommands(p, job.info, msg)))
      .(history := history + [Entry(msg, Some(job.info.reverieId), Queued)])
  }

  /** One step of the network; an action that is not enabled changes nothing. */
  ghost function Next(net: Network, a: Action): Network {
    match a
    case Spawn(p, _, _, _, _, _, _) =>
      if net.Runs(p) && SpawnAllowed(a) then SpawnStep(net, a) else net
    case Execute(p, notified) =>
      if net.Runs(p) && net.nodes[p].commands != []
         && OrderFits(net.nodes[p].events, net.nodes[p].commands[0], notified)
      then ExecuteStep(net, p, notified) else net
    case Deliver(id, at, served) =>
      if id in net.wire && net.Runs(net.wire[id].dst)
      then
        if net.wire[id].body.Request? then DeliverRequest(net, id, at, served)
        else TakeReply(Without(net, id), net.wire[id].dst, id, net.wire[id].body.reply, true)
      else net
    case Fail(id, lost) =>
      if id in net.wire then FailStep(net, id, lost) else net
    case TickAt(p, order, at, maxTime) =>
      if net.Runs(p) && Enumerates(order, net.nodes[p].events.peers.peerInfo.Keys)
      then TickStep(net, p, order, at, maxTime) else net
    case Retrieve(p, r, key) =>
      if net.Runs(p) && Lookup(net, p, r).Some? then RetrieveStep(net, p, Lookup(net, p, r).value, key) else net
    case StartRespawn(p) =>
      if net.Runs(p) && net.nodes[p].job.None? && net.nodes[p].events.networkEvents != []
      then StartStep(net, p) else net
    case FinishRespawn(p, vessels) =>
      if net.Runs(p) && net.nodes[p].job.Some? && AllAnswered(net.nodes[p].job.value)
         && net.nodes[p].job.value.info.reverieType.SovereignAgent? && GenuineVessels(p, vessels)
      then FinishStep(net, p, vessels) else net
    case Connect(p, other, at) =>
      if net.Runs(p)
      then net.WithPeers(p, net.nodes[p].events.peers.InsertPeerInfo(other, at))
      else net
    case Heartbeat(p, other, at) =>
      if net.Runs(p)
      then net.WithPeers(p, net.nodes[p].events.peers.UpdateHeartbeat(other, at))
      else net
    case Stop(p) =>
      if p in net.nodes then net.Halt(p) else net
  }

  ghost function Run(net: Network, actions: seq<Action>): Network
    decreases |actions|
  {
    if actions == [] then net else Run(Next(net, actions[0]), actions[1..])
  }

  ghost predicate Reachable(net: Network) {
    exists peers, actions :: net == Run(Start(peers), actions)
  }
}
