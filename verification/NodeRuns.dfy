/** Whole runs of one node's event loop: how often it dispatches a respawn for a vessel, and how
    long a completed respawn stays completed. */
module NodeRuns {
  import opened Types
  import opened Messages
  import opened PeerManagement
  import opened NetworkEventLoop

  /** What the event loop is woken by. A routing update about a peer not yet connected does what a
      connection does. */
  datatype Input =
    | Requested(request: FragmentRequest, at: Instant)
    | Commanded(command: NodeCommand, requestId: nat, notified: seq<PeerId>)
    | Replied(requestId: nat)
    | Ticked(order: seq<PeerId>, at: Instant, maxTime: int)
    | Connected(peer: PeerId, at: Instant)
    | HeartbeatFrom(peer: PeerId, at: Instant)

  ghost function NodeStep(st: EventState, input: Input): EventState {
    match input
    case Requested(request, at) => RequestStep(st, request, at).0
    case Commanded(command, requestId, notified) => CommandStep(st, command, requestId, notified).0
    case Replied(requestId) => ReplyStep(st, requestId).0
    case Ticked(order, at, maxTime) =>
      if Enumerates(order, st.peers.peerInfo.Keys) then Tick(st, order, at, maxTime).state else st
    case Connected(peer, at) => st.(peers := st.peers.InsertPeerInfo(peer, at))
    case HeartbeatFrom(peer, at) => st.(peers := st.peers.UpdateHeartbeat(peer, at))
  }

  ghost function NodeRun(st: EventState, inputs: seq<Input>): EventState
    decreases |inputs|
  {
    if inputs == [] then st else NodeRun(NodeStep(st, inputs[0]), inputs[1..])
  }

  /** The vessel record that an input carries. */
  function Carried(input: Input): Option<AgentVesselInfo> {
    match input
    case Requested(SaveFragment(msg), _) => Some(VesselInfoOfKeyfrag(msg))
    case Requested(SaveCiphertext(msg), _) => Some(VesselInfoOf(msg))
    case Commanded(SaveReverieOnNetwork(msg), _, _) => Some(VesselInfoOf(msg))
    case Commanded(SendReverieToSpecificPeer(_, msg), _, _) => Some(VesselInfoOf(msg))
    case _ => None
  }

  predicate Registers(st: EventState, input: Input, p: PeerId) {
    && Carried(input).Some?
    && Carried(input).value.reverieType.IsAgent()
    && Carried(input).value.currentVessel == p
    && p in st.peers.peerInfo
  }

  ghost function Registrations(st: EventState, inputs: seq<Input>, p: PeerId): nat
    decreases |inputs|
  {
    if inputs == [] then 0
    else (if Registers(st, inputs[0], p) then 1 else 0) + Registrations(NodeStep(st, inputs[0]), inputs[1..], p)
  }

  function DispatchedFor(events: seq<AgentVesselInfo>, p: PeerId): nat {
    if events == [] then 0 else (if events[0].currentVessel == p then 1 else 0) + DispatchedFor(events[1..], p)
  }

  function Recorded(st: EventState, p: PeerId): nat {
    if VesselOf(st.peers.peerInfo, p).Some? then 1 else 0
  }

  lemma {:induction false} DispatchedForAppend(a: seq<AgentVesselInfo>, b: seq<AgentVesselInfo>, p: PeerId)
    ensures DispatchedFor(a + b, p) == DispatchedFor(a, p) + DispatchedFor(b, p)
  {
    if a == [] {
      assert a + b == b;
    } else {
      assert (a + b)[1..] == a[1..] + b;
      DispatchedForAppend(a[1..], b, p);
    }
  }

  lemma {:induction false} DispatchedForOnce(events: seq<AgentVesselInfo>, p: PeerId, only: AgentVesselInfo)
    requires Distinct(events)
    requires forall v :: v in events && v.currentVessel == p ==> v == only
    ensures DispatchedFor(events, p) <= 1
    ensures only !in events ==> DispatchedFor(events, p) == 0
  {
    if events != [] {
      assert forall v :: v in events[1..] ==> v in events;
      assert events[0] !in events[1..];
      DispatchedForOnce(events[1..], p, only);
    }
  }

  lemma RecordsStayPlaced(st: EventState, input: Input)
    requires st.peers.RecordsPlaced()
    ensures NodeStep(st, input).peers.RecordsPlaced()
  {
    if input.Ticked? && Enumerates(input.order, st.peers.peerInfo.Keys) {
      TickLoopEffect(st, st.peers.peerInfo, input.order, input.at, input.maxTime);
    }
  }

  /** Between ticks a vessel record only appears by being registered, and nothing is dispatched
      or newly marked as respawning. */
  ghost predicate OnlyRegisters(st: EventState, input: Input, p: PeerId, st': EventState) {
    && st'.networkEvents == st.networkEvents
    && st'.respawns <= st.respawns
    && (|| VesselOf(st'.peers.peerInfo, p) == None
        || VesselOf(st'.peers.peerInfo, p) == VesselOf(st.peers.peerInfo, p)
        || (Registers(st, input, p) && VesselOf(st'.peers.peerInfo, p) == Carried(input)))
  }

  lemma BetweenTicks(st: EventState, input: Input, p: PeerId)
    requires !input.Ticked?
    ensures OnlyRegisters(st, input, p, NodeStep(st, input))
  {
    match input
    case Requested(request, at) => BetweenTicksRequest(st, request, at, p);
    case Commanded(command, requestId, notified) => BetweenTicksCommand(st, command, requestId, notified, p);
    case _ =>
  }

  lemma BetweenTicksRequest(st: EventState, request: FragmentRequest, at: Instant, p: PeerId)
    ensures OnlyRegisters(st, Requested(request, at), p, RequestStep(st, request, at).0)
  {
  }

  lemma BetweenTicksCommand(st: EventState, command: NodeCommand, requestId: nat, notified: seq<PeerId>, p: PeerId)
    ensures OnlyRegisters(st, Commanded(command, requestId, notified), p,
                          CommandStep(st, command, requestId, notified).0)
  {
  }

  lemma TickDispatchNeedsRecord(st: EventState, order: seq<PeerId>, at: Instant, maxTime: int, p: PeerId)
    requires st.peers.RecordsPlaced() && Enumerates(order, st.peers.peerInfo.Keys)
    ensures
      var st' := Tick(st, order, at, maxTime).state;
      DispatchedFor(st'.networkEvents, p) + Recorded(st', p) <= DispatchedFor(st.networkEvents, p) + Recorded(st, p)
  {
    var info := st.peers.peerInfo;
    TickLoopEffect(st, info, order, at, maxTime);
    var st' := Tick(st, order, at, maxTime).state;
    var added := st'.networkEvents[|st.networkEvents|..];
    assert st'.networkEvents == st.networkEvents + added;
    DispatchedForAppend(st.networkEvents, added, p);
    TickKeepsOrDispatches(st, order, at, maxTime, p, added);
  }

  lemma TickKeepsOrDispatches(
    st: EventState, order: seq<PeerId>, at: Instant, maxTime: int, p: PeerId, added: seq<AgentVesselInfo>)
    requires st.peers.RecordsPlaced()
    requires Enumerates(order, st.peers.peerInfo.Keys)
    requires AddedBy(st.peers.self, st.peers.peerInfo, order, at, maxTime, added)
    ensures DispatchedFor(added, p) + (if Forgets(st.peers.self, st.peers.peerInfo, p, at, maxTime) then 0
                                       else Recorded(st, p))
         <= Recorded(st, p)
  {
    var info := st.peers.peerInfo;
    if VesselOf(info, p).Some? {
      DispatchedForOnce(added, p, VesselOf(info, p).value);
    } else {
      DispatchedForOnce(added, p, AgentVesselInfo(0, Memory, 0, 0, p, 0));
    }
  }

  lemma DispatchNeedsRecord(st: EventState, input: Input, p: PeerId)
    requires st.peers.RecordsPlaced()
    ensures
      var st' := NodeStep(st, input);
      DispatchedFor(st'.networkEvents, p) + Recorded(st', p)
      <= DispatchedFor(st.networkEvents, p) + Recorded(st, p) + (if Registers(st, input, p) then 1 else 0)
  {
    if input.Ticked? {
      if Enumerates(input.order, st.peers.peerInfo.Keys) {
        TickDispatchNeedsRecord(st, input.order, input.at, input.maxTime, p);
      }
    } else {
      BetweenTicks(st, input, p);
    }
  }

  lemma {:induction false} DispatchesBoundedFrom(st: EventState, inputs: seq<Input>, p: PeerId)
    requires st.peers.RecordsPlaced()
    ensures NodeRun(st, inputs).peers.RecordsPlaced()
    ensures DispatchedFor(NodeRun(st, inputs).networkEvents, p) + Recorded(NodeRun(st, inputs), p)
         <= DispatchedFor(st.networkEvents, p) + Recorded(st, p) + Registrations(st, inputs, p)
    decreases |inputs|
  {
    if inputs != [] {
      RecordsStayPlaced(st, inputs[0]);
      DispatchNeedsRecord(st, inputs[0], p);
      DispatchesBoundedFrom(NodeStep(st, inputs[0]), inputs[1..], p);
    }
  }

  /** A node dispatches at most one respawn per registration of a vessel's record. */
  lemma DispatchesBounded(self: PeerId, inputs: seq<Input>, p: PeerId)
    ensures DispatchedFor(NodeRun(NoEvents(self), inputs).networkEvents, p) <= Registrations(NoEvents(self), inputs, p)
  {
    DispatchesBoundedFrom(NoEvents(self), inputs, p);
  }

  // ---------------------------------------------------------------- completed respawns

  predicate RegistersAgent(input: Input, p: PeerId, agent: ReverieName) {
    && Carried(input).Some?
    && Carried(input).value.reverieType.IsAgent()
    && Carried(input).value.currentVessel == p
    && Carried(input).value.reverieType.agent == agent
  }

  ghost predicate Settled(st: EventState, p: PeerId, agent: ReverieName) {
    RespawnId(agent, p) !in st.respawns && !HostsAgent(st.peers.peerInfo, p, agent)
  }

  lemma TickStaysSettled(st: EventState, order: seq<PeerId>, at: Instant, maxTime: int, p: PeerId, agent: ReverieName)
    requires st.peers.RecordsPlaced() && Enumerates(order, st.peers.peerInfo.Keys)
    requires Settled(st, p, agent)
    ensures Settled(Tick(st, order, at, maxTime).state, p, agent)
  {
    var info := st.peers.peerInfo;
    TickLoopEffect(st, info, order, at, maxTime);
    var st' := Tick(st, order, at, maxTime).state;
    assert p in st'.peers.peerInfo ==> st'.peers.peerInfo[p] == info[p];
    assert RespawnsEffect(st, info, order, at, maxTime, st');
  }

  lemma StaysSettled(st: EventState, input: Input, p: PeerId, agent: ReverieName)
    requires st.peers.RecordsPlaced()
    requires Settled(st, p, agent) && !RegistersAgent(input, p, agent)
    ensures Settled(NodeStep(st, input), p, agent)
  {
    if input.Ticked? {
      if Enumerates(input.order, st.peers.peerInfo.Keys) {
        TickStaysSettled(st, input.order, input.at, input.maxTime, p, agent);
      }
    } else {
      BetweenTicks(st, input, p);
    }
  }

  lemma {:induction false} StaysSettledRun(st: EventState, inputs: seq<Input>, p: PeerId, agent: ReverieName)
    requires st.peers.RecordsPlaced() && Settled(st, p, agent)
    requires forall i :: 0 <= i < |inputs| ==> !RegistersAgent(inputs[i], p, agent)
    ensures Settled(NodeRun(st, inputs), p, agent)
    decreases |inputs|
  {
    if inputs != [] {
      RecordsStayPlaced(st, inputs[0]);
      StaysSettled(st, inputs[0], p, agent);
      StaysSettledRun(NodeStep(st, inputs[0]), inputs[1..], p, agent);
    }
  }

  /** Wherever a run completes a respawn, that respawn is not pending again before the same
      agent has been registered on the same vessel again. */
  lemma CompletedStaysCompleted(
    self: PeerId, before: seq<Input>, prevPeer: PeerId, prevAgent: ReverieName, after: seq<Input>)
    requires forall i :: 0 <= i < |after| ==> !RegistersAgent(after[i], prevPeer, prevAgent)
    ensures
      var completed := MarkComplete(NodeRun(NoEvents(self), before), prevPeer, prevAgent);
      RespawnId(prevAgent, prevPeer) !in NodeRun(completed, after).respawns
  {
    DispatchesBoundedFrom(NoEvents(self), before, prevPeer);
    StaysSettledRun(MarkComplete(NodeRun(NoEvents(self), before), prevPeer, prevAgent), after, prevPeer, prevAgent);
  }

  // ---------------------------------------------------------------- when a silent vessel is noticed

  /** What makes a node forget the record of p's vessel: a new entry for p, which a connection, a
      routing update or an announcement brings, or a completion that names p. */
  predicate Erases(input: Input, p: PeerId) {
    match input
    case Connected(peer, _) => peer == p
    case Requested(ProvidingFragment(_, _, provider), _) => provider == p
    case Requested(MarkRespawnComplete(_, prevPeer, _), _) => prevPeer == p
    case Commanded(MarkPendingRespawnComplete(_, prevPeer, _), _, _) => prevPeer == p
    case _ => false
  }

  lemma BetweenTicksRecord(st: EventState, input: Input, p: PeerId)
    requires !input.Ticked? && !Registers(st, input, p)
    ensures NodeStep(st, input).peers.self == st.peers.self
    ensures VesselOf(NodeStep(st, input).peers.peerInfo, p)
         == if Erases(input, p) then None else VesselOf(st.peers.peerInfo, p)
  {
    match input
    case Requested(request, at) => RequestRecord(st, request, at, p);
    case Commanded(command, requestId, notified) => CommandRecord(st, command, requestId, notified, p);
    case _ =>
  }

  lemma RequestRecord(st: EventState, request: FragmentRequest, at: Instant, p: PeerId)
    requires !Registers(st, Requested(request, at), p)
    ensures RequestStep(st, request, at).0.peers.self == st.peers.self
    ensures VesselOf(RequestStep(st, request, at).0.peers.peerInfo, p)
         == if Erases(Requested(request, at), p) then None else VesselOf(st.peers.peerInfo, p)
  {
  }

  lemma CommandRecord(st: EventState, command: NodeCommand, requestId: nat, notified: seq<PeerId>, p: PeerId)
    requires !Registers(st, Commanded(command, requestId, notified), p)
    ensures CommandStep(st, command, requestId, notified).0.peers.self == st.peers.self
    ensures VesselOf(CommandStep(st, command, requestId, notified).0.peers.peerInfo, p)
         == if Erases(Commanded(command, requestId, notified), p) then None else VesselOf(st.peers.peerInfo, p)
  {
  }

  /** What the node itself is to take over. */
  ghost predicate TakesOver(st: EventState, p: PeerId) {
    VesselOf(st.peers.peerInfo, p).Some? && VesselOf(st.peers.peerInfo, p).value.nextVessel == st.peers.self
  }

  /** A tick dispatches a respawn for p exactly if it finds p silent and has p to take over; the
      record outlives it otherwise. */
  lemma TickNotices(st: EventState, order: seq<PeerId>, at: Instant, maxTime: int, p: PeerId)
    requires st.peers.RecordsPlaced() && Enumerates(order, st.peers.peerInfo.Keys)
    ensures
      var st' := Tick(st, order, at, maxTime).state;
      var noticed := Silent(st.peers.peerInfo, p, at, maxTime) && TakesOver(st, p);
      && DispatchedFor(st'.networkEvents, p) == DispatchedFor(st.networkEvents, p) + (if noticed then 1 else 0)
      && st'.peers.self == st.peers.self
      && VesselOf(st'.peers.peerInfo, p) == if noticed then None else VesselOf(st.peers.peerInfo, p)
  {
    var info := st.peers.peerInfo;
    TickLoopEffect(st, info, order, at, maxTime);
    var st' := Tick(st, order, at, maxTime).state;
    var added := st'.networkEvents[|st.networkEvents|..];
    assert st'.networkEvents == st.networkEvents + added;
    DispatchedForAppend(st.networkEvents, added, p);
    TickKeepsOrDispatches(st, order, at, maxTime, p, added);
    DispatchedForExactly(st, order, at, maxTime, p, added);
  }

  lemma DispatchedForExactly(
    st: EventState, order: seq<PeerId>, at: Instant, maxTime: int, p: PeerId, added: seq<AgentVesselInfo>)
    requires st.peers.RecordsPlaced() && Enumerates(order, st.peers.peerInfo.Keys)
    requires AddedBy(st.peers.self, st.peers.peerInfo, order, at, maxTime, added)
    ensures DispatchedFor(added, p) == if Silent(st.peers.peerInfo, p, at, maxTime) && TakesOver(st, p) then 1 else 0
  {
    var info := st.peers.peerInfo;
    if Silent(info, p, at, maxTime) && TakesOver(st, p) {
      var v := info[p].agentVessel.value;
      assert Dispatches(st.peers.self, info, p, at, maxTime) && v.currentVessel == p;
      assert v in added;
      DispatchedForOnce(added, p, v);
      DispatchedForSome(added, p, v);
    } else {
      DispatchedForNone(added, p);
    }
  }

  lemma {:induction false} DispatchedForSome(events: seq<AgentVesselInfo>, p: PeerId, v: AgentVesselInfo)
    requires v in events && v.currentVessel == p
    ensures DispatchedFor(events, p) >= 1
  {
    if events[0] != v {
      DispatchedForSome(events[1..], p, v);
    }
  }

  lemma {:induction false} DispatchedForNone(events: seq<AgentVesselInfo>, p: PeerId)
    requires forall v :: v in events ==> v.currentVessel != p
    ensures DispatchedFor(events, p) == 0
  {
    if events != [] {
      DispatchedForNone(events[1..], p);
    }
  }

  /** Without a registration a record is lost by being erased or by being dispatched, and in no
      other way; dispatches only add up. */
  lemma StepRecord(st: EventState, input: Input, p: PeerId)
    requires st.peers.RecordsPlaced() && !Registers(st, input, p)
    requires VesselOf(st.peers.peerInfo, p).Some? ==> TakesOver(st, p)
    ensures
      var st' := NodeStep(st, input);
      var before, after := DispatchedFor(st.networkEvents, p), DispatchedFor(st'.networkEvents, p);
      && st'.peers.self == st.peers.self && before <= after
      && (VesselOf(st.peers.peerInfo, p).None? ==> VesselOf(st'.peers.peerInfo, p).None? && after == before)
      && (after == before ==>
            VesselOf(st'.peers.peerInfo, p) == if Erases(input, p) then None else VesselOf(st.peers.peerInfo, p))
  {
    if input.Ticked? {
      if Enumerates(input.order, st.peers.peerInfo.Keys) {
        TickNotices(st, input.order, input.at, input.maxTime, p);
      }
    } else {
      BetweenTicks(st, input, p);
      BetweenTicksRecord(st, input, p);
    }
  }

  lemma {:induction false} RecordAfter(st: EventState, inputs: seq<Input>, p: PeerId)
    requires st.peers.RecordsPlaced() && Registrations(st, inputs, p) == 0
    requires VesselOf(st.peers.peerInfo, p).Some? ==> TakesOver(st, p)
    ensures
      var st' := NodeRun(st, inputs);
      && st'.peers.RecordsPlaced() && st'.peers.self == st.peers.self
      && DispatchedFor(st.networkEvents, p) <= DispatchedFor(st'.networkEvents, p)
      && (VesselOf(st.peers.peerInfo, p).None? ==> VesselOf(st'.peers.peerInfo, p).None?)
      && (DispatchedFor(st'.networkEvents, p) == DispatchedFor(st.networkEvents, p) ==>
            VesselOf(st'.peers.peerInfo, p)
            == if exists i :: 0 <= i < |inputs| && Erases(inputs[i], p) then None else VesselOf(st.peers.peerInfo, p))
    decreases |inputs|
  {
    if inputs != [] {
      var mid, rest := NodeStep(st, inputs[0]), inputs[1..];
      RecordsStayPlaced(st, inputs[0]);
      StepRecord(st, inputs[0], p);
      assert VesselOf(mid.peers.peerInfo, p).Some? ==> TakesOver(mid, p) by {
        StepRecordKeeps(st, inputs[0], p);
      }
      RecordAfter(mid, rest, p);
      assert (exists i :: 0 <= i < |inputs| && Erases(inputs[i], p))
        <==> Erases(inputs[0], p) || exists i :: 0 <= i < |rest| && Erases(rest[i], p) by {
        ErasedFirstOrLater(inputs, p);
      }
    }
  }

  lemma ErasedFirstOrLater(inputs: seq<Input>, p: PeerId)
    requires inputs != []
    ensures (exists i :: 0 <= i < |inputs| && Erases(inputs[i], p))
       <==> Erases(inputs[0], p) || exists i :: 0 <= i < |inputs[1..]| && Erases(inputs[1..][i], p)
  {
    if i :| 0 < i < |inputs| && Erases(inputs[i], p) {
      assert Erases(inputs[1..][i - 1], p);
    }
  }

  lemma StepRecordKeeps(st: EventState, input: Input, p: PeerId)
    requires st.peers.RecordsPlaced() && !Registers(st, input, p)
    ensures VesselOf(NodeStep(st, input).peers.peerInfo, p) in {None, VesselOf(st.peers.peerInfo, p)}
  {
    if input.Ticked? {
      if Enumerates(input.order, st.peers.peerInfo.Keys) {
        TickNotices(st, input.order, input.at, input.maxTime, p);
      }
    } else {
      BetweenTicksRecord(st, input, p);
    }
  }

  /** A node that is to take a vessel over, and over some run neither registers it again nor takes
      it over, does so at the tick after that run exactly when the tick finds the vessel silent and
      no input of the run has erased its record. */
  lemma NoticedIff(st: EventState, p: PeerId, inputs: seq<Input>, order: seq<PeerId>, at: Instant, maxTime: int)
    requires st.peers.RecordsPlaced() && TakesOver(st, p)
    requires Registrations(st, inputs, p) == 0
    requires DispatchedFor(NodeRun(st, inputs).networkEvents, p) == DispatchedFor(st.networkEvents, p)
    requires Enumerates(order, NodeRun(st, inputs).peers.peerInfo.Keys)
    ensures
      var before := NodeRun(st, inputs);
      var after := NodeStep(before, Ticked(order, at, maxTime));
      DispatchedFor(after.networkEvents, p) > DispatchedFor(before.networkEvents, p)
      <==> && Silent(before.peers.peerInfo, p, at, maxTime)
           && forall i :: 0 <= i < |inputs| ==> !Erases(inputs[i], p)
  {
    RecordAfter(st, inputs, p);
    TickNotices(NodeRun(st, inputs), order, at, maxTime, p);
  }

  // ---------------------------------------------------------------- what a registration records

  /** Whether the node takes the input in: it refuses fragments whose key fragment is not genuine. */
  predicate Accepted(input: Input) {
    input.Requested? && input.request.SaveFragment? ==> Genuine(input.request.keyfragMsg.keyfrag)
  }

  /** A registration of a known vessel, once accepted, puts exactly its record on that vessel. */
  lemma RegistrationRecords(st: EventState, input: Input, p: PeerId)
    requires Registers(st, input, p) && Accepted(input)
    ensures VesselOf(NodeStep(st, input).peers.peerInfo, p) == Carried(input)
  {
    AgentVesselSet(st.peers, Carried(input).value);
    match input
    case Requested(request, at) => RequestRecords(st, request, at, p);
    case Commanded(command, requestId, notified) => CommandRecords(st, command, requestId, notified, p);
  }

  lemma RequestRecords(st: EventState, request: FragmentRequest, at: Instant, p: PeerId)
    requires Registers(st, Requested(request, at), p) && Accepted(Requested(request, at))
    ensures VesselOf(RequestStep(st, request, at).0.peers.peerInfo, p) == Carried(Requested(request, at))
  {
  }

  lemma CommandRecords(st: EventState, command: NodeCommand, requestId: nat, notified: seq<PeerId>, p: PeerId)
    requires Registers(st, Commanded(command, requestId, notified), p)
    ensures VesselOf(CommandStep(st, command, requestId, notified).0.peers.peerInfo, p)
         == Carried(Commanded(command, requestId, notified))
  {
  }

  // ---------------------------------------------------------------- contact

  /** The time at which an input shows that p is there. */
  function Contact(input: Input, p: PeerId): Option<Instant> {
    match input
    case HeartbeatFrom(peer, at) => if peer == p then Some(at) else None
    case Connected(peer, at) => if peer == p then Some(at) else None
    case Requested(ProvidingFragment(_, _, provider), at) => if provider == p then Some(at) else None
    case _ => None
  }

  /** The time of the latest contact with p. */
  function LatestContact(inputs: seq<Input>, p: PeerId): Option<Instant> {
    if inputs == [] then None
    else if Contact(inputs[|inputs| - 1], p).Some? then Contact(inputs[|inputs| - 1], p)
    else LatestContact(inputs[..|inputs| - 1], p)
  }

  /** Contact makes a peer known, with its time; nothing else does, or moves that time. */
  ghost predicate HearsOnly(st: EventState, input: Input, p: PeerId, st': EventState) {
    if Contact(input, p).Some?
    then p in st'.peers.peerInfo && st'.peers.peerInfo[p].lastHeartbeat == Contact(input, p).value
    else p in st'.peers.peerInfo ==>
        p in st.peers.peerInfo && st'.peers.peerInfo[p].lastHeartbeat == st.peers.peerInfo[p].lastHeartbeat
  }

  lemma StepHearsOnly(st: EventState, input: Input, p: PeerId)
    requires st.peers.RecordsPlaced()
    ensures HearsOnly(st, input, p, NodeStep(st, input))
  {
    match input
    case Requested(request, at) => RequestHearsOnly(st, request, at, p);
    case Commanded(command, requestId, notified) => CommandHearsOnly(st, command, requestId, notified, p);
    case Ticked(order, at, maxTime) =>
      if Enumerates(order, st.peers.peerInfo.Keys) {
        TickLoopEffect(st, st.peers.peerInfo, order, at, maxTime);
      }
    case _ =>
  }

  lemma RequestHearsOnly(st: EventState, request: FragmentRequest, at: Instant, p: PeerId)
    ensures HearsOnly(st, Requested(request, at), p, RequestStep(st, request, at).0)
  {
  }

  lemma CommandHearsOnly(st: EventState, command: NodeCommand, requestId: nat, notified: seq<PeerId>, p: PeerId)
    ensures HearsOnly(st, Commanded(command, requestId, notified), p, CommandStep(st, command, requestId, notified).0)
  {
  }

  lemma {:induction false} RunOneMore(st: EventState, inputs: seq<Input>, input: Input)
    ensures NodeRun(st, inputs + [input]) == NodeStep(NodeRun(st, inputs), input)
    decreases |inputs|
  {
    if inputs == [] {
      assert [] + [input] == [input] && [input][1..] == [];
      assert NodeRun(NodeStep(st, input), []) == NodeStep(st, input);
    } else {
      assert (inputs + [input])[1..] == inputs[1..] + [input];
      RunOneMore(NodeStep(st, inputs[0]), inputs[1..], input);
    }
  }

  /** Whom a node knows, it has been in contact with, and it remembers when that was last. */
  lemma {:induction false} KnownAreHeard(self: PeerId, inputs: seq<Input>, p: PeerId)
    ensures
      var st := NodeRun(NoEvents(self), inputs);
      && st.peers.RecordsPlaced()
      && (p in st.peers.peerInfo ==> LatestContact(inputs, p) == Some(st.peers.peerInfo[p].lastHeartbeat))
    decreases |inputs|
  {
    if inputs != [] {
      var n := |inputs| - 1;
      var before := NodeRun(NoEvents(self), inputs[..n]);
      assert inputs == inputs[..n] + [inputs[n]];
      RunOneMore(NoEvents(self), inputs[..n], inputs[n]);
      KnownAreHeard(self, inputs[..n], p);
      RecordsStayPlaced(before, inputs[n]);
      StepHearsOnly(before, inputs[n], p);
    }
  }

  /** Over any run, a known peer is silent exactly if the latest contact with it is longer ago than
      the limit. */
  lemma SilentIff(self: PeerId, inputs: seq<Input>, p: PeerId, at: Instant, maxTime: int)
    requires p in NodeRun(NoEvents(self), inputs).peers.peerInfo
    ensures LatestContact(inputs, p).Some?
    ensures Silent(NodeRun(NoEvents(self), inputs).peers.peerInfo, p, at, maxTime)
       <==> at - LatestContact(inputs, p).value > maxTime
  {
    KnownAreHeard(self, inputs, p);
  }

  /** Whoever has been in contact within the limit is left alone by a tick: it is not forgotten, no
      respawn is marked pending for it and none is dispatched. */
  lemma HeardFromLeftAlone(
    self: PeerId, inputs: seq<Input>, p: PeerId, order: seq<PeerId>, at: Instant, maxTime: int)
    requires LatestContact(inputs, p).Some? && at - LatestContact(inputs, p).value <= maxTime
    requires Enumerates(order, NodeRun(NoEvents(self), inputs).peers.peerInfo.Keys)
    ensures
      var st := NodeRun(NoEvents(self), inputs);
      var st' := NodeStep(st, Ticked(order, at, maxTime));
      && (p in st'.peers.peerInfo <==> p in st.peers.peerInfo)
      && (p in st.peers.peerInfo ==> st'.peers.peerInfo[p] == st.peers.peerInfo[p])
      && (forall id: RespawnId :: id.vessel == p ==> (id in st'.respawns <==> id in st.respawns))
      && DispatchedFor(st'.networkEvents, p) == DispatchedFor(st.networkEvents, p)
  {
    KnownAreHeard(self, inputs, p);
    var st := NodeRun(NoEvents(self), inputs);
    TickLoopEffect(st, st.peers.peerInfo, order, at, maxTime);
    TickNotices(st, order, at, maxTime, p);
    assert !Silent(st.peers.peerInfo, p, at, maxTime);
    assert RespawnsEffect(st, st.peers.peerInfo, order, at, maxTime, Tick(st, order, at, maxTime).state);
  }

  /** A peer heard from at the end of a run is known, with what was recorded of it. */
  lemma HeartbeatKeepsRecord(st: EventState, p: PeerId, at: Instant)
    ensures
      var st' := NodeStep(st, HeartbeatFrom(p, at));
      p in st'.peers.peerInfo && VesselOf(st'.peers.peerInfo, p) == VesselOf(st.peers.peerInfo, p)
  {
  }
}
