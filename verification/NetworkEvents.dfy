/** One node's event loop: the one-second tick that finds silent vessels, the request-response
    arms, and the commands coming from the client. */
module NetworkEventLoop {
  import opened Types
  import opened Umbral
  import opened Messages
  import opened PeerManagement

  /** The part of a node that its event loop changes. `networkEvents` holds the dispatched
      respawn requests in order. */
  datatype EventState = EventState(
    peers: Peers,
    respawns: set<RespawnId>,
    requestFragments: map<nat, ReplySender>,
    networkEvents: seq<AgentVesselInfo>)

  function NoEvents(self: PeerId): EventState {
    EventState(EmptyPeers(self), {}, map[], [])
  }

  // ---------------------------------------------------------------- the tick

  datatype TickOutcome = TickOutcome(state: EventState, ok: bool)

  function VesselOf(info: map<PeerId, PeerInfo>, p: PeerId): Option<AgentVesselInfo> {
    if p in info then info[p].agentVessel else None
  }

  function TickVisit(
    st: EventState, snapshot: map<PeerId, PeerInfo>, p: PeerId, now: Instant, maxTime: int): TickOutcome
  {
    if !st.peers.IsOffline(p, now, maxTime) then TickOutcome(st, true)
    else
      match VesselOf(snapshot, p)
      case None => TickOutcome(st.(peers := st.peers.RemovePeer(p)), true)
      case Some(info) =>
        if !info.reverieType.IsAgent() then TickOutcome(st, false)
        else
          var pending := st.(respawns := st.respawns + {RespawnId(info.reverieType.agent, info.currentVessel)});
          if info.nextVessel != st.peers.self then TickOutcome(pending, true)
          else TickOutcome(pending.(networkEvents := st.networkEvents + [info], peers := st.peers.RemovePeer(p)), true)
  }

  function TickLoop(
    st: EventState, snapshot: map<PeerId, PeerInfo>, order: seq<PeerId>, now: Instant, maxTime: int)
    : (outcome: TickOutcome)
    ensures |st.networkEvents| <= |outcome.state.networkEvents|
    decreases |order|
  {
    if order == [] then TickOutcome(st, true)
    else
      var first := TickVisit(st, snapshot, order[0], now, maxTime);
      if !first.ok then first else TickLoop(first.state, snapshot, order[1..], now, maxTime)
  }

  function Tick(st: EventState, order: seq<PeerId>, now: Instant, maxTime: int): TickOutcome {
    TickLoop(st, st.peers.peerInfo, order, now, maxTime)
  }

  ghost predicate Silent(info: map<PeerId, PeerInfo>, p: PeerId, now: Instant, maxTime: int) {
    p in info && now - info[p].lastHeartbeat > maxTime
  }

  ghost predicate SilentVessel(info: map<PeerId, PeerInfo>, p: PeerId, now: Instant, maxTime: int) {
    Silent(info, p, now, maxTime) && info[p].agentVessel.Some?
  }

  ghost predicate HostsAgent(info: map<PeerId, PeerInfo>, p: PeerId, agent: ReverieName) {
    && p in info && info[p].agentVessel.Some?
    && info[p].agentVessel.value.reverieType.IsAgent() && info[p].agentVessel.value.reverieType.agent == agent
  }

  ghost predicate Dispatches(self: PeerId, info: map<PeerId, PeerInfo>, p: PeerId, now: Instant, maxTime: int) {
    SilentVessel(info, p, now, maxTime) && info[p].agentVessel.value.nextVessel == self
  }

  /** Silent peers the tick forgets: those without an agent, and those this node takes over. */
  ghost predicate Forgets(self: PeerId, info: map<PeerId, PeerInfo>, p: PeerId, now: Instant, maxTime: int) {
    Silent(info, p, now, maxTime) && (info[p].agentVessel.None? || Dispatches(self, info, p, now, maxTime))
  }

  ghost function RemoveAll(m: Peers, gone: set<PeerId>): Peers {
    m.(
    peerInfo := m.peerInfo - gone,
    peersToFrags := m.peersToFrags - gone,
    kfragProviders := map r | r in m.kfragProviders ::
      set p | p in m.kfragProviders[r] && !(p in gone && exists f :: f in m.TrackedBy(p) && f.reverieId == r))
  }

  /** Who is remembered as respawning after a tick over the peers in `order`. */
  ghost predicate RespawnsEffect(
    st: EventState, info: map<PeerId, PeerInfo>, order: seq<PeerId>, now: Instant, maxTime: int,
    st': EventState)
  {
    forall id :: id in st'.respawns <==>
                 || id in st.respawns
                 || (&& id.vessel in order && SilentVessel(info, id.vessel, now, maxTime)
                     && HostsAgent(info, id.vessel, id.prevAgent))
  }

  /** The requests added by a tick: one for each silent vessel that this node takes over. */
  ghost predicate EventsEffect(
    st: EventState, info: map<PeerId, PeerInfo>, order: seq<PeerId>, now: Instant, maxTime: int,
    st': EventState)
  {
    && |st.networkEvents| <= |st'.networkEvents|
    && st'.networkEvents[..|st.networkEvents|] == st.networkEvents
    && AddedBy(st.peers.self, info, order, now, maxTime, st'.networkEvents[|st.networkEvents|..])
  }

  ghost predicate AddedBy(
    self: PeerId, info: map<PeerId, PeerInfo>, order: seq<PeerId>, now: Instant, maxTime: int,
    added: seq<AgentVesselInfo>)
  {
    && Distinct(added)
    && (forall v :: v in added <==> v.currentVessel in order && Dispatches(self, info, v.currentVessel, now, maxTime)
                                    && info[v.currentVessel].agentVessel.value == v)
  }

  ghost function Forgotten(
    self: PeerId, info: map<PeerId, PeerInfo>, order: seq<PeerId>, now: Instant, maxTime: int): set<PeerId>
  {
    set p | p in order && Forgets(self, info, p, now, maxTime)
  }

  /** What a tick over the peers in `order` does, told without their order. */
  ghost predicate TickEffect(
    st: EventState, info: map<PeerId, PeerInfo>, order: seq<PeerId>, now: Instant, maxTime: int,
    st': EventState)
  {
    && st'.peers == RemoveAll(st.peers, Forgotten(st.peers.self, info, order, now, maxTime))
    && st'.requestFragments == st.requestFragments
    && RespawnsEffect(st, info, order, now, maxTime, st')
    && EventsEffect(st, info, order, now, maxTime, st')
  }

  /** The peers still to be walked are remembered as they were when the tick began. */
  ghost predicate Untouched(st: EventState, snapshot: map<PeerId, PeerInfo>, order: seq<PeerId>) {
    && Distinct(order)
    && (forall p :: p in order ==> p in snapshot && p in st.peers.peerInfo && st.peers.peerInfo[p] == snapshot[p])
    && (forall p :: p in order && snapshot[p].agentVessel.Some? ==>
                      && snapshot[p].agentVessel.value.reverieType.IsAgent()
                      && snapshot[p].agentVessel.value.currentVessel == p)
  }

  lemma RemoveOneIsRemoveAll(m: Peers, p: PeerId)
    ensures RemoveAll(m, {p}) == m.RemovePeer(p)
  {
    var a, b := RemoveAll(m, {p}), m.RemovePeer(p);
    forall r | r in m.kfragProviders
      ensures a.kfragProviders[r] == b.kfragProviders[r]
    {
    }
  }

  lemma RemoveAllTwice(m: Peers, first: set<PeerId>, second: set<PeerId>)
    requires first !! second
    ensures RemoveAll(RemoveAll(m, first), second) == RemoveAll(m, first + second)
  {
    var m1 := RemoveAll(m, first);
    var a, b := RemoveAll(m1, second), RemoveAll(m, first + second);
    assert forall p | p in second :: m1.TrackedBy(p) == m.TrackedBy(p);
    forall r | r in m.kfragProviders
      ensures a.kfragProviders[r] == b.kfragProviders[r]
    {
    }
  }

  lemma {:induction false} TickLoopEffect(
    st: EventState, snapshot: map<PeerId, PeerInfo>, order: seq<PeerId>, now: Instant, maxTime: int)
    requires Untouched(st, snapshot, order)
    ensures TickLoop(st, snapshot, order, now, maxTime).ok
    ensures TickEffect(st, snapshot, order, now, maxTime, TickLoop(st, snapshot, order, now, maxTime).state)
    decreases |order|
  {
    if order == [] {
      NothingRemoved(st.peers);
      assert Forgotten(st.peers.self, snapshot, order, now, maxTime) == {};
    } else {
      var mid := TickVisit(st, snapshot, order[0], now, maxTime).state;
      VisitLeavesRest(st, snapshot, order, now, maxTime);
      TickLoopEffect(mid, snapshot, order[1..], now, maxTime);
      var end := TickLoop(mid, snapshot, order[1..], now, maxTime).state;
      PeersCompose(st, snapshot, order, now, maxTime);
      RespawnsCompose(st, snapshot, order, now, maxTime, end);
      EventsCompose(st, snapshot, order, now, maxTime, end);
    }
  }

  lemma NothingRemoved(m: Peers)
    ensures RemoveAll(m, {}) == m
  {
    assert forall r | r in m.kfragProviders :: RemoveAll(m, {}).kfragProviders[r] == m.kfragProviders[r];
  }

  lemma VisitLeavesRest(st: EventState, snapshot: map<PeerId, PeerInfo>, order: seq<PeerId>, now: Instant, maxTime: int)
    requires Untouched(st, snapshot, order) && order != []
    ensures TickVisit(st, snapshot, order[0], now, maxTime).ok
    ensures Untouched(TickVisit(st, snapshot, order[0], now, maxTime).state, snapshot, order[1..])
  {
    assert forall q :: q in order[1..] ==> q != order[0] && q in order;
  }

  lemma PeersCompose(st: EventState, snapshot: map<PeerId, PeerInfo>, order: seq<PeerId>, now: Instant, maxTime: int)
    requires Untouched(st, snapshot, order) && order != []
    ensures
      RemoveAll(TickVisit(st, snapshot, order[0], now, maxTime).state.peers,
                Forgotten(st.peers.self, snapshot, order[1..], now, maxTime))
      == RemoveAll(st.peers, Forgotten(st.peers.self, snapshot, order, now, maxTime))
  {
    var p := order[0];
    var tail := Forgotten(st.peers.self, snapshot, order[1..], now, maxTime);
    var all := Forgotten(st.peers.self, snapshot, order, now, maxTime);
    RemoveOneIsRemoveAll(st.peers, p);
    if Forgets(st.peers.self, snapshot, p, now, maxTime) {
      assert all == {p} + tail;
      RemoveAllTwice(st.peers, {p}, tail);
    } else {
      assert all == tail;
    }
  }

  lemma RespawnsCompose(
    st: EventState, snapshot: map<PeerId, PeerInfo>, order: seq<PeerId>, now: Instant, maxTime: int,
    end: EventState)
    requires Untouched(st, snapshot, order) && order != []
    requires RespawnsEffect(TickVisit(st, snapshot, order[0], now, maxTime).state, snapshot, order[1..], now,
                            maxTime, end)
    ensures RespawnsEffect(st, snapshot, order, now, maxTime, end)
  {
    assert forall q :: q in order <==> q == order[0] || q in order[1..];
  }

  lemma EventsCompose(
    st: EventState, snapshot: map<PeerId, PeerInfo>, order: seq<PeerId>, now: Instant, maxTime: int,
    end: EventState)
    requires Untouched(st, snapshot, order) && order != []
    requires EventsEffect(TickVisit(st, snapshot, order[0], now, maxTime).state, snapshot, order[1..], now, maxTime,
                          end)
    ensures EventsEffect(st, snapshot, order, now, maxTime, end)
  {
    var p := order[0];
    var mid := TickVisit(st, snapshot, p, now, maxTime).state;
    var n := |st.networkEvents|;
    var addedRest := end.networkEvents[|mid.networkEvents|..];
    assert forall q :: q in order <==> q == p || q in order[1..];
    assert p !in order[1..];
    if Dispatches(st.peers.self, snapshot, p, now, maxTime) {
      var v := snapshot[p].agentVessel.value;
      assert end.networkEvents[n] == end.networkEvents[..n + 1][n] == v;
      assert end.networkEvents[..n] == end.networkEvents[..n + 1][..n];
      assert end.networkEvents[n..] == [v] + addedRest;
      assert v !in addedRest;
    } else {
      assert end.networkEvents[n..] == addedRest;
    }
  }

  /** The tick never reports an invalid type and its outcome is the same for every order in
      which the peer map is walked, up to the order of the dispatched requests. */
  lemma TickOrderIrrelevant(st: EventState, order: seq<PeerId>, order': seq<PeerId>, now: Instant, maxTime: int)
    requires st.peers.RecordsPlaced()
    requires Enumerates(order, st.peers.peerInfo.Keys) && Enumerates(order', st.peers.peerInfo.Keys)
    ensures
      var a, b := Tick(st, order, now, maxTime), Tick(st, order', now, maxTime);
      && a.ok && b.ok
      && a.state.(networkEvents := []) == b.state.(networkEvents := [])
      && multiset(a.state.networkEvents) == multiset(b.state.networkEvents)
  {
    TickLoopEffect(st, st.peers.peerInfo, order, now, maxTime);
    TickLoopEffect(st, st.peers.peerInfo, order', now, maxTime);
    var a, b := Tick(st, order, now, maxTime).state, Tick(st, order', now, maxTime).state;
    var n := |st.networkEvents|;
    var self, info := st.peers.self, st.peers.peerInfo;
    assert Forgotten(self, info, order, now, maxTime) == Forgotten(self, info, order', now, maxTime);
    assert forall id :: id in a.respawns <==> id in b.respawns;
    assert a.respawns == b.respawns;
    SameElementsSameMultiset(a.networkEvents[n..], b.networkEvents[n..]);
    assert a.networkEvents == st.networkEvents + a.networkEvents[n..];
    assert b.networkEvents == st.networkEvents + b.networkEvents[n..];
  }

  lemma SameElementsSameMultiset<T(!new)>(a: seq<T>, b: seq<T>)
    requires Distinct(a) && Distinct(b)
    requires forall x :: x in a <==> x in b
    ensures multiset(a) == multiset(b)
  {
    forall x
      ensures multiset(a)[x] == multiset(b)[x]
    {
      CountInDistinct(a, x);
      CountInDistinct(b, x);
    }
  }

  lemma {:induction false} CountInDistinct<T>(s: seq<T>, x: T)
    requires Distinct(s)
    ensures multiset(s)[x] == if x in s then 1 else 0
  {
    if s != [] {
      assert s == [s[0]] + s[1..];
      CountInDistinct(s[1..], x);
      assert s[0] !in s[1..];
    }
  }

  // ---------------------------------------------------------------- completing a respawn

  function MarkComplete(st: EventState, prevPeer: PeerId, prevAgent: ReverieName): EventState {
    st.(respawns := st.respawns - {RespawnId(prevAgent, prevPeer)},
    peers := st.peers.RemovePeer(prevPeer).RemovePeerInfo(prevPeer))
  }

  // ---------------------------------------------------------------- request-response

  /** What an arm does besides changing the state. `ok` is false where the program returns an
      error or panics; either ends the event loop. */
  datatype Outcome = Outcome(ok: bool, sent: seq<(PeerId, FragmentRequest)>, reply: Option<FragmentReply>)

  const REFUSED := Outcome(false, [], None)

  function Record(m: Peers, info: AgentVesselInfo): Peers {
    if info.reverieType.IsAgent()
    then m.SetAgentVessel(info).(reverieMetadata := m.reverieMetadata[info.reverieId := info])
    else m
  }

  function VesselInfoOfKeyfrag(k: KeyfragMessage): AgentVesselInfo {
    AgentVesselInfo(k.keyfrag.id, k.keyfrag.reverieType, k.keyfrag.threshold, k.keyfrag.totalFrags, k.source, k.target)
  }

  function DeriveCapsulefrag(k: ReverieKeyfrag, provider: PeerId): ReverieCapsulefrag {
    ReverieCapsulefrag(k.id, k.reverieType, k.fragNum, k.threshold,
                       CapsuleFragJson(Reencrypt(k.umbralCapsule, k.umbralKeyfrag)),
                       k.sourcePubkey, k.sourceVerifyingPubkey, k.targetPubkey, k.targetVerifyingPubkey,
                       k.accessCondition, provider)
  }

  function RequestStep(st: EventState, request: FragmentRequest, now: Instant): (EventState, Outcome) {
    var m := st.peers;
    match request
    case GetFragment(r, key) =>
      if r !in m.cfrags || !AccessGranted(key, m.cfrags[r].accessCondition, r) then (st, REFUSED)
      else (st, Outcome(true, [], Some(Ok(CfragJson(m.cfrags[r])))))
    case SaveFragment(msg) =>
      var k := msg.keyfrag;
      if !VerifyKeyFrag(k.umbralKeyfrag, k.sourceVerifyingPubkey, k.sourcePubkey, k.targetPubkey) then (st, REFUSED)
      else
        var recorded := Record(m, VesselInfoOfKeyfrag(msg));
        (st.(peers := recorded.(cfrags := m.cfrags[k.id := DeriveCapsulefrag(k, m.self)])),
         Outcome(true, [(msg.target, ProvidingFragment(k.id, k.fragNum, m.self))], None))
    case ProvidingFragment(r, fragNum, provider) =>
      (st.(peers := m.InsertKfragProvider(provider, r, fragNum).InsertPeerInfo(provider, now)), Outcome(true, [], None))
    case SaveCiphertext(msg) =>
      (st.(peers := Record(m, VesselInfoOf(msg)).(reverie := m.reverie[msg.reverie.id := msg])),
       Outcome(true, [], None))
    case MarkRespawnComplete(prevReverieId, prevPeer, prevAgent) =>
      (MarkComplete(st, prevPeer, prevAgent), Outcome(true, [], None))
  }

  /** `served` is false if the requester's connection is gone when the response is to be sent: the
      state has changed, nothing leaves the node and its event loop ends. */
  function ServeRequest(st: EventState, request: FragmentRequest, now: Instant, served: bool): (EventState, Outcome) {
    var (st', outcome) := RequestStep(st, request, now);
    (st', if served then outcome else REFUSED)
  }

  /** The node holds the fragment, and the key opens it: a signature over this very reverie by the
      key that its access condition names, or a key that an outside check has granted. */
  predicate Grants(m: Peers, r: ReverieId, key: AccessKey) {
    && r in m.cfrags
    && match key
       case UmbralSignature(signer, signed) => m.cfrags[r].accessCondition == UmbralSigner(signer) && signed == r
       case ExternalKey(granted) => granted
  }

  /** A fragment is served exactly to those keys, and asking for one changes nothing. */
  lemma FragmentServedIff(st: EventState, r: ReverieId, key: AccessKey, now: Instant)
    ensures
      var (st', outcome) := RequestStep(st, GetFragment(r, key), now);
      && st' == st && outcome.sent == []
      && (outcome.ok <==> Grants(st.peers, r, key))
      && outcome.reply == if Grants(st.peers, r, key) then Some(Ok(CfragJson(st.peers.cfrags[r]))) else None
  {
  }

  /** A key fragment is signed by the sender's key, and made for delegating from it to the target's. */
  predicate Genuine(k: ReverieKeyfrag) {
    && k.umbralKeyfrag.signer == k.sourceVerifyingPubkey
    && k.umbralKeyfrag.delegator == k.sourcePubkey
    && k.umbralKeyfrag.receiver == k.targetPubkey
  }

  /** A fragment sent in is accepted exactly if its key fragment is genuine. The node then keeps the
      re-encrypted capsule under the reverie's id, next to what it kept before, and tells the target
      which fragment it holds. */
  lemma FragmentSavedIff(st: EventState, msg: KeyfragMessage, now: Instant)
    ensures
      var (st', outcome) := RequestStep(st, SaveFragment(msg), now);
      var k, r, self := msg.keyfrag, msg.keyfrag.id, st.peers.self;
      && (outcome.ok <==> Genuine(k))
      && (!Genuine(k) ==> st' == st && outcome.sent == [])
      && (Genuine(k) ==>
            && outcome.sent == [(msg.target, ProvidingFragment(r, k.fragNum, self))]
            && st'.peers.cfrags.Keys == st.peers.cfrags.Keys + {r}
            && (forall x :: x in st.peers.cfrags && x != r ==> st'.peers.cfrags[x] == st.peers.cfrags[x])
            && var c := st'.peers.cfrags[r];
            && c.umbralCapsuleFrag == CapsuleFragJson(CapsuleFrag(k.umbralCapsule, k.umbralKeyfrag))
            && c.fragNum == k.fragNum && c.threshold == k.threshold && c.reverieType == k.reverieType
            && c.accessCondition == k.accessCondition && c.kfragProvider == self
            && (k.reverieType.SovereignAgent? || k.reverieType.Agent? ==>
                  && r in st'.peers.reverieMetadata
                  && var info := st'.peers.reverieMetadata[r];
                  && info.reverieId == r && info.reverieType == k.reverieType
                  && info.threshold == k.threshold && info.totalFrags == k.totalFrags
                  && info.currentVessel == msg.source && info.nextVessel == msg.target))
  {
  }

  /** A ciphertext is kept under its reverie's id; what is recorded of its vessel is that of agents
      only, and names the sender, the target and the split of the reverie. */
  lemma CiphertextSaved(st: EventState, msg: ReverieMessage, now: Instant)
    ensures
      var (st', outcome) := RequestStep(st, SaveCiphertext(msg), now);
      var m, m', r := st.peers, st'.peers, msg.reverie.id;
      && outcome == Outcome(true, [], None)
      && m'.reverie == m.reverie[r := msg]
      && (if msg.reverie.reverieType.SovereignAgent? || msg.reverie.reverieType.Agent?
          then m'.reverieMetadata.Keys == m.reverieMetadata.Keys + {r} && Records(m'.reverieMetadata[r], msg)
          else m'.reverieMetadata == m.reverieMetadata && m'.peerInfo == m.peerInfo)
  {
  }

  predicate Records(info: AgentVesselInfo, msg: ReverieMessage) {
    && info.reverieId == msg.reverie.id && info.reverieType == msg.reverie.reverieType
    && info.threshold == msg.reverie.threshold && info.totalFrags == msg.reverie.totalFrags
    && info.currentVessel == msg.source && info.nextVessel == msg.target
  }

  /** An announced provider is known from then on and provides exactly the announced fragment more. */
  lemma ProviderRecorded(st: EventState, r: ReverieId, n: nat, provider: PeerId, now: Instant)
    requires st.peers.IndexesAgree()
    ensures
      var (st', outcome) := RequestStep(st, ProvidingFragment(r, n, provider), now);
      && outcome == Outcome(true, [], None)
      && st'.peers.IndexesAgree() && provider in st'.peers.peerInfo
      && (forall q: PeerId, x: ReverieId, k: nat ::
            st'.peers.Provides(q, x, k) <==> st.peers.Provides(q, x, k) || (q == provider && x == r && k == n))
  {
    InsertProviderRefines(st.peers, provider, r, n);
    var inserted := st.peers.InsertKfragProvider(provider, r, n);
    var m' := RequestStep(st, ProvidingFragment(r, n, provider), now).0.peers;
    forall q: PeerId, x: ReverieId
      ensures q in m'.ProvidersOf(x) <==> exists k: nat :: m'.Provides(q, x, k)
    {
      assert q in m'.ProvidersOf(x) <==> q in inserted.ProvidersOf(x);
      assert forall k: nat :: m'.Provides(q, x, k) <==> inserted.Provides(q, x, k);
    }
  }

  // ---------------------------------------------------------------- commands

  /** `requestId` is the id the transport gives to the fragment request, `order` the order in
      which the set of previous providers is walked. */
  function CommandStep(
    st: EventState, command: NodeCommand, requestId: nat, order: seq<PeerId>)
    : (EventState, seq<(PeerId, FragmentRequest)>)
  {
    match command
    case SendReverieKeyfrag(provider, msg) => (st, [(provider, SaveFragment(msg))])
    case SaveReverieOnNetwork(msg) => (st.(peers := st.peers.SetAgentVessel(VesselInfoOf(msg))), [])
    case SendReverieToSpecificPeer(holder, msg) =>
      (st.(peers := st.peers.SetAgentVessel(VesselInfoOf(msg))), [(holder, SaveCiphertext(msg))])
    case RequestCapsuleFragment(r, provider, key, sender) =>
      (st.(requestFragments := st.requestFragments[requestId := sender]), [(provider, GetFragment(r, key))])
    case MarkPendingRespawnComplete(prevReverieId, prevPeer, prevAgent) =>
      (MarkComplete(st, prevPeer, prevAgent), CompletionNotices(order, prevReverieId, prevPeer, prevAgent))
  }

  function CompletionNotices(order: seq<PeerId>, prevReverieId: ReverieId, prevPeer: PeerId, prevAgent: ReverieName)
    : (notices: seq<(PeerId, FragmentRequest)>)
    ensures |notices| == |order|
  {
    seq(|order|, i requires 0 <= i < |order| => (order[i], MarkRespawnComplete(prevReverieId, prevPeer, prevAgent)))
  }

  /** The peers told of a completion, as known after the failed vessel has been forgotten. */
  ghost predicate OrderFits(st: EventState, command: NodeCommand, order: seq<PeerId>) {
    command.MarkPendingRespawnComplete? ==>
      Enumerates(order, MarkComplete(st, command.prevPeer, command.prevAgent).peers.ProvidersOf(command.prevReverieId))
  }

  /** Every provider of the reverie other than the failed vessel is told once, and nobody else. */
  ghost predicate NotifiesOnce(
    before: Peers, r: ReverieId, prevPeer: PeerId, prevAgent: ReverieName, sent: seq<(PeerId, FragmentRequest)>)
  {
    forall q: PeerId, request: FragmentRequest ::
      multiset(sent)[(q, request)]
        == if q != prevPeer && (exists n: nat :: before.Provides(q, r, n))
                    && request == MarkRespawnComplete(r, prevPeer, prevAgent)
        then 1 else 0
  }

  lemma CompletionNotifiesOnce(
    st: EventState, r: ReverieId, prevPeer: PeerId, prevAgent: ReverieName, requestId: nat, order: seq<PeerId>)
    requires st.peers.IndexesAgree()
    requires OrderFits(st, MarkPendingRespawnComplete(r, prevPeer, prevAgent), order)
    ensures
      var command := MarkPendingRespawnComplete(r, prevPeer, prevAgent);
      NotifiesOnce(st.peers, r, prevPeer, prevAgent, CommandStep(st, command, requestId, order).1)
  {
    var sent := CommandStep(st, MarkPendingRespawnComplete(r, prevPeer, prevAgent), requestId, order).1;
    RemoveProviderRefines(st.peers, prevPeer);
    assert MarkComplete(st, prevPeer, prevAgent).peers.ProvidersOf(r)
        == st.peers.RemoveKfragProvider(prevPeer).ProvidersOf(r);
    forall q: PeerId, request: FragmentRequest
      ensures multiset(sent)[(q, request)]
           == if q in order && request == MarkRespawnComplete(r, prevPeer, prevAgent) then 1 else 0
    {
      CountInDistinct(sent, (q, request));
      if q in order {
        var i :| 0 <= i < |order| && order[i] == q;
        assert sent[i] == (q, MarkRespawnComplete(r, prevPeer, prevAgent));
      }
    }
  }

  function ReplyStep(st: EventState, requestId: nat): (EventState, Option<ReplySender>) {
    if requestId in st.requestFragments
    then (st.(requestFragments := st.requestFragments - {requestId}), Some(st.requestFragments[requestId]))
    else (st, None)
  }

  // ---------------------------------------------------------------- the loop as an object

  class NetworkEvents {
    const peerManager: PeerManager
    var respawns: set<RespawnId>
    var requestFragments: map<nat, ReplySender>
    var networkEventSender: seq<AgentVesselInfo>

    ghost function View(): EventState
      reads this, peerManager
    {
      EventState(peerManager.View(), respawns, requestFragments, networkEventSender)
    }

    constructor (self: PeerId)
      ensures fresh(peerManager) && View() == NoEvents(self)
    {
      peerManager := new PeerManager(self);
      respawns, requestFragments, networkEventSender := {}, map[], [];
    }

    method RemovePeer(p: PeerId)
      modifies peerManager
      ensures View() == old(View()).(peers := old(View()).peers.RemovePeer(p))
    {
      peerManager.RemoveKfragProvider(p);
      peerManager.RemovePeerInfo(p);
    }

    method MarkPendingRespawnComplete(prevPeer: PeerId, prevAgent: ReverieName)
      modifies this, peerManager
      ensures View() == MarkComplete(old(View()), prevPeer, prevAgent)
      ensures RespawnId(prevAgent, prevPeer) !in respawns && prevPeer !in peerManager.peerInfo
    {
      respawns := respawns - {RespawnId(prevAgent, prevPeer)};
      RemovePeer(prevPeer);
      peerManager.RemovePeerInfo(prevPeer);
    }

    /** `order` is the order in which the peer map happens to be walked. */
    method HandlePeerHeartbeatFailure(order: seq<PeerId>, now: Instant, maxTime: int) returns (ok: bool)
      requires Enumerates(order, peerManager.peerInfo.Keys)
      modifies this, peerManager
      ensures TickOutcome(View(), ok) == Tick(old(View()), order, now, maxTime)
      ensures old(View()).peers.RecordsPlaced() ==>
                ok && TickEffect(old(View()), old(peerManager.peerInfo), order, now, maxTime, View())
    {
      ghost var st0 := View();
      var snapshot := peerManager.peerInfo;
      var i := 0;
      while i < |order|
        invariant 0 <= i <= |order|
        invariant Tick(st0, order, now, maxTime) == TickLoop(View(), snapshot, order[i..], now, maxTime)
        invariant peerManager.peerId == st0.peers.self
      {
        var p := order[i];
        assert order[i..][0] == p && order[i..][1..] == order[i + 1..];
        ghost var before := View();
        var offline := p !in peerManager.peerInfo || now - peerManager.peerInfo[p].lastHeartbeat > maxTime;
        if offline {
          match VesselOf(snapshot, p) {
            case None =>
              RemovePeer(p);
            case Some(info) =>
              if !info.reverieType.IsAgent() {
                ok := false;
                assert TickVisit(before, snapshot, p, now, maxTime) == TickOutcome(View(), false);
                break;
              }
              respawns := respawns + {RespawnId(info.reverieType.agent, info.currentVessel)};
              if info.nextVessel == peerManager.peerId {
                networkEventSender := networkEventSender + [info];
                RemovePeer(p);
              }
          }
        }
        assert TickVisit(before, snapshot, p, now, maxTime) == TickOutcome(View(), true);
        i := i + 1;
      }
      ok := i == |order|;
      if st0.peers.RecordsPlaced() {
        TickLoopEffect(st0, snapshot, order, now, maxTime);
      }
    }

    method SetVessel(info: AgentVesselInfo)
      modifies peerManager
      ensures View() == old(View()).(peers := Record(old(View()).peers, info))
    {
      if info.reverieType.IsAgent() {
        peerManager.SetPeerInfoAgentVessel(info);
        peerManager.InsertReverieMetadata(info.reverieId, info);
      }
    }

    method HandleRequest(request: FragmentRequest, now: Instant, served: bool) returns (outcome: Outcome)
      modifies this, peerManager
      ensures (View(), outcome) == ServeRequest(old(View()), request, now, served)
      ensures request.GetFragment? && served ==>
                (outcome.ok <==> Grants(old(View()).peers, request.reverieId, request.accessKey))
    {
      outcome := Outcome(true, [], None);
      match request {
        case GetFragment(r, key) =>
          if r !in peerManager.cfrags {
            return REFUSED;
          }
          var cfrag := peerManager.cfrags[r];
          if !AccessGranted(key, cfrag.accessCondition, r) {
            return REFUSED;
          }
          outcome := Outcome(true, [], Some(Ok(CfragJson(cfrag))));
        case SaveFragment(msg) =>
          var k := msg.keyfrag;
          if !VerifyKeyFrag(k.umbralKeyfrag, k.sourceVerifyingPubkey, k.sourcePubkey, k.targetPubkey) {
            return REFUSED;
          }
          SetVessel(VesselInfoOfKeyfrag(msg));
          peerManager.InsertCfrags(k.id, DeriveCapsulefrag(k, peerManager.peerId));
          outcome := Outcome(true, [(msg.target, ProvidingFragment(k.id, k.fragNum, peerManager.peerId))], None);
        case ProvidingFragment(r, fragNum, provider) =>
          peerManager.InsertKfragProvider(provider, r, fragNum);
          peerManager.InsertPeerInfo(provider, now);
        case SaveCiphertext(msg) =>
          SetVessel(VesselInfoOf(msg));
          peerManager.InsertReverie(msg.reverie.id, msg);
        case MarkRespawnComplete(_, prevPeer, prevAgent) =>
          MarkPendingRespawnComplete(prevPeer, prevAgent);
      }
      if !served {
        return REFUSED;
      }
    }

    method HandleCommand(command: NodeCommand, requestId: nat)
      returns (sent: seq<(PeerId, FragmentRequest)>, ghost order: seq<PeerId>)
      modifies this, peerManager
      ensures OrderFits(old(View()), command, order)
      ensures (View(), sent) == CommandStep(old(View()), command, requestId, order)
      ensures command.MarkPendingRespawnComplete? && old(View()).peers.IndexesAgree() ==>
                NotifiesOnce(old(View()).peers, command.prevReverieId, command.prevPeer, command.prevAgent, sent)
    {
      ghost var before := View();
      order := [];
      match command {
        case SendReverieKeyfrag(provider, msg) =>
          sent := [(provider, SaveFragment(msg))];
        case SaveReverieOnNetwork(msg) =>
          peerManager.SetPeerInfoAgentVessel(VesselInfoOf(msg));
          sent := [];
        case SendReverieToSpecificPeer(holder, msg) =>
          peerManager.SetPeerInfoAgentVessel(VesselInfoOf(msg));
          sent := [(holder, SaveCiphertext(msg))];
        case RequestCapsuleFragment(r, provider, key, sender) =>
          requestFragments := requestFragments[requestId := sender];
          sent := [(provider, GetFragment(r, key))];
        case MarkPendingRespawnComplete(prevReverieId, prevPeer, prevAgent) =>
          MarkPendingRespawnComplete(prevPeer, prevAgent);
          sent := [];
          if prevReverieId in peerManager.kfragProviders {
            var providers := peerManager.kfragProviders[prevReverieId];
            var todo := providers;
            while todo != {}
              invariant todo <= providers
              invariant Enumerates(order, providers - todo)
              invariant sent == CompletionNotices(order, prevReverieId, prevPeer, prevAgent)
            {
              var p :| p in todo;
              todo := todo - {p};
              order := order + [p];
              sent := sent + [(p, MarkRespawnComplete(prevReverieId, prevPeer, prevAgent))];
            }
          }
      }
      if command.MarkPendingRespawnComplete? && before.peers.IndexesAgree() {
        CompletionNotifiesOnce(before, command.prevReverieId, command.prevPeer, command.prevAgent, requestId, order);
      }
    }

    /** A fragment reply or a failed request: hands back the half that is waiting for it. */
    method TakeReplySender(requestId: nat) returns (sender: Option<ReplySender>)
      modifies this`requestFragments
      ensures (View(), sender) == ReplyStep(old(View()), requestId)
    {
      sender := None;
      if requestId in requestFragments {
        sender := Some(requestFragments[requestId]);
        requestFragments := requestFragments - {requestId};
      }
    }
  }
}
