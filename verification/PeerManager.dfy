/** The maps a node keeps about its peers, changed in place by `PeerManager`, and the value-level
    functions that say what each change does. */
module PeerManagement {
  import opened Types
  import opened Messages

  type Instant = int

  datatype PeerInfo = PeerInfo(peerId: PeerId, lastHeartbeat: Instant, agentVessel: Option<AgentVesselInfo>)

  datatype TrackedFragment = TrackedFragment(reverieId: ReverieId, fragNum: nat)

  /** The value of a node's peer manager. */
  datatype Peers = Peers(
    self: PeerId,
    vesselAgent: Option<AgentVesselInfo>,
    peerInfo: map<PeerId, PeerInfo>,
    kfragProviders: map<ReverieId, set<PeerId>>,
    cfrags: map<ReverieId, ReverieCapsulefrag>,
    reverieMetadata: map<ReverieId, AgentVesselInfo>,
    reverie: map<ReverieId, ReverieMessage>,
    peersToFrags: map<PeerId, set<TrackedFragment>>)
  {
    function InsertPeerInfo(p: PeerId, now: Instant): Peers {
      this.(peerInfo := peerInfo[p := PeerInfo(p, now, None)])
    }

    function RemovePeerInfo(p: PeerId): Peers {
      this.(peerInfo := peerInfo - {p})
    }

    function SetAgentVessel(info: AgentVesselInfo): Peers {
      if !info.reverieType.IsAgent() then this
      else
        var cur := info.currentVessel;
        this.(
        peerInfo := if cur in peerInfo then peerInfo[cur := peerInfo[cur].(agentVessel := Some(info))] else peerInfo,
        vesselAgent := if cur == self then Some(info) else vesselAgent)
    }

    function UpdateHeartbeat(p: PeerId, now: Instant): Peers {
      this.(peerInfo := peerInfo[p := if p in peerInfo then peerInfo[p].(lastHeartbeat := now)
      else PeerInfo(p, now, None)])
    }

    predicate IsOffline(p: PeerId, now: Instant, maxTime: int) {
      p !in peerInfo || now - peerInfo[p].lastHeartbeat > maxTime
    }

    function InsertKfragProvider(p: PeerId, r: ReverieId, fragNum: nat): Peers {
      this.(
      kfragProviders := kfragProviders[r := (if r in kfragProviders then kfragProviders[r] else {}) + {p}],
      peersToFrags := peersToFrags[p := TrackedBy(p) + {TrackedFragment(r, fragNum)}])
    }

    function TrackedBy(p: PeerId): set<TrackedFragment> {
      if p in peersToFrags then peersToFrags[p] else {}
    }

    function RemoveKfragProvider(p: PeerId): Peers {
      this.(
      kfragProviders := WithoutProvider(kfragProviders, TrackedBy(p), p),
      peersToFrags := peersToFrags - {p})
    }

    function RemovePeer(p: PeerId): Peers {
      RemoveKfragProvider(p).RemovePeerInfo(p)
    }

    function ProvidersOf(r: ReverieId): set<PeerId> {
      if r in kfragProviders then kfragProviders[r] else {}
    }

    /** The relation that both provider indexes stand for. */
    ghost predicate Provides(p: PeerId, r: ReverieId, fragNum: nat) {
      TrackedFragment(r, fragNum) in TrackedBy(p)
    }

    /** `kfragProviders` is the projection of the relation on peers. */
    ghost predicate IndexesAgree() {
      forall p: PeerId, r: ReverieId :: p in ProvidersOf(r) <==> exists n: nat :: Provides(p, r, n)
    }

    /** Every vessel record is of agent type and sits under its own current vessel. */
    ghost predicate RecordsPlaced() {
      forall p :: p in peerInfo && peerInfo[p].agentVessel.Some? ==>
                    && peerInfo[p].agentVessel.value.reverieType.IsAgent()
                    && peerInfo[p].agentVessel.value.currentVessel == p
    }
  }

  function WithoutProvider(providers: map<ReverieId, set<PeerId>>, frags: set<TrackedFragment>, p: PeerId)
    : map<ReverieId, set<PeerId>>
  {
    map r | r in providers :: if exists f :: f in frags && f.reverieId == r then providers[r] - {p} else providers[r]
  }

  function EmptyPeers(self: PeerId): Peers {
    Peers(self, None, map[], map[], map[], map[], map[], map[])
  }

  /** An agent's record is put on its current vessel if that is known, and on the node itself if it
      is the vessel; a record of any other type is put nowhere, and nobody becomes known by it. */
  lemma AgentVesselSet(m: Peers, info: AgentVesselInfo)
    ensures
      var m' := m.SetAgentVessel(info);
      var sets := info.reverieType.SovereignAgent? || info.reverieType.Agent?;
      && m'.peerInfo.Keys == m.peerInfo.Keys
      && (forall p :: p in m.peerInfo ==>
                        m'.peerInfo[p] == if sets && p == info.currentVessel
                        then PeerInfo(m.peerInfo[p].peerId, m.peerInfo[p].lastHeartbeat, Some(info))
                        else m.peerInfo[p])
      && m'.vesselAgent == (if sets && info.currentVessel == m.self then Some(info) else m.vesselAgent)
  {
  }

  lemma InsertProviderRefines(m: Peers, p: PeerId, r: ReverieId, fragNum: nat)
    requires m.IndexesAgree()
    ensures m.InsertKfragProvider(p, r, fragNum).IndexesAgree()
    ensures forall p': PeerId, r': ReverieId, n: nat ::
              m.InsertKfragProvider(p, r, fragNum).Provides(p', r', n)
              <==> m.Provides(p', r', n) || (p' == p && r' == r && n == fragNum)
  {
    var m' := m.InsertKfragProvider(p, r, fragNum);
    forall p': PeerId, r': ReverieId
      ensures p' in m'.ProvidersOf(r') <==> exists n: nat :: m'.Provides(p', r', n)
    {
      if p' == p && r' == r {
        assert m'.Provides(p, r, fragNum);
      } else {
        assert p' in m'.ProvidersOf(r') <==> p' in m.ProvidersOf(r');
        assert forall n: nat :: m'.Provides(p', r', n) <==> m.Provides(p', r', n);
      }
    }
  }

  /** Removing a provider deletes exactly that peer's triples. */
  lemma RemoveProviderRefines(m: Peers, p: PeerId)
    requires m.IndexesAgree()
    ensures m.RemoveKfragProvider(p).IndexesAgree()
    ensures forall p': PeerId, r: ReverieId, n: nat ::
              m.RemoveKfragProvider(p).Provides(p', r, n) <==> m.Provides(p', r, n) && p' != p
    ensures forall r: ReverieId :: m.RemoveKfragProvider(p).ProvidersOf(r) == m.ProvidersOf(r) - {p}
  {
    var m' := m.RemoveKfragProvider(p);
    forall r: ReverieId
      ensures m'.ProvidersOf(r) == m.ProvidersOf(r) - {p}
    {
      if p in m.ProvidersOf(r) {
        var n: nat :| m.Provides(p, r, n);
        assert TrackedFragment(r, n) in m.TrackedBy(p) && TrackedFragment(r, n).reverieId == r;
      }
    }
    forall p': PeerId, r: ReverieId
      ensures p' in m'.ProvidersOf(r) <==> exists n: nat :: m'.Provides(p', r, n)
    {
      if p' != p {
        assert forall n: nat :: m'.Provides(p', r, n) <==> m.Provides(p', r, n);
      }
    }
  }

  class PeerManager {
    const peerId: PeerId
    var vesselAgent: Option<AgentVesselInfo>
    var peerInfo: map<PeerId, PeerInfo>
    var kfragProviders: map<ReverieId, set<PeerId>>
    var cfrags: map<ReverieId, ReverieCapsulefrag>
    var reverieMetadata: map<ReverieId, AgentVesselInfo>
    var reverie: map<ReverieId, ReverieMessage>
    var peersToFrags: map<PeerId, set<TrackedFragment>>

    ghost function View(): Peers
      reads this
    {
      Peers(peerId, vesselAgent, peerInfo, kfragProviders, cfrags, reverieMetadata, reverie, peersToFrags)
    }

    constructor (peerId: PeerId)
      ensures View() == EmptyPeers(peerId)
    {
      this.peerId := peerId;
      vesselAgent := None;
      peerInfo, kfragProviders, cfrags := map[], map[], map[];
      reverieMetadata, reverie, peersToFrags := map[], map[], map[];
    }

    method InsertPeerInfo(p: PeerId, now: Instant)
      modifies this
      ensures View() == old(View()).InsertPeerInfo(p, now)
      ensures p in peerInfo && peerInfo[p] == PeerInfo(p, now, None)
    {
      peerInfo := peerInfo[p := PeerInfo(p, now, None)];
    }

    method RemovePeerInfo(p: PeerId)
      modifies this
      ensures View() == old(View()).RemovePeerInfo(p)
    {
      peerInfo := peerInfo - {p};
    }

    method SetPeerInfoAgentVessel(info: AgentVesselInfo)
      modifies this
      ensures View() == old(View()).SetAgentVessel(info)
      ensures old(View()).RecordsPlaced() ==> View().RecordsPlaced()
    {
      if !info.reverieType.IsAgent() {
        return;
      }
      var cur := info.currentVessel;
      if cur in peerInfo {
        peerInfo := peerInfo[cur := peerInfo[cur].(agentVessel := Some(info))];
      }
      if cur == peerId {
        vesselAgent := Some(info);
      }
    }

    method UpdatePeerHeartbeat(p: PeerId, now: Instant)
      modifies this
      ensures View() == old(View()).UpdateHeartbeat(p, now)
      ensures p in peerInfo && peerInfo[p].lastHeartbeat == now
      ensures peerInfo[p].agentVessel == if p in old(peerInfo) then old(peerInfo)[p].agentVessel else None
      ensures forall q :: q != p ==> (q in peerInfo <==> q in old(peerInfo))
                                     && (q in peerInfo ==> peerInfo[q] == old(peerInfo)[q])
    {
      if p in peerInfo {
        peerInfo := peerInfo[p := peerInfo[p].(lastHeartbeat := now)];
      } else {
        peerInfo := peerInfo[p := PeerInfo(p, now, None)];
      }
    }

    method InsertKfragProvider(p: PeerId, r: ReverieId, fragNum: nat)
      modifies this
      ensures View() == old(View()).InsertKfragProvider(p, r, fragNum)
    {
      if r in kfragProviders {
        kfragProviders := kfragProviders[r := kfragProviders[r] + {p}];
      } else {
        assert {} + {p} == {p};
        kfragProviders := kfragProviders[r := {p}];
      }
      TrackReverieFragment(p, TrackedFragment(r, fragNum));
    }

    method TrackReverieFragment(p: PeerId, frag: TrackedFragment)
      modifies this`peersToFrags
      ensures peersToFrags == old(peersToFrags)[p := old(View()).TrackedBy(p) + {frag}]
    {
      if p in peersToFrags {
        peersToFrags := peersToFrags[p := peersToFrags[p] + {frag}];
      } else {
        assert {} + {frag} == {frag};
        peersToFrags := peersToFrags[p := {frag}];
      }
    }

    method RemoveKfragProvider(p: PeerId)
      modifies this
      ensures View() == old(View()).RemoveKfragProvider(p)
    {
      if p in peersToFrags {
        var frags := peersToFrags[p];
        var todo := frags;
        while todo != {}
          invariant todo <= frags
          invariant kfragProviders == WithoutProvider(old(kfragProviders), frags - todo, p)
          modifies this`kfragProviders
        {
          var f :| f in todo;
          RemovedOneMore(old(kfragProviders), frags - todo, f, p);
          assert frags - todo + {f} == frags - (todo - {f});
          todo := todo - {f};
          if f.reverieId in kfragProviders {
            kfragProviders := kfragProviders[f.reverieId := kfragProviders[f.reverieId] - {p}];
          }
        }
        assert frags - todo == frags;
        peersToFrags := peersToFrags - {p};
      }
      assert View().kfragProviders == old(View()).RemoveKfragProvider(p).kfragProviders;
    }

    method InsertCfrags(r: ReverieId, cfrag: ReverieCapsulefrag)
      modifies this
      ensures View() == old(View()).(cfrags := old(cfrags)[r := cfrag])
    {
      cfrags := cfrags[r := cfrag];
    }

    method InsertReverieMetadata(r: ReverieId, info: AgentVesselInfo)
      modifies this
      ensures View() == old(View()).(reverieMetadata := old(reverieMetadata)[r := info])
    {
      reverieMetadata := reverieMetadata[r := info];
    }

    method InsertReverie(r: ReverieId, msg: ReverieMessage)
      modifies this
      ensures View() == old(View()).(reverie := old(reverie)[r := msg])
    {
      reverie := reverie[r := msg];
    }
  }

  lemma RemovedOneMore(
    providers: map<ReverieId, set<PeerId>>, done: set<TrackedFragment>, f: TrackedFragment, p: PeerId)
    ensures
      var before := WithoutProvider(providers, done, p);
      WithoutProvider(providers, done + {f}, p)
      == if f.reverieId in before then before[f.reverieId := before[f.reverieId] - {p}] else before
  {
    var before := WithoutProvider(providers, done, p);
    var after := WithoutProvider(providers, done + {f}, p);
    forall r | r in providers
      ensures after[r] == if r == f.reverieId then before[r] - {p} else before[r]
    {
      assert f in done + {f};
      assert (exists g :: g in done + {f} && g.reverieId == r)
        <==> r == f.reverieId || exists g :: g in done && g.reverieId == r;
    }
  }
}
