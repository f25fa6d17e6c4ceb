/** Handlers and the behaviour joined by first-in-first-out queues: requests for a payload and
    the replies to them match, replies find their handler waiting, and what is sent is fresh. */
module HeartbeatSystem {
  import opened Types
  import opened HeartbeatHandlers
  import opened HeartbeatBehaviours
  import opened TeeQuoteParsing

  /** A connection: its handler, how many of its substream requests are unanswered, the events on
      their way up and down, how many payloads were requested and answered, and when the last send
      on the present stream finished. `read` are the payloads that came in on it, `raised` those that
      have reached the behaviour. */
  datatype Connection = Connection(
    peer: PeerId,
    handler: Handler,
    dialing: nat,
    toBehaviour: seq<OutEvent>,
    toHandler: seq<InEvent>,
    requested: nat,
    answered: nat,
    lastSent: Option<nat>,
    read: seq<Attestation>,
    raised: seq<Attestation>)

  /** The start of a send: its payload, and when the previous send on the stream finished. */
  datatype Send = Send(connection: ConnectionId, payload: Attestation, previous: Option<nat>)

  /** `base` and `increments` are the failures counted since the last reset; `signals` holds the
      count at each shutdown signal. `raised` are the inbound payloads that reached the behaviour,
      `generated` those that it has handed to the node. */
  datatype System = System(
    config: Config,
    connections: map<ConnectionId, Connection>,
    behaviour: Behaviour,
    clock: nat,
    nextConnection: ConnectionId,
    sends: seq<Send>,
    base: nat,
    increments: seq<nat>,
    signals: seq<nat>,
    raised: seq<(PeerId, Attestation)>,
    generated: seq<(PeerId, Attestation)>)
  {
    function With(c: ConnectionId, conn: Connection): System {
      this.(connections := connections[c := conn])
    }
  }

  datatype Event =
    | Open(peer: PeerId, now: Time)
    | Close(connection: ConnectionId)
    | Poll(connection: ConnectionId, now: Time, read: ReadPoll, write: WritePoll)
    | Change(connection: ConnectionId, change: ConnectionEvent)
    | RaiseOne(connection: ConnectionId, device: seq<byte>)
    | PollShared
    | HandOne(connection: ConnectionId, now: Time)
    | NewBlock
    | Trigger(production: bool)

  function Boot(config: Config): System {
    System(config, map[], NewBehaviour(config.maxFailures), 0, 0, [], 0, [], [], [], [])
  }

  function PollStep(s: System, c: ConnectionId, now: Time, read: ReadPoll, write: WritePoll): System
    requires c in s.connections
  {
    var conn := s.connections[c];
    var (h, out) := PollHandler(conn.handler, now, read, write);
    var polled := conn.(
                  handler := h,
                  read := if conn.handler.inbound.Some? && read.ReadOk? then conn.read + [read.payload] else conn.read);
    match out
    case Notify(event) =>
      s.With(c, polled.(
             toBehaviour := conn.toBehaviour + [event],
             requested := if event.RequestLocalPayload? then conn.requested + 1 else conn.requested,
             lastSent := if event.ResetFailureCount? then Some(s.clock) else conn.lastSent))
    case RequestSubstream => s.With(c, polled.(dialing := conn.dialing + 1))
    case Pending => s.With(c, polled)
  }

  /** A new stream has no sends yet. */
  function ChangeStep(s: System, c: ConnectionId, change: ConnectionEvent): System
    requires c in s.connections && SwarmAllows(s.connections[c].dialing, change)
  {
    var conn := s.connections[c];
    s.With(c, conn.(handler := OnConnectionEvent(conn.handler, change),
           dialing := DialingAfter(conn.dialing, change),
           lastSent := if change.NegotiatedOutbound? then None else conn.lastSent))
  }

  /** The inbound payloads among these events. */
  function PayloadsIn(events: seq<OutEvent>): seq<Attestation> {
    if events == [] then []
    else (if events[0].HeartbeatPayload? then [events[0].payload] else []) + PayloadsIn(events[1..])
  }

  function From(peer: PeerId, payloads: seq<Attestation>): seq<(PeerId, Attestation)> {
    seq(|payloads|, i requires 0 <= i < |payloads| => (peer, payloads[i]))
  }

  /** `device` is what the attestation device returns if it is asked, the bytes of a new quote. */
  function RaiseStep(s: System, c: ConnectionId, device: seq<byte>): System
    requires c in s.connections && s.connections[c].toBehaviour != []
  {
    var conn := s.connections[c];
    var event := conn.toBehaviour[0];
    var payloads := PayloadsIn([event]);
    s.With(c, conn.(toBehaviour := conn.toBehaviour[1..], raised := conn.raised + payloads))
    .(raised := s.raised + From(conn.peer, payloads),
    behaviour := OnHandlerEvent(s.behaviour, conn.peer, c, event, Report(Quote(s.clock), device)),
    base := if event.ResetFailureCount? then 0 else s.base,
    increments := if event.ResetFailureCount? then []
    else if event.IncrementFailureCount? then s.increments + [event.n] else s.increments)
  }

  function PollSharedStep(s: System): System {
    var (b, out, signalled) := PollBehaviour(s.behaviour);
    var s' := s.(behaviour := b, signals := if signalled then s.signals + [s.behaviour.failCount] else s.signals);
    match out
    case GenerateEvent(peer, payload) => s'.(generated := s.generated + [(peer, payload)])
    case NotifyHandler(_, c, event) =>
      if c in s.connections then s'.With(c, s.connections[c].(toHandler := s.connections[c].toHandler + [event]))
      else s'
    case _ => s'
  }

  function HandStep(s: System, c: ConnectionId, now: Time): System
    requires c in s.connections && s.connections[c].toHandler != []
  {
    var conn := s.connections[c];
    var event := conn.toHandler[0];
    s.With(c, conn.(handler := OnBehaviourEvent(conn.handler, event, now), toHandler := conn.toHandler[1..],
           answered := conn.answered + 1))
    .(sends := if conn.handler.AwaitsPayload() then s.sends + [Send(c, event.payload, conn.lastSent)] else s.sends)
  }

  function EventStep(s: System, e: Event): System {
    match e
    case Open(peer, now) =>
      s.With(s.nextConnection, Connection(peer, NewHandler(s.config, now), 0, [], [], 0, 0, None, [], []))
      .(nextConnection := s.nextConnection + 1)
    case Close(c) => s.(connections := s.connections - {c})
    case Poll(c, now, read, write) => if c in s.connections then PollStep(s, c, now, read, write) else s
    case Change(c, change) =>
      if c in s.connections && SwarmAllows(s.connections[c].dialing, change) then ChangeStep(s, c, change) else s
    case RaiseOne(c, device) =>
      if c in s.connections && s.connections[c].toBehaviour != [] then RaiseStep(s, c, device) else s
    case PollShared => PollSharedStep(s)
    case HandOne(c, now) => if c in s.connections && s.connections[c].toHandler != [] then HandStep(s, c, now) else s
    case NewBlock =>
      var payload := s.behaviour.current;
      s.(behaviour := s.behaviour.(current := payload.(blockHeight := payload.blockHeight + 1)))
    case Trigger(production) =>
      s.(behaviour := TriggerFailure(s.behaviour, production),
      base := if production then s.base else TRIGGERED,
      increments := if production then s.increments else [])
  }

  /** Every step takes one tick of the logical clock. */
  function Next(s: System, e: Event): System {
    EventStep(s, e).(clock := s.clock + 1)
  }

  function Run(s: System, events: seq<Event>): System
    decreases |events|
  {
    if events == [] then s else Run(Next(s, events[0]), events[1..])
  }

  // ---------------------------------------------------------------- counting tokens

  function RequestsIn(events: seq<OutEvent>): nat {
    if events == [] then 0 else (if events[0].RequestLocalPayload? then 1 else 0) + RequestsIn(events[1..])
  }

  function RepliesFor(actions: seq<HeartbeatAction>, c: ConnectionId): nat {
    if actions == [] then 0
    else (if actions[0].HeartbeatRequest? && actions[0].connection == c then 1 else 0) + RepliesFor(actions[1..], c)
  }

  lemma {:induction false} RequestsInAppend(events: seq<OutEvent>, e: OutEvent)
    ensures RequestsIn(events + [e]) == RequestsIn(events) + if e.RequestLocalPayload? then 1 else 0
  {
    if events != [] {
      assert (events + [e])[1..] == events[1..] + [e];
      RequestsInAppend(events[1..], e);
    } else {
      assert [] + [e] == [e];
    }
  }

  lemma {:induction false} RepliesForAppend(actions: seq<HeartbeatAction>, a: HeartbeatAction, c: ConnectionId)
    ensures RepliesFor(actions + [a], c)
         == RepliesFor(actions, c) + if a.HeartbeatRequest? && a.connection == c then 1 else 0
  {
    if actions != [] {
      assert (actions + [a])[1..] == actions[1..] + [a];
      RepliesForAppend(actions[1..], a, c);
    } else {
      assert [] + [a] == [a];
    }
  }

  /** The requests of connection c that have not come back as delivered replies. */
  function Outstanding(b: Behaviour, c: ConnectionId, conn: Connection): nat {
    RequestsIn(conn.toBehaviour) + RepliesFor(b.pending, c) + |conn.toHandler|
  }

  ghost predicate Matched(b: Behaviour, c: ConnectionId, conn: Connection) {
    && Outstanding(b, c, conn) == (if conn.handler.AwaitsPayload() then 1 else 0)
    && conn.requested == conn.answered + Outstanding(b, c, conn)
  }

  // ---------------------------------------------------------------- freshness

  predicate Fresh(payload: Attestation, since: nat) {
    payload.quote.Some? && payload.quote.value.generatedAt > since
  }

  /** Whether the payload will be fresh once these events have been handled. */
  predicate EndsFresh(events: seq<OutEvent>, already: bool) {
    already || RefreshAttestation in events
  }

  /** Every request among these events will be served with a fresh payload. */
  predicate ServedFresh(events: seq<OutEvent>, already: bool) {
    if events == [] then true
    else
      match events[0]
      case RefreshAttestation => ServedFresh(events[1..], true)
      case RequestLocalPayload => already && ServedFresh(events[1..], already)
      case _ => ServedFresh(events[1..], already)
  }

  lemma {:induction false} ServedFreshAppend(events: seq<OutEvent>, e: OutEvent, already: bool)
    requires ServedFresh(events, already) && (e.RequestLocalPayload? ==> EndsFresh(events, already))
    ensures ServedFresh(events + [e], already)
  {
    if events != [] {
      assert (events + [e])[1..] == events[1..] + [e];
      ServedFreshAppend(events[1..], e, already || events[0].RefreshAttestation?);
    }
  }

  lemma {:induction false} ServedFreshMonotone(events: seq<OutEvent>, already: bool)
    requires ServedFresh(events, already)
    ensures ServedFresh(events, true)
  {
    if events != [] && !events[0].RefreshAttestation? {
      ServedFreshMonotone(events[1..], already);
    }
  }

  lemma {:induction false} NoRequestsServedFresh(events: seq<OutEvent>, already: bool)
    requires RequestsIn(events) == 0
    ensures ServedFresh(events, already)
  {
    if events != [] {
      NoRequestsServedFresh(events[1..], already || events[0].RefreshAttestation?);
    }
  }

  ghost predicate RepliesFresh(b: Behaviour, c: ConnectionId, conn: Connection, since: nat) {
    && (forall a :: a in b.pending && a.HeartbeatRequest? && a.connection == c ==> Fresh(a.inEvent.payload, since))
    && (forall e :: e in conn.toHandler ==> Fresh(e.payload, since))
  }

  ghost predicate FreshFrom(b: Behaviour, c: ConnectionId, conn: Connection, since: nat) {
    && ServedFresh(conn.toBehaviour, Fresh(b.current, since))
    && (conn.handler.outbound.Some? && conn.handler.outbound.value.Requesting? ==>
          EndsFresh(conn.toBehaviour, Fresh(b.current, since)))
    && RepliesFresh(b, c, conn, since)
  }

  ghost predicate ConnectionOk(s: System, c: ConnectionId, conn: Connection) {
    && Matched(s.behaviour, c, conn)
    && DialingMatches(Endpoint(conn.handler, conn.dialing))
    && (conn.lastSent.Some? ==> conn.lastSent.value < s.clock && FreshFrom(s.behaviour, c, conn, conn.lastSent.value))
  }

  // ---------------------------------------------------------------- counting failures

  function Sum(ns: seq<nat>): nat {
    if ns == [] then 0 else Sum(ns[..|ns| - 1]) + ns[|ns| - 1]
  }

  function Capped(n: nat): nat {
    if n <= 0xFFFF_FFFF then n else 0xFFFF_FFFF
  }

  ghost predicate CounterOk(s: System) {
    && s.behaviour.maxFailures == s.config.maxFailures
    && s.behaviour.failCount == Capped(s.base + Sum(s.increments))
    && (forall i :: 0 <= i < |s.signals| ==> s.signals[i] > s.config.maxFailures)
  }

  ghost predicate SendsFresh(sends: seq<Send>) {
    forall i :: 0 <= i < |sends| && sends[i].previous.Some? ==> Fresh(sends[i].payload, sends[i].previous.value)
  }

  ghost predicate Inv(s: System) {
    && (forall c :: c in s.connections ==> c < s.nextConnection && ConnectionOk(s, c, s.connections[c]))
    && (forall a :: a in s.behaviour.pending && a.HeartbeatRequest? ==> a.connection < s.nextConnection)
    && CounterOk(s)
    && SendsFresh(s.sends)
  }

  // ---------------------------------------------------------------- steps

  lemma {:induction false} NoRepliesFor(actions: seq<HeartbeatAction>, c: ConnectionId)
    requires forall a :: a in actions && a.HeartbeatRequest? ==> a.connection != c
    ensures RepliesFor(actions, c) == 0
  {
    if actions != [] {
      NoRepliesFor(actions[1..], c);
    }
  }

  /** Connections whose own state is untouched stay in order while others move. */
  lemma OthersOk(s: System, s': System, c: ConnectionId, conn: Connection)
    requires ConnectionOk(s, c, conn) && s.clock <= s'.clock
    requires RepliesFor(s'.behaviour.pending, c) == RepliesFor(s.behaviour.pending, c)
    requires forall a :: a in s'.behaviour.pending && a.HeartbeatRequest? && a.connection == c ==>
                           a in s.behaviour.pending
    requires s'.behaviour.current.quote in {s.behaviour.current.quote, Some(Quote(s.clock))}
    ensures ConnectionOk(s', c, conn)
  {
    if conn.lastSent.Some? && Fresh(s'.behaviour.current, conn.lastSent.value) {
      ServedFreshMonotone(conn.toBehaviour, Fresh(s.behaviour.current, conn.lastSent.value));
    }
  }

  /** How a poll moves between waiting states, and what it says on the way. */
  ghost predicate PollMoves(h: Handler, h': Handler, out: HandlerPoll) {
    var asks := out.Notify? && out.event.RequestLocalPayload?;
    && (h'.AwaitsPayload() <==> h.AwaitsPayload() || asks)
    && (asks ==> h.outbound.Some? && h.outbound.value.Requesting? && !h.AwaitsPayload())
    && (h'.outbound.Some? && h'.outbound.value.Requesting? ==>
          (h.outbound.Some? && h.outbound.value.Requesting?) || out == Notify(RefreshAttestation))
    && (out == Notify(ResetFailureCount) ==> h'.outbound.Some? && h'.outbound.value.Idle?)
    && (h'.outbound == Some(Negotiating) <==> h.outbound == Some(Negotiating) || out.RequestSubstream?)
    && (out.RequestSubstream? ==> h.outbound == None)
  }

  lemma PollMovesOk(h: Handler, now: Time, read: ReadPoll, write: WritePoll)
    ensures PollMoves(h, PollHandler(h, now, read, write).0, PollHandler(h, now, read, write).1)
  {
  }

  lemma NotifiedConnectionOk(
    s: System, s': System, c: ConnectionId, conn: Connection, h: Handler, event: OutEvent,
    conn': Connection)
    requires ConnectionOk(s, c, conn) && PollMoves(conn.handler, h, Notify(event))
    requires s'.behaviour == s.behaviour && s'.clock == s.clock + 1
    requires conn' == conn.(
                      read := conn'.read,
                      handler := h,
                      toBehaviour := conn.toBehaviour + [event],
                      requested := if event.RequestLocalPayload? then conn.requested + 1 else conn.requested,
                      lastSent := if event.ResetFailureCount? then Some(s.clock) else conn.lastSent)
    ensures ConnectionOk(s', c, conn')
  {
    RequestsInAppend(conn.toBehaviour, event);
    assert Matched(s'.behaviour, c, conn');
    if event.ResetFailureCount? {
      NoRequestsServedFresh(conn'.toBehaviour, Fresh(s.behaviour.current, s.clock));
      NoneOutstanding(s.behaviour, c, conn');
    } else if conn.lastSent.Some? {
      ServedFreshAppend(conn.toBehaviour, event, Fresh(s.behaviour.current, conn.lastSent.value));
    }
  }

  lemma PollKeepsConnection(s: System, c: ConnectionId, now: Time, read: ReadPoll, write: WritePoll)
    requires Inv(s) && c in s.connections
    ensures ConnectionOk(Next(s, Poll(c, now, read, write)), c, PollStep(s, c, now, read, write).connections[c])
  {
    var conn := s.connections[c];
    var polled := PollHandler(conn.handler, now, read, write);
    var conn' := PollStep(s, c, now, read, write).connections[c];
    var s' := Next(s, Poll(c, now, read, write));
    PollMovesOk(conn.handler, now, read, write);
    if polled.1.Notify? {
      NotifiedConnectionOk(s, s', c, conn, polled.0, polled.1.event, conn');
    } else {
      OthersOk(s, s', c, conn.(handler := conn'.handler, dialing := conn'.dialing));
    }
  }

  lemma {:induction false} NoneIn(actions: seq<HeartbeatAction>, c: ConnectionId)
    requires RepliesFor(actions, c) == 0
    ensures forall a :: a in actions && a.HeartbeatRequest? ==> a.connection != c
  {
    if actions != [] {
      NoneIn(actions[1..], c);
    }
  }

  lemma NoneOutstanding(b: Behaviour, c: ConnectionId, conn: Connection)
    requires Outstanding(b, c, conn) == 0
    ensures forall since :: RepliesFresh(b, c, conn, since)
  {
    NoneIn(b.pending, c);
  }

  lemma PollKeepsInv(s: System, c: ConnectionId, now: Time, read: ReadPoll, write: WritePoll)
    requires Inv(s) && c in s.connections
    ensures Inv(Next(s, Poll(c, now, read, write)))
  {
    PollKeepsConnection(s, c, now, read, write);
    var s' := Next(s, Poll(c, now, read, write));
    forall d | d in s.connections && d != c
      ensures ConnectionOk(s', d, s.connections[d])
    {
      OthersOk(s, s', d, s.connections[d]);
    }
  }

  lemma ChangeKeepsInv(s: System, c: ConnectionId, change: ConnectionEvent)
    requires Inv(s) && c in s.connections && SwarmAllows(s.connections[c].dialing, change)
    ensures Inv(Next(s, Change(c, change)))
  {
    var s' := Next(s, Change(c, change));
    forall d | d in s.connections && d != c
      ensures ConnectionOk(s', d, s.connections[d])
    {
      OthersOk(s, s', d, s.connections[d]);
    }
    OthersOk(s, s', c, s.connections[c]);
  }

  lemma RaiseKeepsConnection(s: System, c: ConnectionId, device: seq<byte>)
    requires Inv(s) && c in s.connections && s.connections[c].toBehaviour != []
    ensures ConnectionOk(Next(s, RaiseOne(c, device)), c, RaiseStep(s, c, device).connections[c])
  {
    var conn := s.connections[c];
    var event, rest := conn.toBehaviour[0], conn.toBehaviour[1..];
    var b := s.behaviour;
    var b' := RaiseStep(s, c, device).behaviour;
    assert conn.toBehaviour == [event] + rest;
    if |b'.pending| > |b.pending| {
      RepliesForAppend(b.pending, b'.pending[|b.pending|], c);
      assert b'.pending == b.pending + [b'.pending[|b.pending|]];
    }
    if conn.lastSent.Some? && event.RefreshAttestation? {
      assert ServedFresh(rest, true);
    }
  }

  lemma RaiseKeepsOther(s: System, c: ConnectionId, device: seq<byte>, d: ConnectionId)
    requires Inv(s) && c in s.connections && s.connections[c].toBehaviour != []
    requires d in s.connections && d != c
    ensures ConnectionOk(Next(s, RaiseOne(c, device)), d, s.connections[d])
  {
    var b, b' := s.behaviour, RaiseStep(s, c, device).behaviour;
    if |b'.pending| > |b.pending| {
      RepliesForAppend(b.pending, b'.pending[|b.pending|], d);
      assert b'.pending == b.pending + [b'.pending[|b.pending|]];
    }
    OthersOk(s, Next(s, RaiseOne(c, device)), d, s.connections[d]);
  }

  lemma CountedFailure(s: System, n: nat)
    requires CounterOk(s)
    ensures SaturatingAdd(s.behaviour.failCount, n) == Capped(s.base + Sum(s.increments + [n]))
  {
    assert (s.increments + [n])[..|s.increments|] == s.increments;
  }

  lemma RaiseKeepsInv(s: System, c: ConnectionId, device: seq<byte>)
    requires Inv(s) && c in s.connections && s.connections[c].toBehaviour != []
    ensures Inv(Next(s, RaiseOne(c, device)))
  {
    var s' := Next(s, RaiseOne(c, device));
    var event := s.connections[c].toBehaviour[0];
    RaiseKeepsConnection(s, c, device);
    forall d | d in s.connections && d != c
      ensures ConnectionOk(s', d, s.connections[d])
    {
      RaiseKeepsOther(s, c, device, d);
    }
    if event.IncrementFailureCount? {
      CountedFailure(s, event.n);
    }
  }

  lemma PollSharedKeepsInv(s: System)
    requires Inv(s)
    ensures Inv(Next(s, PollShared))
  {
    var s' := Next(s, PollShared);
    if s.behaviour.pending != [] {
      var a := s.behaviour.pending[0];
      forall d | d in s'.connections
        ensures ConnectionOk(s', d, s'.connections[d])
      {
        if a.HeartbeatRequest? && a.connection == d {
          assert ConnectionOk(s, d, s.connections[d]);
        } else {
          OthersOk(s, s', d, s.connections[d]);
        }
      }
    } else {
      forall d | d in s'.connections
        ensures ConnectionOk(s', d, s'.connections[d])
      {
        OthersOk(s, s', d, s.connections[d]);
      }
    }
  }

  lemma HandKeepsInv(s: System, c: ConnectionId, now: Time)
    requires Inv(s) && c in s.connections && s.connections[c].toHandler != []
    ensures Inv(Next(s, HandOne(c, now)))
    ensures s.connections[c].handler.AwaitsPayload()
  {
    var s' := Next(s, HandOne(c, now));
    var conn := s.connections[c];
    assert ConnectionOk(s, c, conn);
    assert conn.toHandler[0] in conn.toHandler;
    forall d | d in s.connections && d != c
      ensures ConnectionOk(s', d, s.connections[d])
    {
      OthersOk(s, s', d, s.connections[d]);
    }
  }

  lemma QuietKeepsInv(s: System, s': System)
    requires Inv(s) && s'.connections.Keys <= s.connections.Keys
    requires forall c :: c in s'.connections ==> s'.connections[c] == s.connections[c]
    requires s'.nextConnection == s.nextConnection && s'.clock == s.clock + 1 && s'.sends == s.sends
    requires s'.behaviour.pending in {s.behaviour.pending, s.behaviour.pending + [ShutdownIfMaxFailuresExceeded]}
    requires s'.behaviour.current.quote == s.behaviour.current.quote
    requires CounterOk(s')
    ensures Inv(s')
  {
    forall c | c in s'.connections
      ensures ConnectionOk(s', c, s'.connections[c])
    {
      RepliesForAppend(s.behaviour.pending, ShutdownIfMaxFailuresExceeded, c);
      OthersOk(s, s', c, s.connections[c]);
    }
  }

  lemma OpenKeepsInv(s: System, peer: PeerId, now: Time)
    requires Inv(s)
    ensures Inv(Next(s, Open(peer, now)))
  {
    var s' := Next(s, Open(peer, now));
    NoRepliesFor(s.behaviour.pending, s.nextConnection);
    forall d | d in s.connections
      ensures ConnectionOk(s', d, s.connections[d])
    {
      OthersOk(s, s', d, s.connections[d]);
    }
  }

  lemma StepKeepsInv(s: System, e: Event)
    requires Inv(s)
    ensures Inv(Next(s, e))
  {
    if EventStep(s, e) == s {
      QuietKeepsInv(s, Next(s, e));
    } else {
      match e
      case Open(peer, now) => OpenKeepsInv(s, peer, now);
      case Close(_) => QuietKeepsInv(s, Next(s, e));
      case Poll(c, now, read, write) => PollKeepsInv(s, c, now, read, write);
      case Change(c, change) => ChangeKeepsInv(s, c, change);
      case RaiseOne(c, device) => RaiseKeepsInv(s, c, device);
      case PollShared => PollSharedKeepsInv(s);
      case HandOne(c, now) => HandKeepsInv(s, c, now);
      case NewBlock => QuietKeepsInv(s, Next(s, e));
      case Trigger(_) => QuietKeepsInv(s, Next(s, e));
    }
  }

  lemma {:induction false} RunKeepsInv(s: System, events: seq<Event>)
    requires Inv(s)
    ensures Inv(Run(s, events))
    decreases |events|
  {
    if events != [] {
      StepKeepsInv(s, events[0]);
      RunKeepsInv(Next(s, events[0]), events[1..]);
    }
  }

  // ---------------------------------------------------------------- what follows for every run

  /** Requests and replies match one to one, at most one is outstanding, and it is exactly while
      the handler waits. */
  lemma RequestsMatchReplies(config: Config, events: seq<Event>, c: ConnectionId)
    requires c in Run(Boot(config), events).connections
    ensures
      var s := Run(Boot(config), events);
      var conn := s.connections[c];
      && conn.requested == conn.answered + (if conn.handler.AwaitsPayload() then 1 else 0)
      && Outstanding(s.behaviour, c, conn) == conn.requested - conn.answered
      && (conn.toHandler != [] ==> conn.handler.AwaitsPayload())
  {
    RunKeepsInv(Boot(config), events);
    assert ConnectionOk(Run(Boot(config), events), c, Run(Boot(config), events).connections[c]);
  }

  /** Every heartbeat after the first on a stream carries a quote generated after the previous
      send on that stream finished. */
  lemma LaterHeartbeatsAreFresh(config: Config, events: seq<Event>)
    ensures SendsFresh(Run(Boot(config), events).sends)
  {
    RunKeepsInv(Boot(config), events);
  }

  /** The failure count is the capped sum of the failures since the last reset, and a shutdown
      is only signalled above the limit. */
  lemma FailuresCounted(config: Config, events: seq<Event>)
    ensures CounterOk(Run(Boot(config), events))
  {
    RunKeepsInv(Boot(config), events);
  }

  /** A shutdown is signalled exactly when a queued check is popped while the count since the
      last reset exceeds the limit. */
  lemma ShutdownIff(config: Config, events: seq<Event>, e: Event)
    ensures
      var s := Run(Boot(config), events);
      |Next(s, e).signals| > |s.signals|
      <==> && e.PollShared? && s.behaviour.pending != [] && s.behaviour.pending[0].ShutdownIfMaxFailuresExceeded?
           && Capped(s.base + Sum(s.increments)) > config.maxFailures
  {
    RunKeepsInv(Boot(config), events);
    ConfigKept(Boot(config), events);
  }

  lemma {:induction false} ConfigKept(s: System, events: seq<Event>)
    ensures Run(s, events).config == s.config
    decreases |events|
  {
    if events != [] {
      ConfigKept(Next(s, events[0]), events[1..]);
    }
  }

  // ---------------------------------------------------------------- what is sent arrives as it was

  /** The device's bytes parse to the quote it just made, and what was received came off the wire. */
  ghost predicate Genuine(codec: Codec<Quote>, s: System, e: Event) {
    && (e.RaiseOne? ==> codec.parseQuote(e.device) == Some(Quote(s.clock)))
    && (e.Poll? && e.read.ReadOk? ==> exists bytes :: ReadFrame(codec, bytes).0 == Ok(e.read.payload))
  }

  ghost predicate GenuineRun(codec: Codec<Quote>, s: System, events: seq<Event>)
    decreases |events|
  {
    events != [] ==> Genuine(codec, s, events[0]) && GenuineRun(codec, Next(s, events[0]), events[1..])
  }

  predicate ActionMatches(codec: Codec<Quote>, a: HeartbeatAction) {
    match a
    case HeartbeatEvent(_, payload) => QuoteMatches(codec, payload)
    case HeartbeatRequest(_, _, event) => QuoteMatches(codec, event.payload)
    case ShutdownIfMaxFailuresExceeded => true
  }

  ghost predicate ConnectionMatches(codec: Codec<Quote>, conn: Connection) {
    && (forall e :: e in conn.toBehaviour && e.HeartbeatPayload? ==> QuoteMatches(codec, e.payload))
    && (forall e :: e in conn.toHandler ==> QuoteMatches(codec, e.payload))
  }

  /** Every attestation anywhere in the system has the quote that its bytes parse to. */
  ghost predicate AllMatch(codec: Codec<Quote>, s: System) {
    && QuoteMatches(codec, s.behaviour.current)
    && (forall a :: a in s.behaviour.pending ==> ActionMatches(codec, a))
    && (forall c :: c in s.connections ==> ConnectionMatches(codec, s.connections[c]))
    && (forall i :: 0 <= i < |s.sends| ==> QuoteMatches(codec, s.sends[i].payload))
  }

  lemma PollMatches(codec: Codec<Quote>, s: System, c: ConnectionId, now: Time, read: ReadPoll, write: WritePoll)
    requires AllMatch(codec, s) && Genuine(codec, s, Poll(c, now, read, write)) && c in s.connections
    ensures AllMatch(codec, PollStep(s, c, now, read, write))
  {
    assert ConnectionMatches(codec, s.connections[c]);
    if read.ReadOk? {
      var bytes :| ReadFrame(codec, bytes).0 == Ok(read.payload);
      AttestationsMadeMatch(codec, NoAttestation(), Report(Quote(0), []), bytes);
    }
  }

  lemma PollSharedMatches(codec: Codec<Quote>, s: System)
    requires AllMatch(codec, s)
    ensures AllMatch(codec, PollSharedStep(s))
  {
    if s.behaviour.pending != [] {
      assert s.behaviour.pending[0] in s.behaviour.pending;
      assert ActionMatches(codec, s.behaviour.pending[0]);
    }
  }

  lemma RaiseMatches(codec: Codec<Quote>, s: System, c: ConnectionId, device: seq<byte>)
    requires AllMatch(codec, s) && Genuine(codec, s, RaiseOne(c, device))
    requires c in s.connections && s.connections[c].toBehaviour != []
    ensures AllMatch(codec, RaiseStep(s, c, device))
  {
    assert ConnectionMatches(codec, s.connections[c]);
    assert s.connections[c].toBehaviour[0] in s.connections[c].toBehaviour;
    AttestationsMadeMatch(codec, s.behaviour.current, Report(Quote(s.clock), device), []);
  }

  lemma HandMatches(codec: Codec<Quote>, s: System, c: ConnectionId, now: Time)
    requires AllMatch(codec, s) && c in s.connections && s.connections[c].toHandler != []
    ensures AllMatch(codec, HandStep(s, c, now))
  {
    assert ConnectionMatches(codec, s.connections[c]);
    assert s.connections[c].toHandler[0] in s.connections[c].toHandler;
  }

  lemma StepMatches(codec: Codec<Quote>, s: System, e: Event)
    requires AllMatch(codec, s) && Genuine(codec, s, e)
    ensures AllMatch(codec, Next(s, e))
  {
    if EventStep(s, e) != s {
      match e
      case Poll(c, now, read, write) => PollMatches(codec, s, c, now, read, write);
      case PollShared => PollSharedMatches(codec, s);
      case RaiseOne(c, device) => RaiseMatches(codec, s, c, device);
      case HandOne(c, now) => HandMatches(codec, s, c, now);
      case Change(c, change) => assert ConnectionMatches(codec, s.connections[c]);
      case _ =>
    }
  }

  lemma {:induction false} RunMatches(codec: Codec<Quote>, s: System, events: seq<Event>)
    requires AllMatch(codec, s) && GenuineRun(codec, s, events)
    ensures AllMatch(codec, Run(s, events))
    decreases |events|
  {
    if events != [] {
      StepMatches(codec, s, events[0]);
      RunMatches(codec, Next(s, events[0]), events[1..]);
    }
  }

  /** Over any run, every heartbeat that is sent and fits a frame arrives exactly as it was sent,
      quote included, whatever follows it on the stream. */
  lemma HeartbeatsArriveAsSent(codec: Codec<Quote>, config: Config, events: seq<Event>, i: nat, rest: seq<byte>)
    requires Inverse(codec) && GenuineRun(codec, Boot(config), events)
    requires i < |Run(Boot(config), events).sends| && Sendable(codec, Run(Boot(config), events).sends[i].payload)
    ensures
      var payload := Run(Boot(config), events).sends[i].payload;
      ReadFrame(codec, Frame(codec, payload) + rest) == (Ok(payload), rest)
  {
    RunMatches(codec, Boot(config), events);
    SendableIsFramable(codec, Run(Boot(config), events).sends[i].payload);
    FrameRoundTrip(codec, Run(Boot(config), events).sends[i].payload, rest);
  }

  // ---------------------------------------------------------------- inbound payloads are passed on

  /** The inbound payloads waiting in the shared queue. */
  function EventsIn(actions: seq<HeartbeatAction>): seq<(PeerId, Attestation)> {
    if actions == [] then []
    else (if actions[0].HeartbeatEvent? then [(actions[0].peer, actions[0].payload)] else []) + EventsIn(actions[1..])
  }

  lemma {:induction false} PayloadsInAppend(events: seq<OutEvent>, e: OutEvent)
    ensures PayloadsIn(events + [e]) == PayloadsIn(events) + if e.HeartbeatPayload? then [e.payload] else []
  {
    if events == [] {
      assert [] + [e] == [e] && [e][1..] == [];
    } else {
      assert (events + [e])[1..] == events[1..] + [e];
      PayloadsInAppend(events[1..], e);
      var first := if events[0].HeartbeatPayload? then [events[0].payload] else [];
      Regroup(first, PayloadsIn(events[1..]), if e.HeartbeatPayload? then [e.payload] else []);
    }
  }

  lemma {:induction false} EventsInAppend(actions: seq<HeartbeatAction>, a: HeartbeatAction)
    ensures EventsIn(actions + [a]) == EventsIn(actions) + if a.HeartbeatEvent? then [(a.peer, a.payload)] else []
  {
    if actions == [] {
      assert [] + [a] == [a] && [a][1..] == [];
    } else {
      assert (actions + [a])[1..] == actions[1..] + [a];
      EventsInAppend(actions[1..], a);
      var first := if actions[0].HeartbeatEvent? then [(actions[0].peer, actions[0].payload)] else [];
      Regroup(first, EventsIn(actions[1..]), if a.HeartbeatEvent? then [(a.peer, a.payload)] else []);
    }
  }

  /** What was read on a connection has reached the behaviour or is on its way there, in order. */
  ghost predicate PassesOn(conn: Connection) {
    conn.read == conn.raised + PayloadsIn(conn.toBehaviour)
  }

  /** What has reached the behaviour was handed to the node or is queued, in order. */
  ghost predicate AllPassedOn(s: System) {
    && (forall c :: c in s.connections ==> PassesOn(s.connections[c]))
    && s.raised == s.generated + EventsIn(s.behaviour.pending)
  }

  lemma PollPassesOn(s: System, c: ConnectionId, now: Time, read: ReadPoll, write: WritePoll)
    requires c in s.connections && PassesOn(s.connections[c])
    ensures PassesOn(PollStep(s, c, now, read, write).connections[c])
  {
    var conn := s.connections[c];
    var out := PollHandler(conn.handler, now, read, write).1;
    if out.Notify? {
      PayloadsInAppend(conn.toBehaviour, out.event);
    }
  }

  lemma RaisePassesOn(s: System, c: ConnectionId, device: seq<byte>)
    requires AllPassedOn(s) && c in s.connections && s.connections[c].toBehaviour != []
    ensures AllPassedOn(RaiseStep(s, c, device))
  {
    var conn, s' := s.connections[c], RaiseStep(s, c, device);
    var event, rest := conn.toBehaviour[0], conn.toBehaviour[1..];
    var first := if event.HeartbeatPayload? then [event.payload] else [];
    assert PayloadsIn([event]) == first by {
      assert [event][1..] == [];
    }
    Regroup(conn.raised, first, PayloadsIn(rest));
    RaiseQueues(s.behaviour, conn.peer, c, event, Report(Quote(s.clock), device));
    Regroup(s.generated, EventsIn(s.behaviour.pending), From(conn.peer, first));
  }

  lemma RaiseQueues(b: Behaviour, peer: PeerId, c: ConnectionId, event: OutEvent, report: HeartbeatBehaviours.Report)
    ensures EventsIn(OnHandlerEvent(b, peer, c, event, report).pending)
         == EventsIn(b.pending) + From(peer, if event.HeartbeatPayload? then [event.payload] else [])
  {
    OneActionQueued(b, peer, c, event, report);
    var b' := OnHandlerEvent(b, peer, c, event, report);
    if |b'.pending| > |b.pending| {
      EventsInAppend(b.pending, b'.pending[|b.pending|]);
      assert b'.pending == b.pending + [b'.pending[|b.pending|]];
    }
  }

  lemma PollSharedPassesOn(s: System)
    requires AllPassedOn(s)
    ensures AllPassedOn(PollSharedStep(s))
  {
    if s.behaviour.pending != [] {
      var a := s.behaviour.pending[0];
      var first := if a.HeartbeatEvent? then [(a.peer, a.payload)] else [];
      Regroup(s.generated, first, EventsIn(s.behaviour.pending[1..]));
    }
  }

  lemma HandPassesOn(s: System, c: ConnectionId, now: Time)
    requires AllPassedOn(s) && c in s.connections && s.connections[c].toHandler != []
    ensures AllPassedOn(HandStep(s, c, now))
  {
    assert PassesOn(HandStep(s, c, now).connections[c]);
  }

  lemma StepPassesOn(s: System, e: Event)
    requires AllPassedOn(s)
    ensures AllPassedOn(Next(s, e))
  {
    if EventStep(s, e) != s {
      match e
      case Poll(c, now, read, write) => PollPassesOn(s, c, now, read, write);
      case RaiseOne(c, device) => RaisePassesOn(s, c, device);
      case PollShared => PollSharedPassesOn(s);
      case HandOne(c, now) => HandPassesOn(s, c, now);
      case Change(c, change) => assert PassesOn(ChangeStep(s, c, change).connections[c]);
      case Trigger(_) => EventsInAppend(s.behaviour.pending, ShutdownIfMaxFailuresExceeded);
      case _ =>
    }
  }

  /** Over any run, the heartbeats read on a connection reach the node's queue of events in order:
      none is lost, repeated or invented on the way. */
  lemma {:induction false} InboundPassedOn(s: System, events: seq<Event>)
    requires AllPassedOn(s)
    ensures AllPassedOn(Run(s, events))
    decreases |events|
  {
    if events != [] {
      StepPassesOn(s, events[0]);
      InboundPassedOn(Next(s, events[0]), events[1..]);
    }
  }

  lemma HeartbeatsReachNode(config: Config, events: seq<Event>)
    ensures AllPassedOn(Run(Boot(config), events))
  {
    InboundPassedOn(Boot(config), events);
  }
}
