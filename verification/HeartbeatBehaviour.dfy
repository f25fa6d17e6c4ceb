/** The half of the heartbeat protocol that all connections share: one queue of actions, the
    payload to send next, and the count of failures that shuts the node down. */
module HeartbeatBehaviours {
  import opened Types
  import opened HeartbeatHandlers
  import TeeQuoteParsing

  type ConnectionId = nat

  const U32_MAX: nat := 0xFFFF_FFFF

  /** What a manual trigger sets the failure count to. */
  const TRIGGERED: nat := 10_000

  datatype HeartbeatAction =
    | HeartbeatEvent(peer: PeerId, payload: Attestation)
    | HeartbeatRequest(peer: PeerId, connection: ConnectionId, inEvent: InEvent)
    | ShutdownIfMaxFailuresExceeded

  datatype Behaviour = Behaviour(maxFailures: nat, pending: seq<HeartbeatAction>, current: Attestation, failCount: nat)

  datatype BehaviourPoll =
    | BehaviourPending
    | GenerateEvent(peer: PeerId, payload: Attestation)
    | NotifyHandler(peer: PeerId, connection: ConnectionId, event: InEvent)

  function NewBehaviour(maxFailures: nat): Behaviour {
    Behaviour(maxFailures, [], TeeQuoteParsing.NoAttestation(), 0)
  }

  function SaturatingAdd(a: nat, b: nat): nat {
    if a + b <= U32_MAX then a + b else U32_MAX
  }

  type Report = TeeQuoteParsing.Report<Quote>

  /** `report` is what the attestation device returns if it is asked. */
  function OnHandlerEvent(
    b: Behaviour, peer: PeerId, connection: ConnectionId, event: OutEvent, report: Report): Behaviour
  {
    match event
    case HeartbeatPayload(payload) => b.(pending := b.pending + [HeartbeatEvent(peer, payload)])
    case ResetFailureCount => b.(failCount := 0)
    case RequestLocalPayload =>
      b.(pending := b.pending + [HeartbeatRequest(peer, connection, SendLatestPayload(b.current))])
    case IncrementFailureCount(n) =>
      b.(failCount := SaturatingAdd(b.failCount, n), pending := b.pending + [ShutdownIfMaxFailuresExceeded])
    case RefreshAttestation => b.(current := TeeQuoteParsing.SetTeeAttestation(b.current, report))
  }

  /** The next state, what the swarm is told, and whether a shutdown is signalled. */
  function PollBehaviour(b: Behaviour): (Behaviour, BehaviourPoll, bool) {
    if b.pending == [] then (b, BehaviourPending, false)
    else
      var rest := b.(pending := b.pending[1..]);
      match b.pending[0]
      case HeartbeatEvent(peer, payload) => (rest, GenerateEvent(peer, payload), false)
      case HeartbeatRequest(peer, connection, event) => (rest, NotifyHandler(peer, connection, event), false)
      case ShutdownIfMaxFailuresExceeded => (rest, BehaviourPending, b.failCount > b.maxFailures)
  }

  function TriggerFailure(b: Behaviour, production: bool): Behaviour {
    if production then b
    else b.(failCount := TRIGGERED, pending := b.pending + [ShutdownIfMaxFailuresExceeded])
  }

  /** Each handler event queues exactly one action, if any: a payload goes to the node, a request is
      answered on its own connection with the payload as it stands, and a failure is checked. */
  lemma OneActionQueued(b: Behaviour, peer: PeerId, connection: ConnectionId, event: OutEvent, report: Report)
    ensures
      var b' := OnHandlerEvent(b, peer, connection, event, report);
      && b'.pending == b.pending + (match event
                                    case HeartbeatPayload(payload) => [HeartbeatEvent(peer, payload)]
                                    case RequestLocalPayload =>
                                      [HeartbeatRequest(peer, connection, SendLatestPayload(b.current))]
                                    case IncrementFailureCount(_) => [ShutdownIfMaxFailuresExceeded]
                                    case ResetFailureCount => []
                                    case RefreshAttestation => [])
      && (b'.current != b.current ==> event.RefreshAttestation?)
      && b'.current.blockHeight == b.current.blockHeight
      && (event.RefreshAttestation? ==> b'.current.quote == Some(report.quote) && b'.current.bytes
                                                                                  == Some(report.bytes))
      && (b'.failCount != b.failCount ==> event.ResetFailureCount? || event.IncrementFailureCount?)
  {
  }

  /** Actions waiting in the queue, polled one by one. */
  function PollTimes(b: Behaviour, n: nat): Behaviour
    decreases n
  {
    if n == 0 then b else PollTimes(PollBehaviour(b).0, n - 1)
  }

  lemma {:induction false} PollTimesDrains(b: Behaviour, n: nat)
    requires n <= |b.pending|
    ensures PollTimes(b, n) == b.(pending := b.pending[n..])
    decreases n
  {
    if n == 0 {
      assert b.pending[0..] == b.pending;
    } else {
      var rest := PollBehaviour(b).0;
      PollTimesDrains(rest, n - 1);
      assert rest.pending[n - 1..] == b.pending[n..];
    }
  }

  /** Outside production a manual trigger shuts the node down once what was queued before it has been
      polled, if the limit is below 10000; in production it does nothing. */
  lemma TriggerShutsDownIff(b: Behaviour, production: bool)
    ensures production ==> TriggerFailure(b, production) == b
    ensures
      var n := |b.pending|;
      !production ==>
        && |TriggerFailure(b, production).pending| == n + 1
        && (PollBehaviour(PollTimes(TriggerFailure(b, production), n)).2 <==> b.maxFailures < 10_000)
  {
    if !production {
      PollTimesDrains(TriggerFailure(b, production), |b.pending|);
    }
  }

  class HeartbeatBehaviour {
    const maxFailures: nat
    var pendingEvents: seq<HeartbeatAction>
    var currentPayload: Attestation
    var internalFailCount: nat
    /** Shutdown signals put on the channel to the event loop. */
    var shutdownSignals: nat

    ghost function View(): Behaviour
      reads this
    {
      Behaviour(maxFailures, pendingEvents, currentPayload, internalFailCount)
    }

    constructor (maxFailures: nat)
      ensures View() == NewBehaviour(maxFailures) && shutdownSignals == 0
    {
      this.maxFailures := maxFailures;
      pendingEvents, currentPayload, internalFailCount, shutdownSignals := [], TeeQuoteParsing.NoAttestation(), 0, 0;
    }

    method SetTeeAttestation(report: Report)
      modifies this`currentPayload
      ensures currentPayload == TeeQuoteParsing.SetTeeAttestation(old(currentPayload), report)
    {
      currentPayload := currentPayload.(quote := Some(report.quote), bytes := Some(report.bytes));
    }

    method HandlerEvent(peer: PeerId, connection: ConnectionId, event: OutEvent, report: Report)
      modifies this
      ensures View() == OnHandlerEvent(old(View()), peer, connection, event, report)
      ensures shutdownSignals == old(shutdownSignals)
    {
      match event {
        case HeartbeatPayload(payload) =>
          pendingEvents := pendingEvents + [HeartbeatEvent(peer, payload)];
        case ResetFailureCount =>
          internalFailCount := 0;
        case RequestLocalPayload =>
          pendingEvents := pendingEvents + [HeartbeatRequest(peer, connection, SendLatestPayload(currentPayload))];
        case IncrementFailureCount(n) =>
          internalFailCount := SaturatingAdd(internalFailCount, n);
          pendingEvents := pendingEvents + [ShutdownIfMaxFailuresExceeded];
        case RefreshAttestation =>
          SetTeeAttestation(report);
      }
    }

    method Poll() returns (out: BehaviourPoll)
      modifies this
      ensures (View(), out, shutdownSignals > old(shutdownSignals)) == PollBehaviour(old(View()))
      ensures old(shutdownSignals) <= shutdownSignals <= old(shutdownSignals) + 1
    {
      if pendingEvents == [] {
        return BehaviourPending;
      }
      var action := pendingEvents[0];
      pendingEvents := pendingEvents[1..];
      match action {
        case HeartbeatEvent(peer, payload) =>
          return GenerateEvent(peer, payload);
        case HeartbeatRequest(peer, connection, event) =>
          return NotifyHandler(peer, connection, event);
        case ShutdownIfMaxFailuresExceeded =>
          if internalFailCount > maxFailures {
            shutdownSignals := shutdownSignals + 1;
          }
          return BehaviourPending;
      }
    }

    method TriggerHeartbeatFailure(production: bool)
      modifies this
      ensures View() == TriggerFailure(old(View()), production)
    {
      if !production {
        internalFailCount := TRIGGERED;
        pendingEvents := pendingEvents + [ShutdownIfMaxFailuresExceeded];
      }
    }
  }
}
