/** The per-connection half of the heartbeat protocol. Futures appear as the answers their polls
    give; streams are names. */
module HeartbeatHandlers {
  import opened Types
  import TeeQuoteParsing

  type StreamId = nat

  type Time = int

  /** A quote is known by when it was generated. */
  datatype Quote = Quote(generatedAt: nat)

  type Attestation = TeeQuoteParsing.TeeAttestation<Quote>

  datatype Config = Config(sendTimeout: nat, idleTimeout: nat, maxFailures: nat)

  datatype InEvent = SendLatestPayload(payload: Attestation)

  datatype OutEvent =
    | HeartbeatPayload(payload: Attestation)
    | RequestLocalPayload
    | ResetFailureCount
    | IncrementFailureCount(n: nat)
    | RefreshAttestation

  datatype Outbound =
    | Idle(stream: StreamId)
    | Negotiating
    | Requesting(stream: StreamId, requested: bool)
    | Sending(stream: StreamId, payload: Attestation)

  datatype ReadPoll = ReadPending | ReadFailed | ReadOk(payload: Attestation)

  datatype WritePoll = WritePending | WriteOk | WriteFailed

  datatype HandlerPoll = Pending | Notify(event: OutEvent) | RequestSubstream

  datatype ConnectionEvent =
    | NegotiatedInbound(stream: StreamId)
    | NegotiatedOutbound(stream: StreamId)
    | DialUpgradeError

  datatype Handler = Handler(
    config: Config,
    inbound: Option<StreamId>,
    outbound: Option<Outbound>,
    dialFailures: Option<nat>,
    timer: Time)
  {
    predicate TimerReady(now: Time) {
      timer <= now
    }

    predicate AwaitsPayload() {
      outbound.Some? && outbound.value.Requesting? && outbound.value.requested
    }
  }

  function NewHandler(config: Config, now: Time): Handler {
    Handler(config, None, None, None, now)
  }

  function PollOutbound(h: Handler, now: Time, write: WritePoll): (Handler, HandlerPoll) {
    match h.outbound
    case Some(Requesting(stream, requested)) =>
      (h.(outbound := Some(Requesting(stream, true))), if requested then Pending else Notify(RequestLocalPayload))
    case Some(Sending(stream, payload)) => (
      match write
      case WritePending =>
        if h.TimerReady(now) then (h.(outbound := None), Notify(IncrementFailureCount(1))) else (h, Pending)
      case WriteOk =>
        (h.(timer := now + h.config.idleTimeout, outbound := Some(Idle(stream))), Notify(ResetFailureCount))
      case WriteFailed => (h.(outbound := None), Notify(IncrementFailureCount(1)))
    )
    case Some(Idle(stream)) =>
      if h.TimerReady(now) then (h.(outbound := Some(Requesting(stream, false))), Notify(RefreshAttestation))
      else (h, Pending)
    case Some(Negotiating) => (h, Pending)
    case None => (h.(outbound := Some(Negotiating)), RequestSubstream)
  }

  function PollHandler(h: Handler, now: Time, read: ReadPoll, write: WritePoll): (Handler, HandlerPoll) {
    if h.inbound.Some? && read.ReadOk? then (h, Notify(HeartbeatPayload(read.payload)))
    else
      var h1 := if h.inbound.Some? && read.ReadFailed? then h.(inbound := None) else h;
      if h1.dialFailures.Some? then (h1, Notify(IncrementFailureCount(h1.dialFailures.value)))
      else PollOutbound(h1, now, write)
  }

  function OnBehaviourEvent(h: Handler, event: InEvent, now: Time): Handler {
    if h.AwaitsPayload()
    then h.(timer := now + h.config.sendTimeout, outbound := Some(Sending(h.outbound.value.stream, event.payload)))
    else h
  }

  function OnConnectionEvent(h: Handler, event: ConnectionEvent): Handler {
    match event
    case NegotiatedInbound(stream) => h.(inbound := Some(stream))
    case NegotiatedOutbound(stream) => h.(outbound := Some(Requesting(stream, false)))
    case DialUpgradeError => h.(outbound := None, dialFailures := Some(1))
  }

  // ---------------------------------------------------------------- after a dial error

  datatype HandlerInput =
    | Polled(now: Time, read: ReadPoll, write: WritePoll)
    | ToldBy(event: InEvent, at: Time)
    | Connected(change: ConnectionEvent)

  /** A handler, and how many of its substream requests the swarm has not answered yet. */
  datatype Endpoint = Endpoint(handler: Handler, dialing: nat)

  function NewEndpoint(config: Config, now: Time): Endpoint {
    Endpoint(NewHandler(config, now), 0)
  }

  /** The swarm reports a negotiated stream or a failed dial once per substream request. */
  predicate SwarmAllows(dialing: nat, change: ConnectionEvent) {
    !change.NegotiatedInbound? ==> dialing > 0
  }

  function DialingAfter(dialing: nat, change: ConnectionEvent): nat
    requires SwarmAllows(dialing, change)
  {
    if change.NegotiatedInbound? then dialing else dialing - 1
  }

  function HandlerStep(e: Endpoint, input: HandlerInput): (Endpoint, Option<HandlerPoll>) {
    match input
    case Polled(now, read, write) =>
      var (h, out) := PollHandler(e.handler, now, read, write);
      (Endpoint(h, if out.RequestSubstream? then e.dialing + 1 else e.dialing), Some(out))
    case ToldBy(event, at) => (e.(handler := OnBehaviourEvent(e.handler, event, at)), None)
    case Connected(change) =>
      if SwarmAllows(e.dialing, change)
      then (Endpoint(OnConnectionEvent(e.handler, change), DialingAfter(e.dialing, change)), None)
      else (e, None)
  }

  function HandlerOutputs(e: Endpoint, inputs: seq<HandlerInput>): seq<HandlerPoll>
    decreases |inputs|
  {
    if inputs == [] then []
    else
      var (e', out) := HandlerStep(e, inputs[0]);
      (if out.Some? then [out.value] else []) + HandlerOutputs(e', inputs[1..])
  }

  function HandlerAfter(e: Endpoint, inputs: seq<HandlerInput>): Endpoint
    decreases |inputs|
  {
    if inputs == [] then e else HandlerAfter(HandlerStep(e, inputs[0]).0, inputs[1..])
  }

  /** One substream request is outstanding exactly while the handler negotiates. */
  predicate DialingMatches(e: Endpoint) {
    e.dialing == if e.handler.outbound == Some(Negotiating) then 1 else 0
  }

  lemma {:induction false} DialingMatchesAfter(e: Endpoint, inputs: seq<HandlerInput>)
    requires DialingMatches(e)
    ensures DialingMatches(HandlerAfter(e, inputs))
    decreases |inputs|
  {
    if inputs != [] {
      DialingMatchesAfter(HandlerStep(e, inputs[0]).0, inputs[1..]);
    }
  }

  /** Over any run of a new handler at most one substream request is outstanding, and one is
      exactly while the handler negotiates. */
  lemma DialingIffNegotiating(config: Config, now: Time, inputs: seq<HandlerInput>)
    ensures DialingMatches(HandlerAfter(NewEndpoint(config, now), inputs))
  {
    DialingMatchesAfter(NewEndpoint(config, now), inputs);
  }

  predicate PassesOnOrCounts(out: HandlerPoll) {
    out.Notify? && (out.event.HeartbeatPayload? || out.event == IncrementFailureCount(1))
  }

  lemma {:induction false} AfterDialError(e: Endpoint, inputs: seq<HandlerInput>)
    requires e.handler.outbound == None && e.handler.dialFailures == Some(1) && e.dialing == 0
    ensures forall i :: 0 <= i < |HandlerOutputs(e, inputs)| ==> PassesOnOrCounts(HandlerOutputs(e, inputs)[i])
    ensures HandlerAfter(e, inputs).handler.outbound == None && HandlerAfter(e, inputs).dialing == 0
    decreases |inputs|
  {
    if inputs != [] {
      AfterDialError(HandlerStep(e, inputs[0]).0, inputs[1..]);
    }
  }

  /** Wherever a dial fails in a handler's run, the handler never asks for a stream, never requests
      a payload and never sends again: every poll passes an inbound payload on or counts one more
      failure. */
  lemma DialErrorIsFinal(config: Config, now: Time, before: seq<HandlerInput>, after: seq<HandlerInput>)
    requires SwarmAllows(HandlerAfter(NewEndpoint(config, now), before).dialing, DialUpgradeError)
    ensures
      var failed := HandlerStep(HandlerAfter(NewEndpoint(config, now), before), Connected(DialUpgradeError)).0;
      && (forall i :: 0 <= i < |HandlerOutputs(failed, after)| ==> PassesOnOrCounts(HandlerOutputs(failed, after)[i]))
      && HandlerAfter(failed, after).handler.outbound == None && HandlerAfter(failed, after).dialing == 0
  {
    DialingIffNegotiating(config, now, before);
    AfterDialError(HandlerStep(HandlerAfter(NewEndpoint(config, now), before), Connected(DialUpgradeError)).0, after);
  }

  // ---------------------------------------------------------------- deadlines

  /** The handler is in this state with this deadline, and no dial has failed. */
  ghost predicate Holds(e: Endpoint, state: Outbound, deadline: Time) {
    && e.handler.outbound == Some(state) && e.handler.timer == deadline
    && e.handler.dialFailures.None? && e.dialing == 0
  }

  /** The input comes before the deadline and brings no end to a write. */
  predicate Patient(input: HandlerInput, deadline: Time) {
    match input
    case Polled(now, _, write) => write.WritePending? && now < deadline
    case ToldBy(_, _) => true
    case Connected(change) => change.NegotiatedInbound?
  }

  lemma {:induction false} HoldsUntilDeadline(e: Endpoint, state: Outbound, deadline: Time, waiting: seq<HandlerInput>)
    requires Holds(e, state, deadline) && (state.Sending? || state.Idle?)
    requires forall i :: 0 <= i < |waiting| ==> Patient(waiting[i], deadline)
    ensures Holds(HandlerAfter(e, waiting), state, deadline)
    decreases |waiting|
  {
    if waiting != [] {
      HoldsUntilDeadline(HandlerStep(e, waiting[0]).0, state, deadline, waiting[1..]);
    }
  }

  /** A send that starts at `start` has until `sendTimeout` later. Whatever happens on the inbound
      side in the meantime, the poll that finds it failed, or still pending by then, counts one
      failure and gives the stream up; the poll that finds it done resets the count, keeps the
      stream and sets the next deadline. */
  lemma SendCountsOneFailureIff(
    h: Handler, event: InEvent, start: Time, waiting: seq<HandlerInput>, now: Time, read: ReadPoll, write: WritePoll)
    requires h.AwaitsPayload() && h.dialFailures.None?
    requires forall i :: 0 <= i < |waiting| ==> Patient(waiting[i], start + h.config.sendTimeout)
    requires !read.ReadOk?
    ensures
      var sending := HandlerAfter(Endpoint(OnBehaviourEvent(h, event, start), 0), waiting);
      var (h', out) := PollHandler(sending.handler, now, read, write);
      var overdue := write.WritePending? && now >= start + h.config.sendTimeout;
      && (out == Notify(IncrementFailureCount(1)) <==> write.WriteFailed? || overdue)
      && (out == Notify(IncrementFailureCount(1)) ==> h'.outbound == None)
      && (out == Notify(ResetFailureCount) <==> write.WriteOk?)
      && (write.WriteOk? ==>
            h'.outbound == Some(Idle(h.outbound.value.stream)) && h'.timer == now + sending.handler.config.idleTimeout)
      && (write.WritePending? && !overdue ==> out == Pending)
  {
    var e := Endpoint(OnBehaviourEvent(h, event, start), 0);
    HoldsUntilDeadline(e, Sending(h.outbound.value.stream, event.payload), start + h.config.sendTimeout, waiting);
    ConfigStays(e, waiting);
  }

  lemma {:induction false} ConfigStays(e: Endpoint, inputs: seq<HandlerInput>)
    ensures HandlerAfter(e, inputs).handler.config == e.handler.config
    decreases |inputs|
  {
    if inputs != [] {
      ConfigStays(HandlerStep(e, inputs[0]).0, inputs[1..]);
    }
  }

  /** An idle stream asks for a fresh attestation at the first poll at or after its deadline. */
  lemma NextHeartbeatIff(
    e: Endpoint, stream: StreamId, deadline: Time, waiting: seq<HandlerInput>, now: Time, read: ReadPoll,
    write: WritePoll)
    requires Holds(e, Idle(stream), deadline)
    requires forall i :: 0 <= i < |waiting| ==> Patient(waiting[i], deadline)
    requires !read.ReadOk?
    ensures
      var (h, out) := PollHandler(HandlerAfter(e, waiting).handler, now, read, write);
      && out == (if now >= deadline then Notify(RefreshAttestation) else Pending)
      && h.outbound == Some(if now >= deadline then Requesting(stream, false) else Idle(stream))
  {
    HoldsUntilDeadline(e, Idle(stream), deadline, waiting);
  }

  /** A new inbound stream replaces the old one, a new outbound one is asked a payload for, and a
      failed dial leaves none and is remembered; each leaves the rest alone. */
  lemma StreamsTakenUp(h: Handler, change: ConnectionEvent)
    ensures
      var h' := OnConnectionEvent(h, change);
      && h'.inbound == (if change.NegotiatedInbound? then Some(change.stream) else h.inbound)
      && h'.outbound == (match change
                         case NegotiatedInbound(_) => h.outbound
                         case NegotiatedOutbound(stream) => Some(Requesting(stream, false))
                         case DialUpgradeError => None)
      && h'.dialFailures == (if change.DialUpgradeError? then Some(1) else h.dialFailures)
      && h'.timer == h.timer && h'.config == h.config
  {
  }

  /** An inbound stream is given up exactly when reading from it fails. */
  lemma InboundEndsIff(h: Handler, now: Time, read: ReadPoll, write: WritePoll)
    ensures PollHandler(h, now, read, write).0.inbound == if read.ReadFailed? then None else h.inbound
  {
  }

  // ---------------------------------------------------------------- the handler as an object

  class HeartbeatHandler {
    const config: Config
    var inbound: Option<StreamId>
    var outbound: Option<Outbound>
    var dialFailures: Option<nat>
    var timer: Time

    ghost function View(): Handler
      reads this
    {
      Handler(config, inbound, outbound, dialFailures, timer)
    }

    constructor (config: Config, now: Time)
      ensures View() == NewHandler(config, now)
    {
      this.config := config;
      inbound, outbound, dialFailures := None, None, None;
      timer := now;
    }

    method Poll(now: Time, read: ReadPoll, write: WritePoll) returns (out: HandlerPoll)
      modifies this
      ensures (View(), out) == PollHandler(old(View()), now, read, write)
    {
      if inbound.Some? {
        match read {
          case ReadFailed => inbound := None;
          case ReadOk(payload) => return Notify(HeartbeatPayload(payload));
          case ReadPending =>
        }
      }
      if dialFailures.Some? {
        return Notify(IncrementFailureCount(dialFailures.value));
      }
      var taken := outbound;
      outbound := None;
      match taken {
        case Some(Requesting(stream, requested)) =>
          outbound := Some(Requesting(stream, true));
          if !requested {
            return Notify(RequestLocalPayload);
          }
        case Some(Sending(stream, payload)) =>
          match write {
            case WritePending =>
              if timer <= now {
                return Notify(IncrementFailureCount(1));
              }
              outbound := taken;
            case WriteOk =>
              timer := now + config.idleTimeout;
              outbound := Some(Idle(stream));
              return Notify(ResetFailureCount);
            case WriteFailed =>
              return Notify(IncrementFailureCount(1));
          }
        case Some(Idle(stream)) =>
          if timer <= now {
            outbound := Some(Requesting(stream, false));
            return Notify(RefreshAttestation);
          }
          outbound := taken;
        case Some(Negotiating) =>
          outbound := taken;
        case None =>
          outbound := Some(Negotiating);
          return RequestSubstream;
      }
      return Pending;
    }

    method BehaviourEvent(event: InEvent, now: Time)
      modifies this
      ensures View() == OnBehaviourEvent(old(View()), event, now)
    {
      match outbound {
        case Some(Requesting(stream, true)) =>
          timer := now + config.sendTimeout;
          outbound := Some(Sending(stream, event.payload));
        case _ =>
      }
    }

    method HandleConnectionEvent(event: ConnectionEvent)
      modifies this
      ensures View() == OnConnectionEvent(old(View()), event)
    {
      match event {
        case NegotiatedInbound(stream) => inbound := Some(stream);
        case NegotiatedOutbound(stream) => outbound := Some(Requesting(stream, false));
        case DialUpgradeError =>
          outbound := None;
          dialFailures := Some(1);
      }
    }
  }
}
