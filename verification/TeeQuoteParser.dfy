/** The heartbeat message on the wire: eight bytes of length, most significant first, and the
    attestation as JSON. */
module TeeQuoteParsing {
  import opened Types

  const MSG_LEN_SIZE: nat := 8
  const HEARTBEAT_MESSAGE_MAX_SIZE: nat := 1024 * 24

  /** `Q` stands for parsed quotes, which cannot be serialised. */
  datatype TeeAttestation<Q> = TeeAttestation(quote: Option<Q>, bytes: Option<seq<byte>>, blockHeight: nat)

  datatype TeeAttestationBytes = TeeAttestationBytes(bytes: Option<seq<byte>>, blockHeight: nat)

  function NoAttestation<Q>(): TeeAttestation<Q> {
    TeeAttestation(None, None, 1)
  }

  /** What the attestation device returns: the bytes of a quote and the quote they parse to. */
  datatype Report<Q> = Report(quote: Q, bytes: seq<byte>)

  function SetTeeAttestation<Q>(t: TeeAttestation<Q>, report: Report<Q>): TeeAttestation<Q> {
    t.(quote := Some(report.quote), bytes := Some(report.bytes))
  }

  /** Library code: JSON in and out, and the quote parser, which panics where `parseQuote` is `None`. */
  datatype Codec<Q> = Codec(
    encode: TeeAttestationBytes -> seq<byte>,
    decode: seq<byte> -> Option<TeeAttestationBytes>,
    parseQuote: seq<byte> -> Option<Q>)

  ghost predicate Inverse<Q(!new)>(codec: Codec<Q>) {
    forall t :: codec.decode(codec.encode(t)) == Some(t)
  }

  datatype FrameError = TooLarge | UnexpectedEof | BadJson | BadQuote

  // ---------------------------------------------------------------- conversions

  function ToBytes<Q>(t: TeeAttestation<Q>): TeeAttestationBytes {
    TeeAttestationBytes(t.bytes, t.blockHeight)
  }

  function FromBytes<Q>(codec: Codec<Q>, t: TeeAttestationBytes): Result<TeeAttestation<Q>, FrameError> {
    match t.bytes
    case None => Ok(TeeAttestation(None, None, t.blockHeight))
    case Some(bytes) =>
      match codec.parseQuote(bytes)
      case None => Err(BadQuote)
      case Some(quote) => Ok(TeeAttestation(Some(quote), Some(bytes), t.blockHeight))
  }

  /** The quote kept beside the bytes is the one they parse to. */
  predicate QuoteMatches<Q(==)>(codec: Codec<Q>, t: TeeAttestation<Q>) {
    t.quote == (if t.bytes.None? then None else codec.parseQuote(t.bytes.value))
    && (t.bytes.Some? ==> t.quote.Some?)
  }

  /** The conversions undo each other exactly on attestations whose quote matches their bytes. */
  lemma ConversionRoundTripIff<Q>(codec: Codec<Q>, t: TeeAttestation<Q>)
    ensures FromBytes(codec, ToBytes(t)) == Ok(t) <==> QuoteMatches(codec, t)
    ensures FromBytes(codec, ToBytes(t)).Ok? ==> ToBytes(FromBytes(codec, ToBytes(t)).value) == ToBytes(t)
  {
  }

  /** Every attestation that the program makes matches: the default one, one set from the device's
      bytes, and one received, whatever bytes it was received from. */
  lemma AttestationsMadeMatch<Q>(codec: Codec<Q>, t: TeeAttestation<Q>, report: Report<Q>, bytes: seq<byte>)
    ensures NoAttestation<Q>() == TeeAttestation(None, None, 1)
    ensures QuoteMatches(codec, NoAttestation())
    ensures QuoteMatches(codec, SetTeeAttestation(t, report)) <==> codec.parseQuote(report.bytes) == Some(report.quote)
    ensures ReadFrame(codec, bytes).0.Ok? ==> QuoteMatches(codec, ReadFrame(codec, bytes).0.value)
  {
  }

  // ---------------------------------------------------------------- lengths

  function Power256(k: nat): (p: nat)
    ensures p > 0
  {
    if k == 0 then 1 else 256 * Power256(k - 1)
  }

  /** The last k base-256 digits of n, most significant first. */
  function ToBigEndian(n: nat, k: nat): (bytes: seq<byte>)
    ensures |bytes| == k
  {
    if k == 0 then [] else ToBigEndian(n / 256, k - 1) + [(n % 256) as byte]
  }

  function FromBigEndian(bytes: seq<byte>): nat {
    if bytes == [] then 0 else 256 * FromBigEndian(bytes[..|bytes| - 1]) + bytes[|bytes| - 1] as nat
  }

  lemma {:induction false} LengthRoundTrip(n: nat, k: nat)
    requires n < Power256(k)
    ensures FromBigEndian(ToBigEndian(n, k)) == n
  {
    if k > 0 {
      LengthRoundTrip(n / 256, k - 1);
      assert ToBigEndian(n, k)[..k - 1] == ToBigEndian(n / 256, k - 1);
    }
  }

  /** The first byte weighs most: each byte counts as often as the bytes after it can differ. */
  lemma {:induction false} FirstByteWeighsMost(first: byte, rest: seq<byte>)
    ensures FromBigEndian([first] + rest) == first as nat * Power256(|rest|) + FromBigEndian(rest)
    decreases |rest|
  {
    if rest == [] {
      assert [first][..0] == [];
    } else {
      var front, last := rest[..|rest| - 1], rest[|rest| - 1];
      FirstByteWeighsMost(first, front);
      assert ([first] + rest)[..|rest|] == [first] + front;
      assert 256 * (first as nat * Power256(|front|)) == first as nat * (256 * Power256(|front|));
    }
  }

  lemma {:induction false} BytesRoundTrip(bytes: seq<byte>)
    ensures FromBigEndian(bytes) < Power256(|bytes|)
    ensures ToBigEndian(FromBigEndian(bytes), |bytes|) == bytes
    decreases |bytes|
  {
    if bytes != [] {
      var front, last := bytes[..|bytes| - 1], bytes[|bytes| - 1];
      BytesRoundTrip(front);
      assert FromBigEndian(bytes) / 256 == FromBigEndian(front);
      assert bytes == front + [last];
    }
  }

  // ---------------------------------------------------------------- frames

  /** The length of the message fits its eight bytes. */
  predicate Framable<Q>(codec: Codec<Q>, t: TeeAttestation<Q>) {
    |codec.encode(ToBytes(t))| < Power256(MSG_LEN_SIZE)
  }

  /** The sender's own limit, which is far lower and which the receiver does not have. */
  predicate Sendable<Q>(codec: Codec<Q>, t: TeeAttestation<Q>) {
    |codec.encode(ToBytes(t))| <= HEARTBEAT_MESSAGE_MAX_SIZE
  }

  function Frame<Q>(codec: Codec<Q>, t: TeeAttestation<Q>): seq<byte> {
    var message := codec.encode(ToBytes(t));
    ToBigEndian(|message|, MSG_LEN_SIZE) + message
  }

  function Frames<Q>(codec: Codec<Q>, ts: seq<TeeAttestation<Q>>): seq<byte> {
    if ts == [] then [] else Frame(codec, ts[0]) + Frames(codec, ts[1..])
  }

  /** The bytes begin with a whole frame. */
  predicate WholeFrame(bytes: seq<byte>) {
    |bytes| >= MSG_LEN_SIZE && |bytes| >= MSG_LEN_SIZE + FromBigEndian(bytes[..MSG_LEN_SIZE])
  }

  function MessageOf<Q>(codec: Codec<Q>, message: seq<byte>): Result<TeeAttestation<Q>, FrameError> {
    match codec.decode(message)
    case None => Err(BadJson)
    case Some(t) => FromBytes(codec, t)
  }

  /** What is received from the bytes and what is left of them; a read cut short takes them all. */
  function ReadFrame<Q>(codec: Codec<Q>, bytes: seq<byte>): (r: (Result<TeeAttestation<Q>, FrameError>, seq<byte>))
    ensures r.0.Ok? ==> |r.1| < |bytes|
  {
    if WholeFrame(bytes) then
      var end := MSG_LEN_SIZE + FromBigEndian(bytes[..MSG_LEN_SIZE]);
      (MessageOf(codec, bytes[MSG_LEN_SIZE..end]), bytes[end..])
    else (Err(UnexpectedEof), [])
  }

  /** The attestations received one after another until the bytes run out or a read fails. */
  function ReadFrames<Q>(codec: Codec<Q>, bytes: seq<byte>): Result<seq<TeeAttestation<Q>>, FrameError>
    decreases |bytes|
  {
    if bytes == [] then Ok([])
    else
      var (first, rest) := ReadFrame(codec, bytes);
      match first
      case Err(e) => Err(e)
      case Ok(t) =>
        match ReadFrames(codec, rest)
        case Err(e) => Err(e)
        case Ok(ts) => Ok([t] + ts)
  }

  /** A message behind its length is a whole frame, and its length tells where it ends. */
  lemma MessageFound(message: seq<byte>, rest: seq<byte>)
    requires |message| < Power256(MSG_LEN_SIZE)
    ensures
      var bytes := ToBigEndian(|message|, MSG_LEN_SIZE) + message + rest;
      var end := MSG_LEN_SIZE + |message|;
      && WholeFrame(bytes) && FromBigEndian(bytes[..MSG_LEN_SIZE]) == |message|
      && bytes[MSG_LEN_SIZE..end] == message && bytes[end..] == rest
  {
    LengthRoundTrip(|message|, MSG_LEN_SIZE);
    Parts(ToBigEndian(|message|, MSG_LEN_SIZE), message, rest);
  }

  lemma Parts(a: seq<byte>, b: seq<byte>, c: seq<byte>)
    ensures (a + b + c)[..|a|] == a
    ensures (a + b + c)[|a|..|a| + |b|] == b
    ensures (a + b + c)[|a| + |b|..] == c
  {
  }

  lemma FrameIsWhole<Q>(codec: Codec<Q>, t: TeeAttestation<Q>, rest: seq<byte>)
    requires Framable(codec, t)
    ensures WholeFrame(Frame(codec, t) + rest)
    ensures ReadFrame(codec, Frame(codec, t) + rest) == (MessageOf(codec, codec.encode(ToBytes(t))), rest)
  {
    MessageFound(codec.encode(ToBytes(t)), rest);
  }

  lemma SendableIsFramable<Q>(codec: Codec<Q>, t: TeeAttestation<Q>)
    requires Sendable(codec, t)
    ensures Framable(codec, t)
  {
    assert Power256(3) == 0x100_0000 && Power256(8) == 0x1_0000_0000_0000_0000;
  }

  /** One frame, whatever follows it, is received as sent and no more of the stream is taken. This
      does not depend on whether the sender would have sent it. */
  lemma FrameRoundTrip<Q(!new)>(codec: Codec<Q>, t: TeeAttestation<Q>, rest: seq<byte>)
    requires Inverse(codec) && Framable(codec, t)
    ensures ReadFrame(codec, Frame(codec, t) + rest) == (FromBytes(codec, ToBytes(t)), rest)
    ensures ReadFrame(codec, Frame(codec, t) + rest) == (Ok(t), rest) <==> QuoteMatches(codec, t)
  {
    FrameIsWhole(codec, t, rest);
    assert codec.decode(codec.encode(ToBytes(t))) == Some(ToBytes(t));
    ConversionRoundTripIff(codec, t);
  }

  /** A list of attestations comes back from its concatenated frames, every byte used, exactly
      when all their quotes match their bytes. */
  lemma {:induction false} FramesRoundTripIff<Q(!new)>(codec: Codec<Q>, ts: seq<TeeAttestation<Q>>)
    requires Inverse(codec) && forall t :: t in ts ==> Framable(codec, t)
    ensures ReadFrames(codec, Frames(codec, ts)) == Ok(ts) <==> forall t :: t in ts ==> QuoteMatches(codec, t)
    decreases |ts|
  {
    if ts != [] {
      var tail := ts[1..];
      assert ts == [ts[0]] + tail;
      FramesRoundTripIff(codec, tail);
      FrameRoundTrip(codec, ts[0], Frames(codec, tail));
      assert Frames(codec, ts) != [];
    }
  }

  /** A frame above the sender's limit, which only another sender could make, is received like any
      other. */
  lemma OversizedIsReceived<Q(!new)>(codec: Codec<Q>, t: TeeAttestation<Q>, rest: seq<byte>)
    requires Inverse(codec) && Framable(codec, t) && !Sendable(codec, t) && QuoteMatches(codec, t)
    ensures |Frame(codec, t)| > MSG_LEN_SIZE + HEARTBEAT_MESSAGE_MAX_SIZE
    ensures ReadFrame(codec, Frame(codec, t) + rest) == (Ok(t), rest)
  {
    FrameRoundTrip(codec, t, rest);
  }

  /** A frame cut short is never mistaken for a message. */
  lemma PartialFrameFails<Q>(codec: Codec<Q>, t: TeeAttestation<Q>, n: nat)
    requires Framable(codec, t) && n < |Frame(codec, t)|
    ensures ReadFrame(codec, Frame(codec, t)[..n]) == (Err(UnexpectedEof), [])
  {
    var bytes := Frame(codec, t)[..n];
    FrameIsWhole(codec, t, []);
    assert Frame(codec, t) + [] == Frame(codec, t);
    if n >= MSG_LEN_SIZE {
      assert bytes[..MSG_LEN_SIZE] == Frame(codec, t)[..MSG_LEN_SIZE]
          == ToBigEndian(|codec.encode(ToBytes(t))|, MSG_LEN_SIZE);
      LengthRoundTrip(|codec.encode(ToBytes(t))|, MSG_LEN_SIZE);
    }
  }

  /** A whole frame is always taken off the stream, and fails exactly if its message is no JSON of an
      attestation, or has bytes that are no quote. */
  lemma WholeFrameFailsIff<Q>(codec: Codec<Q>, message: seq<byte>, rest: seq<byte>)
    requires |message| < Power256(MSG_LEN_SIZE)
    ensures
      var (r, left) := ReadFrame(codec, ToBigEndian(|message|, MSG_LEN_SIZE) + message + rest);
      var t := codec.decode(message);
      var quoteless := t.Some? && t.value.bytes.Some? && codec.parseQuote(t.value.bytes.value).None?;
      && left == rest
      && (r == Err(BadJson) <==> t.None?) && (r == Err(BadQuote) <==> quoteless)
      && (r.Err? ==> t.None? || quoteless)
  {
    MessageFound(message, rest);
  }

  function Wire<Q>(ts: seq<TeeAttestation<Q>>): (wire: seq<TeeAttestationBytes>)
    ensures |wire| == |ts|
  {
    if ts == [] then [] else [ToBytes(ts[0])] + Wire(ts[1..])
  }

  /** The same bytes cannot come from two different lists of messages. */
  lemma {:induction false} FramesUnambiguous<Q(!new)>(
    codec: Codec<Q>, a: seq<TeeAttestation<Q>>, b: seq<TeeAttestation<Q>>)
    requires Inverse(codec) && (forall t :: t in a ==> Framable(codec, t)) && forall t :: t in b ==> Framable(codec, t)
    ensures Frames(codec, a) == Frames(codec, b) <==> Wire(a) == Wire(b)
    decreases |a|
  {
    if a != [] && b != [] {
      FramesUnambiguous(codec, a[1..], b[1..]);
      if ToBytes(a[0]) == ToBytes(b[0]) {
        assert Wire(a)[1..] == Wire(a[1..]) && Wire(b)[1..] == Wire(b[1..]);
        var frame := Frame(codec, a[0]);
        assert (frame + Frames(codec, a[1..]))[|frame|..] == Frames(codec, a[1..]);
        assert (frame + Frames(codec, b[1..]))[|frame|..] == Frames(codec, b[1..]);
      } else {
        DifferentFrames(codec, a[0], Frames(codec, a[1..]), b[0], Frames(codec, b[1..]));
        assert Wire(a)[0] != Wire(b)[0];
      }
    }
  }

  lemma DifferentFrames<Q(!new)>(
    codec: Codec<Q>, s: TeeAttestation<Q>, afterS: seq<byte>, t: TeeAttestation<Q>, afterT: seq<byte>)
    requires Inverse(codec) && Framable(codec, s) && Framable(codec, t)
    requires ToBytes(s) != ToBytes(t)
    ensures Frame(codec, s) + afterS != Frame(codec, t) + afterT
  {
    var raw := Codec(codec.encode, codec.decode, bytes => Some(bytes));
    var rawS := TeeAttestation(s.bytes, s.bytes, s.blockHeight);
    var rawT := TeeAttestation(t.bytes, t.bytes, t.blockHeight);
    FrameRoundTrip(raw, rawS, afterS);
    FrameRoundTrip(raw, rawT, afterT);
    assert Frame(raw, rawS) == Frame(codec, s) && Frame(raw, rawT) == Frame(codec, t);
  }

  // ---------------------------------------------------------------- sending and receiving

  /** One end of a connection: the bytes that have come in and those written out. */
  class Stream {
    var incoming: seq<byte>
    var outgoing: seq<byte>

    constructor (incoming: seq<byte>)
      ensures this.incoming == incoming && outgoing == []
    {
      this.incoming := incoming;
      outgoing := [];
    }

    method ReadExact(n: nat) returns (r: Option<seq<byte>>)
      modifies this`incoming
      ensures r == if n <= |old(incoming)| then Some(old(incoming)[..n]) else None
      ensures incoming == if n <= |old(incoming)| then old(incoming)[n..] else []
    {
      if n <= |incoming| {
        r := Some(incoming[..n]);
        incoming := incoming[n..];
      } else {
        r := None;
        incoming := [];
      }
    }

    method WriteAll(bytes: seq<byte>)
      modifies this`outgoing
      ensures outgoing == old(outgoing) + bytes
    {
      outgoing := outgoing + bytes;
    }
  }

  /** An oversized message, on which the program panics, writes nothing. */
  method SendHeartbeatPayload<Q>(codec: Codec<Q>, stream: Stream, t: TeeAttestation<Q>)
    returns (r: Result<(), FrameError>)
    modifies stream`outgoing
    ensures r == if |codec.encode(ToBytes(t))| <= 24576 then Ok(()) else Err(TooLarge)
    ensures stream.outgoing == old(stream.outgoing) + if r.Ok? then Frame(codec, t) else []
  {
    var message := codec.encode(ToBytes(t));
    if |message| > HEARTBEAT_MESSAGE_MAX_SIZE {
      return Err(TooLarge);
    }
    stream.WriteAll(ToBigEndian(|message|, MSG_LEN_SIZE) + message);
    return Ok(());
  }

  method ReceiveHeartbeatPayload<Q>(codec: Codec<Q>, stream: Stream) returns (r: Result<TeeAttestation<Q>, FrameError>)
    modifies stream`incoming
    ensures (r, stream.incoming) == ReadFrame(codec, old(stream.incoming))
  {
    ghost var bytes := stream.incoming;
    var length := stream.ReadExact(MSG_LEN_SIZE);
    if length.None? {
      return Err(UnexpectedEof);
    }
    var n := FromBigEndian(length.value);
    var message := stream.ReadExact(n);
    if message.None? {
      return Err(UnexpectedEof);
    }
    assert bytes[MSG_LEN_SIZE..][..n] == bytes[MSG_LEN_SIZE..MSG_LEN_SIZE + n];
    assert bytes[MSG_LEN_SIZE..][n..] == bytes[MSG_LEN_SIZE + n..];
    match codec.decode(message.value) {
      case None => return Err(BadJson);
      case Some(t) => return FromBytes(codec, t);
    }
  }
}
