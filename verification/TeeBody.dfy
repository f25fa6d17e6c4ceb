/** Response bodies that pass their frames on to the client while feeding a copy, or the parsed
    events, into a bounded channel that never makes them wait. */
module TeeBodies {
  import opened Types
  import opened SseParsing

  const CAPACITY: nat := 100

  datatype Frame = Data(bytes: seq<byte>) | Trailers

  datatype BodyPoll = BodyPending | BodyFrame(frame: Frame) | BodyError | BodyEnd

  function DataOf(polled: BodyPoll): Option<seq<byte>> {
    if polled.BodyFrame? && polled.frame.Data? then Some(polled.frame.bytes) else None
  }

  /** Data frames are copied, and nothing else is. */
  lemma OnlyDataIsCopied(polled: BodyPoll, bytes: seq<byte>)
    ensures DataOf(polled) == Some(bytes) <==> polled == BodyFrame(Data(bytes))
  {
  }

  // ---------------------------------------------------------------- the channel

  /** The value of a channel: what was offered to it, what the receiver has taken, what waits,
      and how many offers were turned down. */
  datatype Channel<T> = Channel(offered: seq<T>, received: seq<T>, queue: seq<T>, failed: nat, open: bool) {
    function TrySend(item: T): Channel<T> {
      if open && |queue| < CAPACITY then this.(offered := offered + [item], queue := queue + [item])
      else this.(offered := offered + [item], failed := failed + 1)
    }

    function TrySendAll(items: seq<T>): Channel<T>
      decreases |items|
    {
      if items == [] then this else TrySend(items[0]).TrySendAll(items[1..])
    }

    function Receive(): Channel<T> {
      if queue == [] then this else this.(received := received + [queue[0]], queue := queue[1..])
    }
  }

  function NewChannel<T>(): Channel<T> {
    Channel([], [], [], 0, true)
  }

  /** `picked` is what is left of `all` after leaving some of it out. */
  predicate InOrderPart<T(==)>(picked: seq<T>, all: seq<T>)
    decreases |all|
  {
    if picked == [] then true
    else if all == [] then false
    else if picked[|picked| - 1] == all[|all| - 1] && InOrderPart(picked[..|picked| - 1], all[..|all| - 1]) then true
    else InOrderPart(picked, all[..|all| - 1])
  }

  /** An offer is turned down exactly if nobody receives any more or 100 items wait; otherwise it
      waits behind them. */
  lemma TurnedDownIff<T>(c: Channel<T>, item: T)
    ensures
      var c', taken := c.TrySend(item), c.open && |c.queue| < 100;
      && c'.failed == c.failed + (if taken then 0 else 1)
      && c'.queue == (if taken then c.queue + [item] else c.queue)
      && c'.received == c.received && c'.open == c.open && c'.offered == c.offered + [item]
  {
  }

  ghost predicate ChannelOk<T>(c: Channel<T>) {
    && InOrderPart(c.received + c.queue, c.offered)
    && |c.received + c.queue| + c.failed == |c.offered|
    && |c.queue| <= CAPACITY
  }

  lemma {:induction false} FullPartIsAll<T>(picked: seq<T>, all: seq<T>)
    requires InOrderPart(picked, all)
    ensures |picked| <= |all|
    ensures |picked| == |all| ==> picked == all
    decreases |all|
  {
    if picked != [] {
      var front := all[..|all| - 1];
      if picked[|picked| - 1] == all[|all| - 1] && InOrderPart(picked[..|picked| - 1], front) {
        FullPartIsAll(picked[..|picked| - 1], front);
        assert picked == picked[..|picked| - 1] + [picked[|picked| - 1]];
        assert all == front + [all[|all| - 1]];
      } else {
        FullPartIsAll(picked, front);
      }
    }
  }

  lemma TrySendKeeps<T>(c: Channel<T>, item: T)
    requires ChannelOk(c)
    ensures ChannelOk(c.TrySend(item))
  {
    var c' := c.TrySend(item);
    var before, after := c.received + c.queue, c'.received + c'.queue;
    assert c'.offered[..|c'.offered| - 1] == c.offered;
    if c.open && |c.queue| < CAPACITY {
      assert after == before + [item];
      assert after[..|after| - 1] == before;
    }
  }

  lemma {:induction false} TrySendAllKeeps<T>(c: Channel<T>, items: seq<T>)
    requires ChannelOk(c)
    ensures ChannelOk(c.TrySendAll(items))
    ensures c.TrySendAll(items).offered == c.offered + items
    ensures c.TrySendAll(items).open == c.open
    decreases |items|
  {
    if items != [] {
      TrySendKeeps(c, items[0]);
      TrySendAllKeeps(c.TrySend(items[0]), items[1..]);
    }
  }

  lemma {:induction false} TrySendAllAppend<T>(c: Channel<T>, items: seq<T>, item: T)
    ensures c.TrySendAll(items + [item]) == c.TrySendAll(items).TrySend(item)
    decreases |items|
  {
    if items == [] {
      assert [] + [item] == [item];
    } else {
      assert (items + [item])[1..] == items[1..] + [item];
      TrySendAllAppend(c.TrySend(items[0]), items[1..], item);
    }
  }

  lemma ReceiveKeeps<T>(c: Channel<T>)
    requires ChannelOk(c)
    ensures ChannelOk(c.Receive()) && c.Receive().offered == c.offered
  {
    if c.queue != [] {
      assert c.Receive().received + c.Receive().queue == c.received + c.queue;
    }
  }

  // ---------------------------------------------------------------- any interleaving

  /** The body is polled, the log task receives, or its end of the channel is dropped. */
  datatype TeeEvent = PolledAs(polled: BodyPoll) | LogReceives | LogDrops

  /** An event-stream body between polls: the parser's buffer, the channel, and the frames the
      client has been given. */
  datatype Tee = Tee(buffer: seq<byte>, channel: Channel<SseChunk>, client: seq<BodyPoll>)

  function TeeStep(lib: Library, url: Option<string>, t: Tee, e: TeeEvent): Tee {
    match e
    case PolledAs(polled) =>
      var fed := if DataOf(polled).Some? then FeedOne(lib, url, t.buffer, DataOf(polled).value) else Fed([], t.buffer);
      Tee(fed.buffer, t.channel.TrySendAll(fed.updates), t.client + [polled])
    case LogReceives => t.(channel := t.channel.Receive())
    case LogDrops => t.(channel := t.channel.(open := false))
  }

  function TeeRun(lib: Library, url: Option<string>, t: Tee, events: seq<TeeEvent>): Tee
    decreases |events|
  {
    if events == [] then t else TeeRun(lib, url, TeeStep(lib, url, t, events[0]), events[1..])
  }

  function Polls(events: seq<TeeEvent>): seq<BodyPoll> {
    if events == [] then []
    else (if events[0].PolledAs? then [events[0].polled] else []) + Polls(events[1..])
  }

  function Chunks(polls: seq<BodyPoll>): seq<seq<byte>> {
    if polls == [] then []
    else (if DataOf(polls[0]).Some? then [DataOf(polls[0]).value] else []) + Chunks(polls[1..])
  }

  function NewTee(): Tee {
    Tee([], NewChannel(), [])
  }

  function ChunkOf(e: TeeEvent): seq<seq<byte>> {
    if e.PolledAs? && DataOf(e.polled).Some? then [DataOf(e.polled).value] else []
  }

  lemma ChunksOfRun(events: seq<TeeEvent>)
    requires events != []
    ensures Chunks(Polls(events)) == ChunkOf(events[0]) + Chunks(Polls(events[1..]))
  {
    if events[0].PolledAs? {
      assert Polls(events)[1..] == Polls(events[1..]);
    } else {
      assert Polls(events) == Polls(events[1..]);
    }
  }

  lemma {:induction false} FeedAppend(
    lib: Library, url: Option<string>, buffer: seq<byte>, a: seq<seq<byte>>, b: seq<seq<byte>>)
    ensures
      var first := Feed(lib, url, buffer, a);
      var second := Feed(lib, url, first.buffer, b);
      Feed(lib, url, buffer, a + b) == Fed(first.updates + second.updates, second.buffer)
    decreases |a|
  {
    if a == [] {
      assert a + b == b;
    } else {
      var one := FeedOne(lib, url, buffer, a[0]);
      assert (a + b)[1..] == a[1..] + b;
      FeedAppend(lib, url, one.buffer, a[1..], b);
      var rest := Feed(lib, url, one.buffer, a[1..]);
      var last := Feed(lib, url, rest.buffer, b);
      assert one.updates + (rest.updates + last.updates) == (one.updates + rest.updates) + last.updates;
    }
  }

  /** Between t and t' the channel was offered what these chunks yield. */
  ghost predicate Offered(lib: Library, url: Option<string>, t: Tee, chunks: seq<seq<byte>>, t': Tee) {
    var fed := Feed(lib, url, t.buffer, chunks);
    ChannelOk(t'.channel) && t'.channel.offered == t.channel.offered + fed.updates && t'.buffer == fed.buffer
  }

  lemma OfferedJoin(lib: Library, url: Option<string>, t: Tee, a: seq<seq<byte>>, t1: Tee, b: seq<seq<byte>>, t2: Tee)
    requires Offered(lib, url, t, a, t1) && Offered(lib, url, t1, b, t2)
    ensures Offered(lib, url, t, a + b, t2)
  {
    FeedAppend(lib, url, t.buffer, a, b);
    Regroup(t.channel.offered, Feed(lib, url, t.buffer, a).updates, Feed(lib, url, t1.buffer, b).updates);
  }

  /** One event offers what its chunk yields, and leaves the parser's buffer as feeding it does. */
  lemma TeeStepOffers(lib: Library, url: Option<string>, t: Tee, e: TeeEvent)
    requires ChannelOk(t.channel)
    ensures Offered(lib, url, t, ChunkOf(e), TeeStep(lib, url, t, e))
  {
    match e
    case PolledAs(polled) =>
      if DataOf(polled).Some? {
        var fed := FeedOne(lib, url, t.buffer, DataOf(polled).value);
        TrySendAllKeeps(t.channel, fed.updates);
        assert fed.updates + [] == fed.updates;
      } else {
        TrySendAllKeeps(t.channel, []);
      }
    case LogReceives => ReceiveKeeps(t.channel);
    case LogDrops =>
  }

  lemma {:induction false} TeeRunFrom(lib: Library, url: Option<string>, t: Tee, events: seq<TeeEvent>)
    requires ChannelOk(t.channel)
    ensures Offered(lib, url, t, Chunks(Polls(events)), TeeRun(lib, url, t, events))
    decreases |events|
  {
    if events != [] {
      var t1 := TeeStep(lib, url, t, events[0]);
      ChunksOfRun(events);
      TeeStepOffers(lib, url, t, events[0]);
      TeeRunFrom(lib, url, t1, events[1..]);
      OfferedJoin(lib, url, t, ChunkOf(events[0]), t1, Chunks(Polls(events[1..])), TeeRun(lib, url, t, events));
    }
  }

  lemma {:induction false} ClientSeesBody(lib: Library, url: Option<string>, t: Tee, events: seq<TeeEvent>)
    ensures TeeRun(lib, url, t, events).client == t.client + Polls(events)
    decreases |events|
  {
    if events != [] {
      ClientSeesBody(lib, url, TeeStep(lib, url, t, events[0]), events[1..]);
    }
  }

  /** Under any interleaving the client sees the body's own frames, what the log has received
      and what waits for it is an in-order part of the updates parsed so far, and it is all of
      them exactly when no offer was turned down. */
  lemma TeeIsTransparent(lib: Library, url: Option<string>, events: seq<TeeEvent>)
    ensures
      var t := TeeRun(lib, url, NewTee(), events);
      var logged, parsed := t.channel.received + t.channel.queue, Feed(lib, url, [], Chunks(Polls(events))).updates;
      && t.client == Polls(events)
      && InOrderPart(logged, parsed)
      && (logged == parsed <==> t.channel.failed == 0)
  {
    TeeRunFrom(lib, url, NewTee(), events);
    ClientSeesBody(lib, url, NewTee(), events);
    var t := TeeRun(lib, url, NewTee(), events);
    assert t.channel.offered == Feed(lib, url, [], Chunks(Polls(events))).updates;
    FullPartIsAll(t.channel.received + t.channel.queue, t.channel.offered);
  }

  // ---------------------------------------------------------------- raw bodies

  /** A plain body between polls: the channel takes the data frames themselves. */
  datatype RawTee = RawTee(channel: Channel<seq<byte>>, client: seq<BodyPoll>)

  function RawStep(t: RawTee, e: TeeEvent): RawTee {
    match e
    case PolledAs(polled) =>
      RawTee(if DataOf(polled).Some? then t.channel.TrySend(DataOf(polled).value) else t.channel, t.client + [polled])
    case LogReceives => t.(channel := t.channel.Receive())
    case LogDrops => t.(channel := t.channel.(open := false))
  }

  function RawRun(t: RawTee, events: seq<TeeEvent>): RawTee
    decreases |events|
  {
    if events == [] then t else RawRun(RawStep(t, events[0]), events[1..])
  }

  /** Between t and t' the channel was offered these chunks and the client given these polls. */
  ghost predicate RawOffered(t: RawTee, polls: seq<BodyPoll>, chunks: seq<seq<byte>>, t': RawTee) {
    ChannelOk(t'.channel) && t'.client == t.client + polls && t'.channel.offered == t.channel.offered + chunks
  }

  lemma RawStepOffers(t: RawTee, e: TeeEvent)
    requires ChannelOk(t.channel)
    ensures RawOffered(t, Polls([e]), ChunkOf(e), RawStep(t, e))
  {
    assert [e][1..] == [];
    match e
    case PolledAs(polled) =>
      if DataOf(polled).Some? {
        TrySendKeeps(t.channel, DataOf(polled).value);
      }
    case LogReceives => ReceiveKeeps(t.channel);
    case LogDrops =>
  }

  lemma RawOfferedJoin(
    t: RawTee, p: seq<BodyPoll>, a: seq<seq<byte>>, t1: RawTee, q: seq<BodyPoll>, b: seq<seq<byte>>,
    t2: RawTee)
    requires RawOffered(t, p, a, t1) && RawOffered(t1, q, b, t2)
    ensures RawOffered(t, p + q, a + b, t2)
  {
    Regroup(t.client, p, q);
    Regroup(t.channel.offered, a, b);
  }

  lemma {:induction false} RawRunFrom(t: RawTee, events: seq<TeeEvent>)
    requires ChannelOk(t.channel)
    ensures RawOffered(t, Polls(events), Chunks(Polls(events)), RawRun(t, events))
    decreases |events|
  {
    if events != [] {
      var t1, rest := RawStep(t, events[0]), events[1..];
      ChunksOfRun(events);
      RawStepOffers(t, events[0]);
      RawRunFrom(t1, rest);
      assert [events[0]][1..] == [];
      assert Polls(events) == Polls([events[0]]) + Polls(rest);
      RawOfferedJoin(t, Polls([events[0]]), ChunkOf(events[0]), t1, Polls(rest), Chunks(Polls(rest)),
                     RawRun(t, events));
    }
  }

  lemma RawTeeIsTransparent(events: seq<TeeEvent>)
    ensures
      var t := RawRun(RawTee(NewChannel(), []), events);
      var logged, produced := t.channel.received + t.channel.queue, Chunks(Polls(events));
      && t.client == Polls(events)
      && InOrderPart(logged, produced)
      && (logged == produced <==> t.channel.failed == 0)
  {
    RawRunFrom(RawTee(NewChannel(), []), events);
    var t := RawRun(RawTee(NewChannel(), []), events);
    assert t.channel.offered == Chunks(Polls(events));
    FullPartIsAll(t.channel.received + t.channel.queue, t.channel.offered);
  }

  // ---------------------------------------------------------------- the objects

  class BoundedChannel<T> {
    var queue: seq<T>
    var open: bool
    ghost var offered: seq<T>
    ghost var received: seq<T>
    ghost var failed: nat

    ghost function View(): Channel<T>
      reads this
    {
      Channel(offered, received, queue, failed, open)
    }

    constructor ()
      ensures View() == NewChannel()
    {
      queue, open, offered, received, failed := [], true, [], [], 0;
    }

    method TrySend(item: T) returns (ok: bool)
      modifies this
      ensures View() == old(View()).TrySend(item)
      ensures ok <==> old(open) && |old(queue)| < 100
    {
      offered := offered + [item];
      ok := open && |queue| < CAPACITY;
      if ok {
        queue := queue + [item];
      } else {
        failed := failed + 1;
      }
    }

    method Receive() returns (item: Option<T>)
      modifies this
      ensures View() == old(View()).Receive()
      ensures item == if old(queue) == [] then None else Some(old(queue)[0])
    {
      if queue == [] {
        return None;
      }
      item := Some(queue[0]);
      received := received + [queue[0]];
      queue := queue[1..];
    }
  }

  class TeeBodySse {
    const sender: BoundedChannel<SseChunk>
    const parser: SseParser

    constructor (lib: Library, requestUrl: Option<string>)
      ensures fresh(sender) && fresh(parser)
      ensures sender.View() == NewChannel() && parser.buffer == []
      ensures parser.lib == lib && parser.requestUrl == requestUrl
    {
      sender := new BoundedChannel();
      parser := new SseParser(lib, requestUrl);
    }

    /** `polled` is what the inner body's own poll returned. */
    method PollFrame(polled: BodyPoll) returns (out: BodyPoll)
      modifies sender, parser
      ensures out == polled
      ensures forall client ::
                TeeStep(parser.lib, parser.requestUrl, Tee(old(parser.buffer), old(sender.View()), client),
                        PolledAs(polled))
                == Tee(parser.buffer, sender.View(), client + [out])
    {
      var data := DataOf(polled);
      if data.Some? {
        ghost var before := sender.View();
        var updates := parser.ProcessChunk(data.value);
        ghost var fed := FeedOne(parser.lib, parser.requestUrl, old(parser.buffer), data.value);
        var i := 0;
        while i < |updates|
          invariant 0 <= i <= |updates|
          invariant sender.View() == before.TrySendAll(updates[..i])
          invariant Fed(updates, parser.buffer) == fed
          modifies sender
        {
          var ok := sender.TrySend(updates[i]);
          TrySendAllAppend(before, updates[..i], updates[i]);
          assert updates[..i + 1] == updates[..i] + [updates[i]];
          i := i + 1;
        }
        assert updates[..i] == updates;
      }
      return polled;
    }
  }

  class TeeBody {
    const sender: BoundedChannel<seq<byte>>

    constructor ()
      ensures fresh(sender) && sender.View() == NewChannel()
    {
      sender := new BoundedChannel();
    }

    method PollFrame(polled: BodyPoll) returns (out: BodyPoll)
      modifies sender
      ensures out == polled
      ensures forall client :: RawStep(RawTee(old(sender.View()), client), PolledAs(polled))
                               == RawTee(sender.View(), client + [out])
    {
      var data := DataOf(polled);
      if data.Some? {
        var ok := sender.TrySend(data.value);
      }
      return polled;
    }
  }
}
