/** The log tasks behind a teed body: accumulating usage updates into reports, and buffering a
    plain body. */
module UsageReports {
  import opened Types
  import opened SseParsing
  import opened TeeBodies

  datatype ToolUseRecord = ToolUseRecord(id: string, name: string, input: Json, toolType: string)

  datatype UsageData = UsageData(
    reverieId: Option<string>,
    spender: Option<string>,
    spenderType: Option<string>,
    inputTokens: nat,
    outputTokens: nat,
    cacheCreation: Option<nat>,
    cacheRead: Option<nat>,
    toolUse: Option<ToolUseRecord>)

  datatype UsageReportPayload = UsageReportPayload(
    usage: UsageData, timestamp: int, linkedToolUseId: Option<string>, requestId: string)

  /** What a log task is started with. */
  datatype RequestContext = RequestContext(
    reverieId: Option<string>,
    linkedToolUseId: Option<string>,
    requestId: string,
    spender: Option<string>,
    spenderType: Option<string>)

  /** The usage a new accumulation starts from; it never receives the spender. */
  function NoUsage(ctx: RequestContext): UsageData {
    UsageData(ctx.reverieId, None, None, 0, 0, None, None, None)
  }

  // ---------------------------------------------------------------- the declarative meaning

  /** The update at i ends an accumulation and is reported. */
  predicate Submits(us: seq<SseChunk>, i: nat)
    decreases i, 1
  {
    i < |us| && us[i].Stop? && (InputBefore(us, i) > 0 || OutputBefore(us, i) > 0)
  }

  /** The last input count since the last report before i, or zero. */
  function InputBefore(us: seq<SseChunk>, i: nat): nat
    requires i <= |us|
    decreases i, 0
  {
    if i == 0 || Submits(us, i - 1) then 0
    else if us[i - 1].InputTokens? then us[i - 1].inputTokens
    else InputBefore(us, i - 1)
  }

  function OutputBefore(us: seq<SseChunk>, i: nat): nat
    requires i <= |us|
    decreases i, 0
  {
    if i == 0 || Submits(us, i - 1) then 0
    else if us[i - 1].OutputTokens? then us[i - 1].outputTokens
    else OutputBefore(us, i - 1)
  }

  function ToolBefore(us: seq<SseChunk>, i: nat): Option<ToolUseRecord>
    requires i <= |us|
    decreases i, 0
  {
    if i == 0 || Submits(us, i - 1) then None
    else
      match us[i - 1]
      case ToolUse(id, name, input, toolType) => Some(ToolUseRecord(id, name, input, toolType))
      case _ => ToolBefore(us, i - 1)
  }

  function UsageBefore(ctx: RequestContext, us: seq<SseChunk>, i: nat): UsageData
    requires i <= |us|
  {
    NoUsage(ctx).(inputTokens := InputBefore(us, i), outputTokens := OutputBefore(us, i), toolUse := ToolBefore(us, i))
  }

  /** One usage for every submitting stop among the first n updates, in order. */
  function Reported(ctx: RequestContext, us: seq<SseChunk>, n: nat): seq<UsageData>
    requires n <= |us|
  {
    if n == 0 then []
    else Reported(ctx, us, n - 1) + (if Submits(us, n - 1) then [UsageBefore(ctx, us, n - 1)] else [])
  }

  /** The submitting stops among the first n updates, in order. */
  function SubmittingStops(us: seq<SseChunk>, n: nat): (stops: seq<nat>)
    requires n <= |us|
    ensures forall k :: 0 <= k < |stops| ==> stops[k] < n
  {
    if n == 0 then []
    else SubmittingStops(us, n - 1) + (if Submits(us, n - 1) then [n - 1] else [])
  }

  /** The k-th report is the usage accumulated before the k-th submitting stop; those stops come in
      order and none is missed. */
  lemma {:induction false} ReportedAtStops(ctx: RequestContext, us: seq<SseChunk>, n: nat)
    requires n <= |us|
    ensures |Reported(ctx, us, n)| == |SubmittingStops(us, n)|
    ensures
      var stops := SubmittingStops(us, n);
      && (forall k :: 0 <= k < |stops| ==>
                        Submits(us, stops[k]) && Reported(ctx, us, n)[k] == UsageBefore(ctx, us, stops[k]))
      && (forall i, j :: 0 <= i < j < |stops| ==> stops[i] < stops[j])
      && (forall i: nat :: i < n && Submits(us, i) ==> i in stops)
  {
    if n > 0 {
      ReportedAtStops(ctx, us, n - 1);
    }
  }

  /** No report lies between j and i. */
  ghost predicate NoReportBetween(us: seq<SseChunk>, j: nat, i: nat) {
    forall k: nat :: j <= k < i ==> !Submits(us, k)
  }

  /** A nonzero input count is one that was announced since the last report and not again since. */
  lemma {:induction false} InputBeforeIsLast(us: seq<SseChunk>, i: nat)
    requires i <= |us|
    ensures InputBefore(us, i) > 0 ==>
              exists j: nat :: j < i && us[j] == InputTokens(InputBefore(us, i)) && NoReportBetween(us, j, i)
                               && forall k :: j < k < i ==> !us[k].InputTokens?
    ensures forall j: nat :: (&& j < i && us[j].InputTokens? && NoReportBetween(us, j, i)
                              && forall k :: j < k < i ==> !us[k].InputTokens?)
                             ==> InputBefore(us, i) == us[j].inputTokens
  {
    if i > 0 {
      InputBeforeIsLast(us, i - 1);
      if !Submits(us, i - 1) && !us[i - 1].InputTokens? && InputBefore(us, i) > 0 {
        var j: nat :| j < i - 1 && us[j] == InputTokens(InputBefore(us, i - 1)) && NoReportBetween(us, j, i - 1)
                      && forall k :: j < k < i - 1 ==> !us[k].InputTokens?;
        assert NoReportBetween(us, j, i);
      } else if !Submits(us, i - 1) && us[i - 1].InputTokens? {
        assert NoReportBetween(us, i - 1, i);
      }
    }
  }

  lemma {:induction false} OutputBeforeIsLast(us: seq<SseChunk>, i: nat)
    requires i <= |us|
    ensures OutputBefore(us, i) > 0 ==>
              exists j: nat :: j < i && us[j] == OutputTokens(OutputBefore(us, i)) && NoReportBetween(us, j, i)
                               && forall k :: j < k < i ==> !us[k].OutputTokens?
    ensures forall j: nat :: (&& j < i && us[j].OutputTokens? && NoReportBetween(us, j, i)
                              && forall k :: j < k < i ==> !us[k].OutputTokens?)
                             ==> OutputBefore(us, i) == us[j].outputTokens
  {
    if i > 0 {
      OutputBeforeIsLast(us, i - 1);
      if !Submits(us, i - 1) && !us[i - 1].OutputTokens? && OutputBefore(us, i) > 0 {
        var j: nat :| j < i - 1 && us[j] == OutputTokens(OutputBefore(us, i - 1)) && NoReportBetween(us, j, i - 1)
                      && forall k :: j < k < i - 1 ==> !us[k].OutputTokens?;
        assert NoReportBetween(us, j, i);
      } else if !Submits(us, i - 1) && us[i - 1].OutputTokens? {
        assert NoReportBetween(us, i - 1, i);
      }
    }
  }

  function ToolOf(u: SseChunk): ToolUseRecord
    requires u.ToolUse?
  {
    ToolUseRecord(u.id, u.name, u.input, u.toolType)
  }

  /** The tool use is the last one since the last report; there is none if none was announced. */
  lemma {:induction false} ToolBeforeIsLast(us: seq<SseChunk>, i: nat)
    requires i <= |us|
    ensures ToolBefore(us, i).None? <==> forall j: nat :: j < i && us[j].ToolUse? ==> !NoReportBetween(us, j, i)
    ensures forall j: nat :: (&& j < i && us[j].ToolUse? && NoReportBetween(us, j, i)
                              && forall k :: j < k < i ==> !us[k].ToolUse?)
                             ==> ToolBefore(us, i) == Some(ToolOf(us[j]))
  {
    if i > 0 {
      ToolBeforeIsLast(us, i - 1);
      if !Submits(us, i - 1) {
        assert forall j: nat :: j < i - 1 ==> (NoReportBetween(us, j, i) <==> NoReportBetween(us, j, i - 1));
        assert NoReportBetween(us, i - 1, i);
      }
    }
  }

  /** The update announced a count of tokens, and none of its kind came after it before i. */
  predicate CountsLast(us: seq<SseChunk>, j: nat, i: nat) {
    && j < i <= |us|
    && (|| (us[j].InputTokens? && us[j].inputTokens > 0 && forall k :: j < k < i ==> !us[k].InputTokens?)
        || (us[j].OutputTokens? && us[j].outputTokens > 0 && forall k :: j < k < i ==> !us[k].OutputTokens?))
  }

  /** A stop is reported exactly if a count other than zero, of input or of output, was the last of
      its kind since the previous report. */
  lemma SubmitsIff(us: seq<SseChunk>, i: nat)
    requires i < |us|
    ensures Submits(us, i) <==> us[i].Stop? && exists j: nat :: CountsLast(us, j, i) && NoReportBetween(us, j, i)
  {
    InputBeforeIsLast(us, i);
    OutputBeforeIsLast(us, i);
    if InputBefore(us, i) > 0 {
      var j: nat :| j < i && us[j] == InputTokens(InputBefore(us, i)) && NoReportBetween(us, j, i)
                    && forall k :: j < k < i ==> !us[k].InputTokens?;
      assert CountsLast(us, j, i);
    }
    if OutputBefore(us, i) > 0 {
      var j: nat :| j < i && us[j] == OutputTokens(OutputBefore(us, i)) && NoReportBetween(us, j, i)
                    && forall k :: j < k < i ==> !us[k].OutputTokens?;
      assert CountsLast(us, j, i);
    }
  }

  // ---------------------------------------------------------------- what does not matter

  /** The spender that a log task is started with reaches none of its reports: they are those of a
      task started with any other, and name none. */
  lemma {:induction false} SpenderNeverReported(
    ctx: RequestContext, spender: Option<string>, spenderType: Option<string>, us: seq<SseChunk>, n: nat)
    requires n <= |us|
    ensures Reported(ctx.(spender := spender, spenderType := spenderType), us, n) == Reported(ctx, us, n)
    ensures forall usage :: usage in Reported(ctx, us, n) ==> usage.spender.None? && usage.spenderType.None?
  {
    if n > 0 {
      SpenderNeverReported(ctx, spender, spenderType, us, n - 1);
    }
  }

  /** Every report names the request's reverie and carries no cache counts. */
  lemma {:induction false} ReverieAlwaysReported(ctx: RequestContext, us: seq<SseChunk>, n: nat)
    requires n <= |us|
    ensures forall usage :: usage in Reported(ctx, us, n) ==>
                              && usage.reverieId == ctx.reverieId
                              && usage.cacheCreation.None? && usage.cacheRead.None?
                              && (usage.inputTokens > 0 || usage.outputTokens > 0)
  {
    if n > 0 {
      ReverieAlwaysReported(ctx, us, n - 1);
    }
  }

  predicate Idle(u: SseChunk) {
    u.Text? || u.Other?
  }

  function Erase(us: seq<SseChunk>): (kept: seq<SseChunk>)
    ensures |kept| <= |us|
  {
    if us == [] then []
    else Erase(us[..|us| - 1]) + (if Idle(us[|us| - 1]) then [] else [us[|us| - 1]])
  }

  /** Everything told of the first n updates depends on them alone. */
  lemma {:induction false} PrefixDecides(ctx: RequestContext, us: seq<SseChunk>, vs: seq<SseChunk>, n: nat)
    requires n <= |us| && n <= |vs| && us[..n] == vs[..n]
    ensures InputBefore(us, n) == InputBefore(vs, n) && OutputBefore(us, n) == OutputBefore(vs, n)
    ensures ToolBefore(us, n) == ToolBefore(vs, n)
    ensures Reported(ctx, us, n) == Reported(ctx, vs, n)
  {
    if n > 0 {
      assert us[..n - 1] == us[..n][..n - 1] == vs[..n][..n - 1] == vs[..n - 1];
      assert us[n - 1] == us[..n][n - 1] == vs[..n][n - 1] == vs[n - 1];
      PrefixDecides(ctx, us, vs, n - 1);
    }
  }

  /** Text and other updates can be left out of a stream without changing its reports. */
  lemma {:induction false} IdleUpdatesDoNotMatter(ctx: RequestContext, us: seq<SseChunk>)
    ensures
      var kept := Erase(us);
      && InputBefore(us, |us|) == InputBefore(kept, |kept|) && OutputBefore(us, |us|) == OutputBefore(kept, |kept|)
      && ToolBefore(us, |us|) == ToolBefore(kept, |kept|)
      && Reported(ctx, us, |us|) == Reported(ctx, kept, |kept|)
    decreases |us|
  {
    if us != [] {
      var n, front := |us| - 1, us[..|us| - 1];
      var keptFront, kept := Erase(front), Erase(us);
      IdleUpdatesDoNotMatter(ctx, front);
      PrefixDecides(ctx, us, front, n);
      assert !Idle(us[n]) ==> kept == keptFront + [us[n]];
      PrefixDecides(ctx, kept, keptFront, |keptFront|);
    }
  }

  // ---------------------------------------------------------------- the tasks

  /** Each report carries the request's ids and the time at which its own stop was handled. */
  ghost predicate Stamped(
    ctx: RequestContext, us: seq<SseChunk>, clock: seq<int>, n: nat, reports: seq<UsageReportPayload>)
    requires n <= |us| == |clock|
  {
    var stops := SubmittingStops(us, n);
    && |reports| == |stops|
    && forall k :: 0 <= k < |reports| ==>
                     reports[k] == UsageReportPayload(UsageBefore(ctx, us, stops[k]), clock[stops[k]],
                                                      ctx.linkedToolUseId, ctx.requestId)
  }

  /** `clock` gives the time at which each update is handled. */
  method LogSseResponse(ctx: RequestContext, received: seq<SseChunk>, clock: seq<int>)
    returns (reports: seq<UsageReportPayload>)
    requires |clock| == |received|
    ensures Stamped(ctx, received, clock, |received|, reports)
    ensures |reports| == |Reported(ctx, received, |received|)|
    ensures forall k :: 0 <= k < |reports| ==> reports[k].usage == Reported(ctx, received, |received|)[k]
  {
    var current := NoUsage(ctx);
    reports := [];
    var i := 0;
    while i < |received|
      invariant 0 <= i <= |received|
      invariant current == UsageBefore(ctx, received, i)
      invariant Stamped(ctx, received, clock, i, reports)
    {
      match received[i] {
        case InputTokens(n) => current := current.(inputTokens := n);
        case OutputTokens(n) => current := current.(outputTokens := n);
        case ToolUse(id, name, input, toolType) =>
          current := current.(toolUse := Some(ToolUseRecord(id, name, input, toolType)));
        case Stop =>
          if current.inputTokens > 0 || current.outputTokens > 0 {
            reports := reports + [UsageReportPayload(current, clock[i], ctx.linkedToolUseId, ctx.requestId)];
            current := NoUsage(ctx);
          }
        case Text(_) =>
        case Other(_) =>
      }
      i := i + 1;
    }
    ReportedAtStops(ctx, received, |received|);
  }

  /** What the channel of a plain body delivers. */
  datatype BodyItem = Bytes(bytes: seq<byte>) | ChannelError

  function BytesOf(chunks: seq<seq<byte>>): (items: seq<BodyItem>)
    ensures |items| == |chunks|
  {
    seq(|chunks|, i requires 0 <= i < |chunks| => Bytes(chunks[i]))
  }

  /** The body handed on for reading: all bytes, unless the stream broke or was empty. */
  method LogRegularResponse(items: seq<BodyItem>) returns (body: Option<seq<byte>>)
    ensures (exists i :: 0 <= i < |items| && items[i].ChannelError?) ==> body == None
    ensures forall chunks :: items == BytesOf(chunks) ==>
                               body == if Concat(chunks) == [] then None else Some(Concat(chunks))
  {
    var buffer: seq<byte> := [];
    var i := 0;
    ghost var chunks: seq<seq<byte>> := [];
    while i < |items|
      invariant 0 <= i <= |items|
      invariant |chunks| == i && forall k :: 0 <= k < i ==> items[k] == Bytes(chunks[k])
      invariant buffer == Concat(chunks)
    {
      match items[i] {
        case Bytes(bytes) =>
          ConcatOne(chunks, bytes);
          chunks := chunks + [bytes];
          buffer := buffer + bytes;
        case ChannelError =>
          assert items[i].ChannelError?;
          return None;
      }
      i := i + 1;
    }
    forall given | items == BytesOf(given)
      ensures given == chunks
    {
      assert forall k :: 0 <= k < |given| ==> BytesOf(given)[k] == Bytes(given[k]);
    }
    body := if buffer == [] then None else Some(buffer);
  }

  // ---------------------------------------------------------------- the whole pipeline

  /** Two deliveries of the same bytes, cut and interleaved in any way, lead to the same usage
      reports, provided that the channel dropped nothing and the log has taken everything. */
  lemma SameBytesSameReports(lib: Library, url: Option<string>, ctx: RequestContext, a: seq<TeeEvent>, b: seq<TeeEvent>)
    requires Concat(Chunks(Polls(a))) == Concat(Chunks(Polls(b)))
    requires
      var ta, tb := TeeRun(lib, url, NewTee(), a).channel, TeeRun(lib, url, NewTee(), b).channel;
      ta.failed == 0 && tb.failed == 0 && ta.queue == [] && tb.queue == []
    ensures
      var ra, rb := TeeRun(lib, url, NewTee(), a).channel.received, TeeRun(lib, url, NewTee(), b).channel.received;
      ra == rb && Reported(ctx, ra, |ra|) == Reported(ctx, rb, |rb|)
  {
    TeeIsTransparent(lib, url, a);
    TeeIsTransparent(lib, url, b);
    CutsDoNotMatter(lib, url, Chunks(Polls(a)), Chunks(Polls(b)));
    var ta, tb := TeeRun(lib, url, NewTee(), a).channel, TeeRun(lib, url, NewTee(), b).channel;
    assert ta.received + ta.queue == ta.received && tb.received + tb.queue == tb.received;
  }
}
