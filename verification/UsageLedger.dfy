/** The ledger of verified usage reports: a table keyed by request id, and the running totals
    read back from it. */
module UsageLedger {
  import opened Types
  import opened SseParsing
  import opened UsageReports

  /** The largest count a database column takes. */
  const I64_MAX: nat := 0x7FFF_FFFF_FFFF_FFFF

  const U64_RANGE: nat := 0x1_0000_0000_0000_0000

  /** Printing a JSON value and reading it back. */
  datatype JsonText = JsonText(render: Json -> string, read: string -> Option<Json>)

  ghost predicate Inverse(text: JsonText) {
    forall j :: text.read(text.render(j)) == Some(j)
  }

  datatype Row = Row(
    requestId: string,
    timestamp: int,
    inputTokens: nat,
    outputTokens: nat,
    cacheCreationTokens: Option<nat>,
    cacheReadTokens: Option<nat>,
    toolId: Option<string>,
    toolName: Option<string>,
    toolInput: Option<string>,
    toolType: Option<string>,
    linkedToolId: Option<string>,
    reverieId: Option<string>,
    spenderAddress: Option<string>,
    spenderType: Option<string>)

  function RowOf(text: JsonText, p: UsageReportPayload): Row {
    var tool := p.usage.toolUse;
    Row(p.requestId, p.timestamp, p.usage.inputTokens, p.usage.outputTokens, p.usage.cacheCreation, p.usage.cacheRead,
        if tool.Some? then Some(tool.value.id) else None,
        if tool.Some? then Some(tool.value.name) else None,
        if tool.Some? then Some(text.render(tool.value.input)) else None,
        if tool.Some? then Some(tool.value.toolType) else None,
        p.linkedToolUseId, p.usage.reverieId, p.usage.spender, p.usage.spenderType)
  }

  function PayloadOf(text: JsonText, row: Row): UsageReportPayload {
    var tool :=
      if row.toolId.Some? && row.toolName.Some? && row.toolInput.Some? && row.toolType.Some? then
        var input := text.read(row.toolInput.value);
        Some(ToolUseRecord(row.toolId.value, row.toolName.value,
                           if input.Some? then input.value else JsonNull, row.toolType.value))
      else None;
    UsageReportPayload(
      UsageData(row.reverieId, row.spenderAddress, row.spenderType, row.inputTokens, row.outputTokens,
                row.cacheCreationTokens, row.cacheReadTokens, tool),
      row.timestamp, row.linkedToolId, row.requestId)
  }

  /** A stored payload reads back as it was. */
  lemma StoredReadsBack(text: JsonText, p: UsageReportPayload)
    requires Inverse(text)
    ensures PayloadOf(text, RowOf(text, p)) == p
  {
    if p.usage.toolUse.Some? {
      assert text.read(text.render(p.usage.toolUse.value.input)) == Some(p.usage.toolUse.value.input);
    }
  }

  predicate CountFits(n: Option<nat>) {
    n.Some? ==> n.value <= I64_MAX
  }

  predicate Fits(p: UsageReportPayload) {
    && p.usage.inputTokens <= I64_MAX && p.usage.outputTokens <= I64_MAX
    && CountFits(p.usage.cacheCreation) && CountFits(p.usage.cacheRead)
  }

  predicate HasKey(rows: seq<Row>, id: string) {
    exists i :: 0 <= i < |rows| && rows[i].requestId == id
  }

  /** An insert fails on counts too large for a column and on a key already there. */
  function Insert(text: JsonText, rows: seq<Row>, p: UsageReportPayload): Option<seq<Row>> {
    if !Fits(p) || HasKey(rows, p.requestId) then None else Some(rows + [RowOf(text, p)])
  }

  function Matching(rows: seq<Row>, reverieId: string): seq<Row> {
    if rows == [] then []
    else Matching(rows[..|rows| - 1], reverieId)
         + (if rows[|rows| - 1].reverieId == Some(reverieId) then [rows[|rows| - 1]] else [])
  }

  /** An answer to the query: the matching rows, latest first, ties in any order. */
  ghost predicate Selection(rows: seq<Row>, reverieId: string, selected: seq<Row>) {
    && multiset(selected) == multiset(Matching(rows, reverieId))
    && forall i, j :: 0 <= i < j < |selected| ==> selected[i].timestamp >= selected[j].timestamp
  }

  class UsageDb {
    const text: JsonText
    var rows: seq<Row>

    constructor (text: JsonText)
      ensures this.text == text && rows == []
    {
      this.text := text;
      rows := [];
    }

    method StoreUsagePayload(p: UsageReportPayload) returns (ok: bool)
      modifies this
      ensures ok <==> && p.usage.inputTokens < 0x8000_0000_0000_0000 && p.usage.outputTokens < 0x8000_0000_0000_0000
                      && (p.usage.cacheCreation.Some? ==> p.usage.cacheCreation.value < 0x8000_0000_0000_0000)
                      && (p.usage.cacheRead.Some? ==> p.usage.cacheRead.value < 0x8000_0000_0000_0000)
                      && forall row :: row in old(rows) ==> row.requestId != p.requestId
      ensures ok <==> Fits(p) && !HasKey(old(rows), p.requestId)
      ensures rows == if ok then old(rows) + [RowOf(text, p)] else old(rows)
    {
      if !Fits(p) {
        return false;
      }
      var i := 0;
      while i < |rows|
        invariant 0 <= i <= |rows|
        invariant forall k :: 0 <= k < i ==> rows[k].requestId != p.requestId
      {
        if rows[i].requestId == p.requestId {
          return false;
        }
        i := i + 1;
      }
      rows := rows + [RowOf(text, p)];
      return true;
    }

    /** `answer` is the database's answer to the query, `None` if it failed. */
    method ReadUsageData(reverieId: string, answer: Option<seq<Row>>) returns (read: Option<seq<UsageReportPayload>>)
      requires answer.Some? ==> Selection(rows, reverieId, answer.value)
      ensures read.Some? <==> answer.Some?
      ensures read.Some? ==>
                && |read.value| == |answer.value|
                && forall i :: 0 <= i < |read.value| ==> read.value[i] == PayloadOf(text, answer.value[i])
    {
      if answer.None? {
        return None;
      }
      var selected := answer.value;
      var results := [];
      var i := 0;
      while i < |selected|
        invariant 0 <= i <= |selected| && |results| == i
        invariant forall k :: 0 <= k < i ==> results[k] == PayloadOf(text, selected[k])
      {
        results := results + [PayloadOf(text, selected[i])];
        i := i + 1;
      }
      return Some(results);
    }
  }

  // ---------------------------------------------------------------- running totals

  datatype UsageRecord = UsageRecord(
    requestId: string,
    timestamp: int,
    inputTokens: nat,
    outputTokens: nat,
    cacheCreationTokens: Option<nat>,
    cacheReadTokens: Option<nat>,
    toolName: Option<string>,
    toolType: Option<string>,
    linkedToolId: Option<string>,
    reverieId: Option<string>,
    spenderAddress: Option<string>,
    spenderType: Option<string>)

  function RecordOf(p: UsageReportPayload): UsageRecord {
    var tool := p.usage.toolUse;
    UsageRecord(p.requestId, p.timestamp, p.usage.inputTokens, p.usage.outputTokens, p.usage.cacheCreation,
                p.usage.cacheRead,
                if tool.Some? then Some(tool.value.name) else None,
                if tool.Some? then Some(tool.value.toolType) else None,
                p.linkedToolUseId, p.usage.reverieId, p.usage.spender, p.usage.spenderType)
  }

  function OrZero(n: Option<nat>): nat {
    if n.Some? then n.value else 0
  }

  datatype Totals = Totals(input: nat, output: nat, cacheCreation: nat, cacheRead: nat) {
    function Plus(r: UsageRecord): Totals {
      Totals(input + r.inputTokens, output + r.outputTokens,
             cacheCreation + OrZero(r.cacheCreationTokens), cacheRead + OrZero(r.cacheReadTokens))
    }

    /** What 64-bit counters show of these totals. */
    function Wrapped(): Totals {
      Totals(input % U64_RANGE, output % U64_RANGE, cacheCreation % U64_RANGE, cacheRead % U64_RANGE)
    }

    predicate InRange() {
      && input <= 0xFFFF_FFFF_FFFF_FFFF && output <= 0xFFFF_FFFF_FFFF_FFFF
      && cacheCreation <= 0xFFFF_FFFF_FFFF_FFFF && cacheRead <= 0xFFFF_FFFF_FFFF_FFFF
    }
  }

  const ZERO: Totals := Totals(0, 0, 0, 0)

  function SumOf(records: seq<UsageRecord>): Totals {
    if records == [] then ZERO else SumOf(records[..|records| - 1]).Plus(records[|records| - 1])
  }

  class MCPToolUsageMetrics {
    var totalInputTokens: nat
    var totalOutputTokens: nat
    var totalCacheCreationTokens: nat
    var totalCacheReadTokens: nat
    var usageRecords: seq<UsageRecord>

    ghost function Shown(): Totals
      reads this
    {
      Totals(totalInputTokens, totalOutputTokens, totalCacheCreationTokens, totalCacheReadTokens)
    }

    /** The totals are always those of the list, as 64-bit counters show them. */
    ghost predicate Valid()
      reads this
    {
      Shown() == SumOf(usageRecords).Wrapped()
    }

    constructor ()
      ensures Valid() && usageRecords == []
    {
      totalInputTokens, totalOutputTokens, totalCacheCreationTokens, totalCacheReadTokens := 0, 0, 0, 0;
      usageRecords := [];
    }

    method AddUsageRecord(record: UsageRecord)
      requires Valid()
      modifies this
      ensures Valid()
      ensures usageRecords == old(usageRecords) + [record]
    {
      SumOneMore(usageRecords, record);
      totalInputTokens := (totalInputTokens + record.inputTokens) % U64_RANGE;
      totalOutputTokens := (totalOutputTokens + record.outputTokens) % U64_RANGE;
      totalCacheCreationTokens := (totalCacheCreationTokens + OrZero(record.cacheCreationTokens)) % U64_RANGE;
      totalCacheReadTokens := (totalCacheReadTokens + OrZero(record.cacheReadTokens)) % U64_RANGE;
      usageRecords := usageRecords + [record];
    }

    method ClearUsageData()
      modifies this
      ensures Valid() && usageRecords == [] && Shown() == ZERO
    {
      usageRecords := [];
      totalInputTokens, totalOutputTokens, totalCacheCreationTokens, totalCacheReadTokens := 0, 0, 0, 0;
    }
  }

  lemma WrapAdd(a: nat, b: nat)
    ensures (a % U64_RANGE + b) % U64_RANGE == (a + b) % U64_RANGE
  {
    assert a == a / U64_RANGE * U64_RANGE + a % U64_RANGE;
  }

  lemma SumOneMore(records: seq<UsageRecord>, r: UsageRecord)
    ensures
      var before := SumOf(records).Wrapped();
      SumOf(records + [r]).Wrapped()
      == Totals((before.input + r.inputTokens) % U64_RANGE, (before.output + r.outputTokens) % U64_RANGE,
                (before.cacheCreation + OrZero(r.cacheCreationTokens)) % U64_RANGE,
                (before.cacheRead + OrZero(r.cacheReadTokens)) % U64_RANGE)
  {
    var sum := SumOf(records);
    assert (records + [r])[..|records|] == records;
    WrapAdd(sum.input, r.inputTokens);
    WrapAdd(sum.output, r.outputTokens);
    WrapAdd(sum.cacheCreation, OrZero(r.cacheCreationTokens));
    WrapAdd(sum.cacheRead, OrZero(r.cacheReadTokens));
  }

  // ---------------------------------------------------------------- order does not matter

  function Records(text: JsonText, rows: seq<Row>): (records: seq<UsageRecord>)
    ensures |records| == |rows|
  {
    seq(|rows|, i requires 0 <= i < |rows| => RecordOf(PayloadOf(text, rows[i])))
  }

  function RowSum(text: JsonText, rows: seq<Row>): Totals {
    SumOf(Records(text, rows))
  }

  lemma RowSumStep(text: JsonText, rows: seq<Row>)
    requires rows != []
    ensures RowSum(text, rows) == RowSum(text, rows[..|rows| - 1]).Plus(RecordOf(PayloadOf(text, rows[|rows| - 1])))
  {
    assert Records(text, rows)[..|rows| - 1] == Records(text, rows[..|rows| - 1]);
  }

  lemma {:induction false} RowSumWithout(text: JsonText, rows: seq<Row>, i: nat)
    requires i < |rows|
    ensures RowSum(text, rows) == RowSum(text, rows[..i] + rows[i + 1..]).Plus(RecordOf(PayloadOf(text, rows[i])))
    decreases |rows|
  {
    var n := |rows| - 1;
    RowSumStep(text, rows);
    if i == n {
      assert rows[..i] + rows[i + 1..] == rows[..n];
    } else {
      var front, without := rows[..n], rows[..i] + rows[i + 1..];
      RowSumWithout(text, front, i);
      assert without[..|without| - 1] == front[..i] + front[i + 1..];
      RowSumStep(text, without);
    }
  }

  lemma {:induction false} RowSumUnordered(text: JsonText, a: seq<Row>, b: seq<Row>)
    requires multiset(a) == multiset(b)
    ensures RowSum(text, a) == RowSum(text, b)
    decreases |a|
  {
    assert |a| == |multiset(a)| == |multiset(b)| == |b|;
    if a != [] {
      var n := |a| - 1;
      assert a[n] in multiset(a);
      var i: nat :| i < |b| && b[i] == a[n];
      var rest := b[..i] + b[i + 1..];
      assert a == a[..n] + [a[n]];
      assert b == b[..i] + [b[i]] + b[i + 1..];
      assert multiset(rest) == multiset(b) - multiset{b[i]};
      assert multiset(a[..n]) == multiset(a) - multiset{a[n]};
      RowSumUnordered(text, a[..n], rest);
      RowSumStep(text, a);
      RowSumWithout(text, b, i);
    }
  }

  // ---------------------------------------------------------------- from reports to totals

  /** A report as it arrives: `None` if its verification fails. */
  type Report = Option<UsageReportPayload>

  /** A report that is verified and storable, with an id not stored before it. */
  ghost predicate FirstOfItsId(reports: seq<Report>, i: nat) {
    && i < |reports| && reports[i].Some? && Fits(reports[i].value)
    && forall j :: 0 <= j < i && reports[j].Some? && Fits(reports[j].value) ==>
                     reports[j].value.requestId != reports[i].value.requestId
  }

  /** The first payloads of each request id that belong to a reverie. */
  ghost function FirstPayloads(reports: seq<Report>, reverieId: string): seq<UsageReportPayload> {
    if reports == [] then []
    else
      var n := |reports| - 1;
      FirstPayloads(reports[..n], reverieId)
      + (if FirstOfItsId(reports, n) && reports[n].value.usage.reverieId == Some(reverieId) then [reports[n].value]
         else [])
  }

  function StoreAll(text: JsonText, reports: seq<Report>): seq<Row> {
    if reports == [] then []
    else
      var rows := StoreAll(text, reports[..|reports| - 1]);
      match reports[|reports| - 1]
      case None => rows
      case Some(p) => var inserted := Insert(text, rows, p); if inserted.Some? then inserted.value else rows
  }

  lemma {:induction false} KeysStored(text: JsonText, reports: seq<Report>, id: string)
    ensures HasKey(StoreAll(text, reports), id)
       <==> exists i :: 0 <= i < |reports| && reports[i].Some? && Fits(reports[i].value)
                        && reports[i].value.requestId == id
  {
    if reports != [] {
      var n := |reports| - 1;
      var front := reports[..n];
      var rows := StoreAll(text, front);
      KeysStored(text, front, id);
      if reports[n].Some? {
        KeysStored(text, front, reports[n].value.requestId);
        var row := RowOf(text, reports[n].value);
        assert HasKey(rows + [row], id) <==> HasKey(rows, id) || row.requestId == id by {
          assert (rows + [row])[|rows|] == row;
          assert forall i :: 0 <= i < |rows| ==> (rows + [row])[i] == rows[i];
        }
      }
      assert forall i :: 0 <= i < n ==> front[i] == reports[i];
    }
  }

  lemma MatchingOneMore(rows: seq<Row>, row: Row, reverieId: string)
    ensures Matching(rows + [row], reverieId)
         == Matching(rows, reverieId) + if row.reverieId == Some(reverieId) then [row] else []
  {
    assert (rows + [row])[..|rows|] == rows;
  }

  lemma FirstIsInserted(text: JsonText, reports: seq<Report>)
    requires reports != [] && reports[|reports| - 1].Some?
    ensures
      var n := |reports| - 1;
      FirstOfItsId(reports, n) <==> Insert(text, StoreAll(text, reports[..n]), reports[n].value).Some?
  {
    KeysStored(text, reports[..|reports| - 1], reports[|reports| - 1].value.requestId);
  }

  lemma {:induction false} MatchingAreFirst(text: JsonText, reports: seq<Report>, reverieId: string)
    requires Inverse(text)
    ensures
      var matching, first := Matching(StoreAll(text, reports), reverieId), FirstPayloads(reports, reverieId);
      |matching| == |first| && forall i :: 0 <= i < |first| ==> PayloadOf(text, matching[i]) == first[i]
  {
    if reports != [] {
      var n := |reports| - 1;
      var front := reports[..n];
      var rows := StoreAll(text, front);
      MatchingAreFirst(text, front, reverieId);
      if reports[n].Some? {
        var p := reports[n].value;
        StoredReadsBack(text, p);
        MatchingOneMore(rows, RowOf(text, p), reverieId);
        FirstIsInserted(text, reports);
      }
    }
  }

  function SumBy(payloads: seq<UsageReportPayload>, count: UsageReportPayload -> nat): nat {
    if payloads == [] then 0 else SumBy(payloads[..|payloads| - 1], count) + count(payloads[|payloads| - 1])
  }

  function InputOf(p: UsageReportPayload): nat {
    p.usage.inputTokens
  }

  function OutputOf(p: UsageReportPayload): nat {
    p.usage.outputTokens
  }

  function CacheCreationOf(p: UsageReportPayload): nat {
    match p.usage.cacheCreation
    case Some(n) => n
    case None => 0
  }

  function CacheReadOf(p: UsageReportPayload): nat {
    match p.usage.cacheRead
    case Some(n) => n
    case None => 0
  }

  /** The sums of what the payloads themselves count. */
  function TrueSums(payloads: seq<UsageReportPayload>): Totals {
    Totals(SumBy(payloads, InputOf), SumBy(payloads, OutputOf), SumBy(payloads, CacheCreationOf),
           SumBy(payloads, CacheReadOf))
  }

  lemma {:induction false} RecordsSumTruly(payloads: seq<UsageReportPayload>)
    ensures SumOfPayloads(payloads) == TrueSums(payloads)
    decreases |payloads|
  {
    if payloads != [] {
      var n := |payloads| - 1;
      RecordsSumTruly(payloads[..n]);
      var records := seq(|payloads|, i requires 0 <= i < |payloads| => RecordOf(payloads[i]));
      assert records[..n] == seq(n, i requires 0 <= i < n => RecordOf(payloads[..n][i]));
    }
  }

  function SumOfPayloads(payloads: seq<UsageReportPayload>): Totals {
    SumOf(seq(|payloads|, i requires 0 <= i < |payloads| => RecordOf(payloads[i])))
  }

  /** However reports repeat and whatever order the rows come in, the totals read for a reverie
      are the sums over the first storable payload of each of its request ids. */
  lemma TotalsAreFirstPayloadSums(text: JsonText, reports: seq<Report>, reverieId: string, selected: seq<Row>)
    requires Inverse(text)
    requires Selection(StoreAll(text, reports), reverieId, selected)
    ensures RowSum(text, selected) == TrueSums(FirstPayloads(reports, reverieId))
  {
    var matching, first := Matching(StoreAll(text, reports), reverieId), FirstPayloads(reports, reverieId);
    RowSumUnordered(text, selected, matching);
    MatchingAreFirst(text, reports, reverieId);
    assert Records(text, matching) == seq(|first|, i requires 0 <= i < |first| => RecordOf(first[i]));
    RecordsSumTruly(first);
  }

  /** The displayed totals are the true sums exactly when those fit 64 bits. */
  lemma ShownIsTrueIff(t: Totals)
    ensures t.Wrapped() == t <==> t.InRange()
  {
  }

  /** The totals shown for a reverie are the true sums over the first storable payload of each of
      its request ids exactly when those sums fit 64 bits. */
  lemma ShownTotalsTrueIff(text: JsonText, reports: seq<Report>, reverieId: string, selected: seq<Row>)
    requires Inverse(text)
    requires Selection(StoreAll(text, reports), reverieId, selected)
    ensures
      var sums := TrueSums(FirstPayloads(reports, reverieId));
      RowSum(text, selected).Wrapped() == sums <==> sums.InRange()
  {
    TotalsAreFirstPayloadSums(text, reports, reverieId, selected);
    ShownIsTrueIff(TrueSums(FirstPayloads(reports, reverieId)));
  }

  /** The record shows the row's columns; a tool is shown if all its columns are there. */
  predicate Shows(record: UsageRecord, row: Row) {
    var tool := row.toolId.Some? && row.toolName.Some? && row.toolInput.Some? && row.toolType.Some?;
    && record.requestId == row.requestId && record.timestamp == row.timestamp
    && record.inputTokens == row.inputTokens && record.outputTokens == row.outputTokens
    && record.cacheCreationTokens == row.cacheCreationTokens && record.cacheReadTokens == row.cacheReadTokens
    && record.toolName == (if tool then row.toolName else None)
    && record.toolType == (if tool then row.toolType else None)
    && record.linkedToolId == row.linkedToolId && record.reverieId == row.reverieId
    && record.spenderAddress == row.spenderAddress && record.spenderType == row.spenderType
  }

  class UsageClient {
    const db: UsageDb

    constructor (text: JsonText)
      ensures fresh(db) && db.text == text && db.rows == []
    {
      db := new UsageDb(text);
    }

    /** A verified report that cannot be stored is logged and still accepted. */
    method ReportUsage(report: Report) returns (ok: bool)
      modifies db
      ensures ok <==> report.Some?
      ensures forall reports :: old(db.rows) == StoreAll(db.text, reports) ==>
                                  db.rows == StoreAll(db.text, reports + [report])
    {
      ghost var rows := db.rows;
      if report.Some? {
        var stored := db.StoreUsagePayload(report.value);
      }
      forall reports | rows == StoreAll(db.text, reports)
        ensures db.rows == StoreAll(db.text, reports + [report])
      {
        assert (reports + [report])[..|reports|] == reports;
      }
      ok := report.Some?;
    }

    /** If the query fails the metrics stay empty. */
    method ReadUsageDataForReverie(reverieId: string, answer: Option<seq<Row>>) returns (metrics: MCPToolUsageMetrics)
      requires answer.Some? ==> Selection(db.rows, reverieId, answer.value)
      ensures fresh(metrics) && metrics.Valid()
      ensures |metrics.usageRecords| == if answer.Some? then |answer.value| else 0
      ensures forall i :: 0 <= i < |metrics.usageRecords| ==> Shows(metrics.usageRecords[i], answer.value[i])
      ensures forall reports | answer.Some? && Inverse(db.text) && db.rows == StoreAll(db.text, reports) ::
                var sums := TrueSums(FirstPayloads(reports, reverieId));
                metrics.Shown() == sums <==> sums.InRange()
    {
      metrics := new MCPToolUsageMetrics();
      var read := db.ReadUsageData(reverieId, answer);
      if read.Some? {
        var payloads := read.value;
        var i := 0;
        while i < |payloads|
          invariant 0 <= i <= |payloads|
          invariant fresh(metrics) && metrics.Valid()
          invariant metrics.usageRecords == Records(db.text, answer.value)[..i]
        {
          metrics.AddUsageRecord(RecordOf(payloads[i]));
          i := i + 1;
        }
        assert metrics.usageRecords == Records(db.text, answer.value);
        forall reports | Inverse(db.text) && db.rows == StoreAll(db.text, reports)
          ensures
            var sums := TrueSums(FirstPayloads(reports, reverieId));
            metrics.Shown() == sums <==> sums.InRange()
        {
          ShownTotalsTrueIff(db.text, reports, reverieId, answer.value);
        }
      }
    }
  }
}
