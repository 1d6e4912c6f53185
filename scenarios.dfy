/**
 * Clients of `Span` that drive it through whole lifecycles and state what
 * the serialized record then holds, using only the contracts of `Span`.
 */
module Scenarios {
  import opened Values
  import opened PhpString
  import opened PhpMath
  import opened TraceableEvents
  import opened Events

  /**
   * A database query span under transaction "tx-1" of trace "trace-9":
   * named with surrounding blanks, classified, started, and stopped after
   * the timer measured 12.345 ms.
   */
  method DbQuerySpan(base: EventIdentity, keywordField: KeywordField) returns (doc: SpanDocument)
    ensures doc.span.name == keywordField(Some("DB query"))
    ensures doc.span.spanType == keywordField(Some("db"))
    ensures doc.span.subtype == keywordField(Some("mysql"))
    ensures doc.span.action == keywordField(Some("query"))
    ensures doc.span.duration == FloatNum(12.345)
    ensures doc.span.traceId == "trace-9"
    ensures doc.span.parentId == "tx-1" && doc.span.transactionId == "tx-1"
    ensures doc.span.id == base.id && doc.span.timestamp == base.timestamp
    ensures doc.span.sync && doc.span.outcome == None && doc.span.stacktrace == List([])
  {
    DbQueryStrings();
    var span := new Span("  DB query  ", ParentRef("tx-1", "trace-9"), None, base);
    span.SetType("db");
    span.SetSubType("mysql");
    span.SetAction("query");
    span.Start();
    assert span.GetName() == "DB query" && span.action == Some("query");
    DbQueryDuration();
    span.Stop(None, 12.345);
    doc := span.JsonSerialize(keywordField);
  }

  /** What `trim` makes of the strings the database query span is given. */
  lemma DbQueryStrings()
    ensures Trim("  DB query  ") == "DB query"
    ensures Trim("db") == "db" && Trim("mysql") == "mysql" && Trim("query") == "query"
  {
    assert "  DB query  " == "  " + "DB query" + "  ";
    TrimUnique("  ", "DB query", "  ");
    TrimOfTrimmed("db");
    TrimOfTrimmed("mysql");
    TrimOfTrimmed("query");
  }

  /** A measurement of 12.345 ms is kept as it is by the three-decimal rounding. */
  lemma DbQueryDuration()
    ensures Round3(12.345) == 12.345
  {
  }

  /**
   * A span started at a given second with microsecond precision, stopped
   * twice: the record carries the start time in microseconds, and the last
   * explicit duration wins over the earlier one and over the measurement.
   */
  method TimedSpan(base: EventIdentity, parent: ParentRef, startMicros: int, keywordField: KeywordField)
    returns (doc: SpanDocument)
    requires startMicros != 0
    ensures doc.span.timestamp == startMicros
    ensures doc.span.duration == IntNum(7)
    ensures doc.span.traceId == parent.traceId && doc.span.parentId == parent.id
  {
    var start := startMicros as real / 1000000.0;
    MicrosFromSecondsExact(startMicros);
    var span := new Span("timed", parent, Some(start), base);
    span.Stop(Some(40), 1.5);
    span.Stop(Some(7), 99.0);
    doc := span.JsonSerialize(keywordField);
  }

  /**
   * Asynchronous span with an outcome and a two-frame stack trace: the
   * record reflects the new sync flag, the trimmed outcome and the frames in
   * their order. Setting a `null` outcome afterwards leaves `""`, not `null`.
   */
  method AsyncSpanWithFrames(base: EventIdentity, parent: ParentRef, keywordField: KeywordField)
    returns (doc: SpanDocument, cleared: SpanDocument)
    ensures !doc.span.sync
    ensures doc.span.outcome == Some("success")
    ensures doc.span.stacktrace == List([
      Object([("function", Str("f"))]), Object([("function", Str("g"))])])
    ensures doc.span.duration == IntNum(0)
    ensures cleared.span.outcome == Some("")
  {
    var span := new Span("render", parent, None, base);
    span.SetSync(false);
    assert " success" == " " + "success" + [];
    TrimUnique(" ", "success", []);
    span.SetOutcome(Some(" success"));
    span.SetStacktrace(List([Object([("function", Str("f"))]), Object([("function", Str("g"))])]));
    doc := span.JsonSerialize(keywordField);
    span.SetOutcome(None);
    cleared := span.JsonSerialize(keywordField);
  }
}
