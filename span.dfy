/**
 * `Span`: the agent's record of one traced sub-operation inside a
 * transaction, with its classification, timing, stack trace and the wire
 * record it serializes to.
 */
module Events {
  import opened Values
  import opened PhpString
  import opened PhpMath
  import opened TraceableEvents
  import opened Timing

  /**
   * `Encoding::keywordField`, which is not part of this model: any total
   * function on nullable strings. Nothing is assumed about what it does.
   */
  type KeywordField = Option<string> -> Option<string>

  /** PHP's `if ($start)`: `null` and a zero start time are false. */
  predicate IsTruthy(start: Option<real>) {
    start.Some? && start.value != 0.0
  }

  /** Everything a span holds apart from its timer. */
  datatype SpanState = SpanState(
    name: string,
    duration: Num,
    action: Option<string>,
    spanType: string,
    subtype: string,
    outcome: Option<string>,
    stacktrace: PhpArray,
    sync: bool,
    identity: EventIdentity)

  /** The keys of the serialized span, in the order `jsonSerialize` writes them. */
  const WireKeys: seq<string> := [
    "id", "transaction_id", "trace_id", "parent_id", "type", "subtype", "action",
    "context", "duration", "name", "stacktrace", "sync", "outcome", "timestamp"]

  /** The record inside the `span` key of the serialized event. */
  datatype SpanRecord = SpanRecord(
    id: string,
    transactionId: string,
    traceId: string,
    parentId: string,
    spanType: Option<string>,
    subtype: Option<string>,
    action: Option<string>,
    context: seq<(string, Json)>,
    duration: Num,
    name: Option<string>,
    stacktrace: PhpArray,
    sync: bool,
    outcome: Option<string>,
    timestamp: int)
  {
    /** The record as the keyed PHP array `jsonSerialize` builds. */
    function Members(): (m: seq<(string, Json)>)
      ensures Keys(m) == WireKeys
    {
      [ ("id", Str(id)),
        ("transaction_id", Str(transactionId)),
        ("trace_id", Str(traceId)),
        ("parent_id", Str(parentId)),
        ("type", FromOptionalString(spanType)),
        ("subtype", FromOptionalString(subtype)),
        ("action", FromOptionalString(action)),
        ("context", FromMembers(context)),
        ("duration", Number(duration)),
        ("name", FromOptionalString(name)),
        ("stacktrace", stacktrace),
        ("sync", Bool(sync)),
        ("outcome", FromOptionalString(outcome)),
        ("timestamp", Number(IntNum(timestamp))) ]
    }
  }

  /** The whole serialized event: `['span' => [...]]`. */
  datatype SpanDocument = SpanDocument(span: SpanRecord) {
    /** The outer array has the single key `span`, under which the record sits. */
    function ToArray(): (j: Json)
      ensures j.Object? && Keys(j.members) == ["span"]
      ensures Lookup(j.members, "span") == Some(Object(span.Members()))
    {
      Object([("span", Object(span.Members()))])
    }
  }

  /** No key occurs twice in the serialized span. */
  lemma WireKeysDistinct()
    ensures forall i, j :: 0 <= i < j < |WireKeys| ==> WireKeys[i] != WireKeys[j]
  {
  }

  /**
   * Every wire key carries the record field it is named after: looking a key
   * up in the PHP array gives exactly that field's value.
   */
  lemma WireKeyMapping(r: SpanRecord)
    ensures Keys(r.Members()) == WireKeys
    ensures Lookup(r.Members(), "id") == Some(Str(r.id))
    ensures Lookup(r.Members(), "transaction_id") == Some(Str(r.transactionId))
    ensures Lookup(r.Members(), "trace_id") == Some(Str(r.traceId))
    ensures Lookup(r.Members(), "parent_id") == Some(Str(r.parentId))
    ensures Lookup(r.Members(), "type") == Some(FromOptionalString(r.spanType))
    ensures Lookup(r.Members(), "subtype") == Some(FromOptionalString(r.subtype))
    ensures Lookup(r.Members(), "action") == Some(FromOptionalString(r.action))
    ensures Lookup(r.Members(), "context") == Some(FromMembers(r.context))
    ensures Lookup(r.Members(), "duration") == Some(Number(r.duration))
    ensures Lookup(r.Members(), "name") == Some(FromOptionalString(r.name))
    ensures Lookup(r.Members(), "stacktrace") == Some(r.stacktrace)
    ensures Lookup(r.Members(), "sync") == Some(Bool(r.sync))
    ensures Lookup(r.Members(), "outcome") == Some(FromOptionalString(r.outcome))
    ensures Lookup(r.Members(), "timestamp") == Some(Number(IntNum(r.timestamp)))
  {
    var m := r.Members();
    WireKeysDistinct();
    LookupDistinct(m, 0);
    LookupDistinct(m, 1);
    LookupDistinct(m, 2);
    LookupDistinct(m, 3);
    LookupDistinct(m, 4);
    LookupDistinct(m, 5);
    LookupDistinct(m, 6);
    LookupDistinct(m, 7);
    LookupDistinct(m, 8);
    LookupDistinct(m, 9);
    LookupDistinct(m, 10);
    LookupDistinct(m, 11);
    LookupDistinct(m, 12);
    LookupDistinct(m, 13);
  }

  class Span {
    var name: string
    const timer: Timer
    var duration: Num
    var action: Option<string>
    var spanType: string
    var subtype: string
    var outcome: Option<string>
    var stacktrace: PhpArray
    var sync: bool
    /** The state inherited from `TraceableEvent`. */
    var identity: EventIdentity

    /**
     * The object invariant: every string the span stored through `trim` (its
     * name, type, subtype, action and outcome) starts and ends with no blank
     * character.
     */
    predicate Valid()
      reads this
    {
      && IsTrimmed(name)
      && IsTrimmed(spanType)
      && IsTrimmed(subtype)
      && (action.Some? ==> IsTrimmed(action.value))
      && (outcome.Some? ==> IsTrimmed(outcome.value))
    }

    /** The span's fields as one value. */
    function State(): SpanState
      reads this
    {
      SpanState(name, duration, action, spanType, subtype, outcome, stacktrace, sync, identity)
    }

    /**
     * `new Span($name, $parent, $start)`. `base` is the event the base-class
     * constructor produced (its fresh id, default timestamp and context).
     */
    constructor (name: string, parent: ParentRef, start: Option<real>, base: EventIdentity)
      ensures Valid()
      ensures this.name == Trim(name)
      ensures fresh(timer) && timer.calls == [Created(start)]
      ensures duration == IntNum(0) && action == None && spanType == "request" && subtype == ""
      ensures outcome == None && stacktrace == List([]) && sync
      ensures GetName() == Trim(name) && GetOutcome() == None
      ensures identity.id == base.id && identity.context == base.context
      ensures identity.traceId == parent.traceId && identity.parentId == parent.id
      ensures identity.timestamp == if IsTruthy(start) then MicrosFromSeconds(start.value) else base.timestamp
    {
      this.name := Trim(name);
      timer := new Timer(start);
      duration := IntNum(0);
      action := None;
      spanType := "request";
      subtype := "";
      outcome := None;
      stacktrace := List([]);
      sync := true;
      var event := base;
      if IsTruthy(start) {
        event := SetTimestamp(event, MicrosFromSeconds(start.value));
      }
      identity := SetParent(event, parent);
    }

    /** `start()`: re-arms the timer and leaves every field of the span as it was. */
    method Start()
      modifies timer
      ensures timer.calls == old(timer.calls) + [Started]
      ensures State() == old(State())
    {
      timer.Start();
    }

    /**
     * `stop($duration)`: stops the timer; an explicit duration is stored as it
     * is, otherwise the timer's measurement rounded to three decimals. Only
     * the duration changes, and it does not depend on any earlier duration.
     */
    method Stop(explicitDuration: Option<int>, measuredMs: real)
      requires Valid()
      modifies this, timer
      ensures Valid()
      ensures timer.calls == old(timer.calls) + [Stopped]
      ensures explicitDuration.Some? ==> duration == IntNum(explicitDuration.value)
      ensures explicitDuration.None? ==> duration == FloatNum(Round3(measuredMs))
      ensures State() == old(State()).(duration := duration)
    {
      timer.Stop();
      duration := match explicitDuration
        case Some(d) => IntNum(d)
        case None => FloatNum(Round3(measuredMs));
    }

    /** `getName()`: the stored name, which never has blanks at either end. */
    function GetName(): (r: string)
      reads this
      requires Valid()
      ensures r == State().name
      ensures IsTrimmed(r)
      ensures Trim(r) == r
    {
      TrimOfTrimmed(name);
      name
    }

    /** `setAction($action)`. */
    method SetAction(action: string)
      requires Valid()
      modifies this
      ensures Valid()
      ensures State() == old(State()).(action := Some(Trim(action)))
    {
      this.action := Some(Trim(action));
    }

    /** `setType($type)`. */
    method SetType(spanType: string)
      requires Valid()
      modifies this
      ensures Valid()
      ensures State() == old(State()).(spanType := Trim(spanType))
    {
      this.spanType := Trim(spanType);
    }

    /** `setSubType($subtype)`. */
    method SetSubType(subtype: string)
      requires Valid()
      modifies this
      ensures Valid()
      ensures State() == old(State()).(subtype := Trim(subtype))
    {
      this.subtype := Trim(subtype);
    }

    /**
     * `setStacktrace($stacktrace)`: the given array, a list of frames or a
     * keyed array, replaces the stored one as it is.
     */
    method SetStacktrace(stacktrace: PhpArray)
      requires Valid()
      modifies this
      ensures Valid()
      ensures State() == old(State()).(stacktrace := stacktrace)
    {
      this.stacktrace := stacktrace;
    }

    /** `setSync($sync)`. */
    method SetSync(sync: bool)
      requires Valid()
      modifies this
      ensures Valid()
      ensures State() == old(State()).(sync := sync)
      ensures GetSync() == sync
    {
      this.sync := sync;
    }

    /**
     * `setOutcome($outcome)`: the outcome is trimmed; PHP's `trim(null)` is
     * the empty string, so a `null` outcome is stored as `""`.
     */
    method SetOutcome(outcome: Option<string>)
      requires Valid()
      modifies this
      ensures Valid()
      ensures this.outcome.Some?
      ensures outcome.None? ==> this.outcome == Some("")
      ensures outcome.Some? ==> this.outcome == Some(Trim(outcome.value))
      ensures State() == old(State()).(outcome := this.outcome)
      ensures GetOutcome() == Some(Trim(match outcome case None => "" case Some(o) => o))
    {
      this.outcome := Some(Trim(match outcome case None => "" case Some(o) => o));
    }

    /** `getSync()`: the flag of the span's state. */
    function GetSync(): (r: bool)
      reads this
      ensures r == State().sync
    {
      sync
    }

    /** `getOutcome()`: `null` until set; once set, a trimmed string. */
    function GetOutcome(): (r: Option<string>)
      reads this
      requires Valid()
      ensures r == State().outcome
      ensures r.Some? ==> IsTrimmed(r.value)
    {
      outcome
    }

    /**
     * `jsonSerialize()`: a read of the current state. The parent's id is
     * written twice, as `transaction_id` and as `parent_id`; only the four
     * classification strings go through `keywordField`.
     */
    function JsonSerialize(keywordField: KeywordField): (r: SpanDocument)
      reads this
      requires Valid()
      ensures r.span.transactionId == r.span.parentId == identity.parentId
      ensures r.span.id == identity.id && r.span.traceId == identity.traceId
      ensures r.span.spanType == keywordField(Some(spanType))
      ensures r.span.subtype == keywordField(Some(subtype))
      ensures r.span.action == keywordField(action)
      ensures r.span.name == keywordField(Some(name))
      ensures r.span.duration == duration && r.span.stacktrace == stacktrace
      ensures r.span.sync == sync && r.span.outcome == outcome
      ensures r.span.context == identity.context && r.span.timestamp == identity.timestamp
    {
      SpanDocument(SpanRecord(
        id := identity.id,
        transactionId := identity.parentId,
        traceId := identity.traceId,
        parentId := identity.parentId,
        spanType := keywordField(Some(spanType)),
        subtype := keywordField(Some(subtype)),
        action := keywordField(action),
        context := identity.context,
        duration := duration,
        name := keywordField(Some(GetName())),
        stacktrace := stacktrace,
        sync := GetSync(),
        outcome := GetOutcome(),
        timestamp := identity.timestamp))
    }
  }

  /**
   * Serialization is a pure function of the span's state: two spans in the
   * same state (or one span read twice with nothing changed in between)
   * serialize to the same record.
   */
  lemma SerializeDependsOnlyOnState(a: Span, b: Span, keywordField: KeywordField)
    requires a.Valid() && b.Valid()
    requires a.State() == b.State()
    ensures a.JsonSerialize(keywordField) == b.JsonSerialize(keywordField)
  {
  }

  /**
   * Conversely, nothing of the state is lost on the wire: when `keywordField`
   * keeps distinct values distinct, equal records come only from equal states.
   */
  lemma SerializeIsLossless(a: Span, b: Span, keywordField: KeywordField)
    requires forall x, y :: keywordField(x) == keywordField(y) ==> x == y
    requires a.Valid() && b.Valid()
    requires a.JsonSerialize(keywordField) == b.JsonSerialize(keywordField)
    ensures a.State() == b.State()
  {
  }

  /**
   * On the wire, `transaction_id` and `parent_id` both carry the span's
   * parent id, and `trace_id` its trace id.
   */
  lemma WireParentLinkage(s: Span, keywordField: KeywordField)
    requires s.Valid()
    ensures var m := s.JsonSerialize(keywordField).span.Members();
      && Lookup(m, "transaction_id") == Some(Str(s.identity.parentId))
      && Lookup(m, "parent_id") == Some(Str(s.identity.parentId))
      && Lookup(m, "trace_id") == Some(Str(s.identity.traceId))
      && Lookup(m, "id") == Some(Str(s.identity.id))
  {
    WireKeyMapping(s.JsonSerialize(keywordField).span);
  }
}
