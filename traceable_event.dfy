/**
 * The identity a span inherits from its base class `TraceableEvent`. That
 * class is not part of this model; what `Span` relies on is written here as
 * an explicit assumption rather than derived from its code.
 */
module TraceableEvents {
  import opened Values

  /** The identifiers of the event passed to a span as its parent. */
  datatype ParentRef = ParentRef(id: string, traceId: string)

  /**
   * The state a `TraceableEvent` holds: its own id, the trace it belongs to,
   * its parent's id, its timestamp in microseconds since the epoch, and its
   * free-form context.
   */
  datatype EventIdentity = EventIdentity(
    id: string,
    traceId: string,
    parentId: string,
    timestamp: int,
    context: seq<(string, Json)>)

  /**
   * ASSUMED behaviour of `setParent($parent)`: the parent's trace id is
   * copied and the parent's id is recorded as this event's parent id; the
   * event's own id, timestamp and context are left as they are.
   */
  function SetParent(e: EventIdentity, parent: ParentRef): EventIdentity {
    e.(traceId := parent.traceId, parentId := parent.id)
  }

  /** ASSUMED behaviour of `setTimestamp($t)`: only the timestamp changes. */
  function SetTimestamp(e: EventIdentity, t: int): EventIdentity {
    e.(timestamp := t)
  }
}
