# Span event of the Elastic APM PHP agent, in Dafny

This project models `Span`, the tracing agent's record of one traced
sub-operation inside a transaction (`src/Events/Span.php`). A span is built
from a name, a parent event and an optional start time. It takes its trace
id and parent id from the parent. It carries a type/subtype/action
classification, a sync flag, an outcome and a stack trace. It measures its
duration with a timer. `jsonSerialize` turns it into the `['span' => [...]]`
record the agent sends to the APM server.

Modules:

- `PhpString` (php_string.dfy): PHP's `trim` with its default character
  list (space, `\t`, `\n`, `\r`, `\0`, `\x0B`). `Trim` is proved to be the
  unique middle part left between two runs of those characters.
- `PhpMath` (php_math.dfy): PHP's `round` (ties away from zero), `round($x, 3)`
  and the seconds-to-microseconds conversion `round($start * 1000000)`, all on
  exact reals.
- `Values` (values.dfy): nullable values, PHP numbers (`int` or `float`) and
  free-form PHP arrays. A keyed array is an ordered list of pairs, because
  PHP arrays keep insertion order. `PhpArray` is a PHP `array`: a list or a
  non-empty keyed array, so the empty array `[]` has the single form
  `List([])`, and `FromMembers` writes a keyed array that way.
- `TraceableEvents` (traceable_event.dfy): the identity inherited from the
  base class `TraceableEvent` (id, trace id, parent id, timestamp, context).
  That class is not part of this model. `SetParent` and `SetTimestamp` write
  down what `Span` assumes about it: `setParent($parent)` copies the parent's
  trace id and records the parent's id and changes nothing else, and
  `setTimestamp` changes only the timestamp.
- `Timing` (timer.dfy): the `Timer` collaborator, which is not part of this
  model. The object only records the calls the span makes on it: its
  construction with `$start`, `start()` and `stop()`.
- `Events` (span.dfy): the class `Span` with the fields of
  `src/Events/Span.php:23-63`, plus the inherited identity. It also holds the
  wire record `SpanRecord`/`SpanDocument` and the lemmas about serialization.
  Methods that change the span have `modifies` clauses. Their `ensures` say
  the new `State()` is the old one with exactly one field replaced. `Valid()`
  is the object invariant: every string the span stored through `trim` (name,
  type, subtype, action, outcome) has no blank at either end.
- `Scenarios` (scenarios.dfy): clients that drive a span through its whole
  lifecycle. They state what the serialized record then holds, using only
  the contracts of `Span`.

Inputs that come from outside the class are parameters:

- What the base-class constructor `parent::__construct([])` produces (a
  fresh id, a default timestamp, a context) is the constructor's argument
  `base`.
- The duration the timer measured (`getDurationInMilliseconds()`) is
  the `measuredMs` argument of `Stop`.
- `Encoding::keywordField` is a function argument `keywordField`. The model
  assumes only that it is a total, pure function from nullable strings to
  nullable strings.

Behaviour kept as written:

- `setOutcome(null)` stores `""`, because `trim(null)` is the empty string
  in PHP. The docblock suggests a nullable outcome, but the code never stores
  `null` once the setter has run.
- The constructor does not reject an empty (or all-blank) name. It only
  trims it.
- `if ($start)` treats a start time of `0` like `null`. The timestamp then
  stays whatever the base class set, while the timer still receives the
  `0`.

## Model

| member | source | states |
|---|---|---|
| `PhpString.Trim` | src/Events/Span.php:72 | the result of `trim` has no blank (space, tab, LF, CR, NUL, vertical tab) at either end |
| `PhpString.TrimDecomposition` | src/Events/Span.php:72 | every string is a run of blanks, then `Trim` of it, then a run of blanks: `trim` removes only blanks at the ends |
| `PhpString.TrimUnique` | src/Events/Span.php:72 | conversely, whatever lies between two runs of blanks and has no blank at its ends is exactly what `trim` returns |
| `PhpString.TrimFixedPoints` | src/Events/Span.php:72 | `trim` leaves a string unchanged if and only if the string has no blank at either end |
| `PhpString.TrimIdempotent` | src/Events/Span.php:120 | trimming a value a second time changes nothing |
| `PhpString.TrimLeftSkips` | src/Events/Span.php:72 | leading blanks never affect what the left-hand strip keeps |
| `PhpString.TrimRightSkips` | src/Events/Span.php:72 | trailing blanks never affect what the right-hand strip keeps |
| `PhpMath.Round` | src/Events/Span.php:75 | `round` gives an integer within one half of its input, and a tie goes away from zero |
| `PhpMath.RoundUnique` | src/Events/Span.php:75 | an integer strictly closer than one half to the input is the rounded value |
| `PhpMath.Round3` | src/Events/Span.php:100 | `round($ms, 3)` is a whole number of thousandths within 0.0005 of the measured value, a tie goes away from zero, and it is never negative when the measurement is not |
| `PhpMath.Round3Unique` | src/Events/Span.php:100 | a whole number of thousandths strictly closer than 0.0005 to the measurement is the stored duration |
| `PhpMath.Round3OfThousandths` | src/Events/Span.php:100 | a measurement that already has three decimals is stored unchanged |
| `PhpMath.MicrosFromSeconds` | src/Events/Span.php:75 | the timestamp is the start time in seconds times 1,000,000, rounded to the nearest microsecond, a tie going away from zero |
| `PhpMath.MicrosFromSecondsExact` | src/Events/Span.php:75 | a start time with microsecond precision converts to exactly its microsecond count |
| `Events.Span.constructor` | src/Events/Span.php:33-78 | the name is `trim($name)`; a fresh timer gets `$start`; the defaults are type `"request"`, subtype `""`, action null, duration int 0, empty stacktrace, sync true, outcome null, so `getName()` returns `trim($name)` and `getOutcome()` returns null; trace id and parent id come from the parent; the timestamp is `round($start * 1000000)` when `$start` is truthy and the base-class timestamp otherwise; the object invariant holds |
| `Events.Span.Start` | src/Events/Span.php:85-88 | only the timer is told to start; no field of the span changes, the duration included |
| `Events.Span.Stop` | src/Events/Span.php:97-101 | the timer is told to stop; an explicit duration is stored exactly (as an int), otherwise the measurement rounded to 3 decimals (as a float); only the duration changes, and it does not depend on any earlier `stop`, so the last call wins |
| `Events.Span.GetName` | src/Events/Span.php:108-111 | the name returned is the name of the span's state, has no blank at either end and is a fixed point of `trim`; no setter writes the name, so it stays `trim($name)` from construction on |
| `Events.Span.SetAction` | src/Events/Span.php:118-121 | the action becomes `trim($action)`; every other field is unchanged |
| `Events.Span.SetType` | src/Events/Span.php:128-131 | the type becomes `trim($type)`; every other field is unchanged |
| `Events.Span.SetSubType` | src/Events/Span.php:137-139 | the subtype becomes `trim($subtype)`; every other field is unchanged |
| `Events.Span.SetStacktrace` | src/Events/Span.php:148-151 | the stored array (a list of frames or a keyed array) is replaced wholesale by the given one, as it is, with no merge; every other field is unchanged |
| `Events.Span.SetSync` | src/Events/Span.php:158-161 | the sync flag becomes the argument and `GetSync` then returns it; every other field is unchanged |
| `Events.Span.GetSync` | src/Events/Span.php:177-180 | the flag returned is the sync field of the span's state, the one `jsonSerialize` writes under `sync` |
| `Events.Span.SetOutcome` | src/Events/Span.php:168-171 | the outcome becomes `trim($outcome)`, never null afterwards, and `getOutcome()` then returns it; a null argument stores `""`; every other field is unchanged |
| `Events.Span.GetOutcome` | src/Events/Span.php:186-189 | the outcome returned is the outcome of the span's state: null until set (constructor), `trim($outcome)` once set (`SetOutcome`), and never a string with a blank at either end |
| `Events.Span.JsonSerialize` | src/Events/Span.php:198-218 | a read of the current state: `transaction_id` and `parent_id` both carry the parent id, `id` and `trace_id` carry the event's own ids, only type, subtype, action and name pass through `keywordField`, the name and outcome are read through `getName()` and `getOutcome()`, and duration, stacktrace, sync, outcome, context and timestamp are the stored values, an empty context written as the empty array |
| `Events.SpanDocument.ToArray` | src/Events/Span.php:200-217 | the serialized event is a keyed array with the single key `span`, under which the span record sits |
| `Events.SpanRecord.Members` | src/Events/Span.php:201-216 | the span record is a keyed array whose keys are `id`, `transaction_id`, `trace_id`, `parent_id`, `type`, `subtype`, `action`, `context`, `duration`, `name`, `stacktrace`, `sync`, `outcome`, `timestamp` in that order |
| `Events.WireKeysDistinct` | src/Events/Span.php:201-216 | no key of the span record occurs twice |
| `Events.WireKeyMapping` | src/Events/Span.php:201-216 | looking up each key in the span record gives exactly the field of that name |
| `Events.WireParentLinkage` | src/Events/Span.php:202-205 | in a serialized span, `transaction_id` and `parent_id` both hold the span's parent id, `trace_id` its trace id and `id` its own id |
| `Events.SerializeDependsOnlyOnState` | src/Events/Span.php:198-218 | two spans in the same state serialize to the same record, so serializing twice with no change in between gives equal records |
| `Events.SerializeIsLossless` | src/Events/Span.php:198-218 | conversely, if `keywordField` keeps distinct values distinct, equal records come only from equal states: serialization drops no field |
| `Scenarios.DbQuerySpan` | src/Events/Span.php:69-218 | a span named `"  DB query  "` under parent `tx-1` of trace `trace-9`, classified `db`/`mysql`/`query`, started and stopped after a measured 12.345 ms, serializes with name `"DB query"`, duration 12.345, trace id `trace-9`, transaction id and parent id `tx-1`, sync true and outcome null |
| `Scenarios.TimedSpan` | src/Events/Span.php:69-101 | a span started at a time with microsecond precision carries that time in microseconds; of two explicit `stop` durations the second is kept |
| `Scenarios.AsyncSpanWithFrames` | src/Events/Span.php:148-218 | after `setSync(false)`, `setOutcome(" success")` and a two-frame stacktrace, the record shows sync false, outcome `"success"` and both frames in order; a later `setOutcome(null)` shows `""` |

## Left out

- The internals of `Timer` are not part of this model: clock reads,
  microsecond floats, conversion to milliseconds. The timer only records the
  calls made on it, and the measured duration is a parameter of `Stop`.
- `Encoding::keywordField` is not part of this model. It is an arbitrary
  total, pure function on nullable strings, so nothing is stated about
  truncation lengths.
- `TraceableEvent` is not part of this model: id generation, its
  constructor, `setParent`, `setTimestamp` and the context merge. The
  parent linkage holds under the explicit assumptions `TraceableEvents.SetParent` and
  `TraceableEvents.SetTimestamp`, not as a verified fact about that code.
- Floating point is not modelled. Start times and measured durations are
  exact reals, and `round` is exact rounding, ties away from zero. PHP's
  `round` returns a float; the timestamp is kept as the integer it equals.
- PHP's loose typing is not modelled. A `$start` that is a string, or an
  `int` parameter given a float, is outside the model. `$start` is a
  nullable real, and only `null` and `0` are falsy.
- The `Stacktrace` trait, the `JsonSerializable` interface and the actual
  JSON text produced by `json_encode` are library or unseen code. Frames and
  the context are free-form PHP values, and the stack trace is any PHP
  array, list or keyed.
- There is no concurrency in the class, and none is modelled.
