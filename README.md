# jsnlog core, modelled in Dafny

jsnlog is a client-side logging library. A program asks `JL(name)` for a
logger. Loggers form a hierarchy by dotted name. A logger without an option
of its own uses the one of its nearest ancestor, through the JavaScript
prototype chain. `Logger.log` applies the level and the filters (global
switch, user-agent, client IP, `disallow`). It then runs the `onceOnly`
duplicate check and hands the message to every appender the logger
inherits, the last one first. An appender keeps low-priority items in a
bounded hold buffer. It queues the items it wants to send and hands
complete batches to a transport. It counts items it had to skip for a
full queue, and it keeps at most one send in flight. All appenders draw on
a process-wide message quota (`maxMessages`) and a process-wide entry
counter (`entryId`).

The project models this core from `jsnlog.ts`:

- `base.dfy` (`Base`): optional values, with the JavaScript comparisons
  against an undefined number (always false), and decimal text for integers.
- `levels.dfy` (`Levels`): the level constants and `levelToString`.
- `options.dfy` (`Options`): the three-state patch of `copyProperty`.
  An option is undefined (left alone), null (deletes the local value) or a
  value (sets it).
- `values.dfy` (`Values`): log objects as dynamic values, `stringifyLogObject`
  and `buildExceptionObject`.
- `filters.dfy` (`Filters`): `allow` and `allowMessage`. The host supplies a
  regex test that may throw.
- `config.dfy` (`Config`): the global settings and the global `setOptions`,
  as the class `Globals`.
- `sink_spec.dfy` (`SinkSpec`): every appender operation as a pure function
  over the appender's state and the shared counters, with the appender
  invariant.
- `appender.dfy` (`Appenders`): the class `Appender`, whose methods update
  its fields in place. Each method is proved to produce the state its
  `SinkSpec` function describes.
- `sink_props.dfy` (`SinkProperties`): properties that span several
  appender operations, and concrete scenarios.
- `names.dfy` (`Names`): the split on `.` and the accumulated names of `JL(name)`.
- `hierarchy.dfy` (`Hierarchy`): the logger table and the resolution of
  `JL(name)`. Loggers are records indexed by number. A logger's prototype
  is its `parent`, and the loggers stored on it are its `children`.
- `once_only.dfy` (`OnceOnly`): the `onceOnly` scan.
- `logger_spec.dfy` (`LoggerSpec`): inherited options, `Logger.setOptions`,
  and the decision `Logger.log` takes before the hand-over.
- `registry.dfy` (`Loggers`): the class `Registry`, which holds the logger
  table and carries out `JL(name)`, `Logger.setOptions` and `Logger.log` in
  place, including the fan-out to the appenders.

Where the documented design and the code differ, the model follows the code:

- `JL(name)` reduces over the pieces of `"." + name`. The first piece is
  empty, so the first call creates a nameless logger `""` under the root,
  and `"a"` hangs under that logger rather than directly under the root.
  `JL(".a")` is the same logger as `JL("a")`.
- A child is looked up as a property of the current logger, so a logger of
  the same name stored on an ancestor is found and reused.
- `Logger.setOptions` resets the seen flags of `onceOnly` on every call,
  even when `onceOnly` is not mentioned. So `setOptions({})` is not a no-op
  for a logger.
- `onceOnly` is read through the prototype chain like every other option.
  A regular expression that throws in the `onceOnly` scan is not caught: the
  exception reaches the caller of `log` (outcome `RegexThrew`).
- `Appender.setOptions` copies every option before it checks
  `maxBatchSize < batchSize`. The error leaves the new options in place.
  Cutting the hold buffer to `bufferSize` keeps its OLDEST items. A
  negative `bufferSize` makes the length assignment
  throw (`InvalidArrayLength`).
- The quota is decreased by every appender for the same message. The
  fan-out runs from the last appender to the first, so with a quota of 1
  and two appenders, `appenders[1]` takes the message and `appenders[0]`
  drops it.
- A filter expression that throws lets the item through, in `allow` and in
  `allowMessage`.

## Model

| member | source | states |
|---|---|---|
| Base.NatText | jsnlog.ts:274-276 | the decimal text of a natural number is a non-empty string of digits without a leading zero that reads back as the number |
| Base.IntText | jsnlog.ts:274-276 | the text `toString` gives an integral number starts with '-' exactly for negative numbers, followed by the decimal text of its magnitude |
| Base.IntTextValue | jsnlog.ts:274-276 | the text of an integer reads back as that integer |
| Base.IntTextInjective | jsnlog.ts:274-276 | different integers have different texts |
| Levels.LevelToString | jsnlog.ts:318-335 | every level maps to one of the six names; each named constant maps to its own name; "trace" exactly up to TRACE and "fatal" exactly above ERROR |
| Levels.LevelToStringMonotone | jsnlog.ts:327-335 | a higher level never gets a lower-ranked name |
| Options.CopyProperty | jsnlog.ts:147-152 | an undefined option keeps the local value, null removes it, any other value replaces it |
| Options.CopyPropertyIdempotent | jsnlog.ts:147-152 | applying the same patch twice is the same as applying it once |
| Options.CopyPropertyOverrides | jsnlog.ts:147-152 | when the option is mentioned, the outcome does not depend on the old local value |
| Values.ExceptionHead | jsnlog.ts:974-979 | the copied properties are the truthy stack (or the error itself under `e`), message, name and data, and nothing else |
| Values.BuildExceptionObject | jsnlog.ts:972-983 | the result is an object with only the six known keys; it has an `inner` object exactly when the error has a truthy `inner`; the inner chain keeps its depth |
| Values.ExceptionObjectCopies | jsnlog.ts:976-979 | each of stack/e, message, name and data of the built object is the error's own value when truthy and undefined otherwise, also when an inner error is present |
| Values.WithLogData | jsnlog.ts:1011-1012 | the exception object gains `logData` holding the log object and keeps every other property |
| Values.RegexText | jsnlog.ts:283-289 | the text of a RegExp is its source between two slashes, followed by its flags |
| Values.StringifyLogObject | jsnlog.ts:220-304 | a function is called first; a scalar is both message and final string; null and objects are kept as metadata and serialized; undefined gives "undefined", a wrapper object its primitive's text, a RegExp `/source/flags`, and a nested function "unknown" |
| Filters.Allow | jsnlog.ts:161-190 | false exactly when logging is switched off, or the user-agent filter, or the IP filter with a known client IP, is evaluated and does not match; a throwing expression lets the item pass |
| Filters.AllowMessage | jsnlog.ts:201-215 | false exactly when `disallow` is set and its expression matches the message without throwing |
| Config.ApplyGlobalOptions | jsnlog.ts:306-316 | each of the seven settings is kept when its option is absent, removed when it is null and set when it is given; no option mentioned changes nothing |
| Config.Globals.constructor | jsnlog.ts:108-126 | everything starts undefined except `requestId`, which is empty, and `entryId`, which is 0 |
| Config.Globals.SetOptions | jsnlog.ts:306-316 | the settings become the patched settings and the entry counter is untouched |
| SinkSpec.SetTimer | jsnlog.ts:399-408 | a timer whose id is stored is left alone; otherwise the callback is scheduled |
| SinkSpec.ApplyAppenderOptions | jsnlog.ts:552-562 | each of the eleven options is kept when absent, removed when null and set when given; no option mentioned changes nothing |
| SinkSpec.NewLogItem | jsnlog.ts:381-384 | the item carries the level, message, logger name and time it was given, and the next entry number |
| SinkSpec.AddLogItems | jsnlog.ts:467-517 | with the queue at `maxBatchSize` only the skipped count grows; with the quota used up nothing changes; otherwise the items are appended in order, the quota drops by their number and the batch timer is set; the invariant is kept |
| SinkSpec.HoldItem | jsnlog.ts:612-627 | nothing is stored unless `bufferSize > 0`; otherwise the item becomes the newest, only the oldest item may be dropped, and the buffer stays within `bufferSize` |
| SinkSpec.SendBatch | jsnlog.ts:654-680 | nothing happens while a send is outstanding; otherwise the batch timer is cleared and, with items queued, the whole queue is handed to the transport, counted as outstanding and guarded by the send timer |
| SinkSpec.SendBatchIfComplete | jsnlog.ts:536-542 | sends only when the queue reached `batchSize`, holds an overdue item or is stranded; never while a send is outstanding |
| SinkSpec.SendingEnded | jsnlog.ts:544-548 | nothing is outstanding afterwards unless the queue was sent again in full; queue and counters are unchanged |
| SinkSpec.SendSuccess | jsnlog.ts:680-697 | exactly the items that were being sent leave the front of the queue; items queued meanwhile stay; one WARN item with the next entry number reports skipped items, and the skipped count becomes 0 |
| SinkSpec.BatchTimeout | jsnlog.ts:513-516 | the batch timer's callback sends the queue unless a send is outstanding; the id stays stored |
| SinkSpec.SendTimeout | jsnlog.ts:676-678 | the send is given up; the items stay queued; a send is outstanding afterwards exactly when the queue is non-empty and complete |
| SinkSpec.FlushHeld | jsnlog.ts:633-645 | below `sendWithBufferLevel` or with nothing held nothing changes; otherwise the hold buffer is emptied and its items are counted as skipped when the queue is full, dropped when the quota is used up, and else appended to the queue in order, taking their number off the quota |
| SinkSpec.Log | jsnlog.ts:595-648 | a filtered item or one below `storeInBufferLevel` changes nothing; any other takes an entry number; below `level` it only goes to the hold buffer; otherwise the queue only grows at its end |
| SinkSpec.SetOptions | jsnlog.ts:550-575 | the options are copied in every case; the hold buffer is cut to a prefix; a negative `bufferSize` and a `maxBatchSize` below `batchSize` are the two errors, in that order; the invariant holds in every case, so the appender stays usable after either error |
| SinkProperties.HoldKeepsMostRecent | jsnlog.ts:615-624 | after any number of held items the hold buffer is exactly the `bufferSize` most recent ones |
| SinkProperties.HoldItemKeepsLast | jsnlog.ts:615-624 | one stored item keeps the `bufferSize` most recent items |
| SinkProperties.QuotaAccounting | jsnlog.ts:494-500 | over any sequence of enqueues the quota drops by exactly the number of items that entered the queue, and the queue only grows at its end |
| SinkProperties.LogQueuesItem | jsnlog.ts:629-647 | an item at or above the appender's level, with room in the queue and quota left, is queued right behind the items already waiting |
| SinkProperties.TriggerQueuedWhenNearlyFull | jsnlog.ts:631-644 | with room for the triggering item only, it is queued, the held items are counted as skipped and the hold buffer is emptied |
| SinkProperties.TriggerQueuedOnLastQuota | jsnlog.ts:631-644 | with one message of quota left, the triggering item takes it, the held items are dropped and the hold buffer is emptied |
| SinkProperties.TriggerQueuedBeforeHeld | jsnlog.ts:631-644 | a high-level item is queued before the held items it releases, and the hold buffer is emptied |
| SinkProperties.HeldOnly | jsnlog.ts:612-627 | an item below the appender's level is numbered and held, and nothing else changes |
| SinkProperties.HoldThreeStep | jsnlog.ts:612-627 | at WARN with `bufferSize` 3, a DEBUG item is held and the three most recent items stay |
| SinkProperties.HoldScenario | jsnlog.ts:612-627 | holding three DEBUG items, a fourth evicts the oldest and nothing is queued or sent |
| SinkProperties.FullQueueScenario | jsnlog.ts:471-474 | with `batchSize` = `maxBatchSize` = 2 and no delivery, a third item is skipped and the two first are outstanding |
| SinkProperties.SharedQuotaScenario | jsnlog.ts:494-498 | two appenders share a quota of 1: after the first accepts, the second drops its item; a pair accepted at quota 1 leaves -1 and strands the first queue |
| SinkProperties.SendTimeoutScenario | jsnlog.ts:676-678 | a timed-out send of a complete batch hands the same items to the transport again |
| SinkProperties.SetNoOptions | jsnlog.ts:550-575 | setOptions with nothing mentioned leaves a consistent appender as it was |
| Appenders.NextLogItem | jsnlog.ts:381-384 | the entry counter goes up by one and the item is the one `NewLogItem` describes |
| Appenders.Appender.constructor | jsnlog.ts:412-465 | a new appender has the default options and empty buffers, no timers, no counts |
| Appenders.Appender.AddLogItemsToBuffer | jsnlog.ts:467-517 | the appender and the quota end as `AddLogItems` says; no other setting changes |
| Appenders.Appender.BatchBufferHasOverdueMessages | jsnlog.ts:519-526 | the loop answers whether some queued item is older than `batchTimeout` |
| Appenders.Appender.BatchBufferHasStrandedMessage | jsnlog.ts:528-534 | true exactly when the quota is used up while items are queued, in which case no further item can ever join the queue, so only sending can empty it |
| Appenders.Appender.SendBatch | jsnlog.ts:654-698 | the appender ends as `SinkSpec.SendBatch` says |
| Appenders.Appender.SendBatchIfComplete | jsnlog.ts:536-542 | the appender ends as `SinkSpec.SendBatchIfComplete` says |
| Appenders.Appender.OnSendingEnded | jsnlog.ts:544-548 | the appender ends as `SendingEnded` says |
| Appenders.Appender.OnSendSuccess | jsnlog.ts:680-697 | the appender and the entry counter end as `SendSuccess` says |
| Appenders.Appender.OnBatchTimeout | jsnlog.ts:513-516 | the appender ends as `BatchTimeout` says |
| Appenders.Appender.OnSendTimeout | jsnlog.ts:676-678 | the appender ends as `SendTimeout` says |
| Appenders.Appender.Log | jsnlog.ts:595-648 | the appender and the shared counters end as `SinkSpec.Log` says, with the global switch and client IP in effect |
| Appenders.Appender.Hold | jsnlog.ts:612-627 | only the hold buffer changes, as `HoldItem` says |
| Appenders.Appender.Enqueue | jsnlog.ts:629-647 | the item is queued, then the held items at a high enough level, then a complete queue is sent |
| Appenders.Appender.SetOptions | jsnlog.ts:550-575 | options, state and error are the ones `SinkSpec.SetOptions` gives, and the appender stays valid after either error |
| Names.Split | jsnlog.ts:44 | at least one piece, none containing a dot |
| Names.JoinSplit | jsnlog.ts:44 | joining the pieces with dots gives the name back |
| Names.Accumulate | jsnlog.ts:71-77 | the first non-empty name is the piece itself; later ones append `.piece` |
| Names.AccumulatedName | jsnlog.ts:43-77 | accumulating the pieces of `"." + name` ends at the name itself when it does not start with a dot |
| Names.PrefixAccumulate | jsnlog.ts:71-77 | the part before the last dot of a new accumulated name is the name it extends |
| Hierarchy.NewLogger | jsnlog.ts:93-95 | a new logger has its name, its prototype, and nothing of its own |
| Hierarchy.FindChild | jsnlog.ts:79 | a found logger carries the name looked up and is never the root; a logger stored on the current one is found first |
| Hierarchy.AddChild | jsnlog.ts:83-97 | the table stays a tree; the new logger is stored on the current one under its name; no other logger changes |
| Hierarchy.AddChildKeepsFound | jsnlog.ts:83-97 | creating a logger that was not visible keeps every lookup that succeeded |
| Hierarchy.Walk | jsnlog.ts:44-100 | the result is a tree that keeps every logger, and the logger returned carries the accumulated name |
| Hierarchy.Resolve | jsnlog.ts:19-103 | the root for the empty name; otherwise a logger named `name` (for a name not starting with a dot), with every logger kept |
| Hierarchy.WalkKeepsFound | jsnlog.ts:79-97 | a later walk keeps every lookup that succeeded before it |
| Hierarchy.WalkIdempotent | jsnlog.ts:44-100 | walking the same pieces again finds everything and creates nothing |
| Hierarchy.ResolveIdempotent | jsnlog.ts:19-103 | asking for the same name a second time returns the same logger and leaves the hierarchy as it is |
| Hierarchy.WalkKeepsParentsPrefix | jsnlog.ts:83-97 | every logger created hangs under the logger named by the part of its name before the last dot |
| Hierarchy.WalkKeepsRootChildrenNameless | jsnlog.ts:43-100 | a walk from the root whose first piece is empty creates under the root at most the nameless logger |
| Hierarchy.ResolveKeepsRootChildrenNameless | jsnlog.ts:43-100 | `JL(name)` never hangs a named logger directly under the root |
| Hierarchy.NamedBelowRoot | jsnlog.ts:43-100 | in such a table a logger with a name has a parent other than the root |
| Hierarchy.ResolvedParent | jsnlog.ts:19-103 | `JL(name)` returns the logger of that name, whose parent is the logger named by its prefix |
| Hierarchy.ResolveScenario | jsnlog.ts:43-100 | asking for "a.b.c" gives a logger named "a.b.c" under "a.b", under "a", under the nameless logger "", which is not the root |
| OnceOnly.Matching | jsnlog.ts:1029-1031 | the indices above `lo` and up to `i` whose pattern matches the message |
| OnceOnly.StopAt | jsnlog.ts:1027-1041 | the highest index up to `i` whose pattern throws or matches a seen flag, with no such index above it; -1 when there is none |
| OnceOnly.ScanDown | jsnlog.ts:1026-1043 | the scan passes exactly when every pattern evaluates and no matching one was seen before, and then marks all matching ones; a duplicate is reported only for a match seen before; marks are only ever added, and only for matches |
| OnceOnly.ScanDownStopsAt | jsnlog.ts:1026-1043 | the scan ends at `StopAt`: it passes when nothing stops it, throws when the stopping pattern throws, reports a duplicate when it matches a seen flag, and has marked exactly the matching patterns above the stop |
| OnceOnly.StopAtIgnoresAbove | jsnlog.ts:1036 | a flag set above the current index does not move where the scan below stops |
| OnceOnly.PassedThenDuplicate | jsnlog.ts:1026-1043 | after a message passed, a message matching one of the same patterns no longer passes |
| OnceOnly.NoMatchNoMark | jsnlog.ts:1026-1043 | a message that no pattern matches passes and marks nothing |
| LoggerSpec.Inherited | jsnlog.ts:93 | a logger's own value wins; without one the value is its parent's inherited one, and nothing for the root |
| LoggerSpec.RootHeldIsFound | jsnlog.ts:1108-1113 | an option the root holds is found from every logger |
| LoggerSpec.ApplyLoggerOptions | jsnlog.ts:956-969 | name and links are kept; the seen flags are always reset; each of the six options is kept when absent, removed when null and set when given; no option mentioned changes only the flags |
| LoggerSpec.InheritedBefore | jsnlog.ts:93-95 | changing one logger leaves every lookup from an earlier logger as it was |
| LoggerSpec.NullLevelInherits | jsnlog.ts:958 | after `setOptions({level: null})` a logger's level is its parent's inherited one, as if never set |
| LoggerSpec.NoOptionsKeepLookups | jsnlog.ts:956-969 | `setOptions({})` changes no inherited option of any logger |
| LoggerSpec.Payload | jsnlog.ts:1009-1017 | with a truthy exception the exception object carries the (called) log object under `logData`; otherwise the log object itself |
| LoggerSpec.Decide | jsnlog.ts:1005-1043 | no appenders, gated (level or `allow`), disallowed, duplicate or forwarded, each exactly under the source's conditions; a forwarded message is the stringified payload and every matching pattern was unseen and is now marked; flags change only in the onceOnly stage |
| LoggerSpec.DuplicateCheck | jsnlog.ts:1026-1043 | without onceOnly the message is forwarded unchanged; a duplicate has a matching pattern seen before; forwarding marks every matching pattern |
| LoggerSpec.DuplicateCheckEnds | jsnlog.ts:1024-1043 | with onceOnly in effect, the message is forwarded exactly when no pattern stops the scan, the exception is reported exactly when the stopping pattern throws, and a duplicate exactly when it matches a seen flag; the flags become the old ones plus the matching patterns above the stop |
| Loggers.AddChildKeepsAppendersIn | jsnlog.ts:95 | a new logger holds no appenders of its own |
| Loggers.WalkKeepsAppendersIn | jsnlog.ts:44-100 | resolving a name adds no appenders to the hierarchy |
| Loggers.AcceptCount | jsnlog.ts:1055-1062 | the number of appenders among `0..i` that store the message, at most `i + 1` |
| Loggers.AcceptCountIsSize | jsnlog.ts:1055-1062 | the count of appenders that store the message is the size of the set of those appenders |
| Loggers.FanLog | jsnlog.ts:1055-1062 | the fan-out reaches as many appenders as there are, the last first |
| Loggers.FanLogLastFirst | jsnlog.ts:1055-1062 | with one message of quota and two empty appenders that both queue it, the last appender queues the message and the first one drops it |
| Loggers.FanLogEffects | jsnlog.ts:1055-1062 | every appender keeps its invariant; those not reached and those that do not store the message are unchanged; the entry counter grows by the number that store it |
| Loggers.AppendersKnown | jsnlog.ts:1005 | the appenders a logger inherits are among those some logger holds |
| Loggers.Relinked | jsnlog.ts:956-969 | replacing a logger's options keeps the hierarchy well formed, with only the nameless logger under the root, and its appenders known |
| Loggers.SeenKeepsAppenders | jsnlog.ts:1038 | marking a pattern seen changes no logger's inherited appenders |
| Loggers.Registry.constructor | jsnlog.ts:1095-1113 | the root logger, nameless, at DEBUG with one new default appender and no onceOnly |
| Loggers.Registry.GetLogger | jsnlog.ts:19-103 | the table and the logger returned are those `Resolve` gives, so the logger is named `name` |
| Loggers.Registry.SetLoggerOptions | jsnlog.ts:956-969 | only logger `id` changes, as `ApplyLoggerOptions` says; its new appenders become known |
| Loggers.Registry.Mark | jsnlog.ts:1038 | only one flag of logger `id` is added |
| Loggers.Registry.ScanOnceOnly | jsnlog.ts:1026-1043 | the loop's verdict and the flags it leaves on logger `id` are those of `ScanDown` |
| Loggers.Registry.CheckDuplicate | jsnlog.ts:1026-1043 | the outcome and flags are those of `DuplicateCheck`; only logger `id`'s flags change |
| Loggers.Registry.Screen | jsnlog.ts:1005-1043 | the outcome and flags are those of `Decide`; only logger `id`'s flags change |
| Loggers.Registry.Log | jsnlog.ts:998-1067 | the outcome and flags are those of `Decide` on the state before the call; only logger `id`'s flags change; only the quota and counter among the settings change, and nothing at all unless the message is forwarded; only the appenders the logger inherits may change |
| Loggers.Registry.Targets | jsnlog.ts:1055-1058 | the appenders a logger hands messages to are the ones it inherits |
| Loggers.Registry.Deliver | jsnlog.ts:1050-1062 | the inherited appenders and the shared counters end as `FanLog` says; no other appender changes |
| Loggers.Registry.FanOut | jsnlog.ts:1055-1062 | the loop leaves the appenders and the shared counters as `FanLog` says; no appender's options change and no appender outside the list changes |
| Loggers.Registry.LogOne | jsnlog.ts:1058-1060 | one appender logging is one step of `FanLog` |

## Left out

- AjaxAppender and ConsoleAppender (network requests, headers, `beforeSend`, console output, date formatting) are not part of this model. The transport is the `sent` list of batches; its success callback is `Appender.OnSendSuccess`.
- Real timers: `setTimeout` and `clearTimeout` are two flags per timer, and their callbacks are the methods `OnBatchTimeout` and `OnSendTimeout`, called by the environment.
- The clock (`JL._getTime`) is the parameter `now`.
- Regular expressions, `navigator.userAgent`, `JSON.stringify` and the `serialize` hook are host functions carried in `Env`. The global `serialize` setting is kept as a token only: `Env.serialize` stands for the serializer it selects (the hook when set, JSON encoding otherwise).
- Numbers are integers: floating point, NaN, the string form of non-integral numbers and the exponent form `toString` uses from 1e21 in magnitude on are not modelled. `maxMessages` and the levels are unbounded integers.
- The order of an object's properties, and property names that collide with `Object.prototype`, are not modelled.
- Loggers are records in a table indexed by number, not objects linked by prototype; the `'__' + name` properties are the `children` maps.
- The `Array.prototype.reduce` polyfill, the CommonJS and AMD export shims, the `__jsnlog_configure` hook and the `window.onerror` and `onunhandledrejection` handlers are not part of this model.
- The `Exception` class and its `Error` prototype are not part of this model; `Appender.setOptions` returns its error as a value instead of throwing one.
- The level wrappers `trace` … `fatalException` are `Logger.log` with a fixed level and are not modelled separately.
- The Winston-compatible parameters of `Appender.log` (level name, `msg`, `meta`, callback) are not passed: the appender uses only the numeric level, the final string and the logger name.
- Loggers.Registry.Log: its own contract states the decision and the loggers' new state; what the appenders do with a forwarded message is stated by `Loggers.Registry.Deliver`, which it calls.
- Loggers.Registry.Deliver: states the fan-out only when the inherited appender list holds no appender twice; a list that repeats an appender is not covered.
- Loggers.Registry.FanOut: states the fan-out only for a list without repeated appenders, as `Deliver` does.
- Loggers.FanLog: skips an appender outside its invariant, a case that cannot arise on a valid registry.
- SinkProperties.HoldScenario: proves the eviction step from three held items, not the full sequence of four calls from an empty buffer.
