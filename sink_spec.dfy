/**
 * The appender's buffering and batching state machine, as pure functions
 * over its state. Each function is one operation of the appender; the
 * `Appender` class carries out the same steps on its fields and is proved
 * against these functions.
 *
 * An appender holds low-priority items in a bounded hold buffer (`buffer`),
 * queues items to be sent (`batchBuffer`), counts items it had to drop
 * because the queue was full (`skipped`) and remembers how many items the
 * outstanding send holds (`beingSent`). It also consumes the process-wide
 * message quota and entry counter (`Counters`).
 */
module SinkSpec {
  import opened Base
  import opened Levels
  import opened Options
  import opened Filters

  /** One log entry as sent: level, message, logger name, timestamp in ms, entry number. */
  datatype LogItem = LogItem(l: int, m: string, n: string, t: int, u: int)

  /**
   * A timer handle: `hasId` while its id is stored (setTimer does nothing
   * then), `pending` while its callback is still scheduled. A timer that
   * has fired keeps its id until it is cleared.
   */
  datatype Timer = Timer(hasId: bool, pending: bool)

  const Idle := Timer(false, false)

  /** setTimer: schedules the callback only when no id is stored. */
  function SetTimer(t: Timer): (r: Timer)
    ensures r.hasId
    ensures t.hasId ==> r == t
    ensures !t.hasId ==> r.pending
  {
    if t.hasId then t else Timer(true, true)
  }

  datatype AppenderConfig = AppenderConfig(
    level: Option<int>,
    ipRegex: Option<string>,
    userAgentRegex: Option<string>,
    disallow: Option<string>,
    sendWithBufferLevel: Option<int>,
    storeInBufferLevel: Option<int>,
    bufferSize: Option<int>,
    batchSize: Option<int>,
    maxBatchSize: Option<int>,
    batchTimeout: Option<int>,
    sendTimeout: Option<int>)
  {
    function Filters(): FilterOptions
    {
      FilterOptions(userAgentRegex, ipRegex, disallow)
    }
  }

  /** The options of a new appender. */
  const DefaultConfig := AppenderConfig(
    Some(TRACE), None, None, None, Some(OFF), Some(ALL), Some(0), Some(1), Some(20), Some(OFF), Some(5000))

  datatype AppenderOptions = AppenderOptions(
    level: Patch<int>,
    ipRegex: Patch<string>,
    userAgentRegex: Patch<string>,
    disallow: Patch<string>,
    sendWithBufferLevel: Patch<int>,
    storeInBufferLevel: Patch<int>,
    bufferSize: Patch<int>,
    batchSize: Patch<int>,
    maxBatchSize: Patch<int>,
    batchTimeout: Patch<int>,
    sendTimeout: Patch<int>)

  const NoAppenderOptions := AppenderOptions(
    Absent, Absent, Absent, Absent, Absent, Absent, Absent, Absent, Absent, Absent, Absent)

  /** The eleven options patched one by one. */
  function ApplyAppenderOptions(c: AppenderConfig, o: AppenderOptions): (r: AppenderConfig)
    ensures o == NoAppenderOptions ==> r == c
    ensures o.bufferSize.Null? ==> r.bufferSize == None
    ensures o.maxBatchSize.Value? ==> r.maxBatchSize == Some(o.maxBatchSize.v)
    ensures o.level.Absent? ==> r.level == c.level
    ensures Patched(o.level, c.level, r.level) && Patched(o.ipRegex, c.ipRegex, r.ipRegex)
    ensures Patched(o.userAgentRegex, c.userAgentRegex, r.userAgentRegex) && Patched(o.disallow, c.disallow, r.disallow)
    ensures Patched(o.sendWithBufferLevel, c.sendWithBufferLevel, r.sendWithBufferLevel)
    ensures Patched(o.storeInBufferLevel, c.storeInBufferLevel, r.storeInBufferLevel)
    ensures Patched(o.bufferSize, c.bufferSize, r.bufferSize) && Patched(o.batchSize, c.batchSize, r.batchSize)
    ensures Patched(o.maxBatchSize, c.maxBatchSize, r.maxBatchSize) && Patched(o.batchTimeout, c.batchTimeout, r.batchTimeout)
    ensures Patched(o.sendTimeout, c.sendTimeout, r.sendTimeout)
  {
    AppenderConfig(
      CopyProperty(o.level, c.level),
      CopyProperty(o.ipRegex, c.ipRegex),
      CopyProperty(o.userAgentRegex, c.userAgentRegex),
      CopyProperty(o.disallow, c.disallow),
      CopyProperty(o.sendWithBufferLevel, c.sendWithBufferLevel),
      CopyProperty(o.storeInBufferLevel, c.storeInBufferLevel),
      CopyProperty(o.bufferSize, c.bufferSize),
      CopyProperty(o.batchSize, c.batchSize),
      CopyProperty(o.maxBatchSize, c.maxBatchSize),
      CopyProperty(o.batchTimeout, c.batchTimeout),
      CopyProperty(o.sendTimeout, c.sendTimeout))
  }

  /** The appender's own runtime state; `sent` lists every batch handed to the transport. */
  datatype Sink = Sink(
    buffer: seq<LogItem>,
    batchBuffer: seq<LogItem>,
    batchTimer: Timer,
    sendTimer: Timer,
    skipped: int,
    beingSent: int,
    sent: seq<seq<LogItem>>)

  const EmptySink := Sink([], [], Idle, Idle, 0, 0, [])

  /** The process-wide quota (undefined: no quota) and entry counter. */
  datatype Counters = Counters(maxMessages: Option<int>, entryId: int)

  datatype World = World(sink: Sink, counters: Counters)

  /** The hold buffer never holds more than a non-negative `bufferSize`. */
  predicate HoldBounded(c: AppenderConfig, buffer: seq<LogItem>)
  {
    c.bufferSize.Some? && c.bufferSize.value >= 0 ==> |buffer| <= c.bufferSize.value
  }

  /**
   * The appender invariant: the outstanding send covers a prefix of the
   * queue, a send is outstanding exactly when the send timer is scheduled
   * (so it always ends, by success or by timeout), a scheduled batch timer
   * has its id stored, and the hold buffer is within bounds.
   */
  predicate Inv(c: AppenderConfig, s: Sink)
  {
    && 0 <= s.beingSent <= |s.batchBuffer|
    && s.skipped >= 0
    && (s.beingSent > 0 <==> s.sendTimer.pending)
    && (s.sendTimer.hasId <==> s.sendTimer.pending)
    && (s.batchTimer.pending ==> s.batchTimer.hasId)
    && HoldBounded(c, s.buffer)
  }

  /** The quota is configured and used up. */
  predicate QuotaExhausted(k: Counters)
  {
    k.maxMessages.Some? && k.maxMessages.value < 1
  }

  /** newLogItem: the item takes the next entry number. */
  function NewLogItem(k: Counters, level: int, message: string, loggerName: string, now: int): (item: LogItem)
    ensures item.u == k.entryId + 1
    ensures item.l == level && item.m == message && item.n == loggerName && item.t == now
  {
    LogItem(level, message, loggerName, now, k.entryId + 1)
  }

  function Counted(k: Counters): (r: Counters)
    ensures r.entryId == k.entryId + 1 && r.maxMessages == k.maxMessages
  {
    k.(entryId := k.entryId + 1)
  }

  /**
   * addLogItemsToBuffer: with the queue at `maxBatchSize` the items are only
   * counted as skipped; with the quota used up they are dropped; otherwise the
   * quota (when configured) goes down by their number, they are appended in
   * order and the batch timer is set unless it already is.
   */
  function AddLogItems(c: AppenderConfig, w: World, items: seq<LogItem>): (r: World)
    requires Inv(c, w.sink)
    ensures Inv(c, r.sink)
    ensures r.sink.batchBuffer == w.sink.batchBuffer || r.sink.batchBuffer == w.sink.batchBuffer + items
    ensures AtLeast(|w.sink.batchBuffer|, c.maxBatchSize) ==>
      r.sink.skipped == w.sink.skipped + |items| && r.counters == w.counters
      && r.sink.batchBuffer == w.sink.batchBuffer && r.sink.batchTimer == w.sink.batchTimer
    ensures !AtLeast(|w.sink.batchBuffer|, c.maxBatchSize) ==> r.sink.skipped == w.sink.skipped
    ensures !AtLeast(|w.sink.batchBuffer|, c.maxBatchSize) && QuotaExhausted(w.counters) ==> r == w
    ensures !AtLeast(|w.sink.batchBuffer|, c.maxBatchSize) && !QuotaExhausted(w.counters) ==>
      r.sink.batchBuffer == w.sink.batchBuffer + items && r.sink.batchTimer == SetTimer(w.sink.batchTimer)
    ensures r.counters.maxMessages.Some? == w.counters.maxMessages.Some?
    ensures r.counters.maxMessages.Some? ==>
      r.counters.maxMessages.value == w.counters.maxMessages.value - (|r.sink.batchBuffer| - |w.sink.batchBuffer|)
    ensures r.counters.entryId == w.counters.entryId
    ensures r.sink.buffer == w.sink.buffer && r.sink.sendTimer == w.sink.sendTimer
    ensures r.sink.beingSent == w.sink.beingSent && r.sink.sent == w.sink.sent
  {
    if AtLeast(|w.sink.batchBuffer|, c.maxBatchSize) then
      w.(sink := w.sink.(skipped := w.sink.skipped + |items|))
    else if QuotaExhausted(w.counters) then
      w
    else
      var quota := if w.counters.maxMessages.Some? then Some(w.counters.maxMessages.value - |items|) else None;
      World(
        w.sink.(batchBuffer := w.sink.batchBuffer + items, batchTimer := SetTimer(w.sink.batchTimer)),
        w.counters.(maxMessages := quota))
  }

  /** `bufferSize > 0`: the hold buffer is switched on. */
  predicate Buffering(c: AppenderConfig)
  {
    c.bufferSize.Some? && c.bufferSize.value > 0
  }

  /**
   * Storing an item in the hold buffer: only when `bufferSize` is positive;
   * the oldest item is shifted out when the buffer grows past `bufferSize`.
   */
  function HoldItem(c: AppenderConfig, buffer: seq<LogItem>, item: LogItem): (r: seq<LogItem>)
    requires HoldBounded(c, buffer)
    ensures HoldBounded(c, r)
    ensures !Buffering(c) ==> r == buffer
    ensures Buffering(c) ==>
      0 < |r| <= |buffer| + 1 && r[|r| - 1] == item && r[..|r| - 1] == buffer[|buffer| + 1 - |r|..]
    ensures Buffering(c) && |buffer| < c.bufferSize.value ==> r == buffer + [item]
  {
    if Buffering(c) then
      var pushed := buffer + [item];
      if |pushed| > c.bufferSize.value then
        assert pushed[1..][..|pushed| - 2] == buffer[1..];
        pushed[1..]
      else
        assert pushed[..|pushed| - 1] == buffer;
        pushed
    else
      buffer
  }

  /** batchBufferHasOverdueMessages: some queued item is older than `batchTimeout`. */
  predicate Overdue(items: seq<LogItem>, now: int, batchTimeout: Option<int>)
  {
    exists i :: 0 <= i < |items| && Exceeds(now - items[i].t, batchTimeout)
  }

  /**
   * batchBufferHasStrandedMessage: the quota is used up, so nothing will be
   * added to the queue any more, yet items are waiting.
   */
  predicate Stranded(w: World)
  {
    QuotaExhausted(w.counters) && |w.sink.batchBuffer| > 0
  }

  /**
   * sendBatch: does nothing while a send is outstanding (and leaves the batch
   * timer alone); otherwise clears the batch timer and, when items are queued,
   * hands the whole queue to the transport, remembering its length and
   * setting the send timer.
   */
  function SendBatch(c: AppenderConfig, w: World): (r: World)
    requires Inv(c, w.sink)
    ensures Inv(c, r.sink)
    ensures r.counters == w.counters
    ensures r.sink.batchBuffer == w.sink.batchBuffer && r.sink.buffer == w.sink.buffer
    ensures r.sink.skipped == w.sink.skipped
    ensures w.sink.beingSent > 0 ==> r == w
    ensures w.sink.beingSent == 0 ==> r.sink.batchTimer == Idle
    ensures w.sink.beingSent == 0 && |w.sink.batchBuffer| > 0 ==>
      r.sink.beingSent == |w.sink.batchBuffer| && r.sink.sent == w.sink.sent + [w.sink.batchBuffer]
      && r.sink.sendTimer == Timer(true, true)
    ensures w.sink.beingSent == 0 && |w.sink.batchBuffer| == 0 ==>
      r.sink.beingSent == 0 && r.sink.sent == w.sink.sent && r.sink.sendTimer == w.sink.sendTimer
  {
    if w.sink.beingSent > 0 then w
    else
      var cleared := w.sink.(batchTimer := Idle);
      if |cleared.batchBuffer| == 0 then w.(sink := cleared)
      else
        w.(sink := cleared.(
          beingSent := |cleared.batchBuffer|,
          sendTimer := SetTimer(cleared.sendTimer),
          sent := cleared.sent + [cleared.batchBuffer]))
  }

  /** The condition under which sendBatchIfComplete sends. */
  predicate BatchComplete(c: AppenderConfig, w: World, now: int)
  {
    AtLeast(|w.sink.batchBuffer|, c.batchSize) || Overdue(w.sink.batchBuffer, now, c.batchTimeout) || Stranded(w)
  }

  /**
   * sendBatchIfComplete: sends when the queue has reached `batchSize`, holds an
   * overdue item, or is stranded by an exhausted quota.
   */
  function SendBatchIfComplete(c: AppenderConfig, w: World, now: int): (r: World)
    requires Inv(c, w.sink)
    ensures Inv(c, r.sink)
    ensures r.counters == w.counters
    ensures r.sink.batchBuffer == w.sink.batchBuffer && r.sink.buffer == w.sink.buffer
    ensures r.sink.skipped == w.sink.skipped
    ensures !BatchComplete(c, w, now) ==> r == w
    ensures BatchComplete(c, w, now) && w.sink.beingSent == 0 && |w.sink.batchBuffer| > 0 ==>
      r.sink.sent == w.sink.sent + [w.sink.batchBuffer] && r.sink.beingSent == |w.sink.batchBuffer|
    ensures w.sink.beingSent > 0 ==> r == w
  {
    if BatchComplete(c, w, now) then SendBatch(c, w) else w
  }

  /** onSendingEnded: clears the send timer, marks nothing as outstanding and sends again if complete. */
  function SendingEnded(c: AppenderConfig, w: World, now: int): (r: World)
    requires Inv(c, w.sink.(sendTimer := Idle, beingSent := 0))
    ensures Inv(c, r.sink)
    ensures r.counters == w.counters
    ensures r.sink.batchBuffer == w.sink.batchBuffer && r.sink.buffer == w.sink.buffer
    ensures r.sink.skipped == w.sink.skipped
    ensures r.sink.beingSent == 0 || (r.sink.beingSent == |w.sink.batchBuffer| && r.sink.sent == w.sink.sent + [w.sink.batchBuffer])
  {
    SendBatchIfComplete(c, w.(sink := w.sink.(sendTimer := Idle, beingSent := 0)), now)
  }

  /** The text of the synthetic warning that reports lost items. */
  function LostMessage(skipped: int): string
  {
    "Lost " + IntText(skipped) + " messages while connection with the server was down. "
    + "Reduce lost messages by increasing the ajaxAppender option maxBatchSize."
  }

  /**
   * The transport's success callback: removes exactly the items that were
   * being sent from the front of the queue (items queued meanwhile stay),
   * appends one WARN item reporting skipped items if there were any, and
   * ends the send.
   */
  function SendSuccess(c: AppenderConfig, w: World, appenderName: string, now: int): (r: World)
    requires Inv(c, w.sink)
    ensures Inv(c, r.sink)
    ensures r.sink.skipped == 0
    ensures r.counters.maxMessages == w.counters.maxMessages
    ensures w.sink.skipped == 0 ==>
      r.sink.batchBuffer == w.sink.batchBuffer[w.sink.beingSent..] && r.counters == w.counters
    ensures w.sink.skipped > 0 ==>
      r.sink.batchBuffer == w.sink.batchBuffer[w.sink.beingSent..]
        + [LogItem(WARN, LostMessage(w.sink.skipped), appenderName, now, w.counters.entryId + 1)]
      && r.counters.entryId == w.counters.entryId + 1
    ensures r.sink.buffer == w.sink.buffer
    ensures r.sink.beingSent == 0 || r.sink.beingSent == |r.sink.batchBuffer|
  {
    var rest := w.sink.batchBuffer[w.sink.beingSent..];
    var spliced := w.(sink := w.sink.(batchBuffer := rest));
    var reported :=
      if w.sink.skipped > 0 then
        var warning := NewLogItem(w.counters, WARN, LostMessage(w.sink.skipped), appenderName, now);
        World(spliced.sink.(batchBuffer := rest + [warning], skipped := 0), Counted(w.counters))
      else spliced;
    SendingEnded(c, reported, now)
  }

  /** The batch timer fires: its callback runs sendBatch; the id stays stored. */
  function BatchTimeout(c: AppenderConfig, w: World): (r: World)
    requires Inv(c, w.sink) && w.sink.batchTimer.pending
    ensures Inv(c, r.sink)
    ensures r.sink.batchBuffer == w.sink.batchBuffer && r.counters == w.counters
    ensures w.sink.beingSent > 0 ==> r.sink.batchTimer == Timer(true, false) && r.sink.sent == w.sink.sent
    ensures w.sink.beingSent == 0 && |w.sink.batchBuffer| > 0 ==> r.sink.sent == w.sink.sent + [w.sink.batchBuffer]
  {
    SendBatch(c, w.(sink := w.sink.(batchTimer := Timer(true, false))))
  }

  /**
   * The send timer fires: the send is given up (onSendingEnded); the items
   * stay queued and are sent again when the queue is complete.
   */
  function SendTimeout(c: AppenderConfig, w: World, now: int): (r: World)
    requires Inv(c, w.sink) && w.sink.sendTimer.pending
    ensures Inv(c, r.sink)
    ensures r.sink.batchBuffer == w.sink.batchBuffer && r.counters == w.counters
    ensures r.sink.skipped == w.sink.skipped
    ensures r.sink.beingSent == 0 <==> !BatchComplete(c, w, now) || |w.sink.batchBuffer| == 0
  {
    SendingEnded(c, w.(sink := w.sink.(sendTimer := Timer(true, false))), now)
  }

  /** The path an item takes through the appender. */
  predicate Passes(c: AppenderConfig, enabled: Option<bool>, clientIP: Option<string>, env: Env, message: string)
  {
    Allow(enabled, clientIP, env, c.Filters()) && AllowMessage(env, c.Filters(), message)
  }

  /** The flush of the hold buffer triggered by a high-level item. */
  function FlushHeld(c: AppenderConfig, w: World, level: int): (r: World)
    requires Inv(c, w.sink)
    ensures Inv(c, r.sink)
    ensures !(AtLeast(level, c.sendWithBufferLevel) && |w.sink.buffer| > 0) ==> r == w
    ensures AtLeast(level, c.sendWithBufferLevel) ==> r.sink.buffer == []
    ensures r.counters.entryId == w.counters.entryId && r.sink.beingSent == w.sink.beingSent
    ensures r.sink.sent == w.sink.sent && r.sink.sendTimer == w.sink.sendTimer
    ensures AtLeast(level, c.sendWithBufferLevel) && |w.sink.buffer| > 0 && AtLeast(|w.sink.batchBuffer|, c.maxBatchSize) ==>
      r.sink.batchBuffer == w.sink.batchBuffer && r.sink.skipped == w.sink.skipped + |w.sink.buffer|
      && r.counters == w.counters
    ensures AtLeast(level, c.sendWithBufferLevel) && |w.sink.buffer| > 0 && !AtLeast(|w.sink.batchBuffer|, c.maxBatchSize)
            && QuotaExhausted(w.counters) ==>
      r.sink.batchBuffer == w.sink.batchBuffer && r.sink.skipped == w.sink.skipped && r.counters == w.counters
    ensures AtLeast(level, c.sendWithBufferLevel) && |w.sink.buffer| > 0 && !AtLeast(|w.sink.batchBuffer|, c.maxBatchSize)
            && !QuotaExhausted(w.counters) ==>
      r.sink.batchBuffer == w.sink.batchBuffer + w.sink.buffer && r.sink.skipped == w.sink.skipped
      && r.counters.maxMessages == (if w.counters.maxMessages.Some?
                                    then Some(w.counters.maxMessages.value - |w.sink.buffer|) else None)
  {
    if AtLeast(level, c.sendWithBufferLevel) && |w.sink.buffer| > 0 then
      var added := AddLogItems(c, w, w.sink.buffer);
      added.(sink := added.sink.(buffer := []))
    else w
  }

  /**
   * Appender.log: items rejected by the filters or below `storeInBufferLevel`
   * are ignored; items below `level` go to the hold buffer; any other item is
   * queued, followed by the hold buffer's contents when its level reaches
   * `sendWithBufferLevel`, and the queue is sent if complete.
   */
  function Log(c: AppenderConfig, w: World, enabled: Option<bool>, clientIP: Option<string>, env: Env,
               level: int, message: string, loggerName: string, now: int): (r: World)
    requires Inv(c, w.sink)
    ensures Inv(c, r.sink)
    ensures !Passes(c, enabled, clientIP, env, message) || Below(level, c.storeInBufferLevel) ==> r == w
    ensures Passes(c, enabled, clientIP, env, message) && !Below(level, c.storeInBufferLevel) ==>
      r.counters.entryId == w.counters.entryId + 1
    ensures (Passes(c, enabled, clientIP, env, message) && !Below(level, c.storeInBufferLevel)
             && Below(level, c.level)) ==>
      r.sink == w.sink.(buffer := HoldItem(c, w.sink.buffer, NewLogItem(w.counters, level, message, loggerName, now)))
      && r.counters.maxMessages == w.counters.maxMessages
    ensures (Passes(c, enabled, clientIP, env, message) && !Below(level, c.storeInBufferLevel)
             && !Below(level, c.level)) ==>
      |r.sink.batchBuffer| >= |w.sink.batchBuffer| && r.sink.batchBuffer[..|w.sink.batchBuffer|] == w.sink.batchBuffer
  {
    if !Passes(c, enabled, clientIP, env, message) then w
    else if Below(level, c.storeInBufferLevel) then w
    else
      var item := NewLogItem(w.counters, level, message, loggerName, now);
      var counted := w.(counters := Counted(w.counters));
      if Below(level, c.level) then
        counted.(sink := counted.sink.(buffer := HoldItem(c, counted.sink.buffer, item)))
      else
        var queued := AddLogItems(c, counted, [item]);
        var flushed := FlushHeld(c, queued, level);
        SendBatchIfComplete(c, flushed, now)
  }

  datatype ConfigError =
    | InvalidArrayLength   // `buffer.length = bufferSize` with a negative bufferSize
    | BatchSizeConflict    // maxBatchSize below batchSize

  datatype Configured = Configured(cfg: AppenderConfig, sink: Sink, error: Option<ConfigError>)

  /**
   * Appender.setOptions: the options are copied first; then a hold buffer
   * longer than `bufferSize` is cut to its first `bufferSize` items; then a
   * `maxBatchSize` below `batchSize` is reported as an error. The options
   * stay copied when an error is raised.
   */
  function SetOptions(c: AppenderConfig, s: Sink, o: AppenderOptions): (r: Configured)
    requires Inv(c, s)
    ensures r.cfg == ApplyAppenderOptions(c, o)
    ensures r.sink == s.(buffer := r.sink.buffer)
    ensures |r.sink.buffer| <= |s.buffer| && r.sink.buffer == s.buffer[..|r.sink.buffer|]
    ensures Inv(r.cfg, r.sink)
    ensures r.error == Some(InvalidArrayLength) <==> r.cfg.bufferSize.Some? && r.cfg.bufferSize.value < 0
    ensures r.error == Some(BatchSizeConflict) <==>
      (r.cfg.bufferSize.Some? ==> r.cfg.bufferSize.value >= 0) && OptionBelow(r.cfg.maxBatchSize, r.cfg.batchSize)
    ensures r.error == None <==>
      (r.cfg.bufferSize.Some? ==> r.cfg.bufferSize.value >= 0) && !OptionBelow(r.cfg.maxBatchSize, r.cfg.batchSize)
  {
    var c' := ApplyAppenderOptions(c, o);
    if c'.bufferSize.Some? && c'.bufferSize.value < |s.buffer| && c'.bufferSize.value < 0 then
      Configured(c', s, Some(InvalidArrayLength))
    else
      var s' := if c'.bufferSize.Some? && c'.bufferSize.value < |s.buffer|
                then s.(buffer := s.buffer[..c'.bufferSize.value]) else s;
      if OptionBelow(c'.maxBatchSize, c'.batchSize) then Configured(c', s', Some(BatchSizeConflict))
      else Configured(c', s', None)
  }
}
