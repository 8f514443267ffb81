/**
 * The appender as an object whose methods update its fields in place.
 * Each method is proved to leave the appender and the process-wide quota
 * and entry counter in the state the matching function of `SinkSpec`
 * describes, so every property proved of those functions holds of the
 * object as well.
 */
module Appenders {
  import opened Base
  import opened Levels
  import opened Filters
  import opened Config
  import opened SinkSpec

  /**
   * newLogItem: takes the next entry number from the process-wide counter.
   * The clock reading is the parameter `now`.
   */
  method NextLogItem(g: Globals, level: int, message: string, loggerName: string, now: int) returns (item: LogItem)
    modifies g
    ensures item == NewLogItem(old(Counters(g.maxMessages, g.entryId)), level, message, loggerName, now)
    ensures g.entryId == old(g.entryId) + 1 && g.Settings() == old(g.Settings())
  {
    g.entryId := g.entryId + 1;
    item := LogItem(level, message, loggerName, now, g.entryId);
  }

  class Appender {
    const appenderName: string
    /** The process-wide settings, shared by every appender. */
    const g: Globals
    /** The eleven options. */
    var cfg: AppenderConfig
    /** Items held below `level`, possibly never sent. */
    var buffer: seq<LogItem>
    /** Items waiting to be sent, oldest first. */
    var batchBuffer: seq<LogItem>
    var batchTimeoutTimer: Timer
    var sendTimeoutTimer: Timer
    var nbrLogItemsSkipped: int
    var nbrLogItemsBeingSent: int
    /** Every batch handed to the transport, in order. */
    var sent: seq<seq<LogItem>>

    /** The appender's own state. */
    function Local(): Sink
      reads this
    {
      Sink(buffer, batchBuffer, batchTimeoutTimer, sendTimeoutTimer, nbrLogItemsSkipped, nbrLogItemsBeingSent, sent)
    }

    /** The appender's state together with the process-wide quota and entry counter. */
    function State(): World
      reads this, g
    {
      World(Local(), Counters(g.maxMessages, g.entryId))
    }

    ghost predicate Valid()
      reads this
    {
      Inv(cfg, Local())
    }

    constructor (appenderName: string, g: Globals)
      ensures this.appenderName == appenderName && this.g == g
      ensures cfg == DefaultConfig && Local() == EmptySink && Valid()
    {
      this.appenderName, this.g := appenderName, g;
      cfg := DefaultConfig;
      buffer, batchBuffer := [], [];
      batchTimeoutTimer, sendTimeoutTimer := Idle, Idle;
      nbrLogItemsSkipped, nbrLogItemsBeingSent := 0, 0;
      sent := [];
    }

    method AddLogItemsToBuffer(items: seq<LogItem>)
      requires Valid()
      modifies this, g
      ensures Valid() && cfg == old(cfg)
      ensures State() == AddLogItems(cfg, old(State()), items)
      ensures g.Settings() == old(g.Settings()).(maxMessages := g.maxMessages)
    {
      if AtLeast(|batchBuffer|, cfg.maxBatchSize) {
        nbrLogItemsSkipped := nbrLogItemsSkipped + |items|;
        return;
      }
      if g.maxMessages.Some? {
        if g.maxMessages.value < 1 {
          return;
        }
        g.maxMessages := Some(g.maxMessages.value - |items|);
      }
      batchBuffer := batchBuffer + items;
      batchTimeoutTimer := SetTimer(batchTimeoutTimer);
    }

    /** Scans the queue for an item older than `batchTimeout` at time `now`. */
    method BatchBufferHasOverdueMessages(now: int) returns (overdue: bool)
      ensures overdue == Overdue(batchBuffer, now, cfg.batchTimeout)
    {
      var i := 0;
      while i < |batchBuffer|
        invariant 0 <= i <= |batchBuffer|
        invariant forall j :: 0 <= j < i ==> !Exceeds(now - batchBuffer[j].t, cfg.batchTimeout)
      {
        var messageAgeMs := now - batchBuffer[i].t;
        if Exceeds(messageAgeMs, cfg.batchTimeout) {
          return true;
        }
        i := i + 1;
      }
      return false;
    }

    method BatchBufferHasStrandedMessage() returns (stranded: bool)
      ensures stranded <==> g.maxMessages.Some? && g.maxMessages.value < 1 && |batchBuffer| > 0
      ensures stranded == Stranded(State())
      ensures stranded && Valid() ==>
        forall items :: AddLogItems(cfg, State(), items).sink.batchBuffer == batchBuffer
    {
      stranded := g.maxMessages.Some? && g.maxMessages.value < 1 && |batchBuffer| > 0;
    }

    method SendBatch()
      requires Valid()
      modifies this
      ensures Valid() && cfg == old(cfg)
      ensures State() == SinkSpec.SendBatch(cfg, old(State()))
    {
      if nbrLogItemsBeingSent > 0 {
        return;
      }
      batchTimeoutTimer := Idle;
      if |batchBuffer| == 0 {
        return;
      }
      nbrLogItemsBeingSent := |batchBuffer|;
      sendTimeoutTimer := SetTimer(sendTimeoutTimer);
      sent := sent + [batchBuffer];
    }

    method SendBatchIfComplete(now: int)
      requires Valid()
      modifies this
      ensures Valid() && cfg == old(cfg)
      ensures State() == SinkSpec.SendBatchIfComplete(cfg, old(State()), now)
    {
      var overdue := BatchBufferHasOverdueMessages(now);
      var stranded := BatchBufferHasStrandedMessage();
      if AtLeast(|batchBuffer|, cfg.batchSize) || overdue || stranded {
        SendBatch();
      }
    }

    method OnSendingEnded(now: int)
      requires Inv(cfg, Local().(sendTimer := Idle, beingSent := 0))
      modifies this
      ensures Valid() && cfg == old(cfg)
      ensures State() == SendingEnded(cfg, old(State()), now)
    {
      sendTimeoutTimer := Idle;
      nbrLogItemsBeingSent := 0;
      SendBatchIfComplete(now);
    }

    /** The transport's success callback for the batch handed over by sendBatch. */
    method OnSendSuccess(now: int)
      requires Valid()
      modifies this, g
      ensures Valid() && cfg == old(cfg)
      ensures State() == SendSuccess(cfg, old(State()), appenderName, now)
      ensures g.Settings() == old(g.Settings())
    {
      batchBuffer := batchBuffer[nbrLogItemsBeingSent..];
      if nbrLogItemsSkipped > 0 {
        var warning := NextLogItem(g, WARN, LostMessage(nbrLogItemsSkipped), appenderName, now);
        batchBuffer := batchBuffer + [warning];
        nbrLogItemsSkipped := 0;
      }
      OnSendingEnded(now);
    }

    /** The batch timer's callback. */
    method OnBatchTimeout()
      requires Valid() && batchTimeoutTimer.pending
      modifies this
      ensures Valid() && cfg == old(cfg)
      ensures State() == BatchTimeout(cfg, old(State()))
    {
      batchTimeoutTimer := Timer(true, false);
      SendBatch();
    }

    /** The send timer's callback. */
    method OnSendTimeout(now: int)
      requires Valid() && sendTimeoutTimer.pending
      modifies this
      ensures Valid() && cfg == old(cfg)
      ensures State() == SendTimeout(cfg, old(State()), now)
    {
      sendTimeoutTimer := Timer(true, false);
      OnSendingEnded(now);
    }

    /**
     * Appender.log; the global switch and client IP are read from the shared
     * settings, the user agent and regex engine come from `env`.
     */
    method Log(env: Env, level: int, message: string, loggerName: string, now: int)
      requires Valid()
      modifies this, g
      ensures Valid() && cfg == old(cfg)
      ensures State() == SinkSpec.Log(cfg, old(State()), g.enabled, g.clientIP, env, level, message, loggerName, now)
      ensures g.Settings() == old(g.Settings()).(maxMessages := g.maxMessages)
    {
      if !Allow(g.enabled, g.clientIP, env, cfg.Filters()) {
        return;
      }
      if !AllowMessage(env, cfg.Filters(), message) {
        return;
      }
      if Below(level, cfg.storeInBufferLevel) {
        return;
      }
      var item := NextLogItem(g, level, message, loggerName, now);
      if Below(level, cfg.level) {
        Hold(item);
        return;
      }
      Enqueue(item, level, now);
    }

    /** The hold-buffer branch of log: a ring buffer of `bufferSize` items. */
    method Hold(item: LogItem)
      requires Valid()
      modifies this
      ensures Valid() && cfg == old(cfg)
      ensures Local() == old(Local()).(buffer := HoldItem(cfg, old(buffer), item))
    {
      if Buffering(cfg) {
        buffer := buffer + [item];
        if |buffer| > cfg.bufferSize.value {
          buffer := buffer[1..];
        }
      }
    }

    /** The sending branch of log: the item, then the held items at a high enough level, then a send if complete. */
    method Enqueue(item: LogItem, level: int, now: int)
      requires Valid()
      modifies this, g
      ensures Valid() && cfg == old(cfg)
      ensures State() == SinkSpec.SendBatchIfComplete(cfg, FlushHeld(cfg, AddLogItems(cfg, old(State()), [item]), level), now)
      ensures g.Settings() == old(g.Settings()).(maxMessages := g.maxMessages)
    {
      AddLogItemsToBuffer([item]);
      if AtLeast(level, cfg.sendWithBufferLevel) {
        if |buffer| > 0 {
          AddLogItemsToBuffer(buffer);
          buffer := [];
        }
      }
      SendBatchIfComplete(now);
    }

    /**
     * Appender.setOptions: returns the error the source throws, if any; the
     * options stay copied either way.
     */
    method SetOptions(o: AppenderOptions) returns (err: Option<ConfigError>)
      requires Valid()
      modifies this
      ensures Configured(cfg, Local(), err) == SinkSpec.SetOptions(old(cfg), old(Local()), o)
      ensures Valid()
    {
      cfg := ApplyAppenderOptions(cfg, o);
      if cfg.bufferSize.Some? && cfg.bufferSize.value < |buffer| {
        if cfg.bufferSize.value < 0 {
          return Some(InvalidArrayLength);
        }
        buffer := buffer[..cfg.bufferSize.value];
      }
      if OptionBelow(cfg.maxBatchSize, cfg.batchSize) {
        return Some(BatchSizeConflict);
      }
      return None;
    }
  }
}
