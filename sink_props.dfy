/**
 * Properties of the appender state machine that span several operations:
 * the hold buffer keeps the most recent items, quota accounting over any
 * number of enqueues, the order in which a high-level item and the held
 * items are queued, and concrete scenarios.
 */
module SinkProperties {
  import opened Base
  import opened Levels
  import opened Options
  import opened Filters
  import opened SinkSpec

  /** The last `n` elements of `s` (all of `s` when it is shorter). */
  function LastN<T>(s: seq<T>, n: nat): (r: seq<T>)
    ensures |r| == if |s| <= n then |s| else n
  {
    if |s| <= n then s else s[|s| - n..]
  }

  /** Items stored one after the other in the hold buffer. */
  function HoldAll(c: AppenderConfig, buffer: seq<LogItem>, items: seq<LogItem>): (r: seq<LogItem>)
    requires HoldBounded(c, buffer)
    ensures HoldBounded(c, r)
    decreases |items|
  {
    if items == [] then buffer else HoldAll(c, HoldItem(c, buffer, items[0]), items[1..])
  }

  lemma LastNOfLastN<T>(s: seq<T>, t: seq<T>, n: nat)
    ensures LastN(LastN(s, n) + t, n) == LastN(s + t, n)
  {
    var m := LastN(s, n);
    if |s| > n {
      var k := |s| - n;
      assert s + t == s[..k] + (m + t);
      if |m + t| <= n {
        assert t == [];
        assert s + t == s;
      }
    }
  }

  /** One stored item keeps the `bufferSize` most recent items. */
  lemma HoldItemKeepsLast(c: AppenderConfig, buffer: seq<LogItem>, item: LogItem)
    requires Buffering(c) && |buffer| <= c.bufferSize.value
    ensures HoldItem(c, buffer, item) == LastN(buffer + [item], c.bufferSize.value)
  {
  }

  /**
   * Once buffering is on, after any number of held items the hold buffer is
   * exactly the `bufferSize` most recent ones, oldest dropped first.
   */
  lemma {:induction false} HoldKeepsMostRecent(c: AppenderConfig, buffer: seq<LogItem>, items: seq<LogItem>)
    requires Buffering(c) && |buffer| <= c.bufferSize.value
    ensures HoldAll(c, buffer, items) == LastN(buffer + items, c.bufferSize.value)
    decreases |items|
  {
    var n := c.bufferSize.value;
    if items == [] {
      assert buffer + items == buffer;
    } else {
      var x, rest := items[0], items[1..];
      var held := HoldItem(c, buffer, x);
      HoldItemKeepsLast(c, buffer, x);
      HoldKeepsMostRecent(c, held, rest);
      LastNStep(buffer, x, rest, n);
      assert [x] + rest == items;
    }
  }

  lemma LastNStep<T>(s: seq<T>, x: T, rest: seq<T>, n: nat)
    ensures LastN(LastN(s + [x], n) + rest, n) == LastN(s + ([x] + rest), n)
  {
    LastNOfLastN(s + [x], rest, n);
    assert s + [x] + rest == s + ([x] + rest);
  }

  /** Several calls of addLogItemsToBuffer, one per batch of items. */
  function EnqueueAll(c: AppenderConfig, w: World, batches: seq<seq<LogItem>>): (r: World)
    requires Inv(c, w.sink)
    ensures Inv(c, r.sink)
    decreases |batches|
  {
    if batches == [] then w else EnqueueAll(c, AddLogItems(c, w, batches[0]), batches[1..])
  }

  /**
   * Quota accounting: over any sequence of enqueues the quota goes down by
   * exactly the number of items that entered the queue (items skipped for a
   * full queue or dropped for an exhausted quota count for nothing), and the
   * queue only grows at its end.
   */
  lemma {:induction false} QuotaAccounting(c: AppenderConfig, w: World, batches: seq<seq<LogItem>>)
    requires Inv(c, w.sink) && w.counters.maxMessages.Some?
    ensures EnqueueAll(c, w, batches).counters.maxMessages.Some?
    ensures |EnqueueAll(c, w, batches).sink.batchBuffer| >= |w.sink.batchBuffer|
    ensures EnqueueAll(c, w, batches).sink.batchBuffer[..|w.sink.batchBuffer|] == w.sink.batchBuffer
    ensures EnqueueAll(c, w, batches).counters.maxMessages.value ==
      w.counters.maxMessages.value - (|EnqueueAll(c, w, batches).sink.batchBuffer| - |w.sink.batchBuffer|)
    decreases |batches|
  {
    if batches != [] {
      var w1 := AddLogItems(c, w, batches[0]);
      QuotaAccounting(c, w1, batches[1..]);
      var r := EnqueueAll(c, w1, batches[1..]);
      assert r.sink.batchBuffer[..|w.sink.batchBuffer|] == r.sink.batchBuffer[..|w1.sink.batchBuffer|][..|w.sink.batchBuffer|];
    }
  }

  /**
   * A high-level item is queued before the held items it releases, and the
   * hold buffer is emptied, when the queue and the quota have room for both.
   */
  lemma TriggerQueuedBeforeHeld(c: AppenderConfig, w: World, enabled: Option<bool>, clientIP: Option<string>,
                                env: Env, level: int, message: string, loggerName: string, now: int)
    requires Inv(c, w.sink)
    requires Passes(c, enabled, clientIP, env, message)
    requires !Below(level, c.storeInBufferLevel) && !Below(level, c.level) && AtLeast(level, c.sendWithBufferLevel)
    requires |w.sink.buffer| > 0
    requires c.maxBatchSize.Some? ==> |w.sink.batchBuffer| + 1 < c.maxBatchSize.value
    requires w.counters.maxMessages.Some? ==> w.counters.maxMessages.value >= 2
    ensures Log(c, w, enabled, clientIP, env, level, message, loggerName, now).sink.batchBuffer ==
      w.sink.batchBuffer + [NewLogItem(w.counters, level, message, loggerName, now)] + w.sink.buffer
    ensures Log(c, w, enabled, clientIP, env, level, message, loggerName, now).sink.buffer == []
  {
    var item := NewLogItem(w.counters, level, message, loggerName, now);
    var counted := w.(counters := Counted(w.counters));
    var queued := AddLogItems(c, counted, [item]);
    assert queued.sink.batchBuffer == w.sink.batchBuffer + [item];
    var flushed := FlushHeld(c, queued, level);
    assert flushed.sink.batchBuffer == w.sink.batchBuffer + [item] + w.sink.buffer;
  }

  /**
   * An item at or above the appender's level, logged while the queue has
   * room and the quota is not used up, is queued right behind the items
   * already waiting (ahead of any held items it flushes).
   */
  lemma LogQueuesItem(c: AppenderConfig, w: World, enabled: Option<bool>, clientIP: Option<string>,
                      env: Env, level: int, message: string, loggerName: string, now: int)
    requires Inv(c, w.sink)
    requires Passes(c, enabled, clientIP, env, message)
    requires !Below(level, c.storeInBufferLevel) && !Below(level, c.level)
    requires !AtLeast(|w.sink.batchBuffer|, c.maxBatchSize) && !QuotaExhausted(w.counters)
    ensures var r := Log(c, w, enabled, clientIP, env, level, message, loggerName, now);
      && |r.sink.batchBuffer| > |w.sink.batchBuffer|
      && r.sink.batchBuffer[..|w.sink.batchBuffer| + 1]
         == w.sink.batchBuffer + [NewLogItem(w.counters, level, message, loggerName, now)]
  {
    var item := NewLogItem(w.counters, level, message, loggerName, now);
    var queued := AddLogItems(c, w.(counters := Counted(w.counters)), [item]);
    var flushed := FlushHeld(c, queued, level);
    assert flushed.sink.batchBuffer[..|w.sink.batchBuffer| + 1] == w.sink.batchBuffer + [item];
  }

  /**
   * With room in the queue for the triggering item only, the item is queued
   * and every held item is counted as skipped; the hold buffer is emptied.
   */
  lemma TriggerQueuedWhenNearlyFull(c: AppenderConfig, w: World, enabled: Option<bool>, clientIP: Option<string>,
                                    env: Env, level: int, message: string, loggerName: string, now: int)
    requires Inv(c, w.sink)
    requires Passes(c, enabled, clientIP, env, message)
    requires !Below(level, c.storeInBufferLevel) && !Below(level, c.level) && AtLeast(level, c.sendWithBufferLevel)
    requires |w.sink.buffer| > 0
    requires c.maxBatchSize == Some(|w.sink.batchBuffer| + 1)
    requires w.counters.maxMessages.Some? ==> w.counters.maxMessages.value >= 1
    ensures var r := Log(c, w, enabled, clientIP, env, level, message, loggerName, now);
      && r.sink.batchBuffer == w.sink.batchBuffer + [NewLogItem(w.counters, level, message, loggerName, now)]
      && r.sink.buffer == []
      && r.sink.skipped == w.sink.skipped + |w.sink.buffer|
  {
    var item := NewLogItem(w.counters, level, message, loggerName, now);
    var counted := w.(counters := Counted(w.counters));
    var queued := AddLogItems(c, counted, [item]);
    assert queued.sink.batchBuffer == w.sink.batchBuffer + [item];
    var flushed := FlushHeld(c, queued, level);
    assert flushed.sink.batchBuffer == w.sink.batchBuffer + [item];
  }

  /**
   * With a quota of one message left, the triggering item takes it and the
   * held items are dropped without being counted as skipped; the hold buffer
   * is emptied.
   */
  lemma TriggerQueuedOnLastQuota(c: AppenderConfig, w: World, enabled: Option<bool>, clientIP: Option<string>,
                                 env: Env, level: int, message: string, loggerName: string, now: int)
    requires Inv(c, w.sink)
    requires Passes(c, enabled, clientIP, env, message)
    requires !Below(level, c.storeInBufferLevel) && !Below(level, c.level) && AtLeast(level, c.sendWithBufferLevel)
    requires |w.sink.buffer| > 0
    requires c.maxBatchSize.Some? ==> |w.sink.batchBuffer| + 1 < c.maxBatchSize.value
    requires w.counters.maxMessages == Some(1)
    ensures var r := Log(c, w, enabled, clientIP, env, level, message, loggerName, now);
      && r.sink.batchBuffer == w.sink.batchBuffer + [NewLogItem(w.counters, level, message, loggerName, now)]
      && r.sink.buffer == []
      && r.sink.skipped == w.sink.skipped
      && r.counters.maxMessages == Some(0)
  {
    var item := NewLogItem(w.counters, level, message, loggerName, now);
    var counted := w.(counters := Counted(w.counters));
    var queued := AddLogItems(c, counted, [item]);
    assert queued.sink.batchBuffer == w.sink.batchBuffer + [item];
    assert QuotaExhausted(queued.counters);
  }

  const Start := World(EmptySink, Counters(None, 0))

  /** An item that passes the filters and is below the appender's level only goes to the hold buffer. */
  lemma HeldOnly(c: AppenderConfig, w: World, env: Env, level: int, message: string, loggerName: string, now: int)
    requires Inv(c, w.sink)
    requires c.Filters() == FilterOptions(None, None, None)
    requires !Below(level, c.storeInBufferLevel) && Below(level, c.level)
    ensures Log(c, w, None, None, env, level, message, loggerName, now) ==
      World(w.sink.(buffer := HoldItem(c, w.sink.buffer, NewLogItem(w.counters, level, message, loggerName, now))),
            Counted(w.counters))
  {
    assert Passes(c, None, None, env, message);
  }

  /** An appender with nothing queued or sent, holding `buffer`, after `id` items were numbered. */
  function Holding(buffer: seq<LogItem>, id: int): World
  {
    World(EmptySink.(buffer := buffer), Counters(None, id))
  }

  /** An appender at WARN that holds up to 3 items below it. */
  const HoldThree := DefaultConfig.(level := Some(WARN), bufferSize := Some(3))

  /** A DEBUG item given to that appender is numbered and held; the three most recent stay. */
  lemma HoldThreeStep(env: Env, now: int, buffer: seq<LogItem>, id: int, m: string)
    requires |buffer| <= 3
    ensures Log(HoldThree, Holding(buffer, id), None, None, env, DEBUG, m, "a", now) ==
            Holding(LastN(buffer + [LogItem(DEBUG, m, "a", now, id + 1)], 3), id + 1)
  {
    var w := Holding(buffer, id);
    var item := LogItem(DEBUG, m, "a", now, id + 1);
    assert Inv(HoldThree, w.sink);
    HeldOnly(HoldThree, w, env, DEBUG, m, "a", now);
    assert NewLogItem(w.counters, DEBUG, m, "a", now) == item;
    assert Counted(w.counters) == Counters(None, id + 1);
    HoldItemKeepsLast(HoldThree, buffer, item);
  }

  /**
   * That appender, holding three DEBUG items, is given a fourth: the oldest
   * is evicted and the three most recent remain; nothing is queued or sent.
   */
  lemma HoldScenario(env: Env, now: int)
    ensures
      var i1, i2 := LogItem(DEBUG, "1", "a", now, 1), LogItem(DEBUG, "2", "a", now, 2);
      var i3, i4 := LogItem(DEBUG, "3", "a", now, 3), LogItem(DEBUG, "4", "a", now, 4);
      Log(HoldThree, Holding([i1, i2, i3], 3), None, None, env, DEBUG, "4", "a", now) == Holding([i2, i3, i4], 4)
  {
    var i1, i2 := LogItem(DEBUG, "1", "a", now, 1), LogItem(DEBUG, "2", "a", now, 2);
    var i3, i4 := LogItem(DEBUG, "3", "a", now, 3), LogItem(DEBUG, "4", "a", now, 4);
    HoldThreeStep(env, now, [i1, i2, i3], 3, "4");
    assert [i1, i2, i3] + [i4] == [i1, i2, i3, i4];
    assert LastN([i1, i2, i3, i4], 3) == [i2, i3, i4];
  }

  /**
   * With batchSize = maxBatchSize = 2 and no delivery completing, a third
   * item is skipped: the queue stays at two and the skipped count is one.
   */
  lemma FullQueueScenario(env: Env, now: int)
    ensures
      var c := DefaultConfig.(batchSize := Some(2), maxBatchSize := Some(2));
      var w1 := Log(c, Start, None, None, env, INFO, "1", "a", now);
      var w2 := Log(c, w1, None, None, env, INFO, "2", "a", now);
      var w3 := Log(c, w2, None, None, env, INFO, "3", "a", now);
      && |w3.sink.batchBuffer| == 2 && w3.sink.skipped == 1
      && w3.sink.sent == [w2.sink.batchBuffer] && w3.sink.beingSent == 2
  {
    var c := DefaultConfig.(batchSize := Some(2), maxBatchSize := Some(2));
    var w1 := Log(c, Start, None, None, env, INFO, "1", "a", now);
    assert |w1.sink.batchBuffer| == 1 && w1.sink.sent == [];
    var w2 := Log(c, w1, None, None, env, INFO, "2", "a", now);
    assert |w2.sink.batchBuffer| == 2 && w2.sink.beingSent == 2;
  }

  /**
   * Two appenders share a quota of 1. One item on the first is accepted and
   * takes the quota to 0, so one item on the second is then dropped. A pair
   * of items accepted at quota 1 takes it to -1, after which the other
   * appender drops its item and the first one's queue counts as stranded.
   */
  lemma SharedQuotaScenario(a: LogItem, b: LogItem, x: LogItem)
    ensures
      var first := AddLogItems(DefaultConfig, World(EmptySink, Counters(Some(1), 0)), [a]);
      var second := AddLogItems(DefaultConfig, World(EmptySink, first.counters), [x]);
      && first.sink.batchBuffer == [a] && first.counters.maxMessages == Some(0)
      && second.sink.batchBuffer == [] && second.counters.maxMessages == Some(0)
    ensures
      var first := AddLogItems(DefaultConfig, World(EmptySink, Counters(Some(1), 0)), [a, b]);
      var second := AddLogItems(DefaultConfig, World(EmptySink, first.counters), [x]);
      && first.sink.batchBuffer == [a, b] && first.counters.maxMessages == Some(-1)
      && second.sink.batchBuffer == [] && second.counters.maxMessages == Some(-1)
      && Stranded(World(first.sink, second.counters))
  {
  }

  /**
   * A send of two items times out: nothing is outstanding any more for a
   * moment, both items are still queued, and since the queue is still a
   * complete batch they are handed to the transport again.
   */
  lemma SendTimeoutScenario(env: Env, now: int)
    ensures
      var c := DefaultConfig.(batchSize := Some(2));
      var w1 := Log(c, Start, None, None, env, INFO, "1", "a", now);
      var w2 := Log(c, w1, None, None, env, INFO, "2", "a", now);
      var w3 := SendTimeout(c, w2, now);
      && w2.sink.beingSent == 2 && w2.sink.sendTimer.pending
      && w3.sink.batchBuffer == w2.sink.batchBuffer
      && w3.sink.sent == w2.sink.sent + [w2.sink.batchBuffer] && w3.sink.beingSent == 2
  {
    var c := DefaultConfig.(batchSize := Some(2));
    var w1 := Log(c, Start, None, None, env, INFO, "1", "a", now);
    assert |w1.sink.batchBuffer| == 1 && w1.sink.beingSent == 0;
    var w2 := Log(c, w1, None, None, env, INFO, "2", "a", now);
    assert |w2.sink.batchBuffer| == 2 && w2.sink.beingSent == 2;
  }

  /** setOptions with no option mentioned changes nothing on a consistent appender. */
  lemma SetNoOptions(c: AppenderConfig, s: Sink)
    requires Inv(c, s)
    requires c.bufferSize.Some? ==> c.bufferSize.value >= 0
    requires !OptionBelow(c.maxBatchSize, c.batchSize)
    ensures SetOptions(c, s, NoAppenderOptions) == Configured(c, s, None)
  {
  }
}
