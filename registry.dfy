/**
 * The loggers as the program holds them: one table of logger records
 * (the objects hanging off JL.__ and each other), updated in place by
 * JL(name), Logger.setOptions and Logger.log, and the appenders they point
 * at. Each method is proved against the functions of `Hierarchy` and
 * `LoggerSpec`.
 */
module Loggers {
  import opened Base
  import opened Levels
  import opened Options
  import opened Values
  import opened Filters
  import opened Config
  import opened SinkSpec
  import opened Appenders
  import opened Names
  import opened OnceOnly
  import opened Hierarchy
  import opened LoggerSpec

  /** Every appender some logger holds is one of `s`. */
  ghost predicate AppendersIn(ls: seq<LoggerRec>, s: set<Appender>)
  {
    forall i, a :: 0 <= i < |ls| && ls[i].appenders.Some? && a in ls[i].appenders.value ==> a in s
  }

  /** A new logger holds no appenders of its own. */
  lemma AddChildKeepsAppendersIn(ls: seq<LoggerRec>, i: nat, key: string, s: set<Appender>)
    requires Tree(ls) && i < |ls| && AppendersIn(ls, s)
    ensures AppendersIn(AddChild(ls, i, key), s)
  {
    var r := AddChild(ls, i, key);
    forall j, a | 0 <= j < |r| && r[j].appenders.Some? && a in r[j].appenders.value
      ensures a in s
    {
      assert j < |ls| && r[j].appenders == ls[j].appenders;
    }
  }

  /** A walk creates loggers holding no appenders of their own. */
  lemma {:induction false} WalkKeepsAppendersIn(ls: seq<LoggerRec>, cur: nat, acc: string, segs: seq<string>, s: set<Appender>)
    requires Tree(ls) && cur < |ls| && ls[cur].loggerName == acc && AppendersIn(ls, s)
    ensures AppendersIn(Walk(ls, cur, acc, segs).loggers, s)
    decreases |segs|
  {
    if segs != [] {
      var name := Accumulate(acc, segs[0]);
      match FindChild(ls, cur, name)
      case Some(c) =>
        WalkKeepsAppendersIn(ls, c, name, segs[1..], s);
      case None =>
        AddChildKeepsAppendersIn(ls, cur, name, s);
        WalkKeepsAppendersIn(AddChild(ls, cur, name), |ls|, name, segs[1..], s);
    }
  }

  /** Whether an appender with options `c` stores the message at all (and so takes an entry number). */
  predicate Accepts(c: AppenderConfig, enabled: Option<bool>, clientIP: Option<string>, env: Env, level: int, message: string)
  {
    Passes(c, enabled, clientIP, env, message) && !Below(level, c.storeInBufferLevel)
  }

  /** The appenders among `0..i` that store the message. */
  function Accepting(cfgs: seq<AppenderConfig>, i: int, enabled: Option<bool>, clientIP: Option<string>, env: Env,
                     level: int, message: string): set<int>
    requires i < |cfgs|
  {
    set j | 0 <= j <= i && Accepts(cfgs[j], enabled, clientIP, env, level, message)
  }

  /** How many of the appenders `0..i` store the message. */
  function AcceptCount(cfgs: seq<AppenderConfig>, i: int, enabled: Option<bool>, clientIP: Option<string>, env: Env,
                       level: int, message: string): (n: nat)
    requires -1 <= i < |cfgs|
    ensures n <= i + 1
    decreases i + 1
  {
    if i < 0 then 0
    else (if Accepts(cfgs[i], enabled, clientIP, env, level, message) then 1 else 0)
         + AcceptCount(cfgs, i - 1, enabled, clientIP, env, level, message)
  }

  /** AcceptCount counts exactly the appenders that store the message. */
  lemma {:induction false} AcceptCountIsSize(cfgs: seq<AppenderConfig>, i: int, enabled: Option<bool>, clientIP: Option<string>,
                                             env: Env, level: int, message: string)
    requires -1 <= i < |cfgs|
    ensures AcceptCount(cfgs, i, enabled, clientIP, env, level, message)
         == |Accepting(cfgs, i, enabled, clientIP, env, level, message)|
    decreases i + 1
  {
    if i < 0 {
      assert Accepting(cfgs, i, enabled, clientIP, env, level, message) == {};
    } else {
      AcceptCountIsSize(cfgs, i - 1, enabled, clientIP, env, level, message);
      AcceptingStep(cfgs, i, enabled, clientIP, env, level, message);
    }
  }

  /** Appender `i` joins the appenders below it that store the message exactly when it stores the message too. */
  lemma AcceptingStep(cfgs: seq<AppenderConfig>, i: int, enabled: Option<bool>, clientIP: Option<string>,
                      env: Env, level: int, message: string)
    requires 0 <= i < |cfgs|
    ensures var below := Accepting(cfgs, i - 1, enabled, clientIP, env, level, message);
      && i !in below
      && Accepting(cfgs, i, enabled, clientIP, env, level, message)
         == below + (if Accepts(cfgs[i], enabled, clientIP, env, level, message) then {i} else {})
  {
  }

  datatype Fanned = Fanned(sinks: seq<Sink>, counters: Counters)

  /**
   * The fan-out of Logger.log over distinct appenders with options `cfgs`
   * and states `sinks`: appender `i` logs first, then `i - 1`, down to 0,
   * all drawing on the same quota and entry counter. (A sink outside its
   * invariant is passed over; on a valid registry that never happens.)
   */
  function FanLog(cfgs: seq<AppenderConfig>, sinks: seq<Sink>, k: Counters, enabled: Option<bool>, clientIP: Option<string>,
                  env: Env, level: int, message: string, loggerName: string, now: int, i: int): (r: Fanned)
    requires |cfgs| == |sinks| && -1 <= i < |sinks|
    ensures |r.sinks| == |sinks|
    decreases i + 1
  {
    if i < 0 then Fanned(sinks, k)
    else if !Inv(cfgs[i], sinks[i]) then FanLog(cfgs, sinks, k, enabled, clientIP, env, level, message, loggerName, now, i - 1)
    else
      var w := SinkSpec.Log(cfgs[i], World(sinks[i], k), enabled, clientIP, env, level, message, loggerName, now);
      FanLog(cfgs, sinks[i := w.sink], w.counters, enabled, clientIP, env, level, message, loggerName, now, i - 1)
  }

  /**
   * What the fan-out does to consistent appenders: each keeps its invariant,
   * the ones it has not reached yet and the ones that do not store the
   * message are left as they were, and each one that stores it takes one
   * entry number.
   */
  lemma {:induction false} FanLogEffects(cfgs: seq<AppenderConfig>, sinks: seq<Sink>, k: Counters, enabled: Option<bool>,
                                         clientIP: Option<string>, env: Env, level: int, message: string,
                                         loggerName: string, now: int, i: int)
    requires -1 <= i < |sinks| && AllHold(cfgs, sinks)
    ensures var r := FanLog(cfgs, sinks, k, enabled, clientIP, env, level, message, loggerName, now, i);
      && AllHold(cfgs, r.sinks)
      && (forall j :: i < j < |sinks| ==> r.sinks[j] == sinks[j])
      && (forall j :: 0 <= j <= i && !Accepts(cfgs[j], enabled, clientIP, env, level, message) ==> r.sinks[j] == sinks[j])
      && r.counters.entryId == k.entryId + AcceptCount(cfgs, i, enabled, clientIP, env, level, message)
    decreases i + 1
  {
    if i >= 0 {
      var w := SinkSpec.Log(cfgs[i], World(sinks[i], k), enabled, clientIP, env, level, message, loggerName, now);
      FanLogEffects(cfgs, sinks[i := w.sink], w.counters, enabled, clientIP, env, level, message, loggerName, now, i - 1);
    }
  }

  /**
   * The fan-out runs from the last appender to the first: with one message
   * left in the quota and two empty appenders that both queue the message,
   * the last appender takes it and the first one drops it.
   */
  lemma FanLogLastFirst(c: AppenderConfig, enabled: Option<bool>, clientIP: Option<string>, env: Env,
                        level: int, message: string, loggerName: string, now: int, id: int)
    requires Inv(c, EmptySink) && Accepts(c, enabled, clientIP, env, level, message) && !Below(level, c.level)
    requires !AtLeast(0, c.maxBatchSize)
    ensures var r := FanLog([c, c], [EmptySink, EmptySink], Counters(Some(1), id), enabled, clientIP, env,
                            level, message, loggerName, now, 1);
      && r.sinks[1].batchBuffer == [NewLogItem(Counters(Some(1), id), level, message, loggerName, now)]
      && r.sinks[0].batchBuffer == [] && r.sinks[0].skipped == 0
      && r.counters == Counters(Some(0), id + 2)
  {
    var k := Counters(Some(1), id);
    var item := NewLogItem(k, level, message, loggerName, now);
    var w1 := SinkSpec.Log(c, World(EmptySink, k), enabled, clientIP, env, level, message, loggerName, now);
    assert w1.sink.batchBuffer == [item] && w1.counters == Counters(Some(0), id + 1) by {
      var queued := AddLogItems(c, World(EmptySink, Counted(k)), [item]);
      assert queued.sink.batchBuffer == [item];
    }
    var w0 := SinkSpec.Log(c, World(EmptySink, w1.counters), enabled, clientIP, env, level, message, loggerName, now);
    assert w0.sink.batchBuffer == [] && w0.sink.skipped == 0 && w0.counters == Counters(Some(0), id + 2) by {
      var queued := AddLogItems(c, World(EmptySink, Counted(w1.counters)), [NewLogItem(w1.counters, level, message, loggerName, now)]);
      assert queued.sink == EmptySink;
    }
    var sinks1 := [EmptySink, EmptySink][1 := w1.sink];
    assert FanLog([c, c], sinks1, w1.counters, enabled, clientIP, env, level, message, loggerName, now, 0)
        == Fanned(sinks1[0 := w0.sink], w0.counters);
  }

  /** Every sink satisfies the invariant of its options. */
  predicate AllHold(cfgs: seq<AppenderConfig>, sinks: seq<Sink>)
  {
    |cfgs| == |sinks| && forall j :: 0 <= j < |sinks| ==> Inv(cfgs[j], sinks[j])
  }

  /** No appender is listed twice. */
  predicate Distinct(apps: seq<Appender>)
  {
    forall i, j :: 0 <= i < j < |apps| ==> apps[i] != apps[j]
  }

  function Configs(apps: seq<Appender>): (r: seq<AppenderConfig>)
    reads apps
    ensures |r| == |apps| && forall j :: 0 <= j < |apps| ==> r[j] == apps[j].cfg
  {
    seq(|apps|, j requires 0 <= j < |apps| reads apps => apps[j].cfg)
  }

  function Locals(apps: seq<Appender>): (r: seq<Sink>)
    reads apps
    ensures |r| == |apps| && forall j :: 0 <= j < |apps| ==> r[j] == apps[j].Local()
  {
    seq(|apps|, j requires 0 <= j < |apps| reads apps => apps[j].Local())
  }

  /** The appenders a logger inherits are among those some logger holds. */
  lemma {:induction false} AppendersKnown(ls: seq<LoggerRec>, i: nat, s: set<Appender>)
    requires Tree(ls) && i < |ls| && AppendersIn(ls, s)
    ensures Inherited(ls, i, AppendersOf).Some? ==> forall a :: a in Inherited(ls, i, AppendersOf).value ==> a in s
    decreases i
  {
    if ls[i].appenders.None? && ls[i].parent.Some? {
      AppendersKnown(ls, ls[i].parent.value, s);
    }
  }

  /** Replacing one logger by a record with the same name, parent, children and known appenders keeps the table well formed. */
  lemma Relinked(ls: seq<LoggerRec>, id: nat, x: LoggerRec, s: set<Appender>)
    requires Tree(ls) && ParentsPrefix(ls) && RootChildrenNameless(ls) && ls[0].loggerName == ""
    requires AppendersIn(ls, s) && id < |ls|
    requires x.loggerName == ls[id].loggerName && x.parent == ls[id].parent && x.children == ls[id].children
    requires x.appenders.Some? ==> forall a :: a in x.appenders.value ==> a in s
    ensures Tree(ls[id := x]) && ParentsPrefix(ls[id := x]) && ls[id := x][0].loggerName == ""
    ensures RootChildrenNameless(ls[id := x])
    ensures AppendersIn(ls[id := x], s)
  {
    RelinkedShape(ls, id, x);
    RelinkedRoot(ls, id, x);
    var ls' := ls[id := x];
    forall m, a | 0 <= m < |ls'| && ls'[m].appenders.Some? && a in ls'[m].appenders.value
      ensures a in s
    {
      if m != id {
        assert ls'[m] == ls[m];
      }
    }
  }

  /** The links and names are all the hierarchy's shape depends on. */
  lemma RelinkedShape(ls: seq<LoggerRec>, id: nat, x: LoggerRec)
    requires Tree(ls) && ParentsPrefix(ls) && id < |ls|
    requires x.loggerName == ls[id].loggerName && x.parent == ls[id].parent && x.children == ls[id].children
    ensures Tree(ls[id := x]) && ParentsPrefix(ls[id := x]) && ls[id := x][0].loggerName == ls[0].loggerName
  {
    RelinkedTree(ls, id, x);
    var ls' := ls[id := x];
    forall i | 0 < i < |ls'| && ls'[i].parent.Some? && ls'[i].parent.value < |ls'|
      ensures ls'[ls'[i].parent.value].loggerName == Prefix(ls'[i].loggerName)
    {
      var p := ls[i].parent.value;
      assert ls'[i] == ls[i] || (i == id && ls'[i].parent == ls[i].parent && ls'[i].loggerName == ls[i].loggerName);
      assert ls'[p].loggerName == ls[p].loggerName;
    }
  }

  /** Names and parents are all that decides which loggers hang under the root. */
  lemma RelinkedRoot(ls: seq<LoggerRec>, id: nat, x: LoggerRec)
    requires RootChildrenNameless(ls) && id < |ls|
    requires x.loggerName == ls[id].loggerName && x.parent == ls[id].parent
    ensures RootChildrenNameless(ls[id := x])
  {
    var ls' := ls[id := x];
    assert forall m :: 0 <= m < |ls| ==> ls'[m].parent == ls[m].parent && ls'[m].loggerName == ls[m].loggerName;
  }

  lemma RelinkedTree(ls: seq<LoggerRec>, id: nat, x: LoggerRec)
    requires Tree(ls) && id < |ls|
    requires x.loggerName == ls[id].loggerName && x.parent == ls[id].parent && x.children == ls[id].children
    ensures Tree(ls[id := x])
  {
    var ls' := ls[id := x];
    assert forall m :: 0 <= m < |ls| ==> ls'[m].parent == ls[m].parent && ls'[m].children == ls[m].children
                                         && ls'[m].loggerName == ls[m].loggerName;
  }

  /** Changing a logger's seen flags changes no logger's inherited appenders. */
  lemma {:induction false} SeenKeepsAppenders(ls: seq<LoggerRec>, id: nat, seen: set<int>, j: nat)
    requires Tree(ls) && id < |ls| && j < |ls|
    ensures Tree(ls[id := ls[id].(seenRegexes := seen)])
    ensures Inherited(ls[id := ls[id].(seenRegexes := seen)], j, AppendersOf) == Inherited(ls, j, AppendersOf)
    decreases j
  {
    var ls' := ls[id := ls[id].(seenRegexes := seen)];
    assert forall m :: 0 <= m < |ls| ==> ls'[m] == ls[m].(seenRegexes := ls'[m].seenRegexes);
    if ls[j].appenders.None? && ls[j].parent.Some? {
      SeenKeepsAppenders(ls, id, seen, ls[j].parent.value);
    }
  }

  class Registry {
    /** The loggers; index 0 is the root JL.__. */
    var loggers: seq<LoggerRec>
    /** The process-wide settings, shared with every appender. */
    const g: Globals
    /** Every appender ever given to a logger. */
    ghost var appenderSet: set<Appender>

    ghost predicate Valid()
      reads this, appenderSet
    {
      && Tree(loggers) && loggers[0].loggerName == "" && ParentsPrefix(loggers) && RootChildrenNameless(loggers)
      && AppendersIn(loggers, appenderSet)
      && (forall a :: a in appenderSet ==> a.g == g && a.Valid())
    }

    /** The root logger, at level DEBUG with one default appender named "". */
    constructor (g: Globals)
      ensures Valid() && this.g == g && |loggers| == 1
      ensures loggers[0].level == Some(DEBUG) && loggers[0].appenders.Some? && |loggers[0].appenders.value| == 1
      ensures fresh(loggers[0].appenders.value[0]) && loggers[0].appenders.value[0].cfg == DefaultConfig
      ensures loggers[0].onceOnly.None? && loggers[0].seenRegexes == {}
    {
      this.g := g;
      var a := new Appender("", g);
      loggers := [LoggerRec("", None, map[], Some(DEBUG), None, None, None, Some([a]), None, {})];
      appenderSet := {a};
    }

    /**
     * JL(name): the logger of that name, created with any missing ancestors
     * along the way; the root for the empty name.
     */
    method GetLogger(name: string) returns (id: nat)
      requires Valid()
      modifies this
      ensures Valid() && appenderSet == old(appenderSet)
      ensures Resolved(loggers, id) == Resolve(old(loggers), name)
      ensures name != "" && name[0] != '.' ==> loggers[id].loggerName == name
    {
      var r := Resolve(loggers, name);
      if name != "" {
        WalkKeepsParentsPrefix(loggers, 0, "", Split("." + name));
        ResolveKeepsRootChildrenNameless(loggers, name);
        WalkKeepsAppendersIn(loggers, 0, "", Split("." + name), appenderSet);
      }
      loggers, id := r.loggers, r.id;
    }

    /** Logger.setOptions on logger `id`; new appenders join the registry's set. */
    method SetLoggerOptions(id: nat, o: LoggerOptions)
      requires Valid() && id < |loggers|
      requires o.appenders.Value? ==> forall a :: a in o.appenders.v ==> a.g == g && a.Valid()
      modifies this
      ensures Valid()
      ensures loggers == old(loggers)[id := ApplyLoggerOptions(old(loggers)[id], o)]
      ensures appenderSet == old(appenderSet) + (if o.appenders.Value? then set a | a in o.appenders.v else {})
    {
      if o.appenders.Value? {
        appenderSet := appenderSet + set a | a in o.appenders.v;
      }
      Relinked(loggers, id, ApplyLoggerOptions(loggers[id], o), appenderSet);
      loggers := loggers[id := ApplyLoggerOptions(loggers[id], o)];
    }
    /** `seenRegexes[i] = true` on logger `id`. */
    method Mark(id: nat, i: int)
      requires id < |loggers|
      modifies this
      ensures appenderSet == old(appenderSet)
      ensures loggers == old(loggers)[id := old(loggers)[id].(seenRegexes := old(loggers)[id].seenRegexes + {i})]
    {
      loggers := loggers[id := loggers[id].(seenRegexes := loggers[id].seenRegexes + {i})];
    }

    /**
     * The onceOnly loop of Logger.log: the patterns from the last to the
     * first, each match marked on logger `id`, stopping at a match marked
     * before or at an expression that throws.
     */
    method ScanOnceOnly(id: nat, patterns: seq<string>, message: string, env: Env) returns (verdict: Scan)
      requires id < |loggers|
      modifies this
      ensures appenderSet == old(appenderSet)
      ensures verdict == ScanDown(patterns, old(loggers[id].seenRegexes), |patterns| - 1, message, env.test)
      ensures loggers == old(loggers)[id := old(loggers)[id].(seenRegexes := verdict.seen)]
    {
      ghost var ls0 := loggers;
      var seen := loggers[id].seenRegexes;
      ghost var target := ScanDown(patterns, seen, |patterns| - 1, message, env.test);
      var i := |patterns| - 1;
      while i >= 0
        invariant -1 <= i < |patterns|
        invariant appenderSet == old(appenderSet)
        invariant loggers == ls0[id := ls0[id].(seenRegexes := seen)]
        invariant ScanDown(patterns, seen, i, message, env.test) == target
        decreases i + 1
      {
        match env.test(patterns[i], message)
        case None =>
          return Threw(seen);
        case Some(matched) =>
          if matched {
            if i in seen {
              return Duplicate(seen);
            }
            Mark(id, i);
            seen := seen + {i};
          }
          i := i - 1;
      }
      return Pass(seen);
    }

    /**
     * Logger.log on logger `id`: the decision of `Decide`, taken on the
     * loggers' state, then the hand-over to the appenders it inherits.
     * The clock reading is `now`; the user agent, regex engine and
     * serializer come from `env`.
     */
    method Log(id: nat, level: int, logObject: Value, e: Value, env: Env, now: int) returns (outcome: Outcome)
      requires Valid() && id < |loggers|
      modifies this, g, set a | a in Targets(id)
      ensures Valid() && appenderSet == old(appenderSet) && |loggers| == old(|loggers|)
      ensures loggers == old(loggers)[id := old(loggers)[id].(seenRegexes := loggers[id].seenRegexes)]
      ensures Decision(outcome, loggers[id].seenRegexes) ==
              Decide(old(loggers), id, old(g.enabled), old(g.clientIP), env, level, logObject, e)
      ensures g.Settings() == old(g.Settings()).(maxMessages := g.maxMessages)
      ensures !outcome.Forwarded? ==> unchanged(g) && unchanged(appenderSet)
    {
      ghost var before := loggers;
      outcome := Screen(id, level, logObject, e, env);
      if outcome.Forwarded? {
        SeenKeepsAppenders(before, id, loggers[id].seenRegexes, id);
        Deliver(id, level, outcome.message, env, now);
      }
    }

    /** The hand-over of Logger.log on logger `id` to the appenders it inherits. */
    method Deliver(id: nat, level: int, message: string, env: Env, now: int)
      requires Valid() && id < |loggers|
      modifies g, set a | a in Targets(id)
      ensures Valid() && g.Settings() == old(g.Settings()).(maxMessages := g.maxMessages)
      ensures Distinct(Targets(id)) ==>
        Fanned(Locals(Targets(id)), Counters(g.maxMessages, g.entryId)) ==
        old(FanLog(Configs(Targets(id)), Locals(Targets(id)), Counters(g.maxMessages, g.entryId), g.enabled, g.clientIP,
                   env, level, message, loggers[id].loggerName, now, |Targets(id)| - 1))
    {
      AppendersKnown(loggers, id, appenderSet);
      FanOut(Targets(id), env, level, message, loggers[id].loggerName, now);
    }

    /** The appenders logger `id` hands its messages to (none when it inherits none). */
    function Targets(id: nat): (r: seq<Appender>)
      reads this
      requires Tree(loggers) && id < |loggers|
      ensures Inherited(loggers, id, AppendersOf).Some? ==> r == Inherited(loggers, id, AppendersOf).value
    {
      if Inherited(loggers, id, AppendersOf).Some? then Inherited(loggers, id, AppendersOf).value else []
    }

    /** Logger.log up to the hand-over: every check, and the onceOnly marks it leaves. */
    method Screen(id: nat, level: int, logObject: Value, e: Value, env: Env) returns (outcome: Outcome)
      requires Valid() && id < |loggers|
      modifies this
      ensures Valid() && appenderSet == old(appenderSet) && |loggers| == old(|loggers|)
      ensures loggers == old(loggers)[id := old(loggers)[id].(seenRegexes := loggers[id].seenRegexes)]
      ensures Decision(outcome, loggers[id].seenRegexes) == Decide(old(loggers), id, g.enabled, g.clientIP, env, level, logObject, e)
    {
      if Inherited(loggers, id, AppendersOf).None? {
        DecideNoAppenders(loggers, id, g.enabled, g.clientIP, env, level, logObject, e);
        return NoAppenders;
      }
      var filters := LoggerFilters(loggers, id);
      if !(AtLeast(level, Inherited(loggers, id, LevelOf)) && Allow(g.enabled, g.clientIP, env, filters)) {
        DecideGated(loggers, id, g.enabled, g.clientIP, env, level, logObject, e);
        return Gated;
      }
      var message := StringifyLogObject(Payload(logObject, e), env.serialize).finalString;
      if !AllowMessage(env, filters, message) {
        DecideDisallowed(loggers, id, g.enabled, g.clientIP, env, level, logObject, e, message);
        return Disallowed;
      }
      DecideReachesDuplicateCheck(loggers, id, g.enabled, g.clientIP, env, level, logObject, e, message);
      outcome := CheckDuplicate(id, message, env);
    }

    /** The onceOnly stage of Logger.log on logger `id`. */
    method CheckDuplicate(id: nat, message: string, env: Env) returns (outcome: Outcome)
      requires Valid() && id < |loggers|
      modifies this
      ensures Valid() && appenderSet == old(appenderSet) && |loggers| == old(|loggers|)
      ensures loggers == old(loggers)[id := old(loggers)[id].(seenRegexes := loggers[id].seenRegexes)]
      ensures Decision(outcome, loggers[id].seenRegexes) == DuplicateCheck(old(loggers), id, env, message)
    {
      var once := Inherited(loggers, id, OnceOnlyOf);
      if once.None? {
        return Forwarded(message);
      }
      var verdict := ScanOnceOnly(id, once.value, message, env);
      Relinked(old(loggers), id, loggers[id], appenderSet);
      match verdict
      case Pass(_) => outcome := Forwarded(message);
      case Duplicate(_) => outcome := DuplicateMessage;
      case Threw(_) => outcome := RegexThrew;
    }

    /** The hand-over of Logger.log: every appender logs the message, the last one first. */
    method FanOut(apps: seq<Appender>, env: Env, level: int, message: string, loggerName: string, now: int)
      requires Valid() && forall a :: a in apps ==> a in appenderSet
      modifies g, set a | a in apps
      ensures Valid() && g.Settings() == old(g.Settings()).(maxMessages := g.maxMessages)
      ensures Configs(apps) == old(Configs(apps))
      ensures Distinct(apps) ==>
        Fanned(Locals(apps), Counters(g.maxMessages, g.entryId)) ==
        old(FanLog(Configs(apps), Locals(apps), Counters(g.maxMessages, g.entryId), g.enabled, g.clientIP,
                   env, level, message, loggerName, now, |apps| - 1))
    {
      ghost var target := FanLog(Configs(apps), Locals(apps), Counters(g.maxMessages, g.entryId), g.enabled, g.clientIP,
                                 env, level, message, loggerName, now, |apps| - 1);
      ghost var cfgs, distinct := Configs(apps), Distinct(apps);
      var i := |apps| - 1;
      while i >= 0
        invariant -1 <= i < |apps|
        invariant forall a :: a in appenderSet ==> a.Valid()
        invariant g.Settings() == old(g.Settings()).(maxMessages := g.maxMessages)
        invariant Configs(apps) == cfgs
        invariant distinct ==>
          FanLog(cfgs, Locals(apps), Counters(g.maxMessages, g.entryId), g.enabled, g.clientIP,
                 env, level, message, loggerName, now, i) == target
      {
        ghost var sinks, k := Locals(apps), Counters(g.maxMessages, g.entryId);
        LogOne(apps, cfgs, i, env, level, message, loggerName, now);
        assert distinct ==>
          FanLog(cfgs, Locals(apps), Counters(g.maxMessages, g.entryId), g.enabled, g.clientIP,
                 env, level, message, loggerName, now, i - 1) ==
          FanLog(cfgs, sinks, k, g.enabled, g.clientIP, env, level, message, loggerName, now, i);
        i := i - 1;
      }
    }

    /** One step of the hand-over: appender `i` logs the message. */
    method LogOne(apps: seq<Appender>, ghost cfgs: seq<AppenderConfig>, i: nat, env: Env, level: int, message: string,
                  loggerName: string, now: int)
      requires i < |apps| && apps[i].g == g && apps[i].Valid() && Configs(apps) == cfgs
      modifies g, apps[i]
      ensures apps[i].Valid() && g.Settings() == old(g.Settings()).(maxMessages := g.maxMessages)
      ensures Configs(apps) == cfgs
      ensures Distinct(apps) ==>
        FanLog(cfgs, Locals(apps), Counters(g.maxMessages, g.entryId), g.enabled, g.clientIP,
               env, level, message, loggerName, now, i - 1) ==
        FanLog(cfgs, old(Locals(apps)), old(Counters(g.maxMessages, g.entryId)), g.enabled, g.clientIP,
               env, level, message, loggerName, now, i)
    {
      ghost var before := Locals(apps);
      apps[i].Log(env, level, message, loggerName, now);
      if Distinct(apps) {
        assert Locals(apps) == before[i := apps[i].Local()];
      }
    }
  }
}
