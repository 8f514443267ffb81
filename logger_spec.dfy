/**
 * What a logger does with a call, as functions over the hierarchy:
 * inherited options, Logger.setOptions and the decision Logger.log takes
 * before it hands the message to its appenders.
 */
module LoggerSpec {
  import opened Base
  import opened Options
  import opened Values
  import opened Filters
  import opened OnceOnly
  import opened Hierarchy
  import opened Appenders

  /** The value of a property of logger `i`: its own, or else the nearest ancestor's. */
  function Inherited<T>(ls: seq<LoggerRec>, i: nat, get: LoggerRec -> Option<T>): (r: Option<T>)
    requires Tree(ls) && i < |ls|
    ensures get(ls[i]).Some? ==> r == get(ls[i])
    ensures r.Some? ==> get(ls[i]).Some? || (i > 0 && r == Inherited(ls, ParentOf(ls, i), get))
    ensures get(ls[i]).None? && i > 0 ==> r == Inherited(ls, ParentOf(ls, i), get)
    ensures get(ls[i]).None? && i == 0 ==> r.None?
    decreases i
  {
    if get(ls[i]).Some? then get(ls[i])
    else if ls[i].parent.None? then None
    else Inherited(ls, ls[i].parent.value, get)
  }

  /** A property the root holds is found from every logger. */
  lemma {:induction false} RootHeldIsFound<T>(ls: seq<LoggerRec>, i: nat, get: LoggerRec -> Option<T>)
    requires Tree(ls) && i < |ls| && get(ls[0]).Some?
    ensures Inherited(ls, i, get).Some?
    decreases i
  {
    if get(ls[i]).None? && i > 0 {
      RootHeldIsFound(ls, ls[i].parent.value, get);
    }
  }

  function LevelOf(l: LoggerRec): Option<int> { l.level }
  function UserAgentRegexOf(l: LoggerRec): Option<string> { l.userAgentRegex }
  function IpRegexOf(l: LoggerRec): Option<string> { l.ipRegex }
  function DisallowOf(l: LoggerRec): Option<string> { l.disallow }
  function AppendersOf(l: LoggerRec): Option<seq<Appender>> { l.appenders }
  function OnceOnlyOf(l: LoggerRec): Option<seq<string>> { l.onceOnly }

  /** The filter options logger `i` sees, each inherited separately. */
  function LoggerFilters(ls: seq<LoggerRec>, i: nat): FilterOptions
    requires Tree(ls) && i < |ls|
  {
    FilterOptions(Inherited(ls, i, UserAgentRegexOf), Inherited(ls, i, IpRegexOf), Inherited(ls, i, DisallowOf))
  }

  datatype LoggerOptions = LoggerOptions(
    level: Patch<int>,
    userAgentRegex: Patch<string>,
    disallow: Patch<string>,
    ipRegex: Patch<string>,
    appenders: Patch<seq<Appender>>,
    onceOnly: Patch<seq<string>>)

  const NoLoggerOptions := LoggerOptions(Absent, Absent, Absent, Absent, Absent, Absent)

  /**
   * Logger.setOptions: the six options are patched and the seen flags are
   * always reset, whether or not `onceOnly` was mentioned.
   */
  function ApplyLoggerOptions(l: LoggerRec, o: LoggerOptions): (r: LoggerRec)
    ensures r.loggerName == l.loggerName && r.parent == l.parent && r.children == l.children
    ensures r.seenRegexes == {}
    ensures o.level.Null? ==> r.level.None?
    ensures o.appenders.Value? ==> r.appenders == Some(o.appenders.v)
    ensures o == NoLoggerOptions ==> r == l.(seenRegexes := {})
    ensures Patched(o.level, l.level, r.level) && Patched(o.appenders, l.appenders, r.appenders)
    ensures Patched(o.userAgentRegex, l.userAgentRegex, r.userAgentRegex) && Patched(o.ipRegex, l.ipRegex, r.ipRegex)
    ensures Patched(o.disallow, l.disallow, r.disallow) && Patched(o.onceOnly, l.onceOnly, r.onceOnly)
  {
    l.(level := CopyProperty(o.level, l.level),
       userAgentRegex := CopyProperty(o.userAgentRegex, l.userAgentRegex),
       disallow := CopyProperty(o.disallow, l.disallow),
       ipRegex := CopyProperty(o.ipRegex, l.ipRegex),
       appenders := CopyProperty(o.appenders, l.appenders),
       onceOnly := CopyProperty(o.onceOnly, l.onceOnly),
       seenRegexes := {})
  }

  /** Changing logger `i` without touching its links leaves every lookup from an earlier logger as it was. */
  lemma {:induction false} InheritedBefore<T>(ls: seq<LoggerRec>, i: nat, x: LoggerRec, j: nat, get: LoggerRec -> Option<T>)
    requires Tree(ls) && i < |ls| && j < i
    requires x.loggerName == ls[i].loggerName && x.parent == ls[i].parent && x.children == ls[i].children
    ensures Tree(ls[i := x]) && Inherited(ls[i := x], j, get) == Inherited(ls, j, get)
    decreases j
  {
    var ls' := ls[i := x];
    assert forall m :: 0 <= m < |ls| ==> ls'[m].parent == ls[m].parent && ls'[m].children == ls[m].children
                                         && ls'[m].loggerName == ls[m].loggerName;
    assert Tree(ls');
    if get(ls[j]).None? && ls[j].parent.Some? {
      InheritedBefore(ls, i, x, ls[j].parent.value, get);
    }
  }

  /**
   * setOptions({level: null}) on a logger other than the root: its level is
   * the one inherited from its parent, as if it had never been set.
   */
  lemma NullLevelInherits(ls: seq<LoggerRec>, i: nat, o: LoggerOptions)
    requires Tree(ls) && 0 < i < |ls| && o.level.Null?
    ensures Tree(ls[i := ApplyLoggerOptions(ls[i], o)])
    ensures Inherited(ls[i := ApplyLoggerOptions(ls[i], o)], i, LevelOf) == Inherited(ls, ParentOf(ls, i), LevelOf)
    ensures Inherited(ls[i := ApplyLoggerOptions(ls[i], o)], i, LevelOf) ==
            Inherited(ls[i := ls[i].(level := None)], i, LevelOf)
  {
    var p := ParentOf(ls, i);
    InheritedBefore(ls, i, ApplyLoggerOptions(ls[i], o), p, LevelOf);
    InheritedBefore(ls, i, ls[i].(level := None), p, LevelOf);
  }

  /** setOptions({}) changes no option of any logger, only its seen flags. */
  lemma NoOptionsKeepLookups<T>(ls: seq<LoggerRec>, i: nat, j: nat, get: LoggerRec -> Option<T>)
    requires Tree(ls) && i < |ls| && j < |ls|
    requires forall l: LoggerRec :: get(l.(seenRegexes := {})) == get(l)
    ensures Tree(ls[i := ApplyLoggerOptions(ls[i], NoLoggerOptions)])
    ensures Inherited(ls[i := ApplyLoggerOptions(ls[i], NoLoggerOptions)], j, get) == Inherited(ls, j, get)
    decreases j
  {
    var ls' := ls[i := ApplyLoggerOptions(ls[i], NoLoggerOptions)];
    assert forall m :: 0 <= m < |ls| ==> ls'[m].parent == ls[m].parent && ls'[m].children == ls[m].children
                                         && ls'[m].loggerName == ls[m].loggerName;
    assert Tree(ls');
    assert get(ls'[j]) == get(ls[j]);
    if get(ls[j]).None? && ls[j].parent.Some? {
      NoOptionsKeepLookups(ls, i, ls[j].parent.value, get);
    }
  }

  /**
   * The value Logger.log turns into a message: with a truthy exception, an
   * object built from it that carries the log object (after calling it when
   * it is a function) under `logData`; otherwise the log object itself.
   */
  function Payload(logObject: Value, e: Value): (r: Value)
    ensures Truthy(e) ==> r.Obj? && Get(r, "logData") == Realize(logObject)
    ensures Truthy(e) ==> InnerDepth(BuildExceptionObject(e)) == InnerDepth(e)
    ensures !Truthy(e) ==> r == logObject
  {
    if Truthy(e) then WithLogData(BuildExceptionObject(e), Realize(logObject)) else logObject
  }

  datatype Outcome =
    | NoAppenders          // no appenders set on the logger or any ancestor
    | Gated                // below the logger's level, or rejected by `allow`
    | Disallowed           // rejected by `disallow`
    | DuplicateMessage     // matched a onceOnly pattern matched before
    | RegexThrew           // a onceOnly expression threw; the exception reaches the caller
    | Forwarded(message: string)

  datatype Decision = Decision(outcome: Outcome, seen: set<int>)

  /**
   * Logger.log up to the hand-over to the appenders: the outcome, and the
   * seen flags of the logger afterwards.
   */
  function Decide(ls: seq<LoggerRec>, id: nat, enabled: Option<bool>, clientIP: Option<string>, env: Env,
                  level: int, logObject: Value, e: Value): (r: Decision)
    requires Tree(ls) && id < |ls|
    ensures r.outcome == NoAppenders <==> Inherited(ls, id, AppendersOf).None?
    ensures r.outcome == Gated <==>
      Inherited(ls, id, AppendersOf).Some?
      && !(AtLeast(level, Inherited(ls, id, LevelOf)) && Allow(enabled, clientIP, env, LoggerFilters(ls, id)))
    ensures r.outcome.Forwarded? ==>
      && Inherited(ls, id, AppendersOf).Some?
      && AtLeast(level, Inherited(ls, id, LevelOf)) && Allow(enabled, clientIP, env, LoggerFilters(ls, id))
      && r.outcome.message == StringifyLogObject(Payload(logObject, e), env.serialize).finalString
      && AllowMessage(env, LoggerFilters(ls, id), r.outcome.message)
    ensures r.outcome.Forwarded? && Inherited(ls, id, OnceOnlyOf).Some? ==>
      var patterns := Inherited(ls, id, OnceOnlyOf).value;
      forall j :: 0 <= j < |patterns| && env.test(patterns[j], r.outcome.message) == Some(true) ==>
        j !in ls[id].seenRegexes && j in r.seen
    ensures ls[id].seenRegexes <= r.seen
    ensures Inherited(ls, id, OnceOnlyOf).None? || r.outcome in {NoAppenders, Gated, Disallowed} ==>
      r.seen == ls[id].seenRegexes
  {
    var seen := ls[id].seenRegexes;
    if Inherited(ls, id, AppendersOf).None? then Decision(NoAppenders, seen)
    else if !(AtLeast(level, Inherited(ls, id, LevelOf)) && Allow(enabled, clientIP, env, LoggerFilters(ls, id))) then
      Decision(Gated, seen)
    else
      var message := StringifyLogObject(Payload(logObject, e), env.serialize).finalString;
      if !AllowMessage(env, LoggerFilters(ls, id), message) then Decision(Disallowed, seen)
      else DuplicateCheck(ls, id, env, message)
  }

  /** The onceOnly stage of Logger.log, for a message that passed every filter. */
  function DuplicateCheck(ls: seq<LoggerRec>, id: nat, env: Env, message: string): (r: Decision)
    requires Tree(ls) && id < |ls|
    ensures r.outcome.Forwarded? || r.outcome.DuplicateMessage? || r.outcome.RegexThrew?
    ensures r.outcome.Forwarded? ==> r.outcome.message == message
    ensures Inherited(ls, id, OnceOnlyOf).Some? ==>
      var patterns := Inherited(ls, id, OnceOnlyOf).value;
      && (r.outcome.Forwarded? ==>
            forall j :: 0 <= j < |patterns| && env.test(patterns[j], message) == Some(true) ==>
              j !in ls[id].seenRegexes && j in r.seen)
      && (r.outcome.DuplicateMessage? ==>
            exists j :: 0 <= j < |patterns| && j in ls[id].seenRegexes && env.test(patterns[j], message) == Some(true))
    ensures ls[id].seenRegexes <= r.seen
    ensures Inherited(ls, id, OnceOnlyOf).None? ==> r == Decision(Forwarded(message), ls[id].seenRegexes)
  {
    var seen := ls[id].seenRegexes;
    if Inherited(ls, id, OnceOnlyOf).None? then Decision(Forwarded(message), seen)
    else
      var patterns := Inherited(ls, id, OnceOnlyOf).value;
      match ScanDown(patterns, seen, |patterns| - 1, message, env.test)
      case Pass(s) => Decision(Forwarded(message), s)
      case Duplicate(s) => Decision(DuplicateMessage, s)
      case Threw(s) => Decision(RegexThrew, s)
  }

  /**
   * The onceOnly stage in full: with k the highest pattern that throws or
   * matches an already-seen flag, the message is forwarded exactly when
   * there is none, the exception is reported when pattern k throws, and the
   * message is a duplicate when pattern k matches; either way exactly the
   * matching patterns above k are marked.
   */
  lemma DuplicateCheckEnds(ls: seq<LoggerRec>, id: nat, env: Env, message: string)
    requires Tree(ls) && id < |ls| && Inherited(ls, id, OnceOnlyOf).Some?
    ensures var patterns := Inherited(ls, id, OnceOnlyOf).value;
      var seen := ls[id].seenRegexes;
      var k := StopAt(patterns, seen, |patterns| - 1, message, env.test);
      var r := DuplicateCheck(ls, id, env, message);
      && (r.outcome.Forwarded? <==> k == -1)
      && (r.outcome.RegexThrew? <==> k >= 0 && env.test(patterns[k], message).None?)
      && (r.outcome.DuplicateMessage? <==> k >= 0 && env.test(patterns[k], message) == Some(true) && k in seen)
      && r.seen == seen + Matching(patterns, k, |patterns| - 1, message, env.test)
  {
    var patterns := Inherited(ls, id, OnceOnlyOf).value;
    ScanDownStopsAt(patterns, ls[id].seenRegexes, |patterns| - 1, message, env.test);
  }

  /** Without appenders anywhere up the chain, Logger.log stops at once. */
  lemma DecideNoAppenders(ls: seq<LoggerRec>, id: nat, enabled: Option<bool>, clientIP: Option<string>, env: Env,
                          level: int, logObject: Value, e: Value)
    requires Tree(ls) && id < |ls| && Inherited(ls, id, AppendersOf).None?
    ensures Decide(ls, id, enabled, clientIP, env, level, logObject, e) == Decision(NoAppenders, ls[id].seenRegexes)
  {
  }

  /** Below the logger's level or rejected by `allow`: Logger.log stops without marking anything. */
  lemma DecideGated(ls: seq<LoggerRec>, id: nat, enabled: Option<bool>, clientIP: Option<string>, env: Env,
                    level: int, logObject: Value, e: Value)
    requires Tree(ls) && id < |ls| && Inherited(ls, id, AppendersOf).Some?
    requires !(AtLeast(level, Inherited(ls, id, LevelOf)) && Allow(enabled, clientIP, env, LoggerFilters(ls, id)))
    ensures Decide(ls, id, enabled, clientIP, env, level, logObject, e) == Decision(Gated, ls[id].seenRegexes)
  {
  }

  /** A message rejected by `disallow`: Logger.log stops without marking anything. */
  lemma DecideDisallowed(ls: seq<LoggerRec>, id: nat, enabled: Option<bool>, clientIP: Option<string>, env: Env,
                         level: int, logObject: Value, e: Value, message: string)
    requires Tree(ls) && id < |ls| && Inherited(ls, id, AppendersOf).Some?
    requires AtLeast(level, Inherited(ls, id, LevelOf)) && Allow(enabled, clientIP, env, LoggerFilters(ls, id))
    requires message == StringifyLogObject(Payload(logObject, e), env.serialize).finalString
    requires !AllowMessage(env, LoggerFilters(ls, id), message)
    ensures Decide(ls, id, enabled, clientIP, env, level, logObject, e) == Decision(Disallowed, ls[id].seenRegexes)
  {
  }

  /** A message that passed the level and both filters: the onceOnly stage decides. */
  lemma DecideReachesDuplicateCheck(ls: seq<LoggerRec>, id: nat, enabled: Option<bool>, clientIP: Option<string>, env: Env,
                                    level: int, logObject: Value, e: Value, message: string)
    requires Tree(ls) && id < |ls| && Inherited(ls, id, AppendersOf).Some?
    requires AtLeast(level, Inherited(ls, id, LevelOf)) && Allow(enabled, clientIP, env, LoggerFilters(ls, id))
    requires message == StringifyLogObject(Payload(logObject, e), env.serialize).finalString
    requires AllowMessage(env, LoggerFilters(ls, id), message)
    ensures Decide(ls, id, enabled, clientIP, env, level, logObject, e) == DuplicateCheck(ls, id, env, message)
  {
  }
}
