/**
 * Severity levels: the fixed integer constants returned by the level getters
 * and the level-to-name mapping handed to appenders alongside each message.
 */
module Levels {

  const ALL: int := -2147483648
  const TRACE: int := 1000
  const DEBUG: int := 2000
  const INFO: int := 3000
  const WARN: int := 4000
  const ERROR: int := 5000
  const FATAL: int := 6000
  const OFF: int := 2147483647

  /** Position of a level name in the order trace < debug < ... < fatal. */
  function NameRank(name: string): int
  {
    if name == "trace" then 0
    else if name == "debug" then 1
    else if name == "info" then 2
    else if name == "warn" then 3
    else if name == "error" then 4
    else if name == "fatal" then 5
    else -1
  }

  /**
   * The name of the band a numeric level falls into: every level up to and
   * including a named constant takes that constant's name, anything above
   * ERROR is "fatal".
   */
  function LevelToString(level: int): (r: string)
    ensures 0 <= NameRank(r) <= 5
    ensures level == TRACE ==> r == "trace"
    ensures level == DEBUG ==> r == "debug"
    ensures level == INFO ==> r == "info"
    ensures level == WARN ==> r == "warn"
    ensures level == ERROR ==> r == "error"
    ensures level == FATAL ==> r == "fatal"
    ensures r == "trace" <==> level <= TRACE
    ensures r == "fatal" <==> level > ERROR
  {
    if level <= 1000 then "trace"
    else if level <= 2000 then "debug"
    else if level <= 3000 then "info"
    else if level <= 4000 then "warn"
    else if level <= 5000 then "error"
    else "fatal"
  }

  /** A higher level never maps to a lower-ranked name. */
  lemma LevelToStringMonotone(a: int, b: int)
    requires a <= b
    ensures NameRank(LevelToString(a)) <= NameRank(LevelToString(b))
  {
  }
}
