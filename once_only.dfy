/**
 * The `onceOnly` duplicate check of Logger.log: the patterns are tried from
 * the last to the first; a match marks its pattern as seen, and a match of a
 * pattern already seen ends the scan (the message is a duplicate). A
 * pattern whose expression throws ends the scan with the exception, keeping
 * the marks made so far.
 */
module OnceOnly {
  import opened Base

  datatype Scan =
    | Pass(seen: set<int>)        // no duplicate: forward the message
    | Duplicate(seen: set<int>)   // an already-seen pattern matched
    | Threw(seen: set<int>)       // building or running an expression threw

  /** Indices in `lo+1..i` whose pattern matches the message. */
  function Matching(patterns: seq<string>, lo: int, i: int, message: string, test: (string, string) -> Option<bool>): (r: set<int>)
    requires i < |patterns|
    ensures forall j :: j in r <==> lo < j <= i && 0 <= j && test(patterns[j], message) == Some(true)
  {
    set j | lo < j <= i && 0 <= j && test(patterns[j], message) == Some(true)
  }

  /** Pattern `j` ends a scan: its expression throws, or it matches and was already seen. */
  predicate Stops(patterns: seq<string>, seen: set<int>, j: int, message: string, test: (string, string) -> Option<bool>)
    requires 0 <= j < |patterns|
  {
    test(patterns[j], message).None? || (test(patterns[j], message) == Some(true) && j in seen)
  }

  /** The highest index `<= i` whose pattern ends a scan over the flags `seen`, or -1 when there is none. */
  function StopAt(patterns: seq<string>, seen: set<int>, i: int, message: string,
                  test: (string, string) -> Option<bool>): (k: int)
    requires -1 <= i < |patterns|
    ensures -1 <= k <= i
    ensures k >= 0 ==> Stops(patterns, seen, k, message, test)
    ensures forall j :: k < j <= i ==> !Stops(patterns, seen, j, message, test)
    decreases i + 1
  {
    if i < 0 then -1
    else if Stops(patterns, seen, i, message, test) then i
    else StopAt(patterns, seen, i - 1, message, test)
  }

  /** Flags above `i` do not change where a scan from `i` stops. */
  lemma {:induction false} StopAtIgnoresAbove(patterns: seq<string>, seen: set<int>, extra: int, i: int, message: string,
                                              test: (string, string) -> Option<bool>)
    requires -1 <= i < |patterns| && i < extra
    ensures StopAt(patterns, seen + {extra}, i, message, test) == StopAt(patterns, seen, i, message, test)
    decreases i + 1
  {
    if i >= 0 {
      StopAtIgnoresAbove(patterns, seen, extra, i - 1, message, test);
    }
  }

  /** The scan from index `i` down to 0, starting from the flags in `seen`. */
  function ScanDown(patterns: seq<string>, seen: set<int>, i: int, message: string,
                    test: (string, string) -> Option<bool>): (r: Scan)
    requires -1 <= i < |patterns|
    ensures seen <= r.seen && r.seen <= seen + Matching(patterns, -1, i, message, test)
    ensures r.Pass? <==>
      (forall j :: 0 <= j <= i ==> test(patterns[j], message).Some?)
      && (forall j :: 0 <= j <= i && test(patterns[j], message) == Some(true) ==> j !in seen)
    ensures r.Pass? ==> r.seen == seen + Matching(patterns, -1, i, message, test)
    ensures r.Duplicate? ==> exists j :: 0 <= j <= i && j in seen && test(patterns[j], message) == Some(true)
    decreases i + 1
  {
    if i < 0 then Pass(seen)
    else
      match test(patterns[i], message)
      case None => Threw(seen)
      case Some(true) =>
        if i in seen then Duplicate(seen)
        else ScanDown(patterns, seen + {i}, i - 1, message, test)
      case Some(false) => ScanDown(patterns, seen, i - 1, message, test)
  }

  /**
   * How a scan from `i` ends when pattern `k` is the first to stop it (-1:
   * none does): it passes, or ends with the exception when pattern `k`
   * throws and as a duplicate otherwise, having marked exactly the matching
   * patterns above `k`.
   */
  function ScanEnd(patterns: seq<string>, seen: set<int>, k: int, i: int, message: string,
                   test: (string, string) -> Option<bool>): Scan
    requires -1 <= k <= i < |patterns|
  {
    var marked := seen + Matching(patterns, k, i, message, test);
    if k < 0 then Pass(marked)
    else if test(patterns[k], message).None? then Threw(marked)
    else Duplicate(marked)
  }

  /** A scan ends at the highest pattern that stops it, as ScanEnd describes. */
  lemma {:induction false} ScanDownStopsAt(patterns: seq<string>, seen: set<int>, i: int, message: string,
                                           test: (string, string) -> Option<bool>)
    requires -1 <= i < |patterns|
    ensures ScanDown(patterns, seen, i, message, test)
         == ScanEnd(patterns, seen, StopAt(patterns, seen, i, message, test), i, message, test)
    decreases i + 1, 1
  {
    if i < 0 {
      assert Matching(patterns, -1, i, message, test) == {};
    } else if Stops(patterns, seen, i, message, test) {
      assert Matching(patterns, i, i, message, test) == {};
    } else {
      ScanDownPassesOver(patterns, seen, i, message, test);
    }
  }

  /** A pattern that does not stop the scan is marked when it matches, and the scan goes on below it. */
  lemma {:induction false} ScanDownPassesOver(patterns: seq<string>, seen: set<int>, i: int, message: string,
                                              test: (string, string) -> Option<bool>)
    requires 0 <= i < |patterns| && !Stops(patterns, seen, i, message, test)
    ensures ScanDown(patterns, seen, i, message, test)
         == ScanEnd(patterns, seen, StopAt(patterns, seen, i, message, test), i, message, test)
    decreases i + 1, 0
  {
    var next := if test(patterns[i], message) == Some(true) then seen + {i} else seen;
    assert ScanDown(patterns, seen, i, message, test) == ScanDown(patterns, next, i - 1, message, test);
    var k := StopAt(patterns, seen, i - 1, message, test);
    assert StopAt(patterns, seen, i, message, test) == k;
    StopAtIgnoresAbove(patterns, seen, i, i - 1, message, test);
    assert StopAt(patterns, next, i - 1, message, test) == k;
    ScanDownStopsAt(patterns, next, i - 1, message, test);
    MatchingStep(patterns, k, i, message, test);
    assert seen + Matching(patterns, k, i, message, test) == next + Matching(patterns, k, i - 1, message, test);
  }

  /** Stepping a range of indices down by one drops index `i` from the matches. */
  lemma MatchingStep(patterns: seq<string>, lo: int, i: int, message: string, test: (string, string) -> Option<bool>)
    requires lo < i < |patterns| && 0 <= i
    ensures Matching(patterns, lo, i, message, test)
         == Matching(patterns, lo, i - 1, message, test)
            + (if test(patterns[i], message) == Some(true) then {i} else {})
  {
  }

  /**
   * Once a message has passed, a second scan with the flags it left behind
   * rejects every message matching any of the patterns the first one matched:
   * such a message is forwarded at most once until the flags are reset.
   */
  lemma {:induction false} PassedThenDuplicate(patterns: seq<string>, seen: set<int>, message: string,
                                               other: string, test: (string, string) -> Option<bool>)
    requires ScanDown(patterns, seen, |patterns| - 1, message, test).Pass?
    requires exists j :: 0 <= j < |patterns| && test(patterns[j], message) == Some(true)
                         && test(patterns[j], other) == Some(true)
    ensures !ScanDown(patterns, ScanDown(patterns, seen, |patterns| - 1, message, test).seen,
                      |patterns| - 1, other, test).Pass?
  {
    var j :| 0 <= j < |patterns| && test(patterns[j], message) == Some(true) && test(patterns[j], other) == Some(true);
    var after := ScanDown(patterns, seen, |patterns| - 1, message, test).seen;
    assert j in Matching(patterns, -1, |patterns| - 1, message, test);
    assert j in after;
  }

  /** A scan in which no pattern matches passes and marks nothing. */
  lemma NoMatchNoMark(patterns: seq<string>, seen: set<int>, message: string, test: (string, string) -> Option<bool>)
    requires forall j :: 0 <= j < |patterns| ==> test(patterns[j], message) == Some(false)
    ensures ScanDown(patterns, seen, |patterns| - 1, message, test) == Pass(seen)
  {
    assert Matching(patterns, -1, |patterns| - 1, message, test) == {};
  }
}
