/**
 * Logger names: the split on '.' that JL(name) reduces over, the running
 * name it accumulates, and the name of a logger's parent.
 */
module Names {

  /** JavaScript `s.split('.')`: the pieces between dots, empty ones included. */
  function Split(s: string): (r: seq<string>)
    ensures |r| >= 1
    ensures forall k :: 0 <= k < |r| ==> '.' !in r[k]
    decreases |s|
  {
    if s == [] then [""]
    else if s[0] == '.' then [""] + Split(s[1..])
    else
      var t := Split(s[1..]);
      [[s[0]] + t[0]] + t[1..]
  }

  /** The pieces joined back with dots. */
  function Join(segs: seq<string>): string
    requires |segs| >= 1
    decreases |segs|
  {
    if |segs| == 1 then segs[0] else segs[0] + "." + Join(segs[1..])
  }

  /** Splitting and joining again gives back the name. */
  lemma {:induction false} JoinSplit(s: string)
    ensures Join(Split(s)) == s
    decreases |s|
  {
    if s == [] {
    } else if s[0] == '.' {
      JoinSplit(s[1..]);
      assert Split(s)[1..] == Split(s[1..]);
    } else {
      JoinSplit(s[1..]);
      var t := Split(s[1..]);
      if |t| == 1 {
        assert Join(Split(s)) == [s[0]] + t[0];
      } else {
        assert Split(s)[1..] == t[1..];
        assert Join(t) == t[0] + "." + Join(t[1..]);
      }
      assert [s[0]] + s[1..] == s;
    }
  }

  /** A name not starting with a dot has a non-empty first piece. */
  lemma FirstPieceNotEmpty(s: string)
    requires s != [] && s[0] != '.'
    ensures Split(s)[0] != ""
  {
  }

  /** The name of the next logger down: `acc.seg`, or `seg` while `acc` is empty. */
  function Accumulate(acc: string, seg: string): (r: string)
    ensures acc == "" ==> r == seg
    ensures acc != "" ==> r == acc + "." + seg
  {
    if acc != "" then acc + "." + seg else seg
  }

  /** The name reached after accumulating all of `segs`. */
  function FoldNames(acc: string, segs: seq<string>): string
    decreases |segs|
  {
    if segs == [] then acc else FoldNames(Accumulate(acc, segs[0]), segs[1..])
  }

  lemma {:induction false} FoldNamesFrom(acc: string, segs: seq<string>)
    requires acc != "" && |segs| >= 1
    ensures FoldNames(acc, segs) == acc + "." + Join(segs)
    decreases |segs|
  {
    var next := acc + "." + segs[0];
    if |segs| == 1 {
      assert FoldNames(next, segs[1..]) == next;
    } else {
      FoldNamesFrom(next, segs[1..]);
      assert next + "." + Join(segs[1..]) == acc + "." + (segs[0] + "." + Join(segs[1..]));
    }
  }

  /**
   * Accumulating the pieces of "." + name reaches the name itself when it
   * does not start with a dot.
   */
  lemma AccumulatedName(name: string)
    requires name != "" && name[0] != '.'
    ensures FoldNames("", Split("." + name)) == name
  {
    var segs := Split(name);
    assert ("." + name)[1..] == name;
    assert Split("." + name) == [""] + segs;
    assert FoldNames("", Split("." + name)) == FoldNames("", segs);
    FirstPieceNotEmpty(name);
    JoinSplit(name);
    if |segs| == 1 {
      assert FoldNames("", segs) == FoldNames(segs[0], []);
    } else {
      FoldNamesFrom(segs[0], segs[1..]);
    }
  }

  /** The part of a name before its last dot ("" when it has none). */
  function Prefix(s: string): (r: string)
    ensures |r| <= |s|
    decreases |s|
  {
    if s == [] then ""
    else if s[|s| - 1] == '.' then s[..|s| - 1]
    else Prefix(s[..|s| - 1])
  }

  /** The prefix of a freshly accumulated name is the name it was accumulated from. */
  lemma {:induction false} PrefixAccumulate(acc: string, seg: string)
    requires '.' !in seg
    ensures Prefix(Accumulate(acc, seg)) == acc
    decreases |seg|
  {
    if seg == [] {
      if acc != "" {
        assert Accumulate(acc, seg)[..|Accumulate(acc, seg)| - 1] == acc;
      }
    } else {
      var shorter := seg[..|seg| - 1];
      PrefixAccumulate(acc, shorter);
      assert Accumulate(acc, seg)[..|Accumulate(acc, seg)| - 1] == Accumulate(acc, shorter);
      assert seg[|seg| - 1] in seg;
    }
  }
}
