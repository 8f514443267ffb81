/**
 * The logger hierarchy. Every logger is a record in a sequence indexed by
 * number; a logger's prototype is its `parent`, and the loggers created
 * under it are its own `children`, keyed by their full names. A property
 * a logger does not hold itself is looked up along the parent chain, as
 * the prototype chain does.
 */
module Hierarchy {
  import opened Base
  import opened Levels
  import opened Options
  import opened Names
  import opened Appenders

  datatype LoggerRec = LoggerRec(
    loggerName: string,
    parent: Option<nat>,
    children: map<string, nat>,
    level: Option<int>,
    userAgentRegex: Option<string>,
    ipRegex: Option<string>,
    disallow: Option<string>,
    appenders: Option<seq<Appender>>,
    onceOnly: Option<seq<string>>,
    seenRegexes: set<int>)

  /** A logger just created: it holds nothing of its own but its name and an empty set of flags. */
  function NewLogger(name: string, parent: nat): (r: LoggerRec)
    ensures r.loggerName == name && r.parent == Some(parent) && r.children == map[]
  {
    LoggerRec(name, Some(parent), map[], None, None, None, None, None, None, {})
  }

  /**
   * The shape of the hierarchy: logger 0 is the root and has no parent,
   * every other logger's parent comes before it, and a child stored under
   * a key has that key as its name and the holder as its parent.
   */
  ghost predicate Tree(ls: seq<LoggerRec>)
  {
    && |ls| > 0
    && ls[0].parent.None?
    && (forall i :: 0 < i < |ls| ==> ls[i].parent.Some? && ls[i].parent.value < i)
    && (forall i, k :: 0 <= i < |ls| && k in ls[i].children ==>
          && ls[i].children[k] < |ls|
          && ls[ls[i].children[k]].parent == Some(i)
          && ls[ls[i].children[k]].loggerName == k)
  }

  /** The property `'__' + key` of logger `i`: its own child, or else one inherited from its parent. */
  function FindChild(ls: seq<LoggerRec>, i: nat, key: string): (r: Option<nat>)
    requires Tree(ls) && i < |ls|
    ensures r.Some? ==> 0 < r.value < |ls| && ls[r.value].loggerName == key
    ensures key in ls[i].children ==> r == Some(ls[i].children[key])
    decreases i
  {
    if key in ls[i].children then Some(ls[i].children[key])
    else if ls[i].parent.None? then None
    else FindChild(ls, ls[i].parent.value, key)
  }

  /** A new logger named `key` created under logger `i` and stored as its property. */
  function AddChild(ls: seq<LoggerRec>, i: nat, key: string): (r: seq<LoggerRec>)
    requires Tree(ls) && i < |ls|
    ensures Tree(r) && |r| == |ls| + 1
    ensures r[|ls|] == NewLogger(key, i) && r[i].children == ls[i].children[key := |ls|]
    ensures forall j :: 0 <= j < |ls| ==> r[j] == ls[j].(children := r[j].children)
    ensures forall j :: 0 <= j < |ls| && j != i ==> r[j] == ls[j]
  {
    AddedTree(ls, i, key);
    ls[i := ls[i].(children := ls[i].children[key := |ls|])] + [NewLogger(key, i)]
  }

  /** The table with a new child of logger `i` is still a tree. */
  lemma AddedTree(ls: seq<LoggerRec>, i: nat, key: string)
    requires Tree(ls) && i < |ls|
    ensures Tree(ls[i := ls[i].(children := ls[i].children[key := |ls|])] + [NewLogger(key, i)])
  {
    var r := ls[i := ls[i].(children := ls[i].children[key := |ls|])] + [NewLogger(key, i)];
    assert forall j :: 0 <= j < |ls| ==> r[j].parent == ls[j].parent && r[j].loggerName == ls[j].loggerName;
    forall j, k | 0 <= j < |r| && k in r[j].children
      ensures r[j].children[k] < |r| && r[r[j].children[k]].parent == Some(j) && r[r[j].children[k]].loggerName == k
    {
      if j == i && k == key {
        assert r[j].children[k] == |ls|;
      } else {
        assert j < |ls| && k in ls[j].children && r[j].children[k] == ls[j].children[k];
      }
    }
  }

  /** Adding a child where no logger of that name was visible keeps every lookup that succeeded. */
  lemma {:induction false} AddChildKeepsFound(ls: seq<LoggerRec>, i: nat, key: string, j: nat, k: string)
    requires Tree(ls) && i < |ls| && FindChild(ls, i, key).None?
    requires j < |ls| && FindChild(ls, j, k).Some?
    ensures FindChild(AddChild(ls, i, key), j, k) == FindChild(ls, j, k)
    decreases j
  {
    var ls' := AddChild(ls, i, key);
    if k in ls[j].children {
      assert !(j == i && k == key);
      assert k in ls'[j].children && ls'[j].children[k] == ls[j].children[k];
    } else {
      assert !(j == i && k == key);
      assert k !in ls'[j].children;
      AddChildKeepsFound(ls, i, key, ls[j].parent.value, k);
    }
  }

  datatype Resolved = Resolved(loggers: seq<LoggerRec>, id: nat)

  /** The loggers of `ls` are still there in `ls'`, with the same properties except for new children. */
  ghost predicate Grows(ls: seq<LoggerRec>, ls': seq<LoggerRec>)
  {
    && |ls| <= |ls'|
    && (forall j :: 0 <= j < |ls| ==> ls'[j] == ls[j].(children := ls'[j].children))
    && (forall j, k :: 0 <= j < |ls| && k in ls[j].children ==> k in ls'[j].children && ls'[j].children[k] == ls[j].children[k])
  }

  /**
   * The reduce of JL(name) from logger `cur`, whose name is `acc`: each piece
   * extends the accumulated name, the logger of that name visible from the
   * current one is taken, and a missing one is created under the current one.
   */
  function Walk(ls: seq<LoggerRec>, cur: nat, acc: string, segs: seq<string>): (r: Resolved)
    requires Tree(ls) && cur < |ls| && ls[cur].loggerName == acc
    ensures Tree(r.loggers) && r.id < |r.loggers| && Grows(ls, r.loggers)
    ensures r.loggers[r.id].loggerName == FoldNames(acc, segs)
    decreases |segs|
  {
    if segs == [] then Resolved(ls, cur)
    else
      var name := Accumulate(acc, segs[0]);
      match FindChild(ls, cur, name)
      case Some(c) =>
        var r := Walk(ls, c, name, segs[1..]);
        GrowsRefl(ls);
        r
      case None =>
        var ls' := AddChild(ls, cur, name);
        var r := Walk(ls', |ls|, name, segs[1..]);
        AddChildGrows(ls, cur, name);
        GrowsTrans(ls, ls', r.loggers);
        r
  }

  lemma GrowsRefl(ls: seq<LoggerRec>)
    ensures Grows(ls, ls)
  {
    assert forall j :: 0 <= j < |ls| ==> ls[j] == ls[j].(children := ls[j].children);
  }

  lemma GrowsTrans(a: seq<LoggerRec>, b: seq<LoggerRec>, c: seq<LoggerRec>)
    requires Grows(a, b) && Grows(b, c)
    ensures Grows(a, c)
  {
    forall j | 0 <= j < |a|
      ensures c[j] == a[j].(children := c[j].children)
    {
      assert c[j] == b[j].(children := c[j].children);
    }
  }

  /** A child added under a key the logger does not hold yet leaves every existing logger in place. */
  lemma AddChildGrows(ls: seq<LoggerRec>, i: nat, key: string)
    requires Tree(ls) && i < |ls| && key !in ls[i].children
    ensures Grows(ls, AddChild(ls, i, key))
  {
  }

  /** JL(name): the root for the empty name, otherwise the reduce over the pieces of "." + name. */
  function Resolve(ls: seq<LoggerRec>, name: string): (r: Resolved)
    requires Tree(ls) && ls[0].loggerName == ""
    ensures Tree(r.loggers) && r.id < |r.loggers| && Grows(ls, r.loggers)
    ensures name != "" && name[0] != '.' ==> r.loggers[r.id].loggerName == name
  {
    if name == "" then Resolved(ls, 0)
    else
      var r := Walk(ls, 0, "", Split("." + name));
      if name[0] == '.' then r else AccumulatedName(name); r
  }

  /** A walk keeps every lookup that succeeded before it. */
  lemma {:induction false} WalkKeepsFound(ls: seq<LoggerRec>, cur: nat, acc: string, segs: seq<string>, j: nat, k: string)
    requires Tree(ls) && cur < |ls| && ls[cur].loggerName == acc
    requires j < |ls| && FindChild(ls, j, k).Some?
    ensures FindChild(Walk(ls, cur, acc, segs).loggers, j, k) == FindChild(ls, j, k)
    decreases |segs|
  {
    if segs != [] {
      var name := Accumulate(acc, segs[0]);
      match FindChild(ls, cur, name)
      case Some(c) =>
        WalkKeepsFound(ls, c, name, segs[1..], j, k);
      case None =>
        AddChildKeepsFound(ls, cur, name, j, k);
        WalkKeepsFound(AddChild(ls, cur, name), |ls|, name, segs[1..], j, k);
    }
  }

  /** Walking the same pieces again over the result finds everything and creates nothing. */
  lemma {:induction false} WalkIdempotent(ls: seq<LoggerRec>, cur: nat, acc: string, segs: seq<string>)
    requires Tree(ls) && cur < |ls| && ls[cur].loggerName == acc
    ensures
      var r := Walk(ls, cur, acc, segs);
      cur < |r.loggers| && r.loggers[cur].loggerName == acc && Walk(r.loggers, cur, acc, segs) == r
    decreases |segs|
  {
    var r := Walk(ls, cur, acc, segs);
    if segs != [] {
      var name := Accumulate(acc, segs[0]);
      match FindChild(ls, cur, name)
      case Some(c) =>
        WalkKeepsFound(ls, c, name, segs[1..], cur, name);
        WalkIdempotent(ls, c, name, segs[1..]);
      case None =>
        var ls' := AddChild(ls, cur, name);
        assert FindChild(ls', cur, name) == Some(|ls|);
        WalkKeepsFound(ls', |ls|, name, segs[1..], cur, name);
        WalkIdempotent(ls', |ls|, name, segs[1..]);
    }
  }

  /** Resolving a name a second time returns the same logger and leaves the hierarchy as it is. */
  lemma ResolveIdempotent(ls: seq<LoggerRec>, name: string)
    requires Tree(ls) && ls[0].loggerName == ""
    ensures
      var r := Resolve(ls, name);
      r.loggers[0].loggerName == "" && Resolve(r.loggers, name) == r
  {
    if name != "" {
      WalkIdempotent(ls, 0, "", Split("." + name));
    }
  }

  /** Every logger's parent is named by the prefix of its name (the first nameless logger's parent is the root). */
  ghost predicate ParentsPrefix(ls: seq<LoggerRec>)
  {
    forall i :: 0 < i < |ls| && ls[i].parent.Some? && ls[i].parent.value < |ls| ==>
      ls[ls[i].parent.value].loggerName == Prefix(ls[i].loggerName)
  }

  /** A walk over pieces without dots creates every logger under the logger named by its prefix. */
  lemma {:induction false} WalkKeepsParentsPrefix(ls: seq<LoggerRec>, cur: nat, acc: string, segs: seq<string>)
    requires Tree(ls) && cur < |ls| && ls[cur].loggerName == acc && ParentsPrefix(ls)
    requires forall k :: 0 <= k < |segs| ==> '.' !in segs[k]
    ensures ParentsPrefix(Walk(ls, cur, acc, segs).loggers)
    decreases |segs|
  {
    if segs != [] {
      var name := Accumulate(acc, segs[0]);
      match FindChild(ls, cur, name)
      case Some(c) =>
        WalkKeepsParentsPrefix(ls, c, name, segs[1..]);
      case None =>
        var ls' := AddChild(ls, cur, name);
        PrefixAccumulate(acc, segs[0]);
        assert ls'[|ls|].parent == Some(cur) && ls'[cur].loggerName == acc;
        assert ParentsPrefix(ls');
        WalkKeepsParentsPrefix(ls', |ls|, name, segs[1..]);
    }
  }

  /** Only the nameless logger hangs directly under the root: every other logger has a named ancestor below the root. */
  ghost predicate RootChildrenNameless(ls: seq<LoggerRec>)
  {
    forall i :: 0 < i < |ls| && ls[i].parent == Some(0) ==> ls[i].loggerName == ""
  }

  /**
   * A walk that starts from the root with an empty first piece (as every
   * walk of JL(name) does, over the pieces of "." + name) creates under the
   * root at most the nameless logger.
   */
  lemma {:induction false} WalkKeepsRootChildrenNameless(ls: seq<LoggerRec>, cur: nat, acc: string, segs: seq<string>)
    requires Tree(ls) && cur < |ls| && ls[cur].loggerName == acc && RootChildrenNameless(ls)
    requires cur == 0 ==> acc == "" && (segs == [] || segs[0] == "")
    ensures RootChildrenNameless(Walk(ls, cur, acc, segs).loggers)
    decreases |segs|
  {
    if segs != [] {
      var name := Accumulate(acc, segs[0]);
      match FindChild(ls, cur, name)
      case Some(c) =>
        WalkKeepsRootChildrenNameless(ls, c, name, segs[1..]);
      case None =>
        var ls' := AddChild(ls, cur, name);
        assert RootChildrenNameless(ls');
        WalkKeepsRootChildrenNameless(ls', |ls|, name, segs[1..]);
    }
  }

  /** JL(name) creates under the root at most the nameless logger. */
  lemma ResolveKeepsRootChildrenNameless(ls: seq<LoggerRec>, name: string)
    requires Tree(ls) && ls[0].loggerName == "" && RootChildrenNameless(ls)
    ensures RootChildrenNameless(Resolve(ls, name).loggers)
  {
    if name != "" {
      assert Split("." + name)[0] == "";
      WalkKeepsRootChildrenNameless(ls, 0, "", Split("." + name));
    }
  }

  /**
   * JL(name) for a name not starting with a dot returns the logger of that
   * name, whose parent is the logger named by the prefix of the name.
   */
  lemma ResolvedParent(ls: seq<LoggerRec>, name: string)
    requires Tree(ls) && ls[0].loggerName == "" && ParentsPrefix(ls)
    requires name != "" && name[0] != '.'
    ensures
      var r := Resolve(ls, name);
      && r.loggers[r.id].loggerName == name && r.id != 0 && r.loggers[r.id].parent.Some?
      && r.loggers[r.loggers[r.id].parent.value].loggerName == Prefix(name)
  {
    var segs := Split("." + name);
    WalkKeepsParentsPrefix(ls, 0, "", segs);
  }

  /** The parent of a logger other than the root. */
  function ParentOf(ls: seq<LoggerRec>, i: nat): (p: nat)
    requires Tree(ls) && 0 < i < |ls|
    ensures p < i
  {
    ls[i].parent.value
  }

  /**
   * "a.b.c" requested in a hierarchy whose parents are named by prefixes:
   * the logger returned is named "a.b.c", its parent "a.b", that one's
   * parent "a" and that one's parent "" (the nameless logger kept under the
   * root, which is not the root itself), so all three exist afterwards.
   */
  lemma ResolveScenario(ls: seq<LoggerRec>)
    requires Tree(ls) && ls[0].loggerName == "" && ParentsPrefix(ls) && RootChildrenNameless(ls)
    ensures
      var r := Resolve(ls, "a.b.c");
      var L := r.loggers;
      && Tree(L) && L[r.id].loggerName == "a.b.c" && r.id > 0
      && L[ParentOf(L, r.id)].loggerName == "a.b" && ParentOf(L, r.id) > 0
      && L[ParentOf(L, ParentOf(L, r.id))].loggerName == "a" && ParentOf(L, ParentOf(L, r.id)) > 0
      && L[ParentOf(L, ParentOf(L, ParentOf(L, r.id)))].loggerName == ""
      && ParentOf(L, ParentOf(L, ParentOf(L, r.id))) > 0
  {
    var r := Resolve(ls, "a.b.c");
    var L := r.loggers;
    WalkKeepsParentsPrefix(ls, 0, "", Split(".a.b.c"));
    assert L[0].loggerName == "";
    ChainPrefixes();
    var i1 := r.id;
    assert L[i1].loggerName == "a.b.c" != "";
    ParentNamed(L, i1);
    var i2 := ParentOf(L, i1);
    assert L[i2].loggerName == "a.b" != "";
    ParentNamed(L, i2);
    var i3 := ParentOf(L, i2);
    assert L[i3].loggerName == "a" != "";
    ParentNamed(L, i3);
    ResolveKeepsRootChildrenNameless(ls, "a.b.c");
    NamedBelowRoot(L, i3);
  }

  /** A logger with a name hangs below some logger other than the root. */
  lemma NamedBelowRoot(ls: seq<LoggerRec>, i: nat)
    requires Tree(ls) && RootChildrenNameless(ls) && 0 < i < |ls| && ls[i].loggerName != ""
    ensures ParentOf(ls, i) > 0
  {
  }

  /** The parent of a logger other than the root is named by the prefix of its name. */
  lemma ParentNamed(ls: seq<LoggerRec>, i: nat)
    requires Tree(ls) && ParentsPrefix(ls) && 0 < i < |ls|
    ensures ls[ParentOf(ls, i)].loggerName == Prefix(ls[i].loggerName)
  {
  }

  lemma ChainPrefixes()
    ensures Prefix("a.b.c") == "a.b" && Prefix("a.b") == "a" && Prefix("a") == ""
  {
    assert "a.b.c"[..4] == "a.b." && "a.b."[..3] == "a.b";
    assert "a.b"[..2] == "a." && "a."[..1] == "a";
    assert "a"[..0] == "";
  }
}
