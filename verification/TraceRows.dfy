/** Rows of a trace tree: `walk`, `flattenSubAgentLog`, their keys, and how the two displays agree. */
module TraceRows {
  import opened Basics
  import opened Decimal
  import opened TraceModel
  import opened TracePlacement
  import opened TraceTree

  datatype Row = Row(item: Tree, depth: nat, key: string)

  /** `contain` keeps delegate logs off the main rows; `gate`, if given, names the expanded tool calls. */
  datatype Opts = Opts(contain: bool, gate: Option<set<string>>)

  const FULL := Opts(false, None)
  const CONTAINED := Opts(true, None)

  predicate Opened(t: Tree, o: Opts) {
    t.AgentT? || (t.ToolT? && !o.contain && (o.gate.Some? ==> t.callId in o.gate.value))
  }

  /** A sub-agent still waiting for its delegate call is hidden from the contained rows of its parent agent. */
  predicate Skipped(parent: Tree, child: Tree, o: Opts) {
    parent.AgentT? && o.contain && child.AgentT? && child.spawned
  }

  function ChildKey(key: string, i: nat): string {
    key + "." + Numeral(i)
  }

  function Walk(t: Tree, depth: nat, key: string, o: Opts): seq<Row>
    decreases t, 1, 0
  {
    [Row(t, depth, key)] + if Opened(t, o) then WalkKids(t, |Below(t)|, depth + 1, key, o) else []
  }

  /** Rows of the child at index `i`. */
  function Kid(t: Tree, i: nat, depth: nat, key: string, o: Opts): seq<Row>
    requires i < |Below(t)|
    decreases t, 0, i
  {
    if Skipped(t, Below(t)[i], o) then [] else Walk(Below(t)[i], depth, ChildKey(key, i), o)
  }

  /** Rows of the first `n` children. */
  function WalkKids(t: Tree, n: nat, depth: nat, key: string, o: Opts): seq<Row>
    requires n <= |Below(t)|
    decreases t, 0, n
  {
    if n == 0 then [] else WalkKids(t, n - 1, depth, key, o) + Kid(t, n - 1, depth, key, o)
  }

  function LogKey(tool: Tree, i: nat): string
    requires tool.ToolT?
  {
    tool.callId + ":" + Numeral(i)
  }

  /** `flattenSubAgentLog`, the first `n` children. */
  function Log(tool: Tree, n: nat): seq<Row>
    requires tool.ToolT? && n <= |tool.kids|
  {
    if n == 0 then [] else Log(tool, n - 1) + Walk(tool.kids[n - 1], 1, LogKey(tool, n - 1), CONTAINED)
  }

  // ---- row keys ----

  /** `k` names the row of `key` itself or of something below it. */
  predicate Extends(k: string, key: string) {
    key <= k && (|k| > |key| ==> k[|key|] == '.')
  }

  ghost predicate DistinctKeys(rows: seq<Row>) {
    forall i, j :: 0 <= i < j < |rows| ==> rows[i].key != rows[j].key
  }

  /** `k` extends at most one key of the form prefix, numeral. */
  lemma NumberedKeys(prefix: string, i: nat, j: nat, k: string)
    requires Extends(k, prefix + Numeral(i)) && Extends(k, prefix + Numeral(j))
    ensures i == j
  {
    var a, b := prefix + Numeral(i), prefix + Numeral(j);
    assert k == a + k[|a|..] == b + k[|b|..];
    var rest := k[|prefix|..];
    assert rest == Numeral(i) + k[|a|..] && rest == Numeral(j) + k[|b|..];
    NumeralsSplit(i, k[|a|..], j, k[|b|..]);
  }

  lemma SiblingKeys(key: string, i: nat, j: nat, k: string)
    requires Extends(k, ChildKey(key, i)) && Extends(k, ChildKey(key, j))
    ensures i == j
  {
    NumberedKeys(key + ".", i, j, k);
  }

  /** Under any options, no two rows of a walk share a key. */
  lemma {:induction false} RowKeysDistinct(t: Tree, depth: nat, key: string, o: Opts)
    ensures DistinctKeys(Walk(t, depth, key, o))
    ensures forall r <- Walk(t, depth, key, o) :: Extends(r.key, key)
    decreases t, 1, 0
  {
    if Opened(t, o) {
      KidKeysDistinct(t, |Below(t)|, depth + 1, key, o);
      forall r <- WalkKids(t, |Below(t)|, depth + 1, key, o) ensures r.key != key && Extends(r.key, key) {
        var i :| 0 <= i < |Below(t)| && Extends(r.key, ChildKey(key, i));
        assert ChildKey(key, i)[|key|] == '.';
      }
    }
  }

  lemma {:induction false} KidKeysDistinct(t: Tree, n: nat, depth: nat, key: string, o: Opts)
    requires n <= |Below(t)|
    ensures DistinctKeys(WalkKids(t, n, depth, key, o))
    ensures forall r <- WalkKids(t, n, depth, key, o) :: exists i :: 0 <= i < n && Extends(r.key, ChildKey(key, i))
    decreases t, 0, n
  {
    if n > 0 {
      KidKeysDistinct(t, n - 1, depth, key, o);
      if !Skipped(t, Below(t)[n - 1], o) {
        var before := WalkKids(t, n - 1, depth, key, o);
        var last := Walk(Below(t)[n - 1], depth, ChildKey(key, n - 1), o);
        RowKeysDistinct(Below(t)[n - 1], depth, ChildKey(key, n - 1), o);
        forall a <- before, b <- last ensures a.key != b.key {
          var i :| 0 <= i < n - 1 && Extends(a.key, ChildKey(key, i));
          if a.key == b.key { SiblingKeys(key, i, n - 1, a.key); }
        }
      }
    }
  }

  /** The rows of a tool's own log have distinct keys as well. */
  lemma {:induction false} LogKeysDistinct(tool: Tree, n: nat)
    requires tool.ToolT? && n <= |tool.kids|
    ensures DistinctKeys(Log(tool, n))
    ensures forall r <- Log(tool, n) :: exists i :: 0 <= i < n && Extends(r.key, LogKey(tool, i))
  {
    if n > 0 {
      LogKeysDistinct(tool, n - 1);
      var before, key := Log(tool, n - 1), LogKey(tool, n - 1);
      var last := Walk(tool.kids[n - 1], 1, key, CONTAINED);
      RowKeysDistinct(tool.kids[n - 1], 1, key, CONTAINED);
      forall a <- before, b <- last ensures a.key != b.key {
        var i :| 0 <= i < n - 1 && Extends(a.key, LogKey(tool, i));
        if a.key == b.key { NumberedKeys(tool.callId + ":", i, n - 1, a.key); }
      }
    }
  }

  // ---- the full rows are the positions of the tree ----

  /** The key of the row at a position below the row with this key. */
  function KeyAt(key: string, p: seq<nat>): string
    decreases |p|
  {
    if p == [] then key else KeyAt(ChildKey(key, p[0]), p[1..])
  }

  lemma {:induction false} KidRowsAreRows(t: Tree, n: nat, i: nat, depth: nat, key: string, r: Row)
    requires i < n <= |Below(t)| && r in Walk(Below(t)[i], depth, ChildKey(key, i), FULL)
    ensures r in WalkKids(t, n, depth, key, FULL)
  {
    if i < n - 1 { KidRowsAreRows(t, n - 1, i, depth, key, r); }
  }

  lemma {:induction false} RowsAreKidRows(t: Tree, n: nat, depth: nat, key: string, r: Row) returns (i: nat)
    requires n <= |Below(t)| && r in WalkKids(t, n, depth, key, FULL)
    ensures i < n && r in Walk(Below(t)[i], depth, ChildKey(key, i), FULL)
  {
    if r in Walk(Below(t)[n - 1], depth, ChildKey(key, n - 1), FULL) { return n - 1; }
    i := RowsAreKidRows(t, n - 1, depth, key, r);
  }

  /** Every position of the tree has its row, at its depth. */
  lemma {:induction false} PositionHasRow(t: Tree, p: seq<nat>, u: Tree, depth: nat, key: string)
    requires Sub(t, p, u)
    ensures Row(u, depth + |p|, KeyAt(key, p)) in Walk(t, depth, key, FULL)
    decreases |p|
  {
    if p != [] {
      var r := Row(u, depth + |p|, KeyAt(key, p));
      PositionHasRow(Below(t)[p[0]], p[1..], u, depth + 1, ChildKey(key, p[0]));
      KidRowsAreRows(t, |Below(t)|, p[0], depth + 1, key, r);
    }
  }

  /** Every row is the row of a position. */
  lemma {:induction false} RowHasPosition(t: Tree, depth: nat, key: string, r: Row) returns (p: seq<nat>)
    requires r in Walk(t, depth, key, FULL)
    ensures Sub(t, p, r.item) && r == Row(r.item, depth + |p|, KeyAt(key, p))
    decreases t
  {
    if r == Row(t, depth, key) { return []; }
    var i := RowsAreKidRows(t, |Below(t)|, depth + 1, key, r);
    var q := RowHasPosition(Below(t)[i], depth + 1, ChildKey(key, i), r);
    p := [i] + q;
    assert p[1..] == q;
  }

  /** In the full rows of a well-placed trace every agent and tool of the tree has exactly one row. */
  lemma NodesAreListedOnce(s: State, t: Tree, depth: nat, key: string, p: seq<nat>, u: Tree)
    requires Inv(s) && Shape(s, t) && Sub(t, p, u) && !u.LeafT?
    ensures var rows := Walk(t, depth, key, FULL);
      && Row(u, depth + |p|, KeyAt(key, p)) in rows
      && forall i, j ::
           0 <= i < |rows| && 0 <= j < |rows| && ItemOf(rows[i].item) == ItemOf(rows[j].item) == ItemOf(u) ==> i == j
  {
    var rows := Walk(t, depth, key, FULL);
    PositionHasRow(t, p, u, depth, key);
    RowKeysDistinct(t, depth, key, FULL);
    hide Inv, Shape, Walk, Sub;
    forall i, j | 0 <= i < |rows| && 0 <= j < |rows| && ItemOf(rows[i].item) == ItemOf(rows[j].item) == ItemOf(u)
      ensures i == j
    {
      var a := RowHasPosition(t, depth, key, rows[i]);
      var b := RowHasPosition(t, depth, key, rows[j]);
      NodesOccurOnce(s, t, a, rows[i].item, b, rows[j].item);
    }
  }

  // ---- splicing the logs back in ----

  datatype Line = Line(item: Tree, depth: nat)

  function Strip(rows: seq<Row>): seq<Line> {
    if rows == [] then [] else [Line(rows[0].item, rows[0].depth)] + Strip(rows[1..])
  }

  function Shift(ls: seq<Line>, d: nat): seq<Line> {
    if ls == [] then [] else [Line(ls[0].item, ls[0].depth + d)] + Shift(ls[1..], d)
  }

  function Size(t: Tree): nat
    decreases t, 1, 0
  {
    1 + SizeOf(t, |Below(t)|)
  }

  function SizeOf(t: Tree, n: nat): nat
    requires n <= |Below(t)|
    decreases t, 0, n
  {
    if n == 0 then 0 else SizeOf(t, n - 1) + Size(Below(t)[n - 1])
  }

  ghost predicate Within(rows: seq<Row>, m: nat) {
    forall r <- rows :: Size(r.item) <= m
  }

  /** Replace every tool row by itself followed by its log, at the tool's depth, recursively. */
  ghost function Splice(rows: seq<Row>, m: nat): seq<Line>
    requires Within(rows, m)
    decreases m, |rows|
  {
    if rows == [] then [] else Lines(rows[0]) + Splice(rows[1..], m)
  }

  /** What one row becomes. */
  ghost function Lines(r: Row): seq<Line>
    decreases Size(r.item), 0
  {
    [Line(r.item, r.depth)] + if r.item.ToolT? then Shift(LogLines(r.item), r.depth) else []
  }

  ghost function LogLines(tool: Tree): seq<Line>
    requires tool.ToolT?
    decreases Size(tool) - 1, |Log(tool, |tool.kids|)| + 1
  {
    LogFits(tool, |tool.kids|);
    Splice(Log(tool, |tool.kids|), Size(tool) - 1)
  }

  lemma {:induction false} WalkFits(t: Tree, depth: nat, key: string, o: Opts)
    ensures Within(Walk(t, depth, key, o), Size(t))
    decreases t, 1, 0
  {
    if Opened(t, o) { WalkKidsFit(t, |Below(t)|, depth + 1, key, o); }
  }

  lemma {:induction false} WalkKidsFit(t: Tree, n: nat, depth: nat, key: string, o: Opts)
    requires n <= |Below(t)|
    ensures Within(WalkKids(t, n, depth, key, o), SizeOf(t, n))
    decreases t, 0, n
  {
    if n > 0 {
      WalkKidsFit(t, n - 1, depth, key, o);
      if !Skipped(t, Below(t)[n - 1], o) { WalkFits(Below(t)[n - 1], depth, ChildKey(key, n - 1), o); }
    }
  }

  lemma {:induction false} LogFits(tool: Tree, n: nat)
    requires tool.ToolT? && n <= |tool.kids|
    ensures Within(Log(tool, n), SizeOf(tool, n)) && SizeOf(tool, n) <= Size(tool) - 1
  {
    SizeGrows(tool, n);
    if n > 0 {
      LogFits(tool, n - 1);
      WalkFits(tool.kids[n - 1], 1, LogKey(tool, n - 1), CONTAINED);
    }
  }

  lemma {:induction false} SizeGrows(t: Tree, n: nat)
    requires n <= |Below(t)|
    ensures SizeOf(t, n) <= SizeOf(t, |Below(t)|)
    decreases |Below(t)| - n
  {
    if n < |Below(t)| { SizeGrows(t, n + 1); }
  }

  lemma {:induction false} SpliceJoin(a: seq<Row>, b: seq<Row>, m: nat)
    requires Within(a, m) && Within(b, m)
    ensures Within(a + b, m) && Splice(a + b, m) == Splice(a, m) + Splice(b, m)
    decreases |a|
  {
    if a == [] {
      assert a + b == b;
    } else {
      SpliceJoin(a[1..], b, m);
      assert (a + b)[1..] == a[1..] + b;
    }
  }

  lemma {:induction false} SpliceBound(a: seq<Row>, m: nat, k: nat)
    requires Within(a, m) && Within(a, k)
    ensures Splice(a, m) == Splice(a, k)
    decreases |a|
  {
    if a != [] { SpliceBound(a[1..], m, k); }
  }

  lemma {:induction false} StripJoin(a: seq<Row>, b: seq<Row>)
    ensures Strip(a + b) == Strip(a) + Strip(b)
    decreases |a|
  {
    if a == [] {
      assert a + b == b;
    } else {
      StripJoin(a[1..], b);
      assert (a + b)[1..] == a[1..] + b;
    }
  }

  lemma {:induction false} ShiftJoin(a: seq<Line>, b: seq<Line>, d: nat)
    ensures Shift(a + b, d) == Shift(a, d) + Shift(b, d)
    decreases |a|
  {
    if a == [] {
      assert a + b == b;
    } else {
      ShiftJoin(a[1..], b, d);
      assert (a + b)[1..] == a[1..] + b && (a + b)[0] == a[0];
      var first, rest, last := Line(a[0].item, a[0].depth + d), Shift(a[1..], d), Shift(b, d);
      assert Shift(a, d) == [first] + rest && Shift(a + b, d) == [first] + (rest + last);
      hide Shift;
    }
  }

  /** Keys aside, a walk is the same at any depth and under any key. */
  lemma {:induction false} WalkShifts(t: Tree, depth: nat, key: string, o: Opts, d: nat, key': string)
    ensures Strip(Walk(t, depth + d, key', o)) == Shift(Strip(Walk(t, depth, key, o)), d)
    decreases t, 1, 0
  {
    if Opened(t, o) {
      var n := |Below(t)|;
      KidsShift(t, n, depth + 1, key, o, d, key');
      StripJoin([Row(t, depth, key)], WalkKids(t, n, depth + 1, key, o));
      StripJoin([Row(t, depth + d, key')], WalkKids(t, n, depth + d + 1, key', o));
      ShiftJoin(Strip([Row(t, depth, key)]), Strip(WalkKids(t, n, depth + 1, key, o)), d);
    }
  }

  lemma {:induction false} KidsShift(t: Tree, n: nat, depth: nat, key: string, o: Opts, d: nat, key': string)
    requires n <= |Below(t)|
    ensures Strip(WalkKids(t, n, depth + d, key', o)) == Shift(Strip(WalkKids(t, n, depth, key, o)), d)
    decreases t, 0, n
  {
    if n > 0 {
      hide Walk, Strip, Shift;
      KidsShift(t, n - 1, depth, key, o, d, key');
      if !Skipped(t, Below(t)[n - 1], o) {
        WalkShifts(Below(t)[n - 1], depth, ChildKey(key, n - 1), o, d, ChildKey(key', n - 1));
      }
      KidShifts(WalkKids(t, n - 1, depth, key, o), Kid(t, n - 1, depth, key, o),
                WalkKids(t, n - 1, depth + d, key', o), Kid(t, n - 1, depth + d, key', o), d);
    }
  }

  lemma KidShifts(a: seq<Row>, b: seq<Row>, a': seq<Row>, b': seq<Row>, d: nat)
    requires Strip(a') == Shift(Strip(a), d) && Strip(b') == Shift(Strip(b), d)
    ensures Strip(a' + b') == Shift(Strip(a + b), d)
  {
    StripJoin(a, b);
    StripJoin(a', b');
    ShiftJoin(Strip(a), Strip(b), d);
  }

  /** No sub-agent of the tree still waits for its delegate call. */
  ghost predicate Settled(t: Tree) {
    forall i | 0 <= i < |Below(t)| :: !Skipped(t, Below(t)[i], CONTAINED) && Settled(Below(t)[i])
  }

  /**
   * Once every delegate call has arrived, the full display is the contained display with each tool's
   * log spliced in right after its row.
   */
  lemma {:induction false} FullIsSplicedContained(t: Tree, depth: nat, key: string, key': string)
    requires Settled(t)
    ensures Within(Walk(t, depth, key, CONTAINED), Size(t))
    ensures Strip(Walk(t, depth, key', FULL)) == Splice(Walk(t, depth, key, CONTAINED), Size(t))
    decreases t, 1, 0
  {
    WalkFits(t, depth, key, CONTAINED);
    var n := |Below(t)|;
    match t {
      case LeafT(_) => OneRow(t, depth, key);
      case AgentT(_, _, _) =>
        KidsAreSpliced(t, n, depth + 1, key, key');
        AgentRows(t, depth, key, key');
      case ToolT(_, _, _) =>
        LogIsSpliced(t, n, depth, key');
        ToolRows(t, depth, key, key');
    }
  }

  lemma OneRow(t: Tree, depth: nat, key: string)
    ensures Within([Row(t, depth, key)], Size(t)) && Splice([Row(t, depth, key)], Size(t)) == Lines(Row(t, depth, key))
  {
    assert [Row(t, depth, key)][1..] == [];
  }

  lemma AgentRows(t: Tree, depth: nat, key: string, key': string)
    requires t.AgentT?
    ensures var n := |Below(t)|; var rows := WalkKids(t, n, depth + 1, key, CONTAINED);
      && Within(rows, SizeOf(t, n)) && Within(Walk(t, depth, key, CONTAINED), Size(t))
      && Splice(Walk(t, depth, key, CONTAINED), Size(t)) == [Line(t, depth)] + Splice(rows, SizeOf(t, n))
      && Strip(Walk(t, depth, key', FULL)) == [Line(t, depth)] + Strip(WalkKids(t, n, depth + 1, key', FULL))
  {
    var n := |Below(t)|;
    var rows := WalkKids(t, n, depth + 1, key, CONTAINED);
    WalkKidsFit(t, n, depth + 1, key, CONTAINED);
    OneRow(t, depth, key);
    SpliceBound(rows, SizeOf(t, n), Size(t));
    SpliceJoin([Row(t, depth, key)], rows, Size(t));
    StripJoin([Row(t, depth, key')], WalkKids(t, n, depth + 1, key', FULL));
  }

  lemma ToolRows(t: Tree, depth: nat, key: string, key': string)
    requires t.ToolT?
    ensures var n := |Below(t)|;
      && Within(Log(t, n), SizeOf(t, n)) && Within(Walk(t, depth, key, CONTAINED), Size(t))
      && Splice(Walk(t, depth, key, CONTAINED), Size(t)) == [Line(t, depth)] + Shift(Splice(Log(t, n), SizeOf(t, n)), depth)
      && Strip(Walk(t, depth, key', FULL)) == [Line(t, depth)] + Strip(WalkKids(t, n, depth + 1, key', FULL))
  {
    var n := |Below(t)|;
    LogFits(t, n);
    OneRow(t, depth, key);
    assert Walk(t, depth, key, CONTAINED) == [Row(t, depth, key)];
    SpliceBound(Log(t, n), SizeOf(t, n), Size(t) - 1);
    StripJoin([Row(t, depth, key')], WalkKids(t, n, depth + 1, key', FULL));
  }

  /** Splicing distributes over concatenation, whatever bounds the parts are given. */
  lemma SpliceJoins(a: seq<Row>, b: seq<Row>, m: nat, k: nat, l: nat)
    requires Within(a, k) && Within(b, l) && k <= m && l <= m
    ensures Within(a + b, m) && Splice(a + b, m) == Splice(a, k) + Splice(b, l)
  {
    SpliceBound(a, k, m);
    SpliceBound(b, l, m);
    SpliceJoin(a, b, m);
  }

  lemma EmptyKids(t: Tree, depth: nat, key: string, key': string)
    ensures WalkKids(t, 0, depth, key, CONTAINED) == [] && WalkKids(t, 0, depth, key', FULL) == [] && SizeOf(t, 0) == 0
    ensures Splice([], 0) == [] && Shown([], 0) == 0 && Strip([]) == []
  {}

  lemma KidsGrow(t: Tree, n: nat, depth: nat, key: string, key': string)
    requires 0 < n <= |Below(t)|
    requires Within(WalkKids(t, n - 1, depth, key, CONTAINED), SizeOf(t, n - 1))
    requires Within(Kid(t, n - 1, depth, key, CONTAINED), Size(Below(t)[n - 1]))
    ensures var rows, last := WalkKids(t, n - 1, depth, key, CONTAINED), Kid(t, n - 1, depth, key, CONTAINED);
      var all, full := WalkKids(t, n - 1, depth, key', FULL), Kid(t, n - 1, depth, key', FULL);
      && Within(WalkKids(t, n, depth, key, CONTAINED), SizeOf(t, n))
      && Splice(WalkKids(t, n, depth, key, CONTAINED), SizeOf(t, n))
         == Splice(rows, SizeOf(t, n - 1)) + Splice(last, Size(Below(t)[n - 1]))
      && Strip(WalkKids(t, n, depth, key', FULL)) == Strip(all) + Strip(full)
      && |WalkKids(t, n, depth, key', FULL)| == |all| + |full|
  {
    hide Splice, Walk, Strip, Size, ChildKey, Within, Kid;
    StripJoin(WalkKids(t, n - 1, depth, key', FULL), Kid(t, n - 1, depth, key', FULL));
    SpliceJoins(WalkKids(t, n - 1, depth, key, CONTAINED), Kid(t, n - 1, depth, key, CONTAINED),
                SizeOf(t, n), SizeOf(t, n - 1), Size(Below(t)[n - 1]));
  }

  lemma {:induction false} KidsAreSpliced(t: Tree, n: nat, depth: nat, key: string, key': string)
    requires n <= |Below(t)| && Settled(t) && t.AgentT?
    ensures Within(WalkKids(t, n, depth, key, CONTAINED), SizeOf(t, n))
    ensures Strip(WalkKids(t, n, depth, key', FULL)) == Splice(WalkKids(t, n, depth, key, CONTAINED), SizeOf(t, n))
    decreases t, 0, n
  {
    hide Splice, Walk, WalkKids, Kid, Strip, Size, SizeOf, Settled, Within, Skipped;
    WalkKidsFit(t, n, depth, key, CONTAINED);
    if n == 0 {
      EmptyKids(t, depth, key, key');
    } else {
      KidsAreSpliced(t, n - 1, depth, key, key');
      KidIsSpliced(t, n - 1, depth, key, key');
      KidsGrow(t, n, depth, key, key');
    }
  }

  lemma {:induction false} KidIsSpliced(t: Tree, i: nat, depth: nat, key: string, key': string)
    requires i < |Below(t)| && Settled(t) && t.AgentT?
    ensures var c, kid := Below(t)[i], Kid(t, i, depth, key, CONTAINED);
      Within(kid, Size(c)) && Strip(Kid(t, i, depth, key', FULL)) == Splice(kid, Size(c))
    decreases t, 0, 0
  {
    hide Splice, Walk, Strip, Size, ChildKey, Within;
    FullIsSplicedContained(Below(t)[i], depth, ChildKey(key, i), ChildKey(key', i));
  }

  lemma EmptyLog(t: Tree, depth: nat, key: string)
    requires t.ToolT?
    ensures Log(t, 0) == [] && WalkKids(t, 0, depth, key, FULL) == [] && SizeOf(t, 0) == 0
    ensures Splice([], 0) == [] && Shown([], 0) == 0 && Strip([]) == [] && Shift([], depth) == []
  {}

  lemma {:induction false} LogIsSpliced(t: Tree, n: nat, depth: nat, key': string)
    requires t.ToolT? && n <= |t.kids| && Settled(t)
    ensures Within(Log(t, n), SizeOf(t, n))
    ensures Strip(WalkKids(t, n, depth + 1, key', FULL)) == Shift(Splice(Log(t, n), SizeOf(t, n)), depth)
    decreases t, 0, n
  {
    hide Splice, Lines, LogLines, Walk, WalkKids, Kid, Strip, Shift, Log, Size, SizeOf, Settled, Within, Skipped;
    LogFits(t, n);
    if n == 0 {
      EmptyLog(t, depth + 1, key');
      EmptyLog(t, depth, key');
    } else {
      LogFits(t, n - 1);
      LogIsSpliced(t, n - 1, depth, key');
      LoggedKidIsSpliced(t, n - 1, depth, key');
      LogGrows(t, n, depth, key');
    }
  }

  lemma {:induction false} LoggedKidIsSpliced(t: Tree, i: nat, depth: nat, key': string)
    requires t.ToolT? && i < |t.kids| && Settled(t)
    ensures var c := t.kids[i]; var rows := Walk(c, 1, LogKey(t, i), CONTAINED);
      && Within(rows, Size(c))
      && Strip(Walk(c, depth + 1, ChildKey(key', i), FULL)) == Shift(Splice(rows, Size(c)), depth)
    decreases t, 0, 0
  {
    assert Settled(Below(t)[i]);
    FullIsSplicedContained(t.kids[i], 1, LogKey(t, i), LogKey(t, i));
    WalkShifts(t.kids[i], 1, LogKey(t, i), FULL, depth, ChildKey(key', i));
  }

  lemma LogGrows(t: Tree, n: nat, depth: nat, key': string)
    requires t.ToolT? && 0 < n <= |t.kids|
    requires Within(Log(t, n - 1), SizeOf(t, n - 1))
    requires Within(Walk(t.kids[n - 1], 1, LogKey(t, n - 1), CONTAINED), Size(t.kids[n - 1]))
    ensures var last := Walk(t.kids[n - 1], 1, LogKey(t, n - 1), CONTAINED);
      && Within(Log(t, n), SizeOf(t, n))
      && Shift(Splice(Log(t, n), SizeOf(t, n)), depth)
         == Shift(Splice(Log(t, n - 1), SizeOf(t, n - 1)), depth) + Shift(Splice(last, Size(t.kids[n - 1])), depth)
      && Strip(WalkKids(t, n, depth + 1, key', FULL))
         == Strip(WalkKids(t, n - 1, depth + 1, key', FULL))
            + Strip(Walk(t.kids[n - 1], depth + 1, ChildKey(key', n - 1), FULL))
  {
    var c := t.kids[n - 1];
    var last := Walk(c, 1, LogKey(t, n - 1), CONTAINED);
    SpliceJoins(Log(t, n - 1), last, SizeOf(t, n), SizeOf(t, n - 1), Size(c));
    ShiftJoin(Splice(Log(t, n - 1), SizeOf(t, n - 1)), Splice(last, Size(c)), depth);
    StripJoin(WalkKids(t, n - 1, depth + 1, key', FULL), Kid(t, n - 1, depth + 1, key', FULL));
  }

  // ---- and only then ----

  lemma {:induction false} ShiftLength(ls: seq<Line>, d: nat)
    ensures |Shift(ls, d)| == |ls|
    decreases |ls|
  {
    if ls != [] { ShiftLength(ls[1..], d); }
  }

  lemma {:induction false} StripLength(rows: seq<Row>)
    ensures |Strip(rows)| == |rows|
    decreases |rows|
  {
    if rows != [] { StripLength(rows[1..]); }
  }

  lemma WalkLength(t: Tree, depth: nat, key: string, depth': nat, key': string)
    ensures |Walk(t, depth, key, FULL)| == |Walk(t, depth', key', FULL)|
  {
    WalkShifts(t, 0, key, FULL, depth, key);
    WalkShifts(t, 0, key, FULL, depth', key');
    ShiftLength(Strip(Walk(t, 0, key, FULL)), depth);
    ShiftLength(Strip(Walk(t, 0, key, FULL)), depth');
    StripLength(Walk(t, depth, key, FULL));
    StripLength(Walk(t, depth', key', FULL));
  }

  /** How many lines the rows show once the logs are spliced in. */
  ghost function Shown(rows: seq<Row>, m: nat): nat
    requires Within(rows, m)
  {
    |Splice(rows, m)|
  }

  /** The first `n` children are neither hidden nor have anything hidden below them. */
  ghost predicate SettledTo(t: Tree, n: nat)
    requires n <= |Below(t)|
  {
    forall i | 0 <= i < n :: !Skipped(t, Below(t)[i], CONTAINED) && Settled(Below(t)[i])
  }

  /** A sub-agent that still waits is missing from the spliced display, so that display is shorter. */
  lemma {:induction false} SplicedIsNoLonger(t: Tree, depth: nat, key: string)
    ensures Within(Walk(t, depth, key, CONTAINED), Size(t))
    ensures Shown(Walk(t, depth, key, CONTAINED), Size(t)) <= |Walk(t, depth, key, FULL)|
    ensures !Settled(t) ==> Shown(Walk(t, depth, key, CONTAINED), Size(t)) < |Walk(t, depth, key, FULL)|
    decreases t, 1, 0
  {
    WalkFits(t, depth, key, CONTAINED);
    var n := |Below(t)|;
    match t {
      case LeafT(_) => OneRow(t, depth, key);
      case AgentT(_, _, _) =>
        SplicedKidsNoLonger(t, n, depth + 1, key);
        AgentRows(t, depth, key, key);
      case ToolT(_, _, _) =>
        SplicedLogNoLonger(t, n, depth + 1, key);
        ToolRows(t, depth, key, key);
        ShiftLength(Splice(Log(t, n), SizeOf(t, n)), depth);
    }
  }

  lemma KidsShow(t: Tree, n: nat, depth: nat, key: string)
    requires 0 < n <= |Below(t)|
    requires Within(WalkKids(t, n - 1, depth, key, CONTAINED), SizeOf(t, n - 1))
    requires Within(Kid(t, n - 1, depth, key, CONTAINED), Size(Below(t)[n - 1]))
    ensures Within(WalkKids(t, n, depth, key, CONTAINED), SizeOf(t, n))
    ensures Shown(WalkKids(t, n, depth, key, CONTAINED), SizeOf(t, n))
         == Shown(WalkKids(t, n - 1, depth, key, CONTAINED), SizeOf(t, n - 1))
            + Shown(Kid(t, n - 1, depth, key, CONTAINED), Size(Below(t)[n - 1]))
    ensures |WalkKids(t, n, depth, key, FULL)|
         == |WalkKids(t, n - 1, depth, key, FULL)| + |Kid(t, n - 1, depth, key, FULL)|
  {
    hide Splice, Walk, WalkKids, Kid, Strip, Size, SizeOf, Within;
    KidsGrow(t, n, depth, key, key);
  }

  lemma SettledOneMore(t: Tree, n: nat)
    requires 0 < n <= |Below(t)|
    ensures SettledTo(t, n)
      <==> SettledTo(t, n - 1) && !Skipped(t, Below(t)[n - 1], CONTAINED) && Settled(Below(t)[n - 1])
  {
    hide Skipped, Settled;
  }

  lemma {:induction false} SplicedKidsNoLonger(t: Tree, n: nat, depth: nat, key: string)
    requires n <= |Below(t)| && t.AgentT?
    ensures Within(WalkKids(t, n, depth, key, CONTAINED), SizeOf(t, n))
    ensures Shown(WalkKids(t, n, depth, key, CONTAINED), SizeOf(t, n)) <= |WalkKids(t, n, depth, key, FULL)|
    ensures !SettledTo(t, n) ==>
      Shown(WalkKids(t, n, depth, key, CONTAINED), SizeOf(t, n)) < |WalkKids(t, n, depth, key, FULL)|
    decreases t, 0, n
  {
    hide Splice, Walk, WalkKids, Kid, Strip, Size, SizeOf, Settled, Shown, Within, Skipped;
    WalkKidsFit(t, n, depth, key, CONTAINED);
    if n == 0 {
      EmptyKids(t, depth, key, key);
    } else {
      SettledOneMore(t, n);
      hide SettledTo;
      SplicedKidsNoLonger(t, n - 1, depth, key);
      SplicedKidNoLonger(t, n - 1, depth, key);
      KidsShow(t, n, depth, key);
    }
  }

  lemma {:induction false} SplicedKidNoLonger(t: Tree, i: nat, depth: nat, key: string)
    requires i < |Below(t)| && t.AgentT?
    ensures var c := Below(t)[i];
      && Within(Kid(t, i, depth, key, CONTAINED), Size(c))
      && Shown(Kid(t, i, depth, key, CONTAINED), Size(c)) <= |Kid(t, i, depth, key, FULL)|
      && (Skipped(t, c, CONTAINED) || !Settled(c) ==>
            Shown(Kid(t, i, depth, key, CONTAINED), Size(c)) < |Kid(t, i, depth, key, FULL)|)
    decreases t, 0, 0
  {
    SplicedIsNoLonger(Below(t)[i], depth, ChildKey(key, i));
  }

  lemma {:induction false} SplicedLogNoLonger(t: Tree, n: nat, depth: nat, key: string)
    requires t.ToolT? && n <= |t.kids|
    ensures Within(Log(t, n), SizeOf(t, n))
    ensures Shown(Log(t, n), SizeOf(t, n)) <= |WalkKids(t, n, depth, key, FULL)|
    ensures !SettledTo(t, n) ==> Shown(Log(t, n), SizeOf(t, n)) < |WalkKids(t, n, depth, key, FULL)|
    decreases t, 0, n
  {
    hide Splice, Lines, LogLines, Log, Walk, WalkKids, Kid, Size, SizeOf, Settled, Shown, Within;
    LogFits(t, n);
    if n == 0 {
      EmptyLog(t, depth, key);
    } else {
      SplicedLogNoLonger(t, n - 1, depth, key);
      LoggedKidNoLonger(t, n - 1, depth, key);
      LogShows(t, n);
      FullGrows(t, n, depth, key);
    }
  }

  lemma {:induction false} LoggedKidNoLonger(t: Tree, i: nat, depth: nat, key: string)
    requires t.ToolT? && i < |t.kids|
    ensures var c := t.kids[i]; var rows := Walk(c, 1, LogKey(t, i), CONTAINED);
      && Within(rows, Size(c))
      && Shown(rows, Size(c)) <= |Walk(c, depth, ChildKey(key, i), FULL)|
      && (!Settled(c) ==> Shown(rows, Size(c)) < |Walk(c, depth, ChildKey(key, i), FULL)|)
    decreases t, 0, 0
  {
    SplicedIsNoLonger(t.kids[i], 1, LogKey(t, i));
    WalkLength(t.kids[i], 1, LogKey(t, i), depth, ChildKey(key, i));
  }

  lemma LogShows(t: Tree, n: nat)
    requires t.ToolT? && 0 < n <= |t.kids|
    ensures var c := t.kids[n - 1]; var rows := Walk(c, 1, LogKey(t, n - 1), CONTAINED);
      && Within(Log(t, n), SizeOf(t, n)) && Within(Log(t, n - 1), SizeOf(t, n - 1)) && Within(rows, Size(c))
      && Shown(Log(t, n), SizeOf(t, n)) == Shown(Log(t, n - 1), SizeOf(t, n - 1)) + Shown(rows, Size(c))
  {
    LogFits(t, n - 1);
    WalkFits(t.kids[n - 1], 1, LogKey(t, n - 1), CONTAINED);
    SpliceJoins(Log(t, n - 1), Walk(t.kids[n - 1], 1, LogKey(t, n - 1), CONTAINED),
                SizeOf(t, n), SizeOf(t, n - 1), Size(t.kids[n - 1]));
  }

  lemma FullGrows(t: Tree, n: nat, depth: nat, key: string)
    requires t.ToolT? && 0 < n <= |t.kids|
    ensures |WalkKids(t, n, depth, key, FULL)|
         == |WalkKids(t, n - 1, depth, key, FULL)| + |Walk(t.kids[n - 1], depth, ChildKey(key, n - 1), FULL)|
  {}

  /** The two displays agree exactly when no sub-agent of the tree still waits for its delegate call. */
  lemma DisplaysAgreeExactly(t: Tree, depth: nat, key: string)
    ensures Within(Walk(t, depth, key, CONTAINED), Size(t))
    ensures Strip(Walk(t, depth, key, FULL)) == Splice(Walk(t, depth, key, CONTAINED), Size(t)) <==> Settled(t)
  {
    SplicedIsNoLonger(t, depth, key);
    StripLength(Walk(t, depth, key, FULL));
    if Settled(t) { FullIsSplicedContained(t, depth, key, key); }
  }
}
