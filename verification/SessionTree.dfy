/**
 * The session's entry tree and its three walkers: the host's nested tree
 * (`buildTreeNode`, packages/agent/src/index.ts), the terminal's indented list
 * (`flattenSessionTree`, apps/cli/src/tui-otui/views.tsx) and the active path
 * (`headPath`, apps/cli/src/core/trace.ts; `getPath`, packages/agent/src/storage/session-store.ts).
 */
module SessionTree {
  import opened Basics

  datatype Entry = Entry(id: string, parentId: Option<string>, isSummary: bool, body: string)

  /** The entries of `tree.nodes` in insertion order, one per id. */
  type Nodes = seq<Entry>

  function IndexOf(nodes: Nodes, id: string): (i: nat)
    ensures i <= |nodes| && (i < |nodes| ==> nodes[i].id == id)
    ensures forall j :: 0 <= j < i ==> nodes[j].id != id
  {
    if nodes == [] then 0 else if nodes[0].id == id then 0 else 1 + IndexOf(nodes[1..], id)
  }

  predicate Known(nodes: Nodes, id: string) {
    IndexOf(nodes, id) < |nodes|
  }

  ghost predicate UniqueIds(nodes: Nodes) {
    forall i, j :: 0 <= i < j < |nodes| ==> nodes[i].id != nodes[j].id
  }

  /** Ids are not empty and name one entry each, and a parent that is there comes before its children. */
  ghost predicate Ordered(nodes: Nodes) {
    && UniqueIds(nodes)
    && (forall i :: 0 <= i < |nodes| ==> nodes[i].id != "")
    && (forall i :: 0 <= i < |nodes| && nodes[i].parentId.Some? && Known(nodes, nodes[i].parentId.value) ==>
          IndexOf(nodes, nodes[i].parentId.value) < i)
  }

  lemma IndexIs(nodes: Nodes, i: nat)
    requires UniqueIds(nodes) && i < |nodes|
    ensures IndexOf(nodes, nodes[i].id) == i
  {
    assert forall j :: 0 <= j < i ==> nodes[j].id != nodes[i].id;
  }

  /** `Object.values(nodes).filter((e) => e.parentId === id).map((e) => e.id)` over the first `n` entries. */
  function KidsIn(nodes: Nodes, id: string, n: nat): seq<string>
    requires n <= |nodes|
  {
    if n == 0 then []
    else KidsIn(nodes, id, n - 1) + if nodes[n - 1].parentId == Some(id) then [nodes[n - 1].id] else []
  }

  function Kids(nodes: Nodes, id: string): seq<string> {
    KidsIn(nodes, id, |nodes|)
  }

  /** Every listed id is that of an entry after position `lo`. */
  ghost predicate After(nodes: Nodes, ids: seq<string>, lo: nat) {
    forall c <- ids :: lo < IndexOf(nodes, c) < |nodes|
  }

  lemma {:induction false} KidsAreBelow(nodes: Nodes, id: string, n: nat)
    requires Ordered(nodes) && Known(nodes, id) && n <= |nodes|
    ensures After(nodes, KidsIn(nodes, id, n), IndexOf(nodes, id))
    ensures forall c <- KidsIn(nodes, id, n) :: nodes[IndexOf(nodes, c)].parentId == Some(id) && IndexOf(nodes, c) < n
  {
    if n > 0 {
      KidsAreBelow(nodes, id, n - 1);
      IndexIs(nodes, n - 1);
    }
  }

  lemma {:induction false} KidsAreAll(nodes: Nodes, id: string, n: nat, i: nat)
    requires i < n <= |nodes| && nodes[i].parentId == Some(id)
    ensures nodes[i].id in KidsIn(nodes, id, n)
  {
    if i < n - 1 { KidsAreAll(nodes, id, n - 1, i); }
  }

  // ---- the nested tree ----

  datatype Branch = Branch(entry: Entry, children: seq<Branch>)

  function Build(nodes: Nodes, id: string): Option<Branch>
    requires Ordered(nodes)
    decreases |nodes| - IndexOf(nodes, id), 1, 0
  {
    if id == "" || !Known(nodes, id) then None
    else
      KidsAreBelow(nodes, id, |nodes|);
      Some(Branch(nodes[IndexOf(nodes, id)], BuildAll(nodes, Kids(nodes, id), IndexOf(nodes, id))))
  }

  /** The branches of these ids, those that are missing left out. */
  function BuildAll(nodes: Nodes, ids: seq<string>, lo: nat): seq<Branch>
    requires Ordered(nodes) && After(nodes, ids, lo)
    decreases |nodes| - lo, 0, |ids|
  {
    if ids == [] then []
    else
      var b := Build(nodes, ids[0]);
      (if b.Some? then [b.value] else []) + BuildAll(nodes, ids[1..], lo)
  }

  // ---- the indented list ----

  datatype Row = Row(entry: Entry, depth: nat)

  function Walk(nodes: Nodes, id: string, depth: nat): seq<Row>
    requires Ordered(nodes)
    decreases |nodes| - IndexOf(nodes, id), 1, 0
  {
    if !Known(nodes, id) then []
    else
      KidsAreBelow(nodes, id, |nodes|);
      [Row(nodes[IndexOf(nodes, id)], depth)] + WalkAll(nodes, Kids(nodes, id), depth + 1, IndexOf(nodes, id))
  }

  function WalkAll(nodes: Nodes, ids: seq<string>, depth: nat, lo: nat): seq<Row>
    requires Ordered(nodes) && After(nodes, ids, lo)
    decreases |nodes| - lo, 0, |ids|
  {
    if ids == [] then [] else Walk(nodes, ids[0], depth) + WalkAll(nodes, ids[1..], depth, lo)
  }

  // ---- they agree ----

  function Preorder(b: Branch, depth: nat): seq<Row> {
    [Row(b.entry, depth)] + PreorderAll(b.children, depth + 1)
  }

  function PreorderAll(bs: seq<Branch>, depth: nat): seq<Row> {
    if bs == [] then [] else Preorder(bs[0], depth) + PreorderAll(bs[1..], depth)
  }

  /** The indented list is the preorder of the nested tree, depths included. */
  lemma {:induction false} ListIsPreorder(nodes: Nodes, id: string, depth: nat)
    requires Ordered(nodes) && id != ""
    ensures Walk(nodes, id, depth) ==
            match Build(nodes, id) { case None => [] case Some(b) => Preorder(b, depth) }
    decreases |nodes| - IndexOf(nodes, id), 1, 0
  {
    if Known(nodes, id) {
      KidsAreBelow(nodes, id, |nodes|);
      ListIsPreorderAll(nodes, Kids(nodes, id), depth + 1, IndexOf(nodes, id));
    }
  }

  lemma {:induction false} ListIsPreorderAll(nodes: Nodes, ids: seq<string>, depth: nat, lo: nat)
    requires Ordered(nodes) && After(nodes, ids, lo)
    ensures WalkAll(nodes, ids, depth, lo) == PreorderAll(BuildAll(nodes, ids, lo), depth)
    decreases |nodes| - lo, 0, |ids|
  {
    if ids != [] {
      var i := IndexOf(nodes, ids[0]);
      assert nodes[i].id == ids[0];
      ListIsPreorder(nodes, ids[0], depth);
      ListIsPreorderAll(nodes, ids[1..], depth, lo);
      var b := Build(nodes, ids[0]);
      var rest := BuildAll(nodes, ids[1..], lo);
      assert ([b.value] + rest)[1..] == rest;
    }
  }

  // ---- what is listed ----

  /** How many parent links lead from `id` up to `top`, if they do. */
  function Hops(nodes: Nodes, id: string, top: string): Option<nat>
    requires Ordered(nodes)
    decreases IndexOf(nodes, id)
  {
    if !Known(nodes, id) then None
    else if id == top then Some(0)
    else
      var p := nodes[IndexOf(nodes, id)].parentId;
      if p.None? || !Known(nodes, p.value) then None
      else
        var h := Hops(nodes, p.value, top);
        if h.Some? then Some(h.value + 1) else None
  }

  lemma {:induction false} HopsClimb(nodes: Nodes, x: string, top: string)
    requires Ordered(nodes) && Hops(nodes, x, top).Some?
    ensures Known(nodes, top) && IndexOf(nodes, top) <= IndexOf(nodes, x)
    decreases IndexOf(nodes, x)
  {
    if x != top {
      HopsClimb(nodes, nodes[IndexOf(nodes, x)].parentId.value, top);
    }
  }

  predicate ChildOf(nodes: Nodes, c: string, top: string) {
    Known(nodes, c) && nodes[IndexOf(nodes, c)].parentId == Some(top)
  }

  /** Below `top` means at or below exactly one of its children, one hop nearer. */
  lemma {:induction false} HopsThroughChild(nodes: Nodes, x: string, c: string, top: string)
    requires Ordered(nodes) && Known(nodes, top) && ChildOf(nodes, c, top) && Hops(nodes, x, c).Some?
    ensures x != top && Hops(nodes, x, top) == Some(Hops(nodes, x, c).value + 1)
    decreases IndexOf(nodes, x)
  {
    HopsClimb(nodes, x, c);
    if x != c {
      HopsThroughChild(nodes, nodes[IndexOf(nodes, x)].parentId.value, c, top);
    }
  }

  lemma {:induction false} ChildOnTheWay(nodes: Nodes, x: string, top: string) returns (c: string)
    requires Ordered(nodes) && x != top && Hops(nodes, x, top).Some?
    ensures ChildOf(nodes, c, top) && Hops(nodes, x, c).Some?
    decreases IndexOf(nodes, x)
  {
    var p := nodes[IndexOf(nodes, x)].parentId.value;
    if p == top { return x; }
    c := ChildOnTheWay(nodes, p, top);
    HopsClimb(nodes, p, c);
  }

  lemma {:induction false} OneChildOnTheWay(nodes: Nodes, x: string, c: string, d: string, top: string)
    requires Ordered(nodes) && Known(nodes, top) && ChildOf(nodes, c, top) && ChildOf(nodes, d, top)
    requires Hops(nodes, x, c).Some? && Hops(nodes, x, d).Some?
    ensures c == d
    decreases IndexOf(nodes, x)
  {
    if x == c && x != d {
      HopsClimb(nodes, top, d);
    } else if x == d && x != c {
      HopsClimb(nodes, top, c);
    } else if x != c {
      OneChildOnTheWay(nodes, nodes[IndexOf(nodes, x)].parentId.value, c, d, top);
    }
  }

  /** The depths at which the entry `x` is listed. */
  function Depths(rows: seq<Row>, x: string): seq<nat> {
    if rows == [] then []
    else (if rows[0].entry.id == x then [rows[0].depth] else []) + Depths(rows[1..], x)
  }

  lemma DepthsStep(r: Row, rest: seq<Row>, x: string)
    ensures Depths([r] + rest, x) == (if r.entry.id == x then [r.depth] else []) + Depths(rest, x)
  {
    assert ([r] + rest)[1..] == rest;
  }

  lemma {:induction false} DepthsJoin(a: seq<Row>, b: seq<Row>, x: string)
    ensures Depths(a + b, x) == Depths(a, x) + Depths(b, x)
  {
    if a == [] {
      assert a + b == b;
    } else {
      var first := if a[0].entry.id == x then [a[0].depth] else [];
      var mid, last := Depths(a[1..], x), Depths(b, x);
      assert Depths(a, x) == first + mid;
      assert Depths(a + b, x) == first + (mid + last) by {
        DepthsJoin(a[1..], b, x);
        DepthsStep(a[0], a[1..] + b, x);
        assert a + b == [a[0]] + (a[1..] + b);
      }
      hide Depths;
      assert first + (mid + last) == first + mid + last;
    }
  }

  /** The first of these ids that `x` is at or below. */
  function OnTheWay(nodes: Nodes, ids: seq<string>, x: string): Option<string>
    requires Ordered(nodes)
  {
    if ids == [] then None
    else if Hops(nodes, x, ids[0]).Some? then Some(ids[0])
    else OnTheWay(nodes, ids[1..], x)
  }

  lemma {:induction false} NobodyOnTheWay(nodes: Nodes, ids: seq<string>, x: string)
    requires Ordered(nodes) && forall c <- ids :: Hops(nodes, x, c).None?
    ensures OnTheWay(nodes, ids, x).None?
  {
    if ids != [] {
      assert ids[0] in ids;
      NobodyOnTheWay(nodes, ids[1..], x);
    }
  }

  lemma {:induction false} SomebodyOnTheWay(nodes: Nodes, ids: seq<string>, x: string, c: string)
    requires Ordered(nodes) && c in ids && Hops(nodes, x, c).Some?
    ensures var w := OnTheWay(nodes, ids, x); w.Some? && w.value in ids && Hops(nodes, x, w.value).Some?
  {
    if Hops(nodes, x, ids[0]).None? { SomebodyOnTheWay(nodes, ids[1..], x, c); }
  }

  /** Distinct children of `top`. */
  ghost predicate Siblings(nodes: Nodes, ids: seq<string>, top: string) {
    && (forall c <- ids :: ChildOf(nodes, c, top))
    && (forall i, j :: 0 <= i < j < |ids| ==> ids[i] != ids[j])
  }

  lemma {:induction false} KidsAreSiblings(nodes: Nodes, id: string, n: nat)
    requires Ordered(nodes) && Known(nodes, id) && n <= |nodes|
    ensures Siblings(nodes, KidsIn(nodes, id, n), id)
  {
    KidsAreBelow(nodes, id, n);
    if n > 0 {
      KidsAreSiblings(nodes, id, n - 1);
      KidsAreBelow(nodes, id, n - 1);
      IndexIs(nodes, n - 1);
      hide Ordered, After;
      assert nodes[n - 1].id !in KidsIn(nodes, id, n - 1);
    }
  }

  function Expected(h: Option<nat>, depth: nat): seq<nat> {
    if h.Some? then [depth + h.value] else []
  }

  /** An entry is listed below `top` exactly when its parent links lead there: once, as many levels down as links. */
  lemma {:induction false} ListedOnceAtItsDepth(nodes: Nodes, top: string, depth: nat, x: string)
    requires Ordered(nodes)
    ensures Depths(Walk(nodes, top, depth), x) == Expected(Hops(nodes, x, top), depth)
    decreases |nodes| - IndexOf(nodes, top), 1, 0
  {
    if Known(nodes, top) {
      var i := IndexOf(nodes, top);
      var ids := Kids(nodes, top);
      KidsAreBelow(nodes, top, |nodes|);
      KidsAreSiblings(nodes, top, |nodes|);
      ListedUnderSiblings(nodes, ids, depth + 1, i, x, top);
      DepthsStep(Row(nodes[i], depth), WalkAll(nodes, ids, depth + 1, i), x);
      ListedThroughKids(nodes, top, x);
      assert x == top ==> Hops(nodes, x, top) == Some(0);
      hide Hops, Depths, WalkAll, Kids, Ordered, After, OnTheWay;
    } else if Hops(nodes, x, top).Some? {
      HopsClimb(nodes, x, top);
    }
  }

  lemma ListedThroughKids(nodes: Nodes, top: string, x: string)
    requires Ordered(nodes) && Known(nodes, top)
    ensures var w := OnTheWay(nodes, Kids(nodes, top), x);
      if x == top || Hops(nodes, x, top).None? then w.None?
      else w.Some? && Hops(nodes, x, w.value).Some? && Hops(nodes, x, top).value == Hops(nodes, x, w.value).value + 1
  {
    var ids := Kids(nodes, top);
    KidsAreBelow(nodes, top, |nodes|);
    if x == top || Hops(nodes, x, top).None? {
      forall c | c in ids ensures Hops(nodes, x, c).None? {
        if Hops(nodes, x, c).Some? { HopsThroughChild(nodes, x, c, top); }
      }
      NobodyOnTheWay(nodes, ids, x);
    } else {
      var c := ChildOnTheWay(nodes, x, top);
      KidsAreAll(nodes, top, |nodes|, IndexOf(nodes, c));
      SomebodyOnTheWay(nodes, ids, x, c);
      HopsThroughChild(nodes, x, OnTheWay(nodes, ids, x).value, top);
    }
  }

  lemma {:induction false} ListedUnderSiblings(nodes: Nodes, ids: seq<string>, depth: nat, lo: nat, x: string, top: string)
    requires Ordered(nodes) && After(nodes, ids, lo) && Known(nodes, top) && Siblings(nodes, ids, top)
    ensures var w := OnTheWay(nodes, ids, x);
      Depths(WalkAll(nodes, ids, depth, lo), x) ==
      if w.Some? then Expected(Hops(nodes, x, w.value), depth) else []
    decreases |nodes| - lo, 0, |ids|
  {
    if ids != [] {
      var c, rest := ids[0], ids[1..];
      assert c in ids;
      ListedOnceAtItsDepth(nodes, c, depth, x);
      ListedUnderSiblings(nodes, rest, depth, lo, x, top);
      DepthsJoin(Walk(nodes, c, depth), WalkAll(nodes, rest, depth, lo), x);
      if Hops(nodes, x, c).Some? {
        forall d | d in rest ensures Hops(nodes, x, d).None? {
          if Hops(nodes, x, d).Some? { OneChildOnTheWay(nodes, x, c, d, top); }
        }
        NobodyOnTheWay(nodes, rest, x);
      }
    }
  }

  // ---- the active path ----

  /** From the nearest summary, or the topmost ancestor there is, down to the head. */
  function HeadPath(nodes: Nodes, head: Option<string>): seq<Entry>
    requires Ordered(nodes)
    decreases if head.Some? && Known(nodes, head.value) then 1 + IndexOf(nodes, head.value) else 0
  {
    if !Truthy(head) || !Known(nodes, head.value) then []
    else
      var e := nodes[IndexOf(nodes, head.value)];
      if e.isSummary then [e] else HeadPath(nodes, e.parentId) + [e]
  }

  function Reversed(s: seq<Entry>): seq<Entry> {
    if s == [] then [] else [s[|s| - 1]] + Reversed(s[..|s| - 1])
  }

  lemma ClimbOnce(nodes: Nodes, cur: Option<string>, chain: seq<Entry>)
    requires Ordered(nodes) && Truthy(cur) && Known(nodes, cur.value)
    ensures var e := nodes[IndexOf(nodes, cur.value)];
      HeadPath(nodes, cur) + Reversed(chain) ==
      (if e.isSummary then [] else HeadPath(nodes, e.parentId)) + Reversed(chain + [e])
  {
    var e := nodes[IndexOf(nodes, cur.value)];
    assert (chain + [e])[..|chain|] == chain;
  }

  /** The loop as it is written: collect while climbing, then reverse. */
  method ClimbFromHead(nodes: Nodes, head: Option<string>) returns (path: seq<Entry>)
    requires Ordered(nodes)
    ensures path == HeadPath(nodes, head)
  {
    var chain: seq<Entry> := [];
    var cur := head;
    assert Reversed(chain) == [];
    assert !Truthy(head) || !Known(nodes, head.value) ==> HeadPath(nodes, head) == [];
    while Truthy(cur)
      invariant HeadPath(nodes, head) == HeadPath(nodes, cur) + Reversed(chain)
      decreases if cur.Some? && Known(nodes, cur.value) then 1 + IndexOf(nodes, cur.value) else 0
    {
      var i := IndexOf(nodes, cur.value);
      if i == |nodes| { break; }
      var e := nodes[i];
      ClimbOnce(nodes, cur, chain);
      chain := chain + [e];
      if e.isSummary { return Reversed(chain); }
      cur := e.parentId;
    }
    path := Reversed(chain);
  }

  /** A chain of parent links ending at the head, with a summary at most at its start, that cannot be extended. */
  ghost predicate IsHeadPath(nodes: Nodes, id: string, path: seq<Entry>) {
    && path != [] && path[|path| - 1].id == id
    && (forall e <- path :: e in nodes)
    && (forall i :: 0 < i < |path| ==> path[i].parentId == Some(path[i - 1].id) && !path[i].isSummary)
    && (path[0].isSummary || path[0].parentId.None? || !Known(nodes, path[0].parentId.value))
  }

  /** The active path is the one such chain. */
  lemma HeadPathExactly(nodes: Nodes, id: string, path: seq<Entry>)
    requires Ordered(nodes) && Known(nodes, id)
    ensures IsHeadPath(nodes, id, path) <==> path == HeadPath(nodes, Some(id))
  {
    HeadPathIsOne(nodes, id);
    if IsHeadPath(nodes, id, path) { HeadPathIsOnly(nodes, id, path); }
  }

  lemma {:induction false} HeadPathIsOne(nodes: Nodes, id: string)
    requires Ordered(nodes) && Known(nodes, id)
    ensures IsHeadPath(nodes, id, HeadPath(nodes, Some(id)))
    decreases IndexOf(nodes, id)
  {
    var e := nodes[IndexOf(nodes, id)];
    if !e.isSummary && e.parentId.Some? && Known(nodes, e.parentId.value) {
      HeadPathIsOne(nodes, e.parentId.value);
      var up := HeadPath(nodes, e.parentId);
      assert (up + [e])[0] == up[0];
    }
  }

  lemma EntryIsKnown(nodes: Nodes, e: Entry)
    requires UniqueIds(nodes) && e in nodes
    ensures Known(nodes, e.id) && nodes[IndexOf(nodes, e.id)] == e
  {
    var i :| 0 <= i < |nodes| && nodes[i] == e;
    IndexIs(nodes, i);
  }

  lemma {:induction false} HeadPathIsOnly(nodes: Nodes, id: string, path: seq<Entry>)
    requires Ordered(nodes) && IsHeadPath(nodes, id, path)
    ensures path == HeadPath(nodes, Some(id))
    decreases |path|
  {
    var n := |path| - 1;
    assert path[n] in path;
    EntryIsKnown(nodes, path[n]);
    if n > 0 {
      assert path[n - 1] in path;
      assert path[..n][n - 1] == path[n - 1];
      HeadPathIsOnly(nodes, path[n - 1].id, path[..n]);
      assert path == path[..n] + [path[n]];
    }
  }

  /** Where no summary cuts it, the active path is one longer than the head's depth in the list. */
  lemma {:induction false} PathLengthIsDepth(nodes: Nodes, id: string, top: string)
    requires Ordered(nodes) && Hops(nodes, id, top).Some?
    requires Known(nodes, top) && nodes[IndexOf(nodes, top)].parentId.None?
    requires forall e <- HeadPath(nodes, Some(id)) :: !e.isSummary
    ensures |HeadPath(nodes, Some(id))| == Hops(nodes, id, top).value + 1
    decreases IndexOf(nodes, id)
  {
    var e := nodes[IndexOf(nodes, id)];
    assert e in HeadPath(nodes, Some(id));
    if id != top {
      PathLengthIsDepth(nodes, e.parentId.value, top);
    }
  }
}
