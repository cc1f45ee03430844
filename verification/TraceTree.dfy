/**
 * The finite tree below a trace node, and its projections onto rows
 * (apps/cli/src/core/trace.ts, `flattenTrace`, `walk`, `flattenSubAgentLog`).
 */
module TraceTree {
  import opened Basics
  import opened TraceModel
  import opened TracePlacement
  import opened TraceRehome

  /** A node with everything below it; `spawned` says that the agent names a spawning tool call. */
  datatype Tree =
    | LeafT(content: Content)
    | AgentT(id: string, spawned: bool, kids: seq<Tree>)
    | ToolT(serial: nat, callId: string, kids: seq<Tree>)

  function Below(t: Tree): seq<Tree> {
    if t.LeafT? then [] else t.kids
  }

  function RefOf(t: Tree): Ref
    requires !t.LeafT?
  {
    if t.AgentT? then AgentRef(t.id) else ToolRef(t.serial)
  }

  function ItemOf(t: Tree): Item {
    if t.LeafT? then Leaf(t.content) else Branch(RefOf(t))
  }

  /** What a node shows besides its children. */
  predicate Labelled(s: State, t: Tree) {
    match t
    case LeafT(_) => true
    case AgentT(id, spawned, _) => id in s.agents.vals && (spawned <==> Truthy(s.agents.vals[id].spawnedBy))
    case ToolT(n, callId, _) => n < |s.nodes| && s.nodes[n].callId == callId
  }

  /** `t` is what the state shows when it is unfolded from `t`'s own item downwards. */
  ghost predicate Shape(s: State, t: Tree) {
    && Labelled(s, t)
    && (!t.LeafT? ==>
          && |Kids(s, RefOf(t))| == |t.kids|
          && forall i | 0 <= i < |t.kids| :: Shape(s, t.kids[i]) && ItemOf(t.kids[i]) == Kids(s, RefOf(t))[i])
  }

  ghost predicate HasTree(s: State, r: Ref) {
    exists t :: Shape(s, t) && ItemOf(t) == Branch(r)
  }

  // ---- when the tree is finite ----

  /** A downward chain of nodes. */
  ghost predicate Chain(s: State, p: seq<Ref>) {
    |p| > 0 && (forall i :: 0 <= i < |p| - 1 ==> Under(s, p[i], p[i + 1])) && forall r <- p :: Known(s, r)
  }

  ghost predicate OwnAncestor(s: State, r: Ref) {
    exists p :: Chain(s, p) && |p| > 1 && p[0] == r && p[|p| - 1] == r
  }

  function Universe(s: State): set<Ref> {
    (set id | id in s.agents.vals.Keys :: AgentRef(id)) + (set n | 0 <= n < |s.nodes| :: ToolRef(n))
  }

  lemma {:induction false} ChainRepeats(s: State, p: seq<Ref>, i: nat, j: nat)
    requires Inv(s) && Chain(s, p) && i < j < |p| && p[i] == p[j]
    ensures OwnAncestor(s, p[0])
  {
    if i == 0 {
      var q := p[..j + 1];
      forall k | 0 <= k < |q| - 1 ensures Under(s, q[k], q[k + 1]) {
        assert Under(s, p[k], p[k + 1]);
      }
      assert Chain(s, q);
    } else {
      assert Under(s, p[i - 1], p[i - 1 + 1]) && Under(s, p[j - 1], p[j - 1 + 1]);
      UnderIsAt(s, p[i - 1], p[i]);
      UnderIsAt(s, p[j - 1], p[j]);
      var a :| At(s, p[i - 1], a, p[i]);
      var b :| At(s, p[j - 1], b, p[j]);
      ChainRepeats(s, p, i - 1, j - 1);
    }
  }

  lemma {:induction false} DistinctFits<T>(p: seq<T>, u: set<T>)
    requires forall i, j :: 0 <= i < j < |p| ==> p[i] != p[j]
    requires forall x <- p :: x in u
    ensures |p| <= |u|
  {
    if p != [] {
      var n := |p| - 1;
      assert p[n] in u;
      forall x | x in p[..n] ensures x in u - {p[n]} {}
      DistinctFits(p[..n], u - {p[n]});
    }
  }

  lemma ChainFits(s: State, p: seq<Ref>)
    requires Inv(s) && Chain(s, p) && !OwnAncestor(s, p[0])
    ensures |p| <= |Universe(s)|
  {
    forall i, j | 0 <= i < j < |p| ensures p[i] != p[j] {
      if p[i] == p[j] { ChainRepeats(s, p, i, j); }
    }
    forall r <- p ensures r in Universe(s) {
      assert Known(s, r);
    }
    DistinctFits(p, Universe(s));
  }

  /** The tree below the last node of a chain whose top is not its own ancestor. */
  lemma {:induction false} Unfold(s: State, p: seq<Ref>) returns (t: Tree)
    requires Inv(s) && Chain(s, p) && !OwnAncestor(s, p[0])
    ensures Shape(s, t) && ItemOf(t) == Branch(p[|p| - 1])
    decreases |Universe(s)| - |p|, 1, 0
  {
    ChainFits(s, p);
    var r := p[|p| - 1];
    assert Known(s, r);
    var ts := UnfoldAll(s, p, |Kids(s, r)|);
    match r
    case AgentRef(id) => t := AgentT(id, Truthy(s.agents.vals[id].spawnedBy), ts);
    case ToolRef(n) => t := ToolT(n, s.nodes[n].callId, ts);
  }

  lemma {:induction false} UnfoldAll(s: State, p: seq<Ref>, n: nat) returns (ts: seq<Tree>)
    requires Inv(s) && Chain(s, p) && !OwnAncestor(s, p[0]) && n <= |Kids(s, p[|p| - 1])|
    ensures |ts| == n && forall i | 0 <= i < n :: Shape(s, ts[i]) && ItemOf(ts[i]) == Kids(s, p[|p| - 1])[i]
    decreases |Universe(s)| - |p|, 0, n
  {
    if n == 0 {
      ts := [];
    } else {
      var init := UnfoldAll(s, p, n - 1);
      var x := Kids(s, p[|p| - 1])[n - 1];
      match x {
        case Leaf(c) => ts := init + [LeafT(c)];
        case Branch(c) =>
          assert At(s, p[|p| - 1], n - 1, c);
          var q := p + [c];
          forall i | 0 <= i < |q| - 1 ensures Under(s, q[i], q[i + 1]) {
            if i < |p| - 1 { assert Under(s, p[i], p[i + 1]); }
          }
          ChainFits(s, q);
          var t := Unfold(s, q);
          ts := init + [t];
      }
    }
  }

  /** A tree contains a tree for every node on a chain from its top; a cycle would shrink it for ever. */
  lemma {:induction false} FollowChain(s: State, t: Tree, p: seq<Ref>) returns (u: Tree)
    requires Shape(s, t) && Chain(s, p) && ItemOf(t) == Branch(p[0])
    ensures Shape(s, u) && ItemOf(u) == Branch(p[|p| - 1])
    ensures |p| > 1 ==> u < t
    ensures |p| == 1 ==> u == t
    decreases |p|
  {
    if |p| == 1 {
      u := t;
    } else {
      assert Under(s, p[0], p[1]);
      var i :| 0 <= i < |Kids(s, p[0])| && Kids(s, p[0])[i] == Branch(p[1]);
      assert Chain(s, p[1..]) by {
        forall k | 0 <= k < |p[1..]| - 1 ensures Under(s, p[1..][k], p[1..][k + 1]) {
          assert Under(s, p[k + 1], p[k + 1 + 1]);
        }
      }
      u := FollowChain(s, t.kids[i], p[1..]);
    }
  }

  lemma {:induction false} CyclesHaveNoTree(s: State, t: Tree, p: seq<Ref>)
    requires Shape(s, t) && Chain(s, p) && |p| > 1 && p[0] == p[|p| - 1]
    ensures ItemOf(t) != Branch(p[0])
    decreases t
  {
    if ItemOf(t) == Branch(p[0]) {
      var u := FollowChain(s, t, p);
      CyclesHaveNoTree(s, u, p);
    }
  }

  /** With single placement, what lies below a node is a finite tree exactly when it is not its own ancestor. */
  lemma TreeExactly(s: State, r: Ref)
    requires Inv(s) && Known(s, r)
    ensures HasTree(s, r) <==> !OwnAncestor(s, r)
  {
    if OwnAncestor(s, r) {
      var p :| Chain(s, p) && |p| > 1 && p[0] == r && p[|p| - 1] == r;
      forall t | Shape(s, t) ensures ItemOf(t) != Branch(r) {
        CyclesHaveNoTree(s, t, p);
      }
    } else {
      var t := Unfold(s, [r]);
    }
  }

  lemma {:induction false} ShapeIsUnique(s: State, t: Tree, u: Tree)
    requires Shape(s, t) && Shape(s, u) && ItemOf(t) == ItemOf(u)
    ensures t == u
    decreases t
  {
    if !t.LeafT? {
      forall i | 0 <= i < |t.kids| ensures t.kids[i] == u.kids[i] {
        ShapeIsUnique(s, t.kids[i], u.kids[i]);
      }
      assert t.kids == u.kids;
    }
  }

  // ---- each node once ----

  /** The subtree at a position, following child indices. */
  ghost predicate Sub(t: Tree, p: seq<nat>, u: Tree) {
    if p == [] then u == t
    else p[0] < |Below(t)| && Sub(Below(t)[p[0]], p[1..], u)
  }

  lemma {:induction false} SubShape(s: State, t: Tree, p: seq<nat>, u: Tree)
    requires Shape(s, t) && Sub(t, p, u)
    ensures Shape(s, u) && (p != [] ==> u < t)
    decreases p
  {
    if p != [] {
      SubShape(s, t.kids[p[0]], p[1..], u);
    }
  }

  /** A subtree other than the whole hangs under its parent, at the last index of its position. */
  lemma {:induction false} SubParent(t: Tree, p: seq<nat>, u: Tree) returns (q: Tree)
    requires Sub(t, p, u) && p != []
    ensures Sub(t, p[..|p| - 1], q) && p[|p| - 1] < |Below(q)| && Below(q)[p[|p| - 1]] == u
    decreases p
  {
    if |p| == 1 {
      q := t;
    } else {
      q := SubParent(Below(t)[p[0]], p[1..], u);
      assert p[1..][..|p| - 2] == p[..|p| - 1][1..];
    }
  }

  /** No agent or tool occurs at two positions of the tree. */
  lemma {:induction false} NodesOccurOnce(s: State, t: Tree, p: seq<nat>, u: Tree, q: seq<nat>, v: Tree)
    requires Inv(s) && Shape(s, t) && Sub(t, p, u) && Sub(t, q, v)
    requires !u.LeafT? && ItemOf(u) == ItemOf(v)
    ensures p == q
    decreases |p| + |q|
  {
    hide Findable, Indexed, Known, Labelled;
    SubShape(s, t, p, u);
    SubShape(s, t, q, v);
    ShapeIsUnique(s, u, v);
    if p != [] && q != [] {
      var a := SubParent(t, p, u);
      var b := SubParent(t, q, v);
      SubShape(s, t, p[..|p| - 1], a);
      SubShape(s, t, q[..|q| - 1], b);
      assert At(s, RefOf(a), p[|p| - 1], RefOf(u));
      assert At(s, RefOf(b), q[|q| - 1], RefOf(v));
      NodesOccurOnce(s, t, p[..|p| - 1], a, q[..|q| - 1], b);
      assert p == p[..|p| - 1] + [p[|p| - 1]] && q == q[..|q| - 1] + [q[|q| - 1]];
    }
  }

  lemma OwnAncestorIsSeated(s: State, r: Ref)
    requires OwnAncestor(s, r)
    ensures Seated(s, r)
  {
    var p :| Chain(s, p) && |p| > 1 && p[0] == r && p[|p| - 1] == r;
    var i := |p| - 2;
    assert Under(s, p[i], p[i + 1]);
  }

  /** No agent or tool at two positions. */
  ghost predicate EachOnce(t: Tree) {
    forall p, u, q, v | Sub(t, p, u) && Sub(t, q, v) && !u.LeafT? && ItemOf(u) == ItemOf(v) :: p == q
  }

  /** A finite tree hangs below the node, with each node in it once. */
  ghost predicate HasTreeOfDistinctNodes(s: State, r: Ref) {
    exists t :: Shape(s, t) && ItemOf(t) == Branch(r) && EachOnce(t)
  }

  /** After any fresh and guided stream, a finite tree hangs below the root and holds each node once. */
  lemma TreeBelowRoot(es: seq<Event>)
    requires FreshRun(es) && GuidedRun(es) && Run(es).root.Some?
    ensures HasTreeOfDistinctNodes(Run(es), AgentRef(Run(es).root.value))
  {
    RunKeepsRoot(es);
    var s := Run(es);
    var r := AgentRef(s.root.value);
    hide Run, FreshRun, GuidedRun;
    if OwnAncestor(s, r) { OwnAncestorIsSeated(s, r); }
    TreeExactly(s, r);
    var t :| Shape(s, t) && ItemOf(t) == Branch(r);
    forall p, u, q, v | Sub(t, p, u) && Sub(t, q, v) && !u.LeafT? && ItemOf(u) == ItemOf(v) ensures p == q {
      NodesOccurOnce(s, t, p, u, q, v);
    }
    assert EachOnce(t);
  }
}
