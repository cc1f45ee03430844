/**
 * The append-only session log and its fold (packages/agent/src/storage/session-store.ts):
 * the in-memory tree against the one a reload reads back from the log.
 */
module SessionStore {
  import opened Basics
  import opened SessionTree

  datatype Record = EntryLine(e: Entry) | HeadLine(entryId: string) | LabelLine(entryId: string, text: string)

  datatype Folded = Folded(
    entries: Nodes,
    children: map<string, seq<string>>,
    labels: map<string, string>,
    headId: Option<string>,
    rootId: Option<string>)

  const EmptyFold := Folded([], map[], map[], None, None)

  /** `entries.set(e.id, e)` */
  function Store(nodes: Nodes, e: Entry): Nodes {
    var i := IndexOf(nodes, e.id);
    if i < |nodes| then nodes[i := e] else nodes + [e]
  }

  function ChildrenOf(f: Folded, id: string): seq<string> {
    if id in f.children then f.children[id] else []
  }

  /** An entry joins the tree; where the head goes is up to the caller. */
  function Join(f: Folded, e: Entry): Folded {
    f.(entries := Store(f.entries, e),
       rootId := if Truthy(e.parentId) || f.rootId.Some? then f.rootId else Some(e.id),
       children := if Truthy(e.parentId)
                   then f.children[e.parentId.value := ChildrenOf(f, e.parentId.value) + [e.id]] else f.children)
  }

  function FoldLine(f: Folded, r: Record): Folded {
    match r
    case EntryLine(e) => Join(f, e).(headId := Some(e.id))
    case HeadLine(id) => f.(headId := Some(id))
    case LabelLine(id, text) => f.(labels := f.labels[id := text])
  }

  function Fold(log: seq<Record>): Folded {
    if log == [] then EmptyFold else FoldLine(Fold(log[..|log| - 1]), log[|log| - 1])
  }

  lemma FoldAppend(log: seq<Record>, r: Record)
    ensures Fold(log + [r]) == FoldLine(Fold(log), r)
  {
    assert (log + [r])[..|log|] == log;
  }

  // ---- a running store ----

  /** `mem` is the fold in memory; `since` is the length of the log when it was last read from disk. */
  datatype State = State(log: seq<Record>, mem: Folded, since: nat)

  /** `id` is the fresh id of the new entry; `under` is the parent the caller asks for. */
  datatype Op =
    | Append(id: string, under: Option<string>, isSummary: bool, body: string, moveHead: bool)
    | SetHead(entryId: string)
    | SetLabel(entryId: string, text: string)
    | Reload

  function NewEntry(f: Folded, id: string, under: Option<string>, isSummary: bool, body: string): Entry {
    Entry(id, if under.Some? then under else f.headId, isSummary, body)
  }

  function Move(s: State, id: string): State {
    s.(log := s.log + [HeadLine(id)], mem := s.mem.(headId := Some(id)))
  }

  function Do(s: State, op: Op): State {
    match op
    case Append(id, under, isSummary, body, moveHead) =>
      var e := NewEntry(s.mem, id, under, isSummary, body);
      var t := s.(log := s.log + [EntryLine(e)], mem := Join(s.mem, e));
      if moveHead then Move(t, id) else t
    case SetHead(id) => Move(s, id)
    case SetLabel(id, text) => s.(log := s.log + [LabelLine(id, text)], mem := s.mem.(labels := s.mem.labels[id := text]))
    case Reload => State(s.log, Fold(s.log), |s.log|)
  }

  /** New ids are not empty and not in use; parents and heads that are named exist. */
  predicate Allowed(s: State, op: Op) {
    match op
    case Append(id, under, _, _, _) =>
      && id != "" && !Known(s.mem.entries, id)
      && (under.Some? ==> Known(s.mem.entries, under.value))
    case SetHead(id) => Known(s.mem.entries, id)
    case _ => true
  }

  function Run(ops: seq<Op>): State {
    if ops == [] then State([], EmptyFold, 0)
    else
      var s := Run(ops[..|ops| - 1]);
      if Allowed(s, ops[|ops| - 1]) then Do(s, ops[|ops| - 1]) else s
  }

  /** Since the last read, the last line that says anything about the head is an entry, not a head line. */
  predicate EndsUnmoved(log: seq<Record>, since: nat) {
    |log| > since &&
    (var r := log[|log| - 1]; r.EntryLine? || (r.LabelLine? && EndsUnmoved(log[..|log| - 1], since)))
  }

  // ---- the tree that is built ----

  /** Children are indexed under the id of their parent, in the order of the entries. */
  ghost predicate Indexed(f: Folded) {
    forall id: string :: id != "" ==> ChildrenOf(f, id) == Kids(f.entries, id)
  }

  ghost predicate WellGrown(f: Folded) {
    && Ordered(f.entries)
    && (forall e <- f.entries :: e.parentId.Some? ==> Known(f.entries, e.parentId.value))
    && (f.headId.Some? ==> Known(f.entries, f.headId.value))
    && Indexed(f)
  }

  lemma IndexOfGrown(nodes: Nodes, e: Entry, id: string)
    ensures IndexOf(nodes + [e], id) ==
            if Known(nodes, id) then IndexOf(nodes, id) else if e.id == id then |nodes| else |nodes| + 1
  {
    if nodes != [] {
      assert (nodes + [e])[1..] == nodes[1..] + [e];
      IndexOfGrown(nodes[1..], e, id);
    }
  }

  lemma {:induction false} KidsGrown(nodes: Nodes, e: Entry, id: string, n: nat)
    requires n <= |nodes|
    ensures KidsIn(nodes + [e], id, n) == KidsIn(nodes, id, n)
  {
    if n > 0 { KidsGrown(nodes, e, id, n - 1); }
  }

  lemma NewKid(nodes: Nodes, e: Entry, id: string)
    ensures Kids(nodes + [e], id) == Kids(nodes, id) + if e.parentId == Some(id) then [e.id] else []
  {
    KidsGrown(nodes, e, id, |nodes|);
  }

  lemma JoinKeepsIndex(f: Folded, e: Entry)
    requires Indexed(f) && !Known(f.entries, e.id) && e.parentId != Some("")
    ensures Indexed(Join(f, e))
  {
    var g := Join(f, e);
    forall id: string | id != "" ensures ChildrenOf(g, id) == Kids(g.entries, id) {
      NewKid(f.entries, e, id);
      hide Kids;
      assert ChildrenOf(f, id) == Kids(f.entries, id);
      if e.parentId == Some(id) {
        assert ChildrenOf(g, id) == ChildrenOf(f, id) + [e.id];
      } else {
        assert ChildrenOf(g, id) == ChildrenOf(f, id);
      }
    }
  }

  lemma JoinGrows(f: Folded, e: Entry)
    requires WellGrown(f) && e.id != "" && !Known(f.entries, e.id)
    requires e.parentId.Some? ==> Known(f.entries, e.parentId.value)
    ensures WellGrown(Join(f, e)) && Known(Join(f, e).entries, e.id)
  {
    var g := Join(f, e);
    assert g.entries == f.entries + [e];
    JoinKeepsOrder(f.entries, e);
    if e.parentId.Some? { assert f.entries[IndexOf(f.entries, e.parentId.value)].id != ""; }
    JoinKeepsIndex(f, e);
    hide Indexed, Ordered;
    if f.headId.Some? { IndexOfGrown(f.entries, e, f.headId.value); }
    IndexOfGrown(f.entries, e, e.id);
  }

  lemma JoinKeepsOrder(nodes: Nodes, e: Entry)
    requires Ordered(nodes) && forall x <- nodes :: x.parentId.Some? ==> Known(nodes, x.parentId.value)
    requires e.id != "" && !Known(nodes, e.id) && (e.parentId.Some? ==> Known(nodes, e.parentId.value))
    ensures Ordered(nodes + [e]) && forall x <- nodes + [e] :: x.parentId.Some? ==> Known(nodes + [e], x.parentId.value)
  {
    var g := nodes + [e];
    assert forall i :: 0 <= i < |nodes| ==> nodes[i] in nodes;
    forall i | 0 <= i < |g| && g[i].parentId.Some?
      ensures Known(g, g[i].parentId.value) && IndexOf(g, g[i].parentId.value) < i
    {
      IndexOfGrown(nodes, e, g[i].parentId.value);
    }
  }

  /** The store in memory and a reload of its log have the same tree, and heads that are there. */
  ghost predicate Faithful(s: State) {
    && WellGrown(s.mem)
    && s.since <= |s.log|
    && s.mem == Fold(s.log).(headId := s.mem.headId)
    && (Fold(s.log).headId.Some? ==> Known(s.mem.entries, Fold(s.log).headId.value))
    && (s.mem.headId == Fold(s.log).headId <==> !EndsUnmoved(s.log, s.since))
  }

  lemma AppendStaysFaithful(s: State, id: string, under: Option<string>, isSummary: bool, body: string)
    requires Faithful(s) && Allowed(s, Append(id, under, isSummary, body, false))
    ensures var t := Do(s, Append(id, under, isSummary, body, false)); Faithful(t) && Known(t.mem.entries, id)
  {
    var e := NewEntry(s.mem, id, under, isSummary, body);
    JoinGrows(s.mem, e);
    FoldAppend(s.log, EntryLine(e));
    hide Fold, WellGrown, Store;
  }

  lemma MoveStaysFaithful(s: State, id: string)
    requires Faithful(s) && Known(s.mem.entries, id)
    ensures Faithful(Move(s, id))
  {
    FoldAppend(s.log, HeadLine(id));
    hide Fold;
  }

  lemma StepStaysFaithful(s: State, op: Op)
    requires Faithful(s) && Allowed(s, op)
    ensures Faithful(Do(s, op))
  {
    match op
    case Append(id, under, isSummary, body, moveHead) =>
      AppendStaysFaithful(s, id, under, isSummary, body);
      if moveHead { MoveStaysFaithful(Do(s, Append(id, under, isSummary, body, false)), id); }
    case SetHead(id) => MoveStaysFaithful(s, id);
    case SetLabel(id, text) =>
      FoldAppend(s.log, LabelLine(id, text));
      assert (s.log + [LabelLine(id, text)])[..|s.log|] == s.log;
    case Reload =>
  }

  lemma {:induction false} RunsAreFaithful(ops: seq<Op>)
    ensures Faithful(Run(ops))
  {
    if ops != [] {
      RunsAreFaithful(ops[..|ops| - 1]);
      var s := Run(ops[..|ops| - 1]);
      if Allowed(s, ops[|ops| - 1]) { StepStaysFaithful(s, ops[|ops| - 1]); }
    }
  }

  /**
   * A reload brings back the same tree, labels and root. It brings back the same head exactly when the
   * log does not end on an entry that was appended without moving the head, as sub-agent transcripts are.
   */
  lemma ReloadAgreesExactly(ops: seq<Op>)
    ensures var s := Run(ops); var t := Do(s, Reload);
      && t.mem.(headId := s.mem.headId) == s.mem
      && (t.mem == s.mem <==> !EndsUnmoved(s.log, s.since))
  {
    RunsAreFaithful(ops);
  }

  /** The walkers' hypothesis holds of every tree the store builds, and its child index is what they scan for. */
  lemma TreesAreOrdered(ops: seq<Op>)
    ensures var f := Run(ops).mem; Ordered(f.entries) && Indexed(f)
  {
    RunsAreFaithful(ops);
  }

  // ---- the object ----

  class SessionStoreObject {
    /** The file, line by line, and how much of it had been written when it was last read. */
    var log: seq<Record>
    var since: nat
    var entries: Nodes
    var children: map<string, seq<string>>
    var labels: map<string, string>
    var headId: Option<string>
    var rootId: Option<string>

    constructor ()
      ensures Value() == Run([])
    {
      log, since := [], 0;
      entries, children, labels, headId, rootId := [], map[], map[], None, None;
    }

    function Value(): State
      reads this
    {
      State(log, Folded(entries, children, labels, headId, rootId), since)
    }

    method JoinEntry(e: Entry)
      modifies this`entries, this`children, this`rootId
      ensures Value() == old(Value()).(mem := Join(old(Value()).mem, e))
    {
      var i := IndexOf(entries, e.id);
      entries := if i < |entries| then entries[i := e] else entries + [e];
      if !Truthy(e.parentId) {
        if rootId.None? { rootId := Some(e.id); }
      } else {
        var p := e.parentId.value;
        children := children[p := (if p in children then children[p] else []) + [e.id]];
      }
    }

    method Load()
      modifies this
      ensures Value() == Do(old(Value()), Reload)
    {
      entries, children, labels, headId, rootId := [], map[], map[], None, None;
      var i := 0;
      while i < |log|
        invariant 0 <= i <= |log| && log == old(log) && since == old(since)
        invariant Value().mem == Fold(log[..i])
      {
        FoldAppend(log[..i], log[i]);
        assert log[..i + 1] == log[..i] + [log[i]];
        match log[i] {
          case EntryLine(e) =>
            JoinEntry(e);
            headId := Some(e.id);
          case HeadLine(id) => headId := Some(id);
          case LabelLine(id, text) => labels := labels[id := text];
        }
        i := i + 1;
      }
      assert log[..i] == log;
      since := |log|;
    }

    method Point(id: string)
      modifies this`log, this`headId
      ensures Value() == Do(old(Value()), SetHead(id))
    {
      log := log + [HeadLine(id)];
      headId := Some(id);
    }

    method AppendEntry(id: string, under: Option<string>, isSummary: bool, body: string, moveHead: bool)
      modifies this
      ensures Value() == Do(old(Value()), Append(id, under, isSummary, body, moveHead))
    {
      var e := Entry(id, if under.Some? then under else headId, isSummary, body);
      log := log + [EntryLine(e)];
      JoinEntry(e);
      if moveHead { Point(id); }
    }

    method AddLabel(id: string, text: string)
      modifies this`log, this`labels
      ensures Value() == Do(old(Value()), SetLabel(id, text))
    {
      log := log + [LabelLine(id, text)];
      labels := labels[id := text];
    }

    /** False when the entry is unknown: the fork is refused and nothing changes. */
    method Fork(id: string) returns (ok: bool)
      modifies this`log, this`headId
      ensures ok == Known(entries, id)
      ensures Value() == if ok then Do(old(Value()), SetHead(id)) else old(Value())
    {
      ok := Known(entries, id);
      if ok { Point(id); }
    }
  }
}
