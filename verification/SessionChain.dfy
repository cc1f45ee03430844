/** What a conversation leaves in the session store (packages/agent/src/storage/session-store.ts). */
module SessionChain {
  import opened Basics
  import opened SessionTree
  import opened SessionStore

  /** The path to an entry is not changed by entries that come later. */
  lemma {:induction false} PathIsKept(nodes: Nodes, e: Entry, head: Option<string>)
    requires Ordered(nodes) && Ordered(nodes + [e]) && !Known(nodes, e.id)
    requires Truthy(head) ==> Known(nodes, head.value)
    requires forall x <- nodes :: x.parentId.Some? ==> Known(nodes, x.parentId.value)
    ensures HeadPath(nodes + [e], head) == HeadPath(nodes, head)
    decreases if head.Some? && Known(nodes, head.value) then 1 + IndexOf(nodes, head.value) else 0
  {
    if Truthy(head) {
      IndexOfGrown(nodes, e, head.value);
      var x := nodes[IndexOf(nodes, head.value)];
      assert (nodes + [e])[IndexOf(nodes, head.value)] == x && x in nodes;
      if !x.isSummary { PathIsKept(nodes, e, x.parentId); }
    }
  }

  /** The path once one more entry has been put under its end: a summary starts it anew. */
  function Extended(path: seq<Entry>, e: Entry): seq<Entry> {
    if e.isSummary then [e] else path + [e]
  }

  /** A message: no parent is named, and the head moves to it. */
  predicate Message(op: Op) {
    op.Append? && op.under.None? && op.moveHead
  }

  /** The entry a message becomes behind this one. */
  function EntryOf(op: Op, before: Option<string>): Entry
    requires op.Append?
  {
    Entry(op.id, before, op.isSummary, op.body)
  }

  lemma MessageExtends(s: State, op: Op)
    requires Faithful(s) && Allowed(s, op) && Message(op)
    ensures var t, e := Do(s, op), EntryOf(op, s.mem.headId);
      && Faithful(t) && t.mem.entries == s.mem.entries + [e] && t.mem.headId == Some(op.id)
      && HeadPath(t.mem.entries, t.mem.headId) == Extended(HeadPath(s.mem.entries, s.mem.headId), e)
  {
    var e := EntryOf(op, s.mem.headId);
    var nodes := s.mem.entries;
    StepStaysFaithful(s, op);
    JoinKeepsOrder(nodes, e);
    IndexOfGrown(nodes, e, op.id);
    assert Do(s, op).mem.entries == nodes + [e];
    assert (nodes + [e])[|nodes|] == e;
    hide Fold, EndsUnmoved;
    PathIsKept(nodes, e, s.mem.headId);
  }

  /** The active path of a store. */
  ghost function PathOf(s: State): seq<Entry>
    requires Faithful(s)
  {
    HeadPath(s.mem.entries, s.mem.headId)
  }

  /** An entry that does not move the head leaves the active path alone. */
  lemma SideEntriesKeepThePath(s: State, op: Op)
    requires Faithful(s) && Allowed(s, op) && op.Append? && !op.moveHead
    ensures var t := Do(s, op); Faithful(t) && t.mem.headId == s.mem.headId && PathOf(t) == PathOf(s)
  {
    var e := NewEntry(s.mem, op.id, op.under, op.isSummary, op.body);
    var nodes := s.mem.entries;
    StepStaysFaithful(s, op);
    assert Do(s, op).mem.entries == nodes + [e];
    hide Fold, EndsUnmoved, Indexed;
    PathIsKept(nodes, e, s.mem.headId);
  }

  predicate AllMessages(more: seq<Op>) {
    forall k :: 0 <= k < |more| ==> Message(more[k])
  }

  /** What the messages become: each entry is the child of the one before, the first of the head there was. */
  function Chain(head: Option<string>, more: seq<Op>): seq<Entry>
    requires AllMessages(more)
  {
    if more == [] then []
    else
      var n := |more| - 1;
      Chain(head, more[..n]) + [EntryOf(more[n], if n == 0 then head else Some(more[n - 1].id))]
  }

  function PathAfter(path: seq<Entry>, es: seq<Entry>): seq<Entry> {
    if es == [] then path else Extended(PathAfter(path, es[..|es| - 1]), es[|es| - 1])
  }

  /** `t` is `s` after the messages: their chain behind its entries, its head, and the path that goes with it. */
  ghost predicate Continues(s: State, t: State, more: seq<Op>) {
    && Faithful(s) && Faithful(t) && AllMessages(more)
    && t.mem.entries == s.mem.entries + Chain(s.mem.headId, more)
    && t.mem.headId == (if more == [] then s.mem.headId else Some(more[|more| - 1].id))
    && PathOf(t) == PathAfter(PathOf(s), Chain(s.mem.headId, more))
  }

  lemma OneMoreMessage(s: State, t: State, more: seq<Op>, op: Op)
    requires Continues(s, t, more) && Allowed(t, op) && Message(op)
    ensures Continues(s, Do(t, op), more + [op])
  {
    hide Faithful, Allowed, Do, HeadPath, Extended;
    var all, head := more + [op], s.mem.headId;
    MessageExtends(t, op);
    assert all[..|more|] == more && all[|more|] == op;
    var chain, e := Chain(head, more), EntryOf(op, t.mem.headId);
    assert AllMessages(all);
    assert Chain(head, all) == chain + [e];
    assert (chain + [e])[..|chain|] == chain;
    assert PathAfter(PathOf(s), chain + [e]) == Extended(PathAfter(PathOf(s), chain), e);
    hide *;
    ContinuesBy(s, t, more, op, chain, e);
  }

  lemma ContinuesBy(s: State, t: State, more: seq<Op>, op: Op, chain: seq<Entry>, e: Entry)
    requires Continues(s, t, more) && Faithful(Do(t, op)) && AllMessages(more + [op])
    requires chain == Chain(s.mem.headId, more) && Chain(s.mem.headId, more + [op]) == chain + [e]
    requires var u := Do(t, op); u.mem.entries == t.mem.entries + [e] && u.mem.headId == Some(op.id)
    requires PathOf(Do(t, op)) == Extended(PathOf(t), e)
    requires PathAfter(PathOf(s), chain + [e]) == Extended(PathAfter(PathOf(s), chain), e)
    ensures Continues(s, Do(t, op), more + [op])
  {
    hide Faithful, Do, PathOf, PathAfter, Chain, Extended, AllMessages;
    assert s.mem.entries + chain + [e] == s.mem.entries + (chain + [e]);
  }

  /** Each message comes when its id is new. */
  ghost predicate AllAllowed(ops: seq<Op>, more: seq<Op>) {
    forall k :: 0 <= k < |more| ==> Allowed(Run(ops + more[..k]), more[k])
  }

  lemma LastRun(all: seq<Op>)
    requires all != [] && Allowed(Run(all[..|all| - 1]), all[|all| - 1])
    ensures Run(all) == Do(Run(all[..|all| - 1]), all[|all| - 1])
  {
    hide Allowed, Do;
  }

  lemma AllowedPrefix(ops: seq<Op>, more: seq<Op>)
    requires AllAllowed(ops, more) && AllMessages(more) && more != []
    ensures var n := |more| - 1;
      && AllAllowed(ops, more[..n]) && AllMessages(more[..n])
      && Allowed(Run(ops + more[..n]), more[n]) && Message(more[n])
      && Run(ops + more) == Do(Run(ops + more[..n]), more[n])
  {
    hide Allowed, Do, Message, Run;
    var n := |more| - 1;
    forall k | 0 <= k < n ensures Allowed(Run(ops + more[..n][..k]), more[..n][k]) {
      assert more[..n][..k] == more[..k];
    }
    var all := ops + more;
    assert all[..|all| - 1] == ops + more[..n] && all[|all| - 1] == more[n];
    LastRun(all);
  }

  lemma NothingSaid(s: State)
    requires Faithful(s)
    ensures Continues(s, s, [])
  {
    hide Faithful, HeadPath;
    assert s.mem.entries + [] == s.mem.entries;
  }

  /**
   * After any history, a conversation is a chain: each message hangs under the one before it, the first under
   * the head there was, and the active path is the old one with all of them behind it, from the last summary on.
   */
  lemma {:induction false} ConversationIsAChain(ops: seq<Op>, more: seq<Op>)
    requires AllMessages(more) && AllAllowed(ops, more)
    ensures Continues(Run(ops), Run(ops + more), more)
  {
    hide *;
    if more == [] {
      RunsAreFaithful(ops);
      NothingSaid(Run(ops));
      assert ops + more == ops;
    } else {
      var n := |more| - 1;
      AllowedPrefix(ops, more);
      ConversationIsAChain(ops, more[..n]);
      OneMoreMessage(Run(ops), Run(ops + more[..n]), more[..n], more[n]);
      assert more[..n] + [more[n]] == more;
    }
  }

  /** Without a summary the path holds the whole conversation. */
  lemma {:induction false} PathHoldsAll(path: seq<Entry>, es: seq<Entry>)
    requires forall e <- es :: !e.isSummary
    ensures PathAfter(path, es) == path + es
  {
    if es != [] {
      var n := |es| - 1;
      assert forall e <- es[..n] :: e in es;
      PathHoldsAll(path, es[..n]);
      assert es[n] in es && es == es[..n] + [es[n]];
    }
  }
}
