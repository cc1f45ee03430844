/** What the session store holds, read off the operations alone (packages/agent/src/storage/session-store.ts). */
module SessionHistory {
  import opened Basics
  import opened SessionTree
  import opened SessionStore

  /** The last entry that was appended or pointed at: where a reload finds the head. */
  function DiskHead(ops: seq<Op>): Option<string> {
    if ops == [] then None
    else
      var op := ops[|ops| - 1];
      if op.Append? then Some(op.id) else if op.SetHead? then Some(op.entryId) else DiskHead(ops[..|ops| - 1])
  }

  /** The last entry that moved the head or was pointed at, since a reload took it from the disk. */
  function HeadBy(ops: seq<Op>): Option<string> {
    if ops == [] then None
    else
      var n := |ops| - 1;
      match ops[n]
      case Append(id, _, _, _, moveHead) => if moveHead then Some(id) else HeadBy(ops[..n])
      case SetHead(id) => Some(id)
      case SetLabel(_, _) => HeadBy(ops[..n])
      case Reload => DiskHead(ops[..n])
  }

  /** Every entry ever appended, under the parent it names or else under the head. */
  function EntriesBy(ops: seq<Op>): Nodes {
    if ops == [] then []
    else
      var n := |ops| - 1;
      match ops[n]
      case Append(id, under, isSummary, body, _) =>
        EntriesBy(ops[..n]) + [Entry(id, if under.Some? then under else HeadBy(ops[..n]), isSummary, body)]
      case _ => EntriesBy(ops[..n])
  }

  /** The last label given to an entry. */
  function LabelBy(ops: seq<Op>, id: string): Option<string> {
    if ops == [] then None
    else
      var op := ops[|ops| - 1];
      if op.SetLabel? && op.entryId == id then Some(op.text) else LabelBy(ops[..|ops| - 1], id)
  }

  /** The first entry without a parent. */
  function RootBy(entries: Nodes): Option<string> {
    if entries == [] then None
    else if entries[0].parentId.None? then Some(entries[0].id)
    else RootBy(entries[1..])
  }

  ghost predicate AllAllowed(ops: seq<Op>) {
    forall k :: 0 <= k < |ops| ==> Allowed(Run(ops[..k]), ops[k])
  }

  ghost predicate Held(s: State, ops: seq<Op>, id: string) {
    && s.mem.entries == EntriesBy(ops)
    && s.mem.headId == HeadBy(ops)
    && s.mem.rootId == RootBy(EntriesBy(ops))
    && (id in s.mem.labels <==> LabelBy(ops, id).Some?)
    && (id in s.mem.labels ==> s.mem.labels[id] == LabelBy(ops, id).value)
  }

  lemma {:induction false} RootGrows(entries: Nodes, e: Entry)
    ensures RootBy(entries + [e]) ==
      if RootBy(entries).Some? then RootBy(entries) else if e.parentId.None? then Some(e.id) else None
  {
    if entries == [] {
      assert entries + [e] == [e] && [e][1..] == [];
    } else {
      assert (entries + [e])[1..] == entries[1..] + [e];
      RootGrows(entries[1..], e);
    }
  }

  lemma LastOp(ops: seq<Op>)
    requires ops != [] && AllAllowed(ops)
    ensures var n := |ops| - 1;
      && AllAllowed(ops[..n]) && Allowed(Run(ops[..n]), ops[n]) && Run(ops) == Do(Run(ops[..n]), ops[n])
  {
    hide Allowed, Do;
    var n := |ops| - 1;
    forall k | 0 <= k < n ensures Allowed(Run(ops[..n][..k]), ops[..n][k]) {
      assert ops[..n][..k] == ops[..k];
    }
  }

  /** The head a reload would find moves with every entry and every head line. */
  lemma DiskHeadStep(s: State, op: Op)
    ensures Fold(Do(s, op).log).headId ==
      if op.Append? then Some(op.id) else if op.SetHead? then Some(op.entryId) else Fold(s.log).headId
  {
    match op
    case Append(id, under, isSummary, body, moveHead) =>
      var e := NewEntry(s.mem, id, under, isSummary, body);
      FoldAppend(s.log, EntryLine(e));
      FoldAppend(s.log + [EntryLine(e)], HeadLine(id));
    case SetHead(id) => FoldAppend(s.log, HeadLine(id));
    case SetLabel(id, text) => FoldAppend(s.log, LabelLine(id, text));
    case Reload =>
    hide Fold;
  }

  lemma {:induction false} DiskHeadExactly(ops: seq<Op>)
    requires AllAllowed(ops)
    ensures Fold(Run(ops).log).headId == DiskHead(ops)
  {
    hide Run, Fold, Do, Allowed, AllAllowed;
    if ops == [] {
      NothingYet();
    } else {
      LastOp(ops);
      DiskHeadExactly(ops[..|ops| - 1]);
      DiskHeadStep(Run(ops[..|ops| - 1]), ops[|ops| - 1]);
    }
  }

  lemma NothingYet()
    ensures Run([]).log == [] && Run([]).mem == EmptyFold && Fold([]) == EmptyFold
  {}

  lemma EntryJoins(s: State, op: Op)
    requires Faithful(s) && Allowed(s, op) && op.Append?
    ensures var t := Do(s, op);
      var e := Entry(op.id, if op.under.Some? then op.under else s.mem.headId, op.isSummary, op.body);
      && t.mem.entries == s.mem.entries + [e] && t.mem.labels == s.mem.labels
      && t.mem.headId == (if op.moveHead then Some(op.id) else s.mem.headId)
      && t.mem.rootId == if s.mem.rootId.Some? then s.mem.rootId else if e.parentId.None? then Some(e.id) else None
  {
    var e := NewEntry(s.mem, op.id, op.under, op.isSummary, op.body);
    hide Fold, Indexed;
    if e.parentId.Some? { assert s.mem.entries[IndexOf(s.mem.entries, e.parentId.value)].id != ""; }
  }

  /**
   * For every history, reloads included: the entries are those appended, each under the parent it names or else
   * under the head of that moment; the head, the root and the labels are the last ones given.
   */
  lemma {:induction false} StoreExactly(ops: seq<Op>, id: string)
    requires AllAllowed(ops)
    ensures Held(Run(ops), ops, id)
  {
    hide Run, Fold, AllAllowed, Faithful, RootBy;
    NothingYet();
    if ops == [] {
      NoRoot();
    } else {
      var n := |ops| - 1;
      var s, op := Run(ops[..n]), ops[n];
      LastOp(ops);
      StoreExactly(ops[..n], id);
      RunsAreFaithful(ops[..n]);
      match op
      case Append(_, _, _, _, _) =>
        hide Do, Allowed;
        EntryJoins(s, op);
        RootGrows(EntriesBy(ops[..n]), EntriesBy(ops)[|EntriesBy(ops)| - 1]);
      case Reload =>
        ReloadKeeps(s);
        DiskHeadExactly(ops[..n]);
      case _ =>
    }
  }

  lemma NoRoot()
    ensures RootBy([]) == None
  {}

  lemma ReloadKeeps(s: State)
    requires Faithful(s)
    ensures Do(s, Reload).mem == s.mem.(headId := Fold(s.log).headId)
  {
    hide Fold;
  }
}
