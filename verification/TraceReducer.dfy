/**
 * The trace as the object the reducer updates in place
 * (apps/cli/src/core/trace.ts): every method is tied to the transition function
 * on values, about which the other trace modules prove their results.
 */
module TraceReducer {
  import opened Basics
  import opened Decimal
  import opened TraceModel
  import opened TraceTree
  import T = TraceRows

  /** The first container that holds `x` is the one the search stops at. */
  lemma {:induction false} HolderIs(s: State, rs: seq<Ref>, x: Item, i: nat)
    requires i < |rs| && x in Kids(s, rs[i])
    requires forall j :: 0 <= j < i ==> x !in Kids(s, rs[j])
    ensures Holder(s, rs, x) == Some(rs[i])
    decreases |rs|
  {
    if i > 0 {
      assert x !in Kids(s, rs[0]);
      HolderIs(s, rs[1..], x, i - 1);
    }
  }

  lemma NoHolder(s: State, rs: seq<Ref>, x: Item)
    requires forall j :: 0 <= j < |rs| ==> x !in Kids(s, rs[j])
    ensures Holder(s, rs, x) == None
  {}

  lemma AgentsFirst(s: State, n: nat)
    requires n < |s.agents.keys|
    ensures n < |Containers(s)| && Containers(s)[n] == AgentRef(s.agents.keys[n])
  {}

  lemma ToolsNext(s: State, n: nat)
    ensures |Containers(s)| == |s.agents.keys| + |s.tools.keys|
    ensures n < |s.tools.keys| ==> Containers(s)[|s.agents.keys| + n] == ToolRef(s.tools.vals[s.tools.keys[n]])
  {}

  /** A displayed row, as the screen sees it. */
  datatype Shown = Shown(item: Item, depth: nat, key: string)

  function Project(rows: seq<T.Row>): seq<Shown> {
    seq(|rows|, i requires 0 <= i < |rows| => Shown(ItemOf(rows[i].item), rows[i].depth, rows[i].key))
  }

  lemma ProjectJoins(a: seq<T.Row>, b: seq<T.Row>)
    ensures Project(a + b) == Project(a) + Project(b)
  {}

  lemma ProjectKids(t: Tree, i: nat, depth: nat, key: string, o: T.Opts)
    requires i < |Below(t)|
    ensures Project(T.WalkKids(t, i + 1, depth, key, o)) ==
            Project(T.WalkKids(t, i, depth, key, o))
            + if T.Skipped(t, Below(t)[i], o) then [] else Project(T.Walk(Below(t)[i], depth, T.ChildKey(key, i), o))
  {
    ProjectJoins(T.WalkKids(t, i, depth, key, o), T.Kid(t, i, depth, key, o));
    hide Project, T.Walk;
    assert Project([]) == [] by { ProjectNothing(); }
  }

  lemma ProjectNothing()
    ensures Project([]) == []
  {}

  lemma OneMoreCard(s: State, r: Ref, cards: seq<Item>, x: Item)
    ensures Push(WithCards(s, r, cards), r, x) == WithCards(s, r, cards + [x])
  {
    var k := Kids(s, r);
    assert k + cards + [x] == k + (cards + [x]);
    assert s.kids[r := k + cards][r := k + (cards + [x])] == s.kids[r := k + (cards + [x])];
    if cards == [] { assert cards + [x] == [x]; }
  }

  lemma NoCards(s: State, r: Ref, k: seq<Item>)
    ensures WithCards(s, r, MissingCards(k, [])) == s
  {}

  lemma NextMissing(k: seq<Item>, ids: seq<string>, i: nat)
    requires i < |ids|
    ensures MissingCards(k, ids[..i + 1])
         == if Leaf(Artifact(ids[i])) in k then MissingCards(k, ids[..i])
            else MissingCards(k, ids[..i]) + [Leaf(Artifact(ids[i]))]
  {
    assert ids[..i + 1][..i] == ids[..i];
  }

  class Trace {
    var agents: JsMap<AgentItem>
    var tools: JsMap<nat>
    var nodes: seq<ToolItem>
    var kids: map<Ref, seq<Item>>
    var root: Option<string>
    var subRuns: set<string>

    function Value(): State
      reads this
    {
      State(agents, tools, nodes, kids, root, subRuns)
    }

    constructor ()
      ensures Value() == Initial
    {
      agents, tools, nodes := RawMap([], map[]), RawMap([], map[]), [];
      kids, root, subRuns := map[], None, {};
    }

    function ChildrenOf(r: Ref): seq<Item>
      reads this
    {
      Kids(Value(), r)
    }

    method PushChild(r: Ref, x: Item)
      modifies this`kids
      ensures Value() == Push(old(Value()), r, x)
    {
      kids := kids[r := ChildrenOf(r) + [x]];
    }

    /** `detachItem`: look through the agents, then the tools, and splice the node out of the first holder. */
    method DetachItem(c: Ref)
      modifies this`kids
      ensures Value() == Detach(old(Value()), c)
    {
      hide Containers, Kids;
      ghost var s := Value();
      ghost var rs := Containers(s);
      var x := Branch(c);
      ToolsNext(s, 0);
      for n := 0 to |agents.keys|
        invariant kids == old(kids)
        invariant forall j :: 0 <= j < n ==> x !in Kids(s, rs[j])
      {
        AgentsFirst(s, n);
        var r := AgentRef(agents.keys[n]);
        var i := IndexOf(ChildrenOf(r), x);
        if i >= 0 {
          HolderIs(s, rs, x, n);
          kids := kids[r := ChildrenOf(r)[..i] + ChildrenOf(r)[i + 1..]];
          return;
        }
      }
      for n := 0 to |tools.keys|
        invariant kids == old(kids)
        invariant forall j :: 0 <= j < |agents.keys| + n ==> x !in Kids(s, rs[j])
      {
        ToolsNext(s, n);
        var r := ToolRef(tools.vals[tools.keys[n]]);
        var i := IndexOf(ChildrenOf(r), x);
        if i >= 0 {
          HolderIs(s, rs, x, |agents.keys| + n);
          kids := kids[r := ChildrenOf(r)[..i] + ChildrenOf(r)[i + 1..]];
          return;
        }
      }
      NoHolder(s, rs, x);
    }

    method Rehang(c: Ref, to: Ref)
      modifies this`kids
      ensures Value() == MoveUnder(old(Value()), c, to)
    {
      if Branch(c) !in ChildrenOf(to) {
        DetachItem(c);
        PushChild(to, Branch(c));
      }
    }

    method EnsureAgent(id: string, role: Option<string>, parent: Option<string>, attachTo: Option<Ref>)
      modifies this
      ensures Value() == TraceModel.EnsureAgent(old(Value()), id, role, parent, attachTo)
    {
      if id in agents.vals {
        var a := agents.vals[id];
        if Truthy(role) { a := a.(role := role.value); }
        if attachTo.Some? && Branch(AgentRef(id)) !in ChildrenOf(attachTo.value) {
          Rehang(AgentRef(id), attachTo.value);
          if Truthy(parent) { a := a.(parentAgentId := parent); }
        }
        agents := Put(agents, id, a);
        return;
      }
      var role' := if role.Some? then role.value else if Truthy(parent) then "sub-agent" else "orchestrator";
      agents := Put(agents, id, AgentItem(role', parent, None, false));
      kids := kids[AgentRef(id) := []];
      if attachTo.Some? {
        PushChild(attachTo.value, Branch(AgentRef(id)));
      } else if Truthy(parent) && parent.value in agents.vals {
        PushChild(AgentRef(parent.value), Branch(AgentRef(id)));
      } else if root.None? {
        root := Some(id);
      }
    }

    /** `rehomeSubAgentsForTool`: one pass over the agents, in the order they were created. */
    method RehomeSubAgentsForTool(tool: Ref, callId: string)
      modifies this`kids
      ensures Value() == Rehome(old(Value()), old(agents.keys), tool, callId)
    {
      var ids := agents.keys;
      for n := 0 to |ids|
        invariant Value() == old(Value()).(kids := kids)
        invariant Rehome(Value(), ids[n..], tool, callId) == Rehome(old(Value()), ids, tool, callId)
      {
        assert ids[n..][0] == ids[n] && ids[n..][1..] == ids[n + 1..];
        assert agents == old(agents);
        if agents.vals[ids[n]].spawnedBy == Some(callId) {
          Rehang(AgentRef(ids[n]), tool);
        }
      }
    }

    method AddTool(t: ToolItem)
      modifies this
      ensures Value() == NewTool(old(Value()), t)
    {
      var n := |nodes|;
      nodes := nodes + [t];
      tools := Put(tools, t.callId, n);
      kids := kids[ToolRef(n) := []];
      PushChild(AgentRef(t.agentId), Branch(ToolRef(n)));
    }

    method MarkTool(callId: string, st: ToolStatus)
      modifies this`nodes
      ensures Value() == SetStatus(old(Value()), callId, st)
    {
      if callId in tools.vals && tools.vals[callId] < |nodes| {
        var n := tools.vals[callId];
        nodes := nodes[n := nodes[n].(status := st)];
      }
    }

    /** `@answer-question` */
    method ResumeTool(callId: string)
      modifies this`nodes
      ensures Value() == Answered(old(Value()), callId)
    {
      if callId in tools.vals && tools.vals[callId] < |nodes| && nodes[tools.vals[callId]].status == Question {
        MarkTool(callId, Running);
      }
    }

    method OpenGate(id: string, parent: Option<string>, t: ToolItem)
      modifies this
      ensures Value() == Gate(old(Value()), id, parent, t)
    {
      EnsureAgent(id, None, parent, None);
      if t.callId !in tools.vals { AddTool(t); }
      MarkTool(t.callId, t.status);
    }

    method StreamText(id: string, text: string, who: Speaker)
      modifies this
      ensures Value() == Stream(old(Value()), id, text, who)
    {
      EnsureAgent(id, None, None, None);
      kids := kids[AgentRef(id) := AppendText(ChildrenOf(AgentRef(id)), text, who)];
    }

    /** Search the children of an agent from the end, as the shell and compaction events do. */
    method FindLast(r: Ref, p: Item -> bool) returns (i: int)
      ensures i == LastIndex(ChildrenOf(r), p)
    {
      var k := ChildrenOf(r);
      i := |k| - 1;
      while i >= 0
        invariant -1 <= i < |k|
        invariant LastIndex(k, p) == LastIndex(k[..i + 1], p)
      {
        assert k[..i + 1][..i] == k[..i];
        if p(k[i]) { return; }
        i := i - 1;
      }
    }

    method CardOnRoot(x: Item)
      modifies this`kids
      ensures Value() == PushToRoot(old(Value()), x)
    {
      if Truthy(root) && root.value in agents.vals { PushChild(AgentRef(root.value), x); }
    }

    /** `@set-artifacts`: collect the ids that have a card, then add the others one by one. */
    method RestoreArtifacts(ids: seq<string>)
      modifies this`kids
      ensures Value() == RestoreCards(old(Value()), ids)
    {
      if !Truthy(root) || root.value !in agents.vals { return; }
      var r := AgentRef(root.value);
      var carded := set x | x in ChildrenOf(r) && x.Leaf? && x.content.Artifact? :: x.content.id;
      ghost var s := Value();
      ghost var k := ChildrenOf(r);
      hide WithCards, MissingCards;
      NoCards(s, r, k);
      for i := 0 to |ids|
        invariant Value() == WithCards(s, r, MissingCards(k, ids[..i]))
      {
        NextMissing(k, ids, i);
        assert Leaf(Artifact(ids[i])) in k <==> ids[i] in carded;
        if ids[i] !in carded {
          OneMoreCard(s, r, MissingCards(k, ids[..i]), Leaf(Artifact(ids[i])));
          CardOnRoot(Leaf(Artifact(ids[i])));
        }
      }
      assert ids[..|ids|] == ids;
    }

    method CloseLastCompaction()
      modifies this`kids
      ensures Value() == CloseCompaction(old(Value()))
    {
      if Truthy(root) && root.value in agents.vals {
        var r := AgentRef(root.value);
        var i := FindLast(r, CompactionMark);
        if i >= 0 { kids := kids[r := ChildrenOf(r)[i := Leaf(Compaction(true))]]; }
      }
    }

    method FillShell(output: string, exitCode: int)
      modifies this`kids
      ensures Value() == Step(old(Value()), ShellResult(output, exitCode))
    {
      if ORCHESTRATOR in agents.vals {
        var r := AgentRef(ORCHESTRATOR);
        var i := FindLast(r, RunningShell);
        if i >= 0 {
          var k := ChildrenOf(r);
          kids := kids[r := k[i := Leaf(Shell(k[i].content.command, Some((output, exitCode))))]];
        }
      }
    }

    method CloseAgent(id: string)
      modifies this`agents
      ensures Value() == FinishAgent(old(Value()), id)
    {
      if id in agents.vals { agents := Put(agents, id, agents.vals[id].(done := true)); }
    }

    method OnToolCall(e: Event)
      requires e.ToolCall?
      modifies this
      ensures Value() == CallTool(old(Value()), e)
    {
      EnsureAgent(e.agentId, None, None, None);
      var n := |nodes|;
      AddTool(ToolItem(e.callId, e.agentId, e.toolName, Running));
      if e.toolName == DELEGATE { RehomeSubAgentsForTool(ToolRef(n), e.callId); }
    }

    method OnSubAgentStart(e: Event)
      requires e.SubAgentStart?
      modifies this
      ensures Value() == StartSubAgent(old(Value()), e)
    {
      EnsureAgent(e.agentId, Some(e.role), Some(e.parent), ToolFor(Value(), e.spawner));
      if Truthy(e.spawner) && e.agentId in agents.vals {
        agents := Put(agents, e.agentId, agents.vals[e.agentId].(spawnedBy := e.spawner));
      }
      subRuns := subRuns + {e.runId};
    }

    /** `reduceTrace`: fold one event into the trace. */
    method Reduce(e: Event)
      modifies this
      ensures Value() == Step(old(Value()), e)
    {
      hide TraceModel.EnsureAgent, SetStatus, RestoreCards, Answered, LastIndex;
      match e
      case UserText(text) =>
        EnsureAgent(ORCHESTRATOR, None, None, None);
        PushChild(AgentRef(ORCHESTRATOR), Leaf(Text(text, User)));
      case ShellStart(command) =>
        EnsureAgent(ORCHESTRATOR, None, None, None);
        PushChild(AgentRef(ORCHESTRATOR), Leaf(Shell(command, None)));
      case ShellResult(output, exitCode) => FillShell(output, exitCode);
      case SetArtifacts(ids) => RestoreArtifacts(ids);
      case ApprovalDecision(callId, rejected) => MarkTool(callId, if rejected then Error else Running);
      case AnswerQuestion(callId) => ResumeTool(callId);
      case _ => ReduceStream(e);
    }

    /** The events that come from the host. */
    method ReduceStream(e: Event)
      requires !e.UserText? && !e.ShellStart? && !e.ShellResult?
      requires !e.SetArtifacts? && !e.ApprovalDecision? && !e.AnswerQuestion?
      modifies this
      ensures Value() == Step(old(Value()), e)
    {
      hide Gate, Stream, CallTool, StartSubAgent, PushToRoot, CloseCompaction, FinishAgent, SetStatus;
      match e
      case TextDelta(id, text) => StreamText(id, text, Assistant);
      case ReasoningDelta(id, text) => StreamText(id, text, Reasoning);
      case ToolCall(_, _, _) => OnToolCall(e);
      case ApprovalRequired(id, parent, callId, toolName) =>
        OpenGate(id, parent, ToolItem(callId, id, toolName, Approval));
      case QuestionRequired(id, parent, callId) =>
        OpenGate(id, parent, ToolItem(callId, id, "askUserQuestion", Question));
      case ToolResult(callId, isError) => MarkTool(callId, if isError then Error else Ok);
      case SubAgentStart(_, _, _, _, _) => OnSubAgentStart(e);
      case SubAgentFinish(id) => CloseAgent(id);
      case CompactionStart => CardOnRoot(Leaf(Compaction(false)));
      case CompactionEnd => CloseLastCompaction();
      case ArtifactCreated(id) => CardOnRoot(Leaf(Artifact(id)));
      case RunFinish(runId) =>
        if runId !in subRuns && Truthy(root) { CloseAgent(root.value); }
      case _ => assert false;
    }

    /** `walk`: append the rows of `item` and of what lies below it to `out`. */
    method Walk(item: Item, depth: nat, key: string, o: T.Opts, out: seq<Shown>, ghost t: Tree)
      returns (rows: seq<Shown>)
      requires Shape(Value(), t) && ItemOf(t) == item
      ensures rows == out + Project(T.Walk(t, depth, key, o))
      decreases t, 1
    {
      rows := out + [Shown(item, depth, key)];
      match item
      case Leaf(_) =>
      case Branch(AgentRef(id)) =>
        rows := WalkChildren(AgentRef(id), depth, key, o, rows, t);
      case Branch(ToolRef(n)) =>
        if !o.contain && (o.gate.None? || nodes[n].callId in o.gate.value) {
          rows := WalkChildren(ToolRef(n), depth, key, o, rows, t);
        }
    }

    method WalkChildren(r: Ref, depth: nat, key: string, o: T.Opts, out: seq<Shown>, ghost t: Tree)
      returns (rows: seq<Shown>)
      requires Shape(Value(), t) && ItemOf(t) == Branch(r)
      ensures rows == out + Project(T.WalkKids(t, |Below(t)|, depth + 1, key, o))
      decreases t, 0
    {
      rows := out;
      var k := ChildrenOf(r);
      ProjectNothing();
      hide Project, T.Walk, T.Kid;
      for i := 0 to |k|
        invariant rows == out + Project(T.WalkKids(t, i, depth + 1, key, o))
      {
        ghost var kid := t.kids[i];
        assert Shape(Value(), kid) && ItemOf(kid) == k[i];
        var waiting := r.AgentRef? && o.contain && k[i].Branch? && k[i].ref.AgentRef?
                       && Truthy(agents.vals[k[i].ref.id].spawnedBy);
        assert waiting <==> T.Skipped(t, kid, o);
        ProjectKids(t, i, depth + 1, key, o);
        if !waiting {
          rows := Walk(k[i], depth + 1, key + "." + Numeral(i), o, rows, kid);
        }
      }
    }

    /** `flattenTrace` */
    method FlattenTrace(o: T.Opts, ghost t: Tree) returns (rows: seq<Shown>)
      requires Truthy(root) && root.value in agents.vals ==> Shape(Value(), t) && ItemOf(t) == Branch(AgentRef(root.value))
      ensures rows == if Truthy(root) && root.value in agents.vals then Project(T.Walk(t, 0, "r", o)) else []
    {
      rows := [];
      if Truthy(root) && root.value in agents.vals {
        rows := Walk(Branch(AgentRef(root.value)), 0, "r", o, [], t);
      }
    }

    /** `flattenSubAgentLog` */
    method FlattenSubAgentLog(n: nat, ghost t: Tree) returns (rows: seq<Shown>)
      requires Shape(Value(), t) && ItemOf(t) == Branch(ToolRef(n))
      ensures rows == Project(T.Log(t, |t.kids|))
    {
      rows := [];
      var k := ChildrenOf(ToolRef(n));
      ProjectNothing();
      hide Project, T.Walk;
      for i := 0 to |k|
        invariant rows == Project(T.Log(t, i))
      {
        ProjectJoins(T.Log(t, i), T.Walk(t.kids[i], 1, T.LogKey(t, i), T.CONTAINED));
        rows := Walk(k[i], 1, nodes[n].callId + ":" + Numeral(i), T.CONTAINED, rows, t.kids[i]);
      }
    }
  }
}
