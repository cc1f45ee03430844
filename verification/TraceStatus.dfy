/**
 * What a trace says about its tools and agents besides where they sit, read off the events alone: the
 * status of every tool call, which agents are done, and which leaf a result closes.
 */
module TraceStatus {
  import opened Basics
  import opened TraceModel
  import opened TracePlacement
  import opened TraceRehome
  import opened TraceStreams
  import opened TraceSeats

  // ---- tools ----

  /** What an event makes of the tool known under a call id, if any. */
  function Marked(t: Option<ToolItem>, e: Event, c: string): Option<ToolItem> {
    match e
    case ToolCall(a, id, name) => if id == c then Some(ToolItem(c, a, name, Running)) else t
    case ApprovalRequired(a, _, id, name) =>
      if id != c then t
      else if t.None? then Some(ToolItem(c, a, name, Approval)) else Some(t.value.(status := Approval))
    case QuestionRequired(a, _, id) =>
      if id != c then t
      else if t.None? then Some(ToolItem(c, a, "askUserQuestion", Question)) else Some(t.value.(status := Question))
    case ToolResult(id, isError) =>
      if id == c && t.Some? then Some(t.value.(status := if isError then Error else Ok)) else t
    case ApprovalDecision(id, rejected) =>
      if id == c && t.Some? then Some(t.value.(status := if rejected then Error else Running)) else t
    case AnswerQuestion(id) =>
      if id == c && t.Some? && t.value.status == Question then Some(t.value.(status := Running)) else t
    case _ => t
  }

  function ToolAfter(es: seq<Event>, c: string): Option<ToolItem> {
    if es == [] then None else Marked(ToolAfter(es[..|es| - 1], c), es[|es| - 1], c)
  }

  /** The node under which a call id is known. */
  function ToolAt(s: State, c: string): Option<ToolItem> {
    if c in s.tools.vals && s.tools.vals[c] < |s.nodes| then Some(s.nodes[s.tools.vals[c]]) else None
  }

  /** Call ids are registered under nodes of their own. */
  ghost predicate Filed(s: State) {
    forall c <- s.tools.vals :: s.tools.vals[c] < |s.nodes| && s.nodes[s.tools.vals[c]].callId == c
  }

  lemma NewToolIs(s: State, t: ToolItem)
    requires Filed(s)
    ensures var u := NewTool(s, t);
      && Filed(u)
      && forall c :: ToolAt(u, c) == if c == t.callId then Some(t) else ToolAt(s, c)
  {
    hide Push;
    var u := NewTool(s, t);
    assert u.nodes == s.nodes + [t] && u.tools.vals == s.tools.vals[t.callId := |s.nodes|] by { NewToolFields(s, t); }
    hide NewTool;
  }

  lemma NewToolFields(s: State, t: ToolItem)
    ensures NewTool(s, t).nodes == s.nodes + [t] && NewTool(s, t).tools.vals == s.tools.vals[t.callId := |s.nodes|]
  {}

  lemma StatusIs(s: State, id: string, st: ToolStatus)
    requires Filed(s)
    ensures var u := SetStatus(s, id, st);
      && Filed(u)
      && forall c :: ToolAt(u, c) ==
           if c == id && ToolAt(s, c).Some? then Some(ToolAt(s, c).value.(status := st)) else ToolAt(s, c)
  {}

  lemma SameTools(s: State, t: State)
    requires t.tools == s.tools && t.nodes == s.nodes
    ensures (Filed(s) ==> Filed(t)) && forall c :: ToolAt(t, c) == ToolAt(s, c)
  {}

  lemma GateIs(s: State, id: string, parent: Option<string>, t: ToolItem)
    requires Filed(s)
    ensures var u := Gate(s, id, parent, t);
      && Filed(u)
      && forall c :: ToolAt(u, c) == if c != t.callId then ToolAt(s, c)
                                     else if ToolAt(s, c).None? then Some(t)
                                     else Some(ToolAt(s, c).value.(status := t.status))
  {
    EnsureSameRegistry(s, id, None, parent, None);
    var s1 := EnsureAgent(s, id, None, parent, None);
    SameTools(s, s1);
    var s2 := if t.callId in s1.tools.vals then s1 else NewTool(s1, t);
    if t.callId !in s1.tools.vals { NewToolIs(s1, t); }
    StatusIs(s2, t.callId, t.status);
    hide EnsureAgent, NewTool, SetStatus;
  }

  lemma CallIs(s: State, e: Event)
    requires Filed(s) && e.ToolCall?
    ensures var u := CallTool(s, e); var t := ToolItem(e.callId, e.agentId, e.toolName, Running);
      && Filed(u)
      && forall c :: ToolAt(u, c) == if c == e.callId then Some(t) else ToolAt(s, c)
  {
    var t := ToolItem(e.callId, e.agentId, e.toolName, Running);
    EnsureSameRegistry(s, e.agentId, None, None, None);
    var s1 := EnsureAgent(s, e.agentId, None, None, None);
    SameTools(s, s1);
    NewToolIs(s1, t);
    var s2 := NewTool(s1, t);
    RehomeKeepsRegistry(s2, s2.agents.keys, ToolRef(|s1.nodes|), e.callId);
    SameTools(s2, Rehome(s2, s2.agents.keys, ToolRef(|s1.nodes|), e.callId));
    hide EnsureAgent, NewTool, Rehome;
  }

  lemma StepMarks(s: State, e: Event)
    requires Filed(s)
    ensures Filed(Step(s, e)) && forall c :: ToolAt(Step(s, e), c) == Marked(ToolAt(s, c), e, c)
  {
    hide EnsureAgent, Gate, CallTool, StartSubAgent, LastIndex, SetStatus, RestoreCards, PushToRoot, CloseCompaction;
    match e
    case ToolCall(_, _, _) => CallIs(s, e);
    case ApprovalRequired(id, parent, callId, toolName) => GateIs(s, id, parent, ToolItem(callId, id, toolName, Approval));
    case QuestionRequired(id, parent, callId) =>
      GateIs(s, id, parent, ToolItem(callId, id, "askUserQuestion", Question));
    case ToolResult(callId, isError) => StatusIs(s, callId, if isError then Error else Ok);
    case ApprovalDecision(callId, rejected) => StatusIs(s, callId, if rejected then Error else Running);
    case AnswerQuestion(callId) => StatusIs(s, callId, Running);
    case _ =>
      OthersKeepTools(s, e);
      SameTools(s, Step(s, e));
  }

  lemma OthersKeepTools(s: State, e: Event)
    requires TraceStreams.Introduced(e) == {} && !e.ToolResult? && !e.ApprovalDecision? && !e.AnswerQuestion?
    ensures Step(s, e).tools == s.tools && Step(s, e).nodes == s.nodes
  {
    match Introduces(e) {
      case Some((id, parent)) => EnsureSameRegistry(s, id, None, parent, None);
      case None =>
        if e.SubAgentStart? {
          EnsureSameRegistry(s, e.agentId, Some(e.role), Some(e.parent), ToolFor(s, e.spawner));
        }
    }
    hide EnsureAgent, LastIndex, ToolFor, Kids, AppendText, MissingCards;
  }

  /** Over every stream: which tool a call id stands for, and its status, follow from the events with that id. */
  lemma {:induction false} ToolsExactly(es: seq<Event>, c: string)
    ensures Filed(Run(es)) && ToolAt(Run(es), c) == ToolAfter(es, c)
  {
    if es != [] {
      hide Step, Marked, ToolAt, Filed;
      ToolsExactly(es[..|es| - 1], c);
      StepMarks(Run(es[..|es| - 1]), es[|es| - 1]);
    } else {
      NoTools(c);
    }
  }

  lemma NoTools(c: string)
    ensures Filed(Initial) && ToolAt(Initial, c).None?
  {}

  // ---- agents ----

  predicate DoneAt(s: State, a: string) {
    a in s.agents.vals && s.agents.vals[a].done
  }

  lemma EnsuringKeepsDone(s: State, id: string, role: Option<string>, parent: Option<string>, tool: Option<Ref>)
    ensures var t := EnsureAgent(s, id, role, parent, tool);
      && t.subRuns == s.subRuns && forall a :: DoneAt(t, a) <==> DoneAt(s, a)
  {
    hide KnownAgent, NewAgent, DoneAt;
    if id in s.agents.vals {
      KnownKeepsDone(s, id, role, parent, tool);
    } else {
      BirthKeepsDone(s, id, role, parent, tool);
    }
  }

  lemma KnownKeepsDone(s: State, id: string, role: Option<string>, parent: Option<string>, tool: Option<Ref>)
    requires id in s.agents.vals
    ensures var t := KnownAgent(s, id, role, parent, tool);
      && t.subRuns == s.subRuns && forall a :: DoneAt(t, a) <==> DoneAt(s, a)
  {
    hide MoveUnder, Kids;
    if tool.Some? {
      MoveKeepsAgents(s, AgentRef(id), tool.value);
      MoveKeepsRuns(s, AgentRef(id), tool.value);
    }
  }

  lemma MoveKeepsRuns(s: State, c: Ref, to: Ref)
    ensures MoveUnder(s, c, to).subRuns == s.subRuns
  {
    hide Containers, Kids;
  }

  lemma BirthKeepsDone(s: State, id: string, role: Option<string>, parent: Option<string>, tool: Option<Ref>)
    requires id !in s.agents.vals
    ensures var t := NewAgent(s, id, role, parent, tool);
      && t.subRuns == s.subRuns && forall a :: DoneAt(t, a) <==> DoneAt(s, a)
  {
    hide Kids, Berth;
  }

  /** The event ends the agent. */
  predicate EndsAgent(s: State, e: Event, a: string) {
    && a in s.agents.vals
    && (e == SubAgentFinish(a) || (e.RunFinish? && e.runId !in s.subRuns && Truthy(s.root) && s.root == Some(a)))
  }

  lemma StartKeepsDone(s: State, e: Event, a: string)
    requires e.SubAgentStart?
    ensures DoneAt(StartSubAgent(s, e), a) <==> DoneAt(s, a)
    ensures StartSubAgent(s, e).subRuns == s.subRuns + {e.runId}
  {
    EnsuringKeepsDone(s, e.agentId, Some(e.role), Some(e.parent), ToolFor(s, e.spawner));
    hide EnsureAgent, ToolFor;
  }

  lemma CallKeepsDone(s: State, e: Event, a: string)
    requires e.ToolCall?
    ensures DoneAt(CallTool(s, e), a) <==> DoneAt(s, a)
    ensures CallTool(s, e).subRuns == s.subRuns
  {
    EnsuringKeepsDone(s, e.agentId, None, None, None);
    var s1 := EnsureAgent(s, e.agentId, None, None, None);
    var s2 := NewTool(s1, ToolItem(e.callId, e.agentId, e.toolName, Running));
    RehomeKeepsRegistry(s2, s2.agents.keys, ToolRef(|s1.nodes|), e.callId);
    hide EnsureAgent, Rehome;
  }

  lemma StepDone(s: State, e: Event, a: string)
    ensures DoneAt(Step(s, e), a) <==> DoneAt(s, a) || EndsAgent(s, e, a)
    ensures Step(s, e).subRuns == s.subRuns + if e.SubAgentStart? then {e.runId} else {}
  {
    hide EnsureAgent, StartSubAgent, CallTool, LastIndex, Kids, AppendText, MissingCards, SetStatus;
    if e.SubAgentStart? {
      StartKeepsDone(s, e, a);
    } else if e.ToolCall? {
      CallKeepsDone(s, e, a);
    } else if Introduces(e).Some? {
      var (id, parent) := Introduces(e).value;
      EnsuringKeepsDone(s, id, None, parent, None);
      OnlyTheIntroduced(s, e);
      RunsKept(s, e);
      hide Step;
    } else {
      QuietDone(s, e, a);
    }
  }

  lemma QuietDone(s: State, e: Event, a: string)
    requires Introduces(e).None? && !e.SubAgentStart?
    ensures DoneAt(Step(s, e), a) <==> DoneAt(s, a) || EndsAgent(s, e, a)
    ensures Step(s, e).subRuns == s.subRuns
  {
    hide LastIndex, Kids, MissingCards;
  }

  lemma RunsKept(s: State, e: Event)
    requires Introduces(e).Some? && !e.ToolCall?
    ensures Step(s, e).subRuns == Introduce(s, e).subRuns
  {
    hide EnsureAgent, AppendText;
  }

  lemma StepNodes(s: State, e: Event, a: string)
    ensures a in Step(s, e).agents.vals <==> a in s.agents.vals || NamesAgent(e, a)
  {
    hide Step, StartSubAgent, CallTool, EnsureAgent;
    StepIs(s, e);
    if e.SubAgentStart? {
      StartAgents(s, e);
    } else if e.ToolCall? {
      CallAgents(s, e);
    } else if Introduces(e).Some? {
      EnsuringKeepsNames(s, Introduces(e).value.0, Introduces(e).value.1);
      OnlyTheIntroduced(s, e);
    } else {
      NobodyIntroduced(s, e);
    }
  }

  ghost predicate Named(es: seq<Event>, a: string) {
    exists e <- es :: NamesAgent(e, a)
  }

  ghost predicate StartedRun(es: seq<Event>, runId: string) {
    exists e <- es :: e.SubAgentStart? && e.runId == runId
  }

  /** Over every stream an agent has a node exactly when an event has named it. */
  lemma {:induction false} NodesExactly(es: seq<Event>, a: string)
    ensures a in Run(es).agents.vals <==> Named(es, a)
  {
    if es != [] {
      var n := |es| - 1;
      NodesExactly(es[..n], a);
      StepNodes(Run(es[..n]), es[n], a);
      hide Step, NamesAgent;
      assert es == es[..n] + [es[n]];
    }
  }

  lemma {:induction false} SubRunsExactly(es: seq<Event>, runId: string)
    ensures runId in Run(es).subRuns <==> StartedRun(es, runId)
  {
    hide Step;
    if es != [] {
      var n := |es| - 1;
      SubRunsExactly(es[..n], runId);
      StepDone(Run(es[..n]), es[n], "");
      StartedGrows(es, runId);
      hide StartedRun, DoneAt, EndsAgent;
    }
  }

  lemma StartedGrows(es: seq<Event>, runId: string)
    requires es != []
    ensures var n := |es| - 1;
      StartedRun(es, runId) <==> StartedRun(es[..n], runId) || (es[n].SubAgentStart? && es[n].runId == runId)
  {
    assert es == es[..|es| - 1] + [es[|es| - 1]];
  }

  /** Event `i` ends the agent: its own finish, or for the orchestrator the finish of a run that is no sub-agent's. */
  ghost predicate EndedAt(es: seq<Event>, i: nat, a: string) {
    && i < |es| && Named(es[..i], a)
    && (es[i] == SubAgentFinish(a) || (a == ORCHESTRATOR && es[i].RunFinish? && !StartedRun(es[..i], es[i].runId)))
  }

  lemma EndingIs(es: seq<Event>, a: string)
    requires OrchestratorFirst(es) && es != []
    ensures var n := |es| - 1; EndsAgent(Run(es[..n]), es[n], a) <==> EndedAt(es, n, a)
  {
    var n := |es| - 1;
    NodesExactly(es[..n], a);
    if es[n].RunFinish? { SubRunsExactly(es[..n], es[n].runId); }
    if n > 0 {
      assert forall e <- es[..n] :: e in es;
      assert es[..n][0] == es[0];
      RootIsTheOrchestrator(es[..n]);
    } else {
      assert es[..0] == [];
    }
    hide Run, Named, StartedRun;
  }

  ghost predicate Ended(es: seq<Event>, a: string) {
    exists i :: EndedAt(es, i, a)
  }

  lemma EndedGrows(es: seq<Event>, a: string)
    requires es != []
    ensures Ended(es, a) <==> Ended(es[..|es| - 1], a) || EndedAt(es, |es| - 1, a)
  {
    hide EndedAt;
    var n := |es| - 1;
    if i: nat :| EndedAt(es, i, a) {
      EndedInside(es, i, a);
      if i < n { EndedPrefix(es, i, a); }
    }
    if i: nat :| EndedAt(es[..n], i, a) {
      EndedInside(es[..n], i, a);
      EndedPrefix(es, i, a);
    }
  }

  lemma OrderedPrefix(es: seq<Event>)
    requires OrchestratorFirst(es) && es != []
    ensures OrchestratorFirst(es[..|es| - 1])
  {
    var n := |es| - 1;
    assert forall e <- es[..n] :: e in es;
    assert n > 0 ==> es[..n][0] == es[0];
    hide CreatesOrchestrator;
  }

  lemma LastDone(es: seq<Event>, a: string)
    requires es != []
    ensures var s := Run(es[..|es| - 1]); DoneAt(Run(es), a) <==> DoneAt(s, a) || EndsAgent(s, es[|es| - 1], a)
  {
    hide DoneAt, EndsAgent, Step;
    StepDone(Run(es[..|es| - 1]), es[|es| - 1], a);
  }

  /** Over every stream that creates the orchestrator first: which agents are done. */
  lemma {:induction false} DoneExactly(es: seq<Event>, a: string)
    requires OrchestratorFirst(es)
    ensures DoneAt(Run(es), a) <==> exists i :: EndedAt(es, i, a)
  {
    hide DoneAt, EndsAgent, OrchestratorFirst, EndedAt;
    if es != [] {
      hide Run;
      OrderedPrefix(es);
      DoneExactly(es[..|es| - 1], a);
      LastDone(es, a);
      EndingIs(es, a);
      EndedGrows(es, a);
    } else {
      NothingEnded(a);
    }
  }

  lemma NothingEnded(a: string)
    ensures !DoneAt(Run([]), a) && forall i: nat :: !EndedAt([], i, a)
  {}

  lemma EndedPrefix(es: seq<Event>, i: nat, a: string)
    requires i < |es| - 1
    ensures EndedAt(es, i, a) <==> EndedAt(es[..|es| - 1], i, a)
  {
    assert es[..|es| - 1][..i] == es[..i];
  }

  lemma EndedInside(es: seq<Event>, i: nat, a: string)
    requires EndedAt(es, i, a)
    ensures i < |es|
  {}

  // ---- leaves ----

  lemma RunningIs(x: Item)
    ensures RunningShell(x) ==> exists c :: x == Leaf(Shell(c, None))
  {
    if RunningShell(x) { assert x == Leaf(Shell(x.content.command, None)); }
  }

  /** A result goes to the last command that is still running, and closes it. */
  lemma ResultClosesTheLastCommand(s: State, output: string, exitCode: int, i: nat, command: string)
    requires ORCHESTRATOR in s.agents.vals
    requires var k := Kids(s, AgentRef(ORCHESTRATOR));
      && i < |k| && k[i] == Leaf(Shell(command, None))
      && forall j, c :: i < j < |k| ==> k[j] != Leaf(Shell(c, None))
    ensures var k, t := Kids(s, AgentRef(ORCHESTRATOR)), Step(s, ShellResult(output, exitCode));
      t == WithKids(s, AgentRef(ORCHESTRATOR), k[i := Leaf(Shell(command, Some((output, exitCode))))])
  {
    var k := Kids(s, AgentRef(ORCHESTRATOR));
    var m := LastIndex(k, RunningShell);
    assert RunningShell(k[i]);
    forall j | i < j < |k| ensures !RunningShell(k[j]) { RunningIs(k[j]); }
  }

  /** The end of a compaction closes the last marker of the root. */
  lemma EndClosesTheLastMarker(s: State, a: string, i: nat)
    requires s.root == Some(a) && a != "" && a in s.agents.vals
    requires var k := Kids(s, AgentRef(a));
      && i < |k| && k[i].Leaf? && k[i].content.Compaction?
      && forall j :: i < j < |k| && k[j].Leaf? ==> !k[j].content.Compaction?
    ensures Step(s, CompactionEnd) == WithKids(s, AgentRef(a), Kids(s, AgentRef(a))[i := Leaf(Compaction(true))])
  {
    var k := Kids(s, AgentRef(a));
    var m := LastIndex(k, CompactionMark);
    assert CompactionMark(k[i]) && forall j :: i < j < |k| ==> !CompactionMark(k[j]);
  }

  /** Cards and markers go to the end of the root's children, and are dropped when there is no root. */
  lemma CardsGoToTheRoot(s: State, a: string)
    requires s.root == Some(a) && a != "" && a in s.agents.vals
    ensures var r := AgentRef(a);
      && Step(s, CompactionStart) == WithKids(s, r, Kids(s, r) + [Leaf(Compaction(false))])
      && forall id :: Step(s, ArtifactCreated(id)) == WithKids(s, r, Kids(s, r) + [Leaf(Artifact(id))])
  {}
}
