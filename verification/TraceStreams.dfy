/**
 * The hypotheses of the trace results as conditions on the event stream alone, which a producer can
 * keep without looking at the trace.
 */
module TraceStreams {
  import opened Basics
  import opened TraceModel
  import opened TracePlacement
  import opened TraceRehome
  import opened TraceTree

  /** The call id under which an event makes a tool known. */
  function Introduced(e: Event): set<string> {
    match e
    case ToolCall(_, callId, _) => {callId}
    case ApprovalRequired(_, _, callId, _) => {callId}
    case QuestionRequired(_, _, callId) => {callId}
    case _ => {}
  }

  function IntroducedBy(es: seq<Event>): set<string> {
    if es == [] then {} else IntroducedBy(es[..|es| - 1]) + Introduced(es[|es| - 1])
  }

  /** Every `tool-call` is the first event with its call id. */
  ghost predicate CallsComeFirst(es: seq<Event>) {
    forall i :: 0 <= i < |es| && es[i].ToolCall? ==> es[i].callId !in IntroducedBy(es[..i])
  }

  /** The first event creates the orchestrator's node, and no sub-agent takes its name. */
  ghost predicate OrchestratorFirst(es: seq<Event>) {
    && (es != [] ==> CreatesOrchestrator(es[0]))
    && forall e <- es :: e.SubAgentStart? ==> e.agentId != ORCHESTRATOR
  }

  predicate CreatesOrchestrator(e: Event) {
    match e
    case UserText(_) => true
    case ShellStart(_) => true
    case TextDelta(id, _) => id == ORCHESTRATOR
    case ReasoningDelta(id, _) => id == ORCHESTRATOR
    case ToolCall(id, _, _) => id == ORCHESTRATOR
    case ApprovalRequired(id, parent, _, _) => id == ORCHESTRATOR && !Truthy(parent)
    case QuestionRequired(id, parent, _) => id == ORCHESTRATOR && !Truthy(parent)
    case _ => false
  }

  // ---- what steps leave alone ----

  /** Nothing but the `children` arrays, the agents, and a missing root differ. */
  predicate SameRegistry(s: State, t: State) {
    t.tools == s.tools && t.nodes == s.nodes && (s.root.Some? ==> t.root == s.root)
  }

  lemma MoveSameRegistry(s: State, c: Ref, to: Ref)
    ensures SameRegistry(s, MoveUnder(s, c, to))
  {
    hide Containers, Kids;
  }

  lemma EnsureSameRegistry(s: State, id: string, role: Option<string>, parent: Option<string>, attachTo: Option<Ref>)
    ensures SameRegistry(s, EnsureAgent(s, id, role, parent, attachTo))
    ensures attachTo.None? && !Truthy(parent) && id !in s.agents.vals ==>
      EnsureAgent(s, id, role, parent, attachTo).root == if s.root.Some? then s.root else Some(id)
  {
    if id in s.agents.vals && attachTo.Some? { MoveSameRegistry(s, AgentRef(id), attachTo.value); }
    hide MoveUnder, Kids;
  }

  /** A step makes known exactly the call ids its event introduces, and never replaces the root. */
  predicate Registers(s: State, e: Event, t: State) {
    t.tools.vals.Keys == s.tools.vals.Keys + Introduced(e) && (s.root.Some? ==> t.root == s.root)
  }

  lemma GateRegisters(s: State, e: Event, agentId: string, parent: Option<string>, t: ToolItem)
    requires Introduced(e) == {t.callId}
    ensures Registers(s, e, Gate(s, agentId, parent, t))
  {
    EnsureSameRegistry(s, agentId, None, parent, None);
    hide EnsureAgent, Introduced;
  }

  lemma CallRegisters(s: State, e: Event)
    requires e.ToolCall?
    ensures Registers(s, e, CallTool(s, e))
  {
    var a := EnsureAgent(s, e.agentId, None, None, None);
    var b := NewTool(a, ToolItem(e.callId, e.agentId, e.toolName, Running));
    EnsureSameRegistry(s, e.agentId, None, None, None);
    hide EnsureAgent, Rehome;
    RehomeKeepsRegistry(b, b.agents.keys, ToolRef(|a.nodes|), e.callId);
    assert b.tools.vals.Keys == a.tools.vals.Keys + {e.callId};
  }

  lemma StartRegisters(s: State, e: Event)
    requires e.SubAgentStart?
    ensures Registers(s, e, StartSubAgent(s, e))
  {
    EnsureSameRegistry(s, e.agentId, Some(e.role), Some(e.parent), ToolFor(s, e.spawner));
    hide EnsureAgent, ToolFor;
  }

  lemma StepRegisters(s: State, e: Event)
    ensures Registers(s, e, Step(s, e))
  {
    hide EnsureAgent, Gate, CallTool, StartSubAgent, LastIndex;
    match e
    case UserText(_) => EnsureSameRegistry(s, ORCHESTRATOR, None, None, None);
    case ShellStart(_) => EnsureSameRegistry(s, ORCHESTRATOR, None, None, None);
    case TextDelta(id, _) => EnsureSameRegistry(s, id, None, None, None);
    case ReasoningDelta(id, _) => EnsureSameRegistry(s, id, None, None, None);
    case ToolCall(_, _, _) => CallRegisters(s, e);
    case ApprovalRequired(id, parent, callId, toolName) =>
      GateRegisters(s, e, id, parent, ToolItem(callId, id, toolName, Approval));
    case QuestionRequired(id, parent, callId) =>
      GateRegisters(s, e, id, parent, ToolItem(callId, id, "askUserQuestion", Question));
    case SubAgentStart(_, _, _, _, _) => StartRegisters(s, e);
    case _ =>
  }

  // ---- whole streams ----

  lemma {:induction false} KnownToolsAreIntroduced(es: seq<Event>)
    ensures Run(es).tools.vals.Keys == IntroducedBy(es)
  {
    if es != [] {
      KnownToolsAreIntroduced(es[..|es| - 1]);
      StepRegisters(Run(es[..|es| - 1]), es[|es| - 1]);
      hide Step, Introduced;
    }
  }

  /** If every `tool-call` is the first event with its call id, no event re-announces a tool. */
  lemma CallsFirstAreFresh(es: seq<Event>)
    requires CallsComeFirst(es)
    ensures FreshRun(es)
  {
    forall i | 0 <= i < |es| ensures Fresh(Run(es[..i]), es[i]) {
      KnownToolsAreIntroduced(es[..i]);
    }
  }

  lemma {:induction false} RootIsTheOrchestrator(es: seq<Event>)
    requires OrchestratorFirst(es) && es != []
    ensures Run(es).root == Some(ORCHESTRATOR)
  {
    var n := |es| - 1;
    if n == 0 {
      assert es[..0] == [];
      FirstMakesRoot(es[0]);
    } else {
      assert forall e <- es[..n] :: e in es;
      RootIsTheOrchestrator(es[..n]);
      StepRegisters(Run(es[..n]), es[n]);
      hide Step;
    }
  }

  lemma FirstMakesRoot(e: Event)
    requires CreatesOrchestrator(e)
    ensures Step(Initial, e).root == Some(ORCHESTRATOR)
  {
    EnsureSameRegistry(Initial, ORCHESTRATOR, None, None, None);
    if e.ApprovalRequired? || e.QuestionRequired? {
      EnsureSameRegistry(Initial, ORCHESTRATOR, None, e.parentAgentId, None);
    }
    hide EnsureAgent, Rehome;
    if e.ToolCall? {
      var a := EnsureAgent(Initial, e.agentId, None, None, None);
      var b := NewTool(a, ToolItem(e.callId, e.agentId, e.toolName, Running));
      RehomeKeepsRegistry(b, b.agents.keys, ToolRef(|a.nodes|), e.callId);
    }
  }

  lemma OrchestratorFirstIsGuided(es: seq<Event>)
    requires OrchestratorFirst(es)
    ensures GuidedRun(es)
  {
    forall i | 0 <= i < |es| ensures Guided(Run(es[..i]), es[i]) {
      assert es[i] in es;
      if i > 0 {
        assert forall e <- es[..i] :: e in es;
        assert es[..i][0] == es[0];
        RootIsTheOrchestrator(es[..i]);
      }
    }
  }

  /**
   * For every stream that creates the orchestrator first and announces every tool by its `tool-call`: a
   * finite tree hangs below the orchestrator, each node in it once, and every sub-agent whose delegate call
   * and start are both in the stream sits under that call alone.
   */
  lemma OrderlyStreamsMakeTrees(es: seq<Event>)
    requires CallsComeFirst(es) && OrchestratorFirst(es) && es != []
    ensures var s := Run(es);
      s.root == Some(ORCHESTRATOR) && HasTreeOfDistinctNodes(s, AgentRef(ORCHESTRATOR))
    ensures forall a :: a in SpawnersOf(es) && SpawnersOf(es)[a] in DelegatesOf(es) ==>
      forall t :: SitsUnderCall(Run(es), a, t) <==> t == SpawnersOf(es)[a]
  {
    CallsFirstAreFresh(es);
    OrchestratorFirstIsGuided(es);
    RootIsTheOrchestrator(es);
    hide *;
    TreeBelowRoot(es);
    forall a | a in SpawnersOf(es) && SpawnersOf(es)[a] in DelegatesOf(es)
      ensures forall t :: SitsUnderCall(Run(es), a, t) <==> t == SpawnersOf(es)[a]
    {
      OneHome(es, a);
    }
  }
}
