/**
 * Re-homing: in whichever order a delegate's `tool-call`, the `sub-agent-start`
 * naming it and the sub-agent's own content arrive, once both anchors have been
 * seen the sub-agent sits under that tool and nowhere else. And the root agent
 * never comes to sit under anything.
 */
module TraceRehome {
  import opened Basics
  import opened TraceModel
  import opened TracePlacement

  /** `c` is among the children of `r`. */
  ghost predicate Under(s: State, r: Ref, c: Ref) {
    Branch(c) in Kids(s, r)
  }

  ghost predicate Seated(s: State, c: Ref) {
    exists r :: Under(s, r, c)
  }

  /** From `s` to `t` nothing is moved, no registered tool is replaced and no spawner changes. */
  ghost predicate Calm(s: State, t: State) {
    && (forall k <- s.tools.vals :: k in t.tools.vals && t.tools.vals[k] == s.tools.vals[k])
    && (forall a <- s.agents.vals :: a in t.agents.vals)
    && (forall a <- t.agents.vals ::
          t.agents.vals[a].spawnedBy == if a in s.agents.vals then s.agents.vals[a].spawnedBy else None)
    && (forall r, c :: Under(s, r, c) ==> Under(t, r, c))
    && (forall r, c :: Under(t, r, c) ==> Seated(s, c) || !Known(s, c))
  }

  lemma CalmThen(s: State, t: State, u: State)
    requires Calm(s, t) && Calm(t, u) && (forall c :: Known(s, c) ==> Known(t, c))
    ensures Calm(s, u)
  {
    forall r, c | Under(u, r, c) ensures Seated(s, c) || !Known(s, c) {
      if Seated(t, c) { var q :| Under(t, q, c); }
    }
  }

  lemma UnderIsAt(s: State, r: Ref, c: Ref)
    ensures Under(s, r, c) <==> exists i :: At(s, r, i, c)
  {
    if Under(s, r, c) {
      var i :| 0 <= i < |Kids(s, r)| && Kids(s, r)[i] == Branch(c);
      assert At(s, r, i, c);
    }
  }

  lemma UnlistedHoldsNothing(s: State, r: Ref)
    requires Inv(s) && !Listed(s, r)
    ensures forall c :: !Under(s, r, c)
  {
    forall c ensures !Under(s, r, c) {
      UnderIsAt(s, r, c);
      assert Findable(s, c);
    }
  }

  lemma PushUnder(s: State, r: Ref, x: Ref)
    ensures forall q, c :: Under(Push(s, r, Branch(x)), q, c) <==> Under(s, q, c) || (q == r && c == x)
  {
    var t := Push(s, r, Branch(x));
    assert Kids(t, r)[|Kids(s, r)|] == Branch(x);
    forall q, c | q != r ensures Under(t, q, c) <==> Under(s, q, c) {
      assert Kids(t, q) == Kids(s, q);
    }
  }

  lemma BornFields(s: State, id: string, role: Option<string>, parent: Option<string>, tool: Option<Ref>)
    requires id !in s.agents.vals
    ensures var t := NewAgent(s, id, role, parent, tool); var berth := Berth(s, id, parent, tool);
      && t.tools == s.tools && t.nodes == s.nodes
      && id in t.agents.vals && t.agents.vals == s.agents.vals[id := t.agents.vals[id]]
      && t.agents.vals[id].spawnedBy == None
      && t.kids == (var s1 := WithKids(s, AgentRef(id), []);
                    if berth.Some? then Push(s1, berth.value, Branch(AgentRef(id))).kids else s1.kids)
      && t.root == if berth.Some? || s.root.Some? then s.root else Some(id)
  {
  }

  /** What a newly created agent changes. */
  lemma AttachedNew(s: State, id: string, role: Option<string>, parent: Option<string>, tool: Option<Ref>)
    requires id !in s.agents.vals && (forall c :: !Under(s, AgentRef(id), c))
    ensures var t := NewAgent(s, id, role, parent, tool);
      && (forall r, c :: Under(s, r, c) ==> Under(t, r, c))
      && (forall r, c :: Under(t, r, c) <==> Under(s, r, c) || (Berth(s, id, parent, tool) == Some(r) && c == AgentRef(id)))
  {
    var t := NewAgent(s, id, role, parent, tool);
    var berth := Berth(s, id, parent, tool);
    BornFields(s, id, role, parent, tool);
    var s1 := WithKids(s, AgentRef(id), []);
    forall r, c ensures Under(s1, r, c) <==> Under(s, r, c) {
      assert Kids(s1, r) == if r == AgentRef(id) then [] else Kids(s, r);
    }
    var s2 := if berth.Some? then Push(s1, berth.value, Branch(AgentRef(id))) else s1;
    if berth.Some? { PushUnder(s1, berth.value, AgentRef(id)); }
    forall r, c ensures Under(t, r, c) <==> Under(s2, r, c) { assert Kids(t, r) == Kids(s2, r); }
  }

  // ---- the calm events ----

  lemma QuietIsCalm(s: State, t: State)
    requires t.kids == s.kids && t.tools == s.tools && t.agents.vals.Keys == s.agents.vals.Keys
    requires forall a <- s.agents.vals :: t.agents.vals[a].spawnedBy == s.agents.vals[a].spawnedBy
    ensures Calm(s, t)
  {
    forall r, c ensures Under(t, r, c) <==> Under(s, r, c) { assert Kids(t, r) == Kids(s, r); }
  }

  lemma EnsuringIsCalm(s: State, id: string, parent: Option<string>)
    requires Inv(s)
    ensures Calm(s, EnsureAgent(s, id, None, parent, None))
    ensures forall c :: Known(s, c) ==> Known(EnsureAgent(s, id, None, parent, None), c)
  {
    if id in s.agents.vals {
      QuietIsCalm(s, EnsureAgent(s, id, None, parent, None));
    } else {
      BearingIsCalm(s, id, parent);
    }
  }

  lemma BearingIsCalm(s: State, id: string, parent: Option<string>)
    requires Inv(s) && id !in s.agents.vals
    ensures Calm(s, NewAgent(s, id, None, parent, None))
    ensures forall c :: Known(s, c) ==> Known(NewAgent(s, id, None, parent, None), c)
  {
    hide NewAgent, Single;
    UnlistedHoldsNothing(s, AgentRef(id));
    BornFields(s, id, None, parent, None);
    AttachedNew(s, id, None, parent, None);
  }

  lemma ShapeIsCalm(s: State, r: Ref, k: seq<Item>)
    requires SameShape(Kids(s, r), k)
    ensures Calm(s, WithKids(s, r, k))
  {
    var t := WithKids(s, r, k);
    forall c ensures Under(s, r, c) <==> Under(t, r, c) {
      UnderIsAt(s, r, c);
      UnderIsAt(t, r, c);
      assert forall i :: At(s, r, i, c) <==> At(t, r, i, c);
    }
    forall q, c | q != r ensures Under(s, q, c) <==> Under(t, q, c) {}
  }

  lemma GateIsCalm(s: State, id: string, parent: Option<string>, t: ToolItem)
    requires Inv(s) && t.agentId == id
    ensures var s1 := EnsureAgent(s, id, None, parent, None); var u := Gate(s, id, parent, t);
      Calm(s1, u) && u.root == s1.root
  {
    EnsuredAgent(s, id, None, parent, None);
    var s1 := EnsureAgent(s, id, None, parent, None);
    var s2 := if t.callId in s1.tools.vals then s1 else NewTool(s1, t);
    QuietIsCalm(s2, SetStatus(s2, t.callId, t.status));
    if t.callId !in s1.tools.vals {
      NewToolIsCalm(s1, t);
      CalmThen(s1, s2, SetStatus(s2, t.callId, t.status));
    }
  }

  lemma NewToolIsCalm(s: State, t: ToolItem)
    requires Inv(s) && t.agentId in s.agents.vals && t.callId !in s.tools.vals
    ensures Calm(s, NewTool(s, t)) && forall c :: Known(s, c) ==> Known(NewTool(s, t), c)
  {
    AddedTool(s, t);
    UnlistedHoldsNothing(s, ToolRef(|s.nodes|));
    forall r, c | Under(s, r, c) ensures Under(NewTool(s, t), r, c) {}
    forall r, c | Under(NewTool(s, t), r, c) ensures Seated(s, c) || !Known(s, c) {
      if c != ToolRef(|s.nodes|) { assert Under(s, r, c); }
    }
  }

  /** The agent whose node an event first makes sure of, and the parent it gives for it. */
  function Introduces(e: Event): Option<(string, Option<string>)> {
    match e
    case UserText(_) => Some((ORCHESTRATOR, None))
    case ShellStart(_) => Some((ORCHESTRATOR, None))
    case TextDelta(id, _) => Some((id, None))
    case ReasoningDelta(id, _) => Some((id, None))
    case ToolCall(id, _, _) => Some((id, None))
    case ApprovalRequired(id, parent, _, _) => Some((id, parent))
    case QuestionRequired(id, parent, _) => Some((id, parent))
    case _ => None
  }

  function Introduce(s: State, e: Event): State {
    match Introduces(e)
    case Some((id, parent)) => EnsureAgent(s, id, None, parent, None)
    case None => s
  }

  lemma IntroducingIsCalm(s: State, e: Event)
    requires Inv(s)
    ensures Calm(s, Introduce(s, e)) && forall c :: Known(s, c) ==> Known(Introduce(s, e), c)
  {
    match Introduces(e)
    case Some((id, parent)) => EnsuringIsCalm(s, id, parent);
    case None => QuietIsCalm(s, s);
  }

  lemma StepIs(s: State, e: Event)
    ensures e.SubAgentStart? ==> Step(s, e) == StartSubAgent(s, e)
    ensures e.ToolCall? ==> Step(s, e) == CallTool(s, e)
  {
    hide StartSubAgent, CallTool;
  }

  /** After that, every event but a `tool-call` or a `sub-agent-start` moves nothing. */
  lemma TheRestIsCalm(s: State, e: Event)
    requires Inv(s) && !e.ToolCall? && !e.SubAgentStart?
    ensures Calm(Introduce(s, e), Step(s, e)) && Step(s, e).root == Introduce(s, e).root
  {
    hide EnsureAgent, Gate, Calm, Inv, Stream, PushToRoot, CloseCompaction, FinishAgent, SetStatus, RestoreCards;
    match e
    case UserText(text) => TalkIsCalm(s, Text(text, User));
    case ShellStart(command) => TalkIsCalm(s, Shell(command, None));
    case ShellResult(_, _) => ShellResultIsCalm(s, e);
    case TextDelta(id, text) => StreamIsCalm(s, id, text, Assistant);
    case ReasoningDelta(id, text) => StreamIsCalm(s, id, text, Reasoning);
    case ApprovalRequired(id, parent, callId, toolName) =>
      GateIsCalm(s, id, parent, ToolItem(callId, id, toolName, Approval));
    case QuestionRequired(id, parent, callId) =>
      GateIsCalm(s, id, parent, ToolItem(callId, id, "askUserQuestion", Question));
    case ToolResult(callId, isError) => StatusIsCalm(s, callId, if isError then Error else Ok);
    case SubAgentFinish(id) => FinishIsCalm(s, id);
    case CompactionStart => CardIsCalm(s, Compaction(false));
    case CompactionEnd => ClosingIsCalm(s);
    case ArtifactCreated(id) => CardIsCalm(s, Artifact(id));
    case SetArtifacts(ids) => CardsAreCalm(s, ids);
    case ApprovalDecision(callId, rejected) => StatusIsCalm(s, callId, if rejected then Error else Running);
    case AnswerQuestion(callId) =>
      QuietIsCalm(s, s);
      StatusIsCalm(s, callId, Running);
    case RunFinish(_) =>
      QuietIsCalm(s, s);
      if Truthy(s.root) { FinishIsCalm(s, s.root.value); }
  }

  lemma StatusIsCalm(s: State, callId: string, st: ToolStatus)
    ensures Calm(s, SetStatus(s, callId, st)) && SetStatus(s, callId, st).root == s.root
  {
    QuietIsCalm(s, SetStatus(s, callId, st));
  }

  lemma FinishIsCalm(s: State, id: string)
    ensures Calm(s, FinishAgent(s, id)) && FinishAgent(s, id).root == s.root
  {
    QuietIsCalm(s, FinishAgent(s, id));
  }

  lemma TalkIsCalm(s: State, c: Content)
    ensures var s1 := EnsureAgent(s, ORCHESTRATOR, None, None, None);
      Calm(s1, Push(s1, AgentRef(ORCHESTRATOR), Leaf(c)))
  {
    var s1 := EnsureAgent(s, ORCHESTRATOR, None, None, None);
    ShapeIsCalm(s1, AgentRef(ORCHESTRATOR), Kids(s1, AgentRef(ORCHESTRATOR)) + [Leaf(c)]);
  }

  lemma StreamIsCalm(s: State, id: string, text: string, who: Speaker)
    ensures Calm(EnsureAgent(s, id, None, None, None), Stream(s, id, text, who))
    ensures Stream(s, id, text, who).root == EnsureAgent(s, id, None, None, None).root
  {
    var s1 := EnsureAgent(s, id, None, None, None);
    ShapeIsCalm(s1, AgentRef(id), AppendText(Kids(s1, AgentRef(id)), text, who));
  }

  lemma ShellResultIsCalm(s: State, e: Event)
    requires e.ShellResult?
    ensures Calm(s, Step(s, e)) && Step(s, e).root == s.root
  {
    QuietIsCalm(s, s);
    var k := Kids(s, AgentRef(ORCHESTRATOR));
    var i := LastIndex(k, RunningShell);
    if i >= 0 {
      ShapeIsCalm(s, AgentRef(ORCHESTRATOR), k[i := Leaf(Shell(k[i].content.command, Some((e.output, e.exitCode))))]);
    }
  }

  lemma OthersAreCalm(s: State, e: Event)
    requires Inv(s) && !e.ToolCall? && !e.SubAgentStart?
    ensures Calm(s, Step(s, e))
  {
    IntroducingIsCalm(s, e);
    TheRestIsCalm(s, e);
    CalmThen(s, Introduce(s, e), Step(s, e));
  }

  lemma CardIsCalm(s: State, c: Content)
    ensures Calm(s, PushToRoot(s, Leaf(c))) && PushToRoot(s, Leaf(c)).root == s.root
  {
    QuietIsCalm(s, s);
    if Truthy(s.root) {
      ShapeIsCalm(s, AgentRef(s.root.value), Kids(s, AgentRef(s.root.value)) + [Leaf(c)]);
    }
  }

  lemma CardsAreCalm(s: State, ids: seq<string>)
    ensures Calm(s, RestoreCards(s, ids)) && RestoreCards(s, ids).root == s.root
  {
    QuietIsCalm(s, s);
    if Truthy(s.root) {
      var r := AgentRef(s.root.value);
      ShapeIsCalm(s, r, Kids(s, r) + MissingCards(Kids(s, r), ids));
    }
  }

  lemma ClosingIsCalm(s: State)
    ensures Calm(s, CloseCompaction(s)) && CloseCompaction(s).root == s.root
  {
    QuietIsCalm(s, s);
    if Truthy(s.root) {
      var k := Kids(s, AgentRef(s.root.value));
      var i := LastIndex(k, CompactionMark);
      if i >= 0 { ShapeIsCalm(s, AgentRef(s.root.value), k[i := Leaf(Compaction(true))]); }
    }
  }

  // ---- both anchors seen ----

  /** Call ids whose latest `tool-call` was a delegate call. */
  function Delegates(seen: set<string>, e: Event): set<string> {
    if !e.ToolCall? then seen
    else if e.toolName == DELEGATE then seen + {e.callId}
    else seen - {e.callId}
  }

  function DelegatesOf(es: seq<Event>): set<string> {
    if es == [] then {} else Delegates(DelegatesOf(es[..|es| - 1]), es[|es| - 1])
  }

  /** The spawner each agent named last. */
  function Spawn(m: map<string, string>, e: Event): map<string, string> {
    if e.SubAgentStart? && Truthy(e.spawner) then m[e.agentId := e.spawner.value] else m
  }

  function SpawnersOf(es: seq<Event>): map<string, string> {
    if es == [] then map[] else Spawn(SpawnersOf(es[..|es| - 1]), es[|es| - 1])
  }

  ghost predicate HomeOf(s: State, a: string, t: string) {
    t in s.tools.vals && Under(s, ToolRef(s.tools.vals[t]), AgentRef(a))
  }

  /** Every sub-agent whose spawner has been announced sits under that tool. */
  ghost predicate Homed(s: State, seen: set<string>) {
    && (forall t <- seen :: t in s.tools.vals)
    && forall a, t :: Names(s, a, t) && t in seen ==> HomeOf(s, a, t)
  }

  lemma StepKeepsHomes(s: State, e: Event, seen: set<string>)
    requires Inv(s) && Fresh(s, e) && Homed(s, seen)
    ensures Homed(Step(s, e), Delegates(seen, e))
  {
    hide EnsureAgent, CallTool, StartSubAgent, Gate, Stream, Inv, Fresh, Calm, Homed;
    if e.ToolCall? {
      CallKeepsHomes(s, e, seen);
    } else if e.SubAgentStart? {
      StartKeepsHomes(s, e, seen);
    } else {
      OthersAreCalm(s, e);
      CalmKeepsHomes(s, Step(s, e), seen);
    }
  }

  lemma CalmKeepsHomes(s: State, t: State, seen: set<string>)
    requires Homed(s, seen) && Calm(s, t)
    ensures Homed(t, seen)
  {
    forall a, k | Names(t, a, k) && k in seen ensures HomeOf(t, a, k) {
      assert Names(s, a, k) && HomeOf(s, a, k);
    }
  }

  /** Announcing a tool whose old node holds nothing moves no node. */
  lemma AnnouncingMovesNothing(s: State, e: Event)
    requires Inv(s) && Fresh(s, e) && e.ToolCall?
    ensures var t := Announced(s, e);
      && Inv(t) && Listed(t, ToolRef(|s.nodes|))
      && (forall r, c :: Under(s, r, c) ==> Under(t, r, c))
      && (forall r, c :: Under(t, r, c) && Known(s, c) ==> Seated(s, c))
      && (forall c :: Known(s, c) ==> Known(t, c))
  {
    EnsuredAgent(s, e.agentId, None, None, None);
    EnsuringIsCalm(s, e.agentId, None);
    StillFresh(s, e);
    var s1 := EnsureAgent(s, e.agentId, None, None, None);
    hide EnsureAgent;
    if e.callId in s1.tools.vals { NothingHeld(s1, e); }
    JoinedTool(s1, ToolItem(e.callId, e.agentId, e.toolName, Running));
  }

  lemma JoinedTool(s: State, t: ToolItem)
    requires Inv(s) && t.agentId in s.agents.vals
    requires t.callId in s.tools.vals ==> forall b :: Branch(b) !in Kids(s, ToolRef(s.tools.vals[t.callId]))
    ensures var u := NewTool(s, t);
      && Inv(u) && Listed(u, ToolRef(|s.nodes|))
      && (forall r, c :: Under(s, r, c) ==> Under(u, r, c))
      && (forall r, c :: Under(u, r, c) && Known(s, c) ==> Under(s, r, c))
      && (forall c :: Known(s, c) ==> Known(u, c))
  {
    AddedTool(s, t);
    hide NewTool, Single;
    UnlistedHoldsNothing(s, ToolRef(|s.nodes|));
  }

  lemma CallKeepsHomes(s: State, e: Event, seen: set<string>)
    requires Inv(s) && Fresh(s, e) && Homed(s, seen) && e.ToolCall?
    ensures Homed(CallTool(s, e), Delegates(seen, e))
  {
    hide EnsureAgent, NewTool, Inv;
    AnnouncingMovesNothing(s, e);
    AnnouncedSpawners(s, e);
    CallToolIs(s, e);
    hide CallTool, Announced;
    var u := Announced(s, e);
    AnnouncedHomes(s, u, seen, e);
    if e.toolName == DELEGATE {
      CollectedHomes(u, seen - {e.callId}, e.callId, ToolRef(|s.nodes|));
    }
  }

  lemma AnnouncedHomes(s: State, u: State, seen: set<string>, e: Event)
    requires Homed(s, seen) && e.ToolCall? && u.tools.vals == s.tools.vals[e.callId := |s.nodes|]
    requires forall r, c :: Under(s, r, c) ==> Under(u, r, c)
    requires forall a <- u.agents.vals ::
      u.agents.vals[a].spawnedBy == if a in s.agents.vals then s.agents.vals[a].spawnedBy else None
    ensures Homed(u, seen - {e.callId})
  {
    forall a, k | Names(u, a, k) && k in seen - {e.callId} ensures HomeOf(u, a, k) {
      assert Names(s, a, k) && HomeOf(s, a, k);
    }
  }

  lemma CollectedHomes(u: State, seen: set<string>, callId: string, tool: Ref)
    requires Inv(u) && Homed(u, seen) && callId !in seen && Listed(u, tool)
    requires callId in u.tools.vals && ToolRef(u.tools.vals[callId]) == tool
    ensures Homed(Rehome(u, u.agents.keys, tool, callId), seen + {callId})
  {
    hide Single, Indexed;
    Rehomed(u, u.agents.keys, tool, callId);
    var t := Rehome(u, u.agents.keys, tool, callId);
    hide Rehome, Findable, Listed;
    forall a, k | Names(t, a, k) && k in seen + {callId} ensures HomeOf(t, a, k) {
      assert Names(u, a, k) && a in u.agents.keys;
      if k != callId {
        assert HomeOf(u, a, k) && !Called(u, u.agents.keys, AgentRef(a), callId);
      }
    }
  }

  lemma StartKeepsHomes(s: State, e: Event, seen: set<string>)
    requires Inv(s) && Homed(s, seen) && e.SubAgentStart?
    ensures Homed(StartSubAgent(s, e), seen)
  {
    var s1 := EnsureAgent(s, e.agentId, Some(e.role), Some(e.parent), ToolFor(s, e.spawner));
    var t := StartSubAgent(s, e);
    AttachingMoves(s, e);
    forall a, k | Names(t, a, k) && k in seen ensures HomeOf(t, a, k) {
      if a == e.agentId && Truthy(e.spawner) {
        assert ToolFor(s, e.spawner) == Some(ToolRef(s.tools.vals[k]));
        assert Under(t, ToolRef(s.tools.vals[k]), AgentRef(a));
      } else {
        assert Names(s, a, k) && HomeOf(s, a, k);
      }
    }
  }

  /** From `s` to `t` only `id` moved, and under `tool` if that is given. */
  ghost predicate OnlyMoved(s: State, t: State, id: string, tool: Option<Ref>) {
    && t.tools == s.tools && t.nodes == s.nodes
    && id in t.agents.vals && t.agents.vals == s.agents.vals[id := t.agents.vals[id]]
    && (tool.Some? ==> Under(t, tool.value, AgentRef(id)))
    && (forall r, b :: b != AgentRef(id) ==> (Under(s, r, b) <==> Under(t, r, b)))
    && (tool.None? ==> forall r, b :: Under(s, r, b) ==> Under(t, r, b))
  }

  predicate SpawnerKept(s: State, t: State, id: string)
    requires id in t.agents.vals
  {
    t.agents.vals[id].spawnedBy == if id in s.agents.vals then s.agents.vals[id].spawnedBy else None
  }

  /** Attaching brings the agent under the tool and moves no other node. */
  lemma AttachingMoves(s: State, e: Event)
    requires Inv(s) && e.SubAgentStart?
    ensures var t := StartSubAgent(s, e);
      && OnlyMoved(s, t, e.agentId, ToolFor(s, e.spawner))
      && if Truthy(e.spawner) then t.agents.vals[e.agentId].spawnedBy == e.spawner else SpawnerKept(s, t, e.agentId)
  {
    var tool := ToolFor(s, e.spawner);
    if e.agentId in s.agents.vals {
      AttachedKnown(s, e.agentId, e.role, e.parent, tool);
    } else {
      AttachedFresh(s, e.agentId, e.role, e.parent, tool);
    }
    var s1 := EnsureAgent(s, e.agentId, Some(e.role), Some(e.parent), tool);
    assert Truthy(e.spawner) || SpawnerKept(s, StartSubAgent(s, e), e.agentId);
    hide EnsureAgent, OnlyMoved;
    SpawnerNoted(s, s1, StartSubAgent(s, e), e.agentId, tool);
  }

  lemma SpawnerNoted(s: State, s1: State, t: State, id: string, tool: Option<Ref>)
    requires OnlyMoved(s, s1, id, tool)
    requires t.kids == s1.kids && t.tools == s1.tools && t.nodes == s1.nodes
    requires id in t.agents.vals && t.agents.vals == s1.agents.vals[id := t.agents.vals[id]]
    ensures OnlyMoved(s, t, id, tool)
  {
    SameUnder(s1, t);
  }

  lemma SameUnder(s: State, t: State)
    requires s.kids == t.kids
    ensures forall r, c :: Under(t, r, c) <==> Under(s, r, c)
  {
    forall r, c ensures Under(t, r, c) <==> Under(s, r, c) { assert Kids(t, r) == Kids(s, r); }
  }

  lemma AttachedFresh(s: State, id: string, role: string, parent: string, tool: Option<Ref>)
    requires Inv(s) && id !in s.agents.vals
    ensures var t := EnsureAgent(s, id, Some(role), Some(parent), tool); OnlyMoved(s, t, id, tool) && SpawnerKept(s, t, id)
  {
    UnlistedHoldsNothing(s, AgentRef(id));
    BornFields(s, id, Some(role), Some(parent), tool);
    AttachedNew(s, id, Some(role), Some(parent), tool);
  }

  lemma AttachedKnown(s: State, id: string, role: string, parent: string, tool: Option<Ref>)
    requires Inv(s) && id in s.agents.vals && (tool.Some? ==> Listed(s, tool.value))
    ensures var t := EnsureAgent(s, id, Some(role), Some(parent), tool); OnlyMoved(s, t, id, tool) && SpawnerKept(s, t, id)
  {
    var t := EnsureAgent(s, id, Some(role), Some(parent), tool);
    var s1 := if tool.Some? then MoveUnder(s, AgentRef(id), tool.value) else s;
    if tool.Some? { Moved(s, AgentRef(id), tool.value); }
    SameUnder(s1, t);
    forall r, b | b != AgentRef(id) ensures Under(s, r, b) <==> Under(s1, r, b) {}
  }

  // ---- whole streams ----

  lemma {:induction false} RunHomes(es: seq<Event>)
    requires FreshRun(es)
    ensures Inv(Run(es)) && Homed(Run(es), DelegatesOf(es))
    ensures forall a, t :: Names(Run(es), a, t) <==> a in SpawnersOf(es) && SpawnersOf(es)[a] == t
  {
    if es != [] {
      var n := |es| - 1;
      FreshPrefix(es);
      RunHomes(es[..n]);
      StepKeepsPlacement(Run(es[..n]), es[n]);
      StepKeepsHomes(Run(es[..n]), es[n], DelegatesOf(es[..n]));
      StepNames(Run(es[..n]), es[n], SpawnersOf(es[..n]));
    }
  }

  lemma FreshPrefix(es: seq<Event>)
    requires FreshRun(es) && es != []
    ensures FreshRun(es[..|es| - 1]) && Fresh(Run(es[..|es| - 1]), es[|es| - 1])
  {
    var n := |es| - 1;
    forall i | 0 <= i < n ensures Fresh(Run(es[..n][..i]), es[..n][i]) {
      assert es[..n][..i] == es[..i];
    }
    assert Fresh(Run(es[..n]), es[n]);
  }

  lemma StepNames(s: State, e: Event, m: map<string, string>)
    requires Inv(s) && Fresh(s, e)
    requires forall a, t :: Names(s, a, t) <==> a in m && m[a] == t
    ensures forall a, t :: Names(Step(s, e), a, t) <==> a in Spawn(m, e) && Spawn(m, e)[a] == t
  {
    hide EnsureAgent, Gate, Stream, Inv, Fresh, CallTool;
    var u := Step(s, e);
    if e.SubAgentStart? {
      AttachingMoves(s, e);
      hide StartSubAgent;
      forall a, t ensures Names(u, a, t) <==> a in Spawn(m, e) && Spawn(m, e)[a] == t {
        if a != e.agentId || !Truthy(e.spawner) { assert Names(u, a, t) <==> Names(s, a, t); }
      }
    } else {
      if e.ToolCall? { CallSpawners(s, e); } else { OthersAreCalm(s, e); }
      forall a, t ensures Names(u, a, t) <==> Names(s, a, t) {}
    }
  }

  lemma AnnouncedSpawners(s: State, e: Event)
    requires e.ToolCall?
    ensures var t := Announced(s, e);
      && (forall a <- s.agents.vals :: a in t.agents.vals)
      && forall a <- t.agents.vals ::
           t.agents.vals[a].spawnedBy == if a in s.agents.vals then s.agents.vals[a].spawnedBy else None
  {
    EnsuringKeepsNames(s, e.agentId, None);
    hide EnsureAgent;
  }

  lemma CallSpawners(s: State, e: Event)
    requires e.ToolCall?
    ensures var t := CallTool(s, e);
      && (forall a <- s.agents.vals :: a in t.agents.vals)
      && forall a <- t.agents.vals ::
           t.agents.vals[a].spawnedBy == if a in s.agents.vals then s.agents.vals[a].spawnedBy else None
  {
    hide EnsureAgent, NewTool, Rehome;
    AnnouncedSpawners(s, e);
    CallToolIs(s, e);
    hide Announced, CallTool;
    var u := Announced(s, e);
    RehomeKeepsRegistry(u, u.agents.keys, ToolRef(|s.nodes|), e.callId);
  }

  /**
   * Once a delegate's `tool-call` and a `sub-agent-start` naming it are both in the stream, in any
   * order and with anything in between, the sub-agent sits under that tool, once, and nowhere else.
   */
  lemma HomeWhenBothSeen(es: seq<Event>, a: string)
    requires FreshRun(es) && a in SpawnersOf(es) && SpawnersOf(es)[a] in DelegatesOf(es)
    ensures var s := Run(es); var t := SpawnersOf(es)[a];
      && t in s.tools.vals
      && forall r :: Under(s, r, AgentRef(a)) <==> r == ToolRef(s.tools.vals[t])
  {
    RunHomes(es);
    var s := Run(es);
    var t := SpawnersOf(es)[a];
    assert Names(s, a, t);
    var home := ToolRef(s.tools.vals[t]);
    forall r | Under(s, r, AgentRef(a)) ensures r == home {
      UnderIsAt(s, r, AgentRef(a));
      UnderIsAt(s, home, AgentRef(a));
      var i :| At(s, r, i, AgentRef(a));
      var j :| At(s, home, j, AgentRef(a));
    }
  }

  /** Each agent names a spawner at most once and each call id is announced at most once. */
  ghost predicate Introduced(es: seq<Event>) {
    forall i, j :: 0 <= i < j < |es| ==>
      && !(NamesSpawner(es[i]) && NamesSpawner(es[j]) && es[i].agentId == es[j].agentId)
      && !(es[i].ToolCall? && es[j].ToolCall? && es[i].callId == es[j].callId)
  }

  predicate NamesSpawner(e: Event) {
    e.SubAgentStart? && Truthy(e.spawner)
  }

  ghost predicate Starts(es: seq<Event>, a: string, t: string) {
    exists e <- es :: NamesSpawner(e) && e.agentId == a && e.spawner.value == t
  }

  ghost predicate Calls(es: seq<Event>, t: string) {
    exists e <- es :: e.ToolCall? && e.callId == t && e.toolName == DELEGATE
  }

  /** With single introductions, the last spawner is the only one and a delegate call stays one. */
  lemma {:induction false} IntroducedOnce(es: seq<Event>)
    requires Introduced(es)
    ensures forall a, t :: Starts(es, a, t) <==> a in SpawnersOf(es) && SpawnersOf(es)[a] == t
    ensures forall t :: Calls(es, t) <==> t in DelegatesOf(es)
  {
    if es != [] {
      var n := |es| - 1;
      var last := es[n];
      IntroducedOnce(es[..n]);
      forall a, t ensures Starts(es, a, t) <==> a in SpawnersOf(es) && SpawnersOf(es)[a] == t {
        if Starts(es[..n], a, t) {
          var e :| e in es[..n] && NamesSpawner(e) && e.agentId == a && e.spawner.value == t;
          var i :| 0 <= i < n && es[i] == e;
          assert e in es && !(NamesSpawner(last) && last.agentId == a);
        }
        if Starts(es, a, t) && !Starts(es[..n], a, t) {
          var e :| e in es && NamesSpawner(e) && e.agentId == a && e.spawner.value == t;
          assert e in es[..n] || e == last;
        }
      }
      forall t ensures Calls(es, t) <==> t in DelegatesOf(es) {
        if Calls(es[..n], t) {
          var e :| e in es[..n] && e.ToolCall? && e.callId == t && e.toolName == DELEGATE;
          var i :| 0 <= i < n && es[i] == e;
          assert e in es && !(last.ToolCall? && last.callId == t);
        }
        if Calls(es, t) && !Calls(es[..n], t) {
          var e :| e in es && e.ToolCall? && e.callId == t && e.toolName == DELEGATE;
          assert e in es[..n] || e == last;
        }
      }
    }
  }

  /** The call id of the tool a node sits under. */
  ghost predicate SitsUnderCall(s: State, a: string, t: string) {
    exists n: nat :: n < |s.nodes| && s.nodes[n].callId == t && Under(s, ToolRef(n), AgentRef(a))
  }

  /** Two orders of the same events agree on the delegate call under which each sub-agent ends up. */
  lemma PlacementIgnoresOrder(es: seq<Event>, fs: seq<Event>, a: string)
    requires FreshRun(es) && FreshRun(fs) && Introduced(es) && Introduced(fs) && multiset(es) == multiset(fs)
    requires a in SpawnersOf(es) && SpawnersOf(es)[a] in DelegatesOf(es)
    ensures forall t :: SitsUnderCall(Run(es), a, t) <==> SitsUnderCall(Run(fs), a, t)
    ensures SitsUnderCall(Run(es), a, SpawnersOf(es)[a])
  {
    SameFacts(es, fs, a, SpawnersOf(es)[a]);
    OneHome(es, a);
    OneHome(fs, a);
  }

  lemma SameFacts(es: seq<Event>, fs: seq<Event>, a: string, t: string)
    requires Introduced(es) && Introduced(fs) && multiset(es) == multiset(fs)
    requires a in SpawnersOf(es) && SpawnersOf(es)[a] == t && t in DelegatesOf(es)
    ensures a in SpawnersOf(fs) && SpawnersOf(fs)[a] == t && t in DelegatesOf(fs)
  {
    IntroducedOnce(es);
    IntroducedOnce(fs);
    assert Starts(es, a, t) && Calls(es, t);
    forall e | e in es ensures e in fs {
      assert e in multiset(es);
    }
    assert Starts(fs, a, t) && Calls(fs, t);
  }

  lemma OneHome(es: seq<Event>, a: string)
    requires FreshRun(es) && a in SpawnersOf(es) && SpawnersOf(es)[a] in DelegatesOf(es)
    ensures forall t :: SitsUnderCall(Run(es), a, t) <==> t == SpawnersOf(es)[a]
  {
    RunHomes(es);
    HomeWhenBothSeen(es, a);
    var s := Run(es);
    var t := SpawnersOf(es)[a];
    assert Indexed(s) && Under(s, ToolRef(s.tools.vals[t]), AgentRef(a));
  }

  // ---- the root ----

  /** The root agent has a node, names no spawner and sits under nothing. */
  ghost predicate Rooted(s: State) {
    s.root.Some? ==>
      s.root.value in s.agents.vals && s.agents.vals[s.root.value].spawnedBy == None && !Seated(s, AgentRef(s.root.value))
  }

  /** A `sub-agent-start` comes after the root has been created and does not name it. */
  predicate Guided(s: State, e: Event) {
    e.SubAgentStart? ==> s.root.Some? && s.root.value != e.agentId
  }

  lemma CalmKeepsRoot(s: State, t: State)
    requires Rooted(s) && Calm(s, t) && t.root == s.root
    ensures Rooted(t)
  {}

  lemma EnsuringKeepsRoot(s: State, id: string, parent: Option<string>)
    requires Inv(s) && Rooted(s)
    ensures Rooted(EnsureAgent(s, id, None, parent, None))
  {
    var t := EnsureAgent(s, id, None, parent, None);
    EnsuringIsCalm(s, id, parent);
    if t.root == s.root {
      CalmKeepsRoot(s, t);
    } else {
      UnlistedHoldsNothing(s, AgentRef(id));
      BornFields(s, id, None, parent, None);
      AttachedNew(s, id, None, parent, None);
      forall r | Under(t, r, AgentRef(id)) ensures false {
        UnderIsAt(s, r, AgentRef(id));
      }
    }
  }

  lemma IntroducingKeepsRoot(s: State, e: Event)
    requires Inv(s) && Rooted(s)
    ensures Rooted(Introduce(s, e))
  {
    match Introduces(e)
    case Some((id, parent)) => EnsuringKeepsRoot(s, id, parent);
    case None =>
  }

  lemma StepKeepsRoot(s: State, e: Event)
    requires Inv(s) && Rooted(s) && Fresh(s, e) && Guided(s, e)
    ensures Rooted(Step(s, e))
  {
    hide EnsureAgent, CallTool, StartSubAgent, Gate, Stream, Inv, Rooted, Fresh, Calm, OnlyMoved;
    if e.ToolCall? {
      CallKeepsRoot(s, e);
    } else if e.SubAgentStart? {
      StartKeepsRoot(s, e);
    } else {
      IntroducingKeepsRoot(s, e);
      TheRestIsCalm(s, e);
      CalmKeepsRoot(Introduce(s, e), Step(s, e));
    }
  }

  lemma StartKeepsRoot(s: State, e: Event)
    requires Inv(s) && Rooted(s) && Guided(s, e) && e.SubAgentStart?
    ensures Rooted(StartSubAgent(s, e))
  {
    hide EnsureAgent;
    AttachingMoves(s, e);
    StartSetsNoRoot(s, e);
    hide StartSubAgent;
    var c := AgentRef(s.root.value);
    assert forall r :: Under(s, r, c) <==> Under(StartSubAgent(s, e), r, c);
  }

  lemma StartSetsNoRoot(s: State, e: Event)
    requires e.SubAgentStart? && s.root.Some?
    ensures StartSubAgent(s, e).root == s.root
  {
    if e.agentId !in s.agents.vals {
      BornFields(s, e.agentId, Some(e.role), Some(e.parent), ToolFor(s, e.spawner));
    }
  }

  lemma CallKeepsRoot(s: State, e: Event)
    requires Inv(s) && Rooted(s) && Fresh(s, e) && e.ToolCall?
    ensures Rooted(CallTool(s, e))
  {
    hide EnsureAgent, NewTool, Inv, Rooted;
    EnsuredAgent(s, e.agentId, None, None, None);
    EnsuringKeepsRoot(s, e.agentId, None);
    StillFresh(s, e);
    AnnouncedRoot(EnsureAgent(s, e.agentId, None, None, None), e);
    AnnouncingMovesNothing(s, e);
    CallToolIs(s, e);
    hide CallTool, Announced;
    var u := Announced(s, e);
    if e.toolName == DELEGATE { RehomingKeepsRoot(u, ToolRef(|s.nodes|), e.callId); }
  }

  lemma AnnouncedRoot(s: State, e: Event)
    requires Inv(s) && Rooted(s) && Fresh(s, e) && e.ToolCall? && e.agentId in s.agents.vals
    ensures Rooted(NewTool(s, ToolItem(e.callId, e.agentId, e.toolName, Running)))
  {
    if e.callId in s.tools.vals { NothingHeld(s, e); }
    JoinedTool(s, ToolItem(e.callId, e.agentId, e.toolName, Running));
  }

  lemma RehomingKeepsRoot(u: State, tool: Ref, callId: string)
    requires Inv(u) && Rooted(u) && Listed(u, tool)
    ensures Rooted(Rehome(u, u.agents.keys, tool, callId))
  {
    hide Single, Indexed;
    Rehomed(u, u.agents.keys, tool, callId);
    if u.root.Some? {
      var c := AgentRef(u.root.value);
      assert !Called(u, u.agents.keys, c, callId);
      forall r ensures Under(Rehome(u, u.agents.keys, tool, callId), r, c) <==> Under(u, r, c) {}
    }
  }

  ghost predicate GuidedRun(es: seq<Event>) {
    forall i :: 0 <= i < |es| ==> Guided(Run(es[..i]), es[i])
  }

  lemma {:induction false} RunKeepsRoot(es: seq<Event>)
    requires FreshRun(es) && GuidedRun(es)
    ensures Inv(Run(es)) && Rooted(Run(es))
  {
    if es != [] {
      var n := |es| - 1;
      FreshPrefix(es);
      forall i | 0 <= i < n ensures Guided(Run(es[..n][..i]), es[..n][i]) {
        assert es[..n][..i] == es[..i];
      }
      assert Guided(Run(es[..n]), es[n]);
      RunKeepsRoot(es[..n]);
      StepKeepsPlacement(Run(es[..n]), es[n]);
      StepKeepsRoot(Run(es[..n]), es[n]);
    }
  }
}
