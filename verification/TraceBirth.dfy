/** Where a new agent is hung and what it is called, read off the events alone (apps/cli/src/core/trace.ts). */
module TraceBirth {
  import opened Basics
  import opened TraceModel
  import opened TracePlacement
  import opened TraceRehome
  import opened TraceStreams
  import opened TraceSeats
  import opened TraceStatus

  // ---- names ----

  function RoleAt(s: State, a: string): Option<string> {
    if a in s.agents.vals then Some(s.agents.vals[a].role) else None
  }

  /** The parent an event names for its agent. */
  function ParentIn(e: Event): Option<string> {
    match e
    case SubAgentStart(_, _, _, parent, _) => Some(parent)
    case ApprovalRequired(_, parent, _, _) => parent
    case QuestionRequired(_, parent, _) => parent
    case _ => None
  }

  /** What an event makes of an agent's role: a start gives it, and content gives a default to a new agent. */
  function Renamed(was: Option<string>, e: Event, a: string): Option<string> {
    if e.SubAgentStart? && e.agentId == a then (if was.None? || e.role != "" then Some(e.role) else was)
    else if was.None? && NamesAgent(e, a) then
      Some(if ParentIn(e).Some? && ParentIn(e).value != "" then "sub-agent" else "orchestrator")
    else was
  }

  function RoleBy(es: seq<Event>, a: string): Option<string> {
    if es == [] then None else Renamed(RoleBy(es[..|es| - 1], a), es[|es| - 1], a)
  }

  /** What ensuring an agent makes of the roles. */
  ghost predicate Ensures(s: State, t: State, id: string, role: Option<string>, parent: Option<string>) {
    && (forall a :: a != id ==> RoleAt(t, a) == RoleAt(s, a))
    && RoleAt(t, id) == Some(
         if id in s.agents.vals then (if Truthy(role) then role.value else s.agents.vals[id].role)
         else if role.Some? then role.value else if Truthy(parent) then "sub-agent" else "orchestrator")
  }

  lemma EnsuringKnownRoles(s: State, id: string, role: Option<string>, parent: Option<string>, tool: Option<Ref>)
    requires id in s.agents.vals
    ensures Ensures(s, KnownAgent(s, id, role, parent, tool), id, role, parent)
  {
    hide MoveUnder, Kids;
    if tool.Some? { MoveKeepsAgents(s, AgentRef(id), tool.value); }
  }

  lemma EnsuringRoles(s: State, id: string, role: Option<string>, parent: Option<string>, tool: Option<Ref>)
    ensures Ensures(s, EnsureAgent(s, id, role, parent, tool), id, role, parent)
  {
    if id in s.agents.vals {
      EnsuringKnownRoles(s, id, role, parent, tool);
    } else {
      NewRoles(s, id, role, parent, tool);
    }
    hide KnownAgent, NewAgent, Ensures;
  }

  lemma NewRoles(s: State, id: string, role: Option<string>, parent: Option<string>, tool: Option<Ref>)
    requires id !in s.agents.vals
    ensures Ensures(s, NewAgent(s, id, role, parent, tool), id, role, parent)
  {
    hide Kids, Berth;
  }

  lemma SameRoles(s: State, t: State)
    requires t.agents == s.agents
    ensures forall a :: RoleAt(t, a) == RoleAt(s, a)
  {}

  lemma StartRoles(s: State, e: Event, a: string)
    requires e.SubAgentStart?
    ensures RoleAt(StartSubAgent(s, e), a) == Renamed(RoleAt(s, a), e, a)
  {
    hide EnsureAgent, ToolFor, StartSubAgent;
    EnsuringRoles(s, e.agentId, Some(e.role), Some(e.parent), ToolFor(s, e.spawner));
    SpawnerKeepsRoles(s, e, a);
  }

  lemma SpawnerKeepsRoles(s: State, e: Event, a: string)
    requires e.SubAgentStart?
    ensures RoleAt(StartSubAgent(s, e), a)
      == RoleAt(EnsureAgent(s, e.agentId, Some(e.role), Some(e.parent), ToolFor(s, e.spawner)), a)
  {
    hide EnsureAgent, ToolFor;
  }

  lemma CallAgentsKept(s: State, e: Event)
    requires e.ToolCall?
    ensures CallTool(s, e).agents == EnsureAgent(s, e.agentId, None, None, None).agents
  {
    hide EnsureAgent, Rehome, Push;
    var s1 := EnsureAgent(s, e.agentId, None, None, None);
    var s2 := NewTool(s1, ToolItem(e.callId, e.agentId, e.toolName, Running));
    assert s2.agents == s1.agents by { NewToolAgents(s1, ToolItem(e.callId, e.agentId, e.toolName, Running)); }
    RehomeKeepsRegistry(s2, s2.agents.keys, ToolRef(|s1.nodes|), e.callId);
  }

  lemma NewToolAgents(s: State, t: ToolItem)
    ensures NewTool(s, t).agents == s.agents
  {}

  lemma CallRoles(s: State, e: Event, a: string)
    requires e.ToolCall?
    ensures RoleAt(CallTool(s, e), a) == Renamed(RoleAt(s, a), e, a)
  {
    hide EnsureAgent, CallTool;
    EnsuringRoles(s, e.agentId, None, None, None);
    CallAgentsKept(s, e);
  }

  lemma QuietRoles(s: State, e: Event, a: string)
    requires Introduces(e).None? && !e.SubAgentStart?
    ensures RoleAt(Step(s, e), a) == RoleAt(s, a)
  {
    hide LastIndex, Kids, MissingCards;
  }

  lemma ContentRoles(s: State, e: Event, a: string)
    requires Introduces(e).Some? && !e.ToolCall?
    ensures RoleAt(Step(s, e), a) == Renamed(RoleAt(s, a), e, a)
  {
    hide EnsureAgent, Step;
    EnsuringRoles(s, Introduces(e).value.0, None, Introduces(e).value.1, None);
    OnlyTheIntroduced(s, e);
    SameRoles(Introduce(s, e), Step(s, e));
  }

  lemma NobodyRenamed(e: Event, a: string, was: Option<string>)
    requires Introduces(e).None? && !e.SubAgentStart?
    ensures Renamed(was, e, a) == was
  {}

  lemma StepRoles(s: State, e: Event, a: string)
    ensures RoleAt(Step(s, e), a) == Renamed(RoleAt(s, a), e, a)
  {
    hide Step, StartSubAgent, CallTool, RoleAt, Renamed;
    StepIs(s, e);
    if e.SubAgentStart? {
      StartRoles(s, e, a);
    } else if e.ToolCall? {
      CallRoles(s, e, a);
    } else if Introduces(e).Some? {
      ContentRoles(s, e, a);
    } else {
      QuietRoles(s, e, a);
      NobodyRenamed(e, a, RoleAt(s, a));
    }
  }

  /** Over every stream, the role of every agent. */
  lemma {:induction false} RolesExactly(es: seq<Event>, a: string)
    ensures RoleAt(Run(es), a) == RoleBy(es, a)
  {
    if es != [] {
      RolesExactly(es[..|es| - 1], a);
      StepRoles(Run(es[..|es| - 1]), es[|es| - 1], a);
      hide Step, Renamed, RoleAt;
    }
  }

  /** A start gives its agent the spawner it names, and the parent too if it makes the node or moves it. */
  lemma StartTells(s: State, e: Event)
    requires e.SubAgentStart?
    ensures var t, a := Step(s, e), e.agentId;
      && a in t.agents.vals
      && (Truthy(e.spawner) ==> t.agents.vals[a].spawnedBy == e.spawner)
      && (e.parent != "" &&
          (a !in s.agents.vals ||
           (e.spawner.Some? && e.spawner.value != "" && e.spawner.value in s.tools.vals
            && Branch(AgentRef(a)) !in Kids(s, ToolRef(s.tools.vals[e.spawner.value]))))
          ==> t.agents.vals[a].parentAgentId == Some(e.parent))
  {
    StepIs(s, e);
    EnsuringTells(s, e.agentId, e.role, e.parent, ToolFor(s, e.spawner));
    hide EnsureAgent, Step, Kids;
  }

  lemma EnsuringTells(s: State, a: string, role: string, parent: string, tool: Option<Ref>)
    ensures var t := EnsureAgent(s, a, Some(role), Some(parent), tool);
      && a in t.agents.vals
      && (parent != "" && (a !in s.agents.vals || (tool.Some? && Branch(AgentRef(a)) !in Kids(s, tool.value)))
          ==> t.agents.vals[a].parentAgentId == Some(parent))
  {
    hide MoveUnder, Berth, Kids;
  }

  // ---- seats ----

  /** The place a new agent is given: under a known call that spawned it, else under the parent named for it. */
  predicate SeatOf(s: State, e: Event, a: string, r: Ref) {
    if e.SubAgentStart? && e.spawner.Some? && e.spawner.value != "" && e.spawner.value in s.tools.vals
    then r == ToolRef(s.tools.vals[e.spawner.value])
    else
      && ParentIn(e).Some? && ParentIn(e).value != "" && (ParentIn(e).value == a || ParentIn(e).value in s.agents.vals)
      && r == AgentRef(ParentIn(e).value)
  }

  lemma NewbornSits(s: State, a: string, role: Option<string>, parent: Option<string>, tool: Option<Ref>)
    requires Inv(s) && a !in s.agents.vals
    ensures var t := EnsureAgent(s, a, role, parent, tool);
      && (forall r :: Under(t, r, AgentRef(a)) <==> Berth(s, a, parent, tool) == Some(r))
      && t.root == (if Berth(s, a, parent, tool).Some? || s.root.Some? then s.root else Some(a))
  {
    UnlistedHoldsNothing(s, AgentRef(a));
    AttachedNew(s, a, role, parent, tool);
    BornFields(s, a, role, parent, tool);
    hide NewAgent;
    forall r ensures !Under(s, r, AgentRef(a)) {
      UnderIsAt(s, r, AgentRef(a));
    }
  }

  lemma BerthIsTheSeat(s: State, e: Event, a: string)
    ensures e.SubAgentStart? ==>
      forall r :: SeatOf(s, e, a, r) <==> Berth(s, a, Some(e.parent), ToolFor(s, e.spawner)) == Some(r)
    ensures Introduces(e).Some? ==>
      forall r :: SeatOf(s, e, a, r) <==> Berth(s, a, Introduces(e).value.1, None) == Some(r)
  {}

  lemma StartSits(s: State, e: Event, a: string)
    requires Inv(s) && e.SubAgentStart? && e.agentId == a && a !in s.agents.vals
    ensures var t := StartSubAgent(s, e);
      && (forall r :: Under(t, r, AgentRef(a)) <==> SeatOf(s, e, a, r))
      && t.root == if (exists r :: SeatOf(s, e, a, r)) || s.root.Some? then s.root else Some(a)
  {
    BerthIsTheSeat(s, e, a);
    var tool := ToolFor(s, e.spawner);
    var berth := Berth(s, a, Some(e.parent), tool);
    NewbornSits(s, a, Some(e.role), Some(e.parent), tool);
    var u, t := EnsureAgent(s, a, Some(e.role), Some(e.parent), tool), StartSubAgent(s, e);
    assert t.kids == u.kids && t.root == u.root by { StartIs(s, e); }
    hide EnsureAgent, StartSubAgent, Berth, ToolFor, SeatOf;
    forall r ensures Under(t, r, AgentRef(a)) <==> Under(u, r, AgentRef(a)) {
      assert Kids(t, r) == Kids(u, r);
    }
    if berth.Some? { assert SeatOf(s, e, a, berth.value); }
  }

  lemma StartIs(s: State, e: Event)
    requires e.SubAgentStart?
    ensures var u := EnsureAgent(s, e.agentId, Some(e.role), Some(e.parent), ToolFor(s, e.spawner));
      StartSubAgent(s, e).kids == u.kids && StartSubAgent(s, e).root == u.root
  {
    hide EnsureAgent, ToolFor;
  }

  /** The rest of an event that makes an agent's node leaves it where it is. */
  lemma ContentSits(s: State, e: Event, a: string)
    requires Inv(s) && Fresh(s, e) && a !in s.agents.vals && Introduces(e).Some? && Introduces(e).value.0 == a
    ensures forall r :: Under(Step(s, e), r, AgentRef(a)) <==> SeatOf(s, e, a, r)
  {
    var parent := Introduces(e).value.1;
    var s1, t := Introduce(s, e), Step(s, e);
    BerthIsTheSeat(s, e, a);
    NewbornSits(s, a, None, parent, None);
    IntroducedFirst(s, e);
    EnsuredAgent(s, a, None, parent, None);
    if e.ToolCall? { StillFresh(s, e); }
    EnsuringKeepsNames(s, a, parent);
    assert !Takes(s1, e, a);
    assert e.ToolCall? ==> Berth(s, a, parent, None).None?;
    hide EnsureAgent, Step, SeatOf, Berth, Fresh, Takes;
    StaysPut(s1, e, a);
  }

  lemma OneSeat(s: State, q: Ref, r: Ref, c: Ref)
    requires Single(s) && Under(s, q, c) && Under(s, r, c)
    ensures q == r
  {
    UnderIsAt(s, q, c);
    UnderIsAt(s, r, c);
  }

  lemma StaysPut(s: State, e: Event, a: string)
    requires Inv(s) && Fresh(s, e) && a in s.agents.vals && !Takes(s, e, a) && !e.SubAgentStart?
    requires e.ToolCall? ==> forall r :: !Under(s, r, AgentRef(a))
    ensures forall r :: Under(Step(s, e), r, AgentRef(a)) <==> Under(s, r, AgentRef(a))
  {
    hide Step, Fresh, Takes, Under, Single, Indexed, Findable;
    StepSeats(s, e, a);
    StepKeepsPlacement(s, e);
    if !e.ToolCall? {
      OthersAreCalm(s, e);
      forall r ensures Under(Step(s, e), r, AgentRef(a)) <==> Under(s, r, AgentRef(a)) {
        if Under(Step(s, e), r, AgentRef(a)) {
          var q :| Under(s, q, AgentRef(a));
          OneSeat(Step(s, e), q, r, AgentRef(a));
        }
      }
    }
  }

  /**
   * Over every stream without re-announced tools, an agent that an event names for the first time comes to sit in
   * exactly one place: under the call that the start says spawned it if that call is known, else under the parent
   * the event names if that agent has been named, and otherwise nowhere.
   */
  lemma NewAgentsSit(es: seq<Event>, e: Event, a: string)
    requires FreshRun(es) && Fresh(Run(es), e) && NamesAgent(e, a) && !Named(es, a)
    ensures forall r :: Under(Step(Run(es), e), r, AgentRef(a)) <==> FirstSeat(es, e, a, r)
  {
    hide *;
    NodesExactly(es, a);
    PlacedAfter(es);
    SeatByEvents(es, e, a);
    WhoIsNamed(e, a);
    if e.SubAgentStart? {
      StartSits(Run(es), e, a);
      StepIs(Run(es), e);
    } else {
      ContentSits(Run(es), e, a);
    }
  }

  lemma PlacedAfter(es: seq<Event>)
    requires FreshRun(es)
    ensures Inv(Run(es))
  {
    hide Run, FreshRun, Inv;
    RunHomes(es);
  }

  lemma WhoIsNamed(e: Event, a: string)
    requires NamesAgent(e, a)
    ensures if e.SubAgentStart? then e.agentId == a else Introduces(e).Some? && Introduces(e).value.0 == a
  {}

  /** By the events alone, but for the serial number of the call's node. */
  ghost predicate FirstSeat(es: seq<Event>, e: Event, a: string, r: Ref) {
    if e.SubAgentStart? && e.spawner.Some? && e.spawner.value != "" && e.spawner.value in IntroducedBy(es)
    then e.spawner.value in Run(es).tools.vals && r == ToolRef(Run(es).tools.vals[e.spawner.value])
    else
      && ParentIn(e).Some? && ParentIn(e).value != "" && (ParentIn(e).value == a || Named(es, ParentIn(e).value))
      && r == AgentRef(ParentIn(e).value)
  }

  lemma SeatByEvents(es: seq<Event>, e: Event, a: string)
    requires FreshRun(es)
    ensures forall r :: FirstSeat(es, e, a, r) <==> SeatOf(Run(es), e, a, r)
  {
    KnownToolsAreIntroduced(es);
    if ParentIn(e).Some? { NodesExactly(es, ParentIn(e).value); }
    hide Run, FreshRun, Named;
  }
}
