/**
 * Sub-agents whose content comes before their start: when such an agent comes to sit somewhere, over
 * whole event streams, and that it is not displayed as long as it does not.
 */
module TraceSeats {
  import opened Basics
  import opened TraceModel
  import opened TracePlacement
  import opened TraceRehome
  import opened TraceTree
  import opened TraceRows
  import opened TraceStreams

  // ---- one event ----

  /** The event puts an agent that has a node under a tool call. */
  predicate Takes(s: State, e: Event, a: string) {
    || (e.SubAgentStart? && e.agentId == a && ToolFor(s, e.spawner).Some?)
    || (e.ToolCall? && e.toolName == DELEGATE && Names(s, a, e.callId))
  }

  lemma StartSeats(s: State, e: Event, a: string)
    requires Inv(s) && e.SubAgentStart? && a in s.agents.vals
    ensures Seated(StartSubAgent(s, e), AgentRef(a)) <==> Seated(s, AgentRef(a)) || Takes(s, e, a)
  {
    var t := StartSubAgent(s, e);
    AttachingMoves(s, e);
    if e.agentId == a && ToolFor(s, e.spawner).None? {
      assert t.kids == s.kids;
      SameUnder(s, t);
    }
    hide StartSubAgent, ToolFor;
    if e.agentId == a && ToolFor(s, e.spawner).Some? {
      assert Under(t, ToolFor(s, e.spawner).value, AgentRef(a));
    }
    if e.agentId != a {
      forall r ensures Under(t, r, AgentRef(a)) <==> Under(s, r, AgentRef(a)) {}
    }
  }

  lemma CallSeats(s: State, e: Event, a: string)
    requires Inv(s) && Fresh(s, e) && e.ToolCall? && a in s.agents.vals
    ensures Seated(CallTool(s, e), AgentRef(a)) <==> Seated(s, AgentRef(a)) || Takes(s, e, a)
  {
    hide EnsureAgent, NewTool, Rehome;
    AnnouncingMovesNothing(s, e);
    AnnouncedSpawners(s, e);
    CallToolIs(s, e);
    hide CallTool, Announced;
    var u := Announced(s, e);
    AnnouncedSeats(s, u, a);
    if e.toolName == DELEGATE { RehomingSeats(u, ToolRef(|s.nodes|), e.callId, a); }
  }

  lemma AnnouncedSeats(s: State, u: State, a: string)
    requires a in s.agents.vals
    requires forall r, c :: Under(s, r, c) ==> Under(u, r, c)
    requires forall r, c :: Under(u, r, c) && Known(s, c) ==> Seated(s, c)
    ensures Seated(u, AgentRef(a)) <==> Seated(s, AgentRef(a))
  {
    if Seated(u, AgentRef(a)) { var r :| Under(u, r, AgentRef(a)); }
    if Seated(s, AgentRef(a)) { var r :| Under(s, r, AgentRef(a)); assert Under(u, r, AgentRef(a)); }
  }

  lemma RehomingSeats(u: State, tool: Ref, callId: string, a: string)
    requires Inv(u) && Listed(u, tool) && a in u.agents.vals
    ensures Seated(Rehome(u, u.agents.keys, tool, callId), AgentRef(a))
      <==> Seated(u, AgentRef(a)) || Names(u, a, callId)
  {
    hide Single, Indexed;
    Rehomed(u, u.agents.keys, tool, callId);
    var t := Rehome(u, u.agents.keys, tool, callId);
    hide Rehome;
    if Names(u, a, callId) {
      assert a in u.agents.keys;
      assert Under(t, tool, AgentRef(a));
    } else {
      forall r ensures Under(t, r, AgentRef(a)) <==> Under(u, r, AgentRef(a)) {
        assert !Called(u, u.agents.keys, AgentRef(a), callId);
      }
    }
  }

  /** An agent that has a node sits somewhere after an event exactly if it did before or the event takes it. */
  lemma StepSeats(s: State, e: Event, a: string)
    requires Inv(s) && Fresh(s, e) && a in s.agents.vals
    ensures Seated(Step(s, e), AgentRef(a)) <==> Seated(s, AgentRef(a)) || Takes(s, e, a)
  {
    hide EnsureAgent, CallTool, StartSubAgent, Gate, Stream, Inv, Fresh, PushToRoot, CloseCompaction, FinishAgent,
      SetStatus, RestoreCards, LastIndex;
    if e.ToolCall? {
      CallSeats(s, e, a);
    } else if e.SubAgentStart? {
      StartSeats(s, e, a);
    } else {
      OthersAreCalm(s, e);
      hide Step;
      AnnouncedSeats(s, Step(s, e), a);
    }
  }

  // ---- the first event that names an agent ----

  predicate NamesAgent(e: Event, a: string) {
    (e.SubAgentStart? && e.agentId == a) || (Introduces(e).Some? && Introduces(e).value.0 == a)
  }

  lemma EnsuringAgain(s: State, id: string, parent: Option<string>)
    requires id in s.agents.vals
    ensures EnsureAgent(s, id, None, parent, None) == s
  {
    assert s.agents.vals[id := s.agents.vals[id]] == s.agents.vals;
  }

  /** An event does what it does after the node it needs has been made. */
  lemma IntroducedFirst(s: State, e: Event)
    ensures Introduces(e).Some? ==> Step(Introduce(s, e), e) == Step(s, e)
  {
    match Introduces(e) {
      case Some((id, parent)) =>
        EnsuringKeepsNames(s, id, parent);
        EnsuringAgain(EnsureAgent(s, id, None, parent, None), id, parent);
        hide EnsureAgent, NewTool, Rehome, SetStatus, AppendText;
      case None =>
    }
  }

  lemma OnlyTheIntroduced(s: State, e: Event)
    requires Introduces(e).Some? && !e.ToolCall?
    ensures Step(s, e).agents == Introduce(s, e).agents
  {
    hide EnsureAgent, SetStatus, AppendText;
    assert forall t: State, callId, st :: SetStatus(t, callId, st).agents == t.agents by { StatusKeepsAgents(); }
  }

  lemma StatusKeepsAgents()
    ensures forall t: State, callId, st :: SetStatus(t, callId, st).agents == t.agents
  {}

  lemma NobodyIntroduced(s: State, e: Event)
    requires Introduces(e).None? && !e.SubAgentStart?
    ensures Step(s, e).agents.vals.Keys == s.agents.vals.Keys
  {
    hide LastIndex, Kids, MissingCards;
  }

  lemma CallAgents(s: State, e: Event)
    requires e.ToolCall?
    ensures CallTool(s, e).agents.vals.Keys == s.agents.vals.Keys + {e.agentId}
  {
    EnsuringKeepsNames(s, e.agentId, None);
    CallToolIs(s, e);
    hide CallTool, EnsureAgent, Rehome;
    var u := Announced(s, e);
    RehomeKeepsRegistry(u, u.agents.keys, ToolRef(|s.nodes|), e.callId);
  }

  lemma UnnamedStays(s: State, e: Event, a: string)
    requires a !in s.agents.vals && !NamesAgent(e, a)
    ensures a !in Step(s, e).agents.vals
  {
    hide Step, StartSubAgent, CallTool, EnsureAgent;
    if e.SubAgentStart? {
      StartAgents(s, e);
      assert Step(s, e) == StartSubAgent(s, e) by { StepIs(s, e); }
    } else if e.ToolCall? {
      CallAgents(s, e);
      assert Step(s, e) == CallTool(s, e) by { StepIs(s, e); }
    } else if Introduces(e).Some? {
      EnsuringKeepsNames(s, Introduces(e).value.0, Introduces(e).value.1);
      OnlyTheIntroduced(s, e);
    } else {
      NobodyIntroduced(s, e);
    }
  }

  lemma StartAgents(s: State, e: Event)
    requires e.SubAgentStart?
    ensures StartSubAgent(s, e).agents.vals.Keys == s.agents.vals.Keys + {e.agentId}
  {
    var tool := ToolFor(s, e.spawner);
    hide ToolFor;
    EnsuredAgents(s, e.agentId, Some(e.role), Some(e.parent), tool);
    hide EnsureAgent;
  }

  lemma EnsuredAgents(s: State, id: string, role: Option<string>, parent: Option<string>, tool: Option<Ref>)
    ensures EnsureAgent(s, id, role, parent, tool).agents.vals.Keys == s.agents.vals.Keys + {id}
  {
    if id in s.agents.vals {
      if tool.Some? { MoveKeepsAgents(s, AgentRef(id), tool.value); }
    } else {
      BornFields(s, id, role, parent, tool);
    }
    hide NewAgent, MoveUnder, Kids;
  }

  lemma MoveKeepsAgents(s: State, c: Ref, to: Ref)
    ensures MoveUnder(s, c, to).agents == s.agents
  {
    hide Containers, Kids;
  }

  lemma {:induction false} UnnamedHasNoNode(es: seq<Event>, a: string)
    requires forall e <- es :: !NamesAgent(e, a)
    ensures a !in Run(es).agents.vals
  {
    if es != [] {
      var n := |es| - 1;
      assert forall e <- es[..n] :: e in es;
      UnnamedHasNoNode(es[..n], a);
      assert es[n] in es;
      hide Step, NamesAgent;
      UnnamedStays(Run(es[..n]), es[n], a);
    }
  }

  /** An agent that content brings into being sits under nothing. */
  lemma BornFloating(s: State, e: Event, a: string)
    requires Inv(s) && Fresh(s, e) && a !in s.agents.vals
    requires Introduces(e).Some? && Introduces(e).value.0 == a && !Truthy(Introduces(e).value.1)
    ensures a in Step(s, e).agents.vals && !Seated(Step(s, e), AgentRef(a))
  {
    var s1 := Introduce(s, e);
    IntroducedFirst(s, e);
    NewbornFloats(s, a, Introduces(e).value.1);
    EnsuringKeepsNames(s, a, Introduces(e).value.1);
    EnsuredAgent(s, a, None, Introduces(e).value.1, None);
    if e.ToolCall? { StillFresh(s, e); }
    assert Fresh(s1, e) && !Takes(s1, e, a);
    hide EnsureAgent, Fresh, Inv;
    StepSeats(s1, e, a);
    NodesStay(s1, e, a);
  }

  lemma NewbornFloats(s: State, a: string, parent: Option<string>)
    requires Inv(s) && a !in s.agents.vals && !Truthy(parent)
    ensures !Seated(EnsureAgent(s, a, None, parent, None), AgentRef(a))
  {
    UnlistedHoldsNothing(s, AgentRef(a));
    AttachedNew(s, a, None, parent, None);
    hide NewAgent;
    forall r ensures !Under(EnsureAgent(s, a, None, parent, None), r, AgentRef(a)) {
      UnderIsAt(s, r, AgentRef(a));
    }
  }

  lemma NodesStay(s: State, e: Event, a: string)
    requires Inv(s) && a in s.agents.vals
    ensures a in Step(s, e).agents.vals
  {
    hide EnsureAgent, CallTool, StartSubAgent, Gate, Stream, Inv;
    if e.ToolCall? {
      CallSpawners(s, e);
    } else if e.SubAgentStart? {
      AttachingMoves(s, e);
    } else {
      OthersAreCalm(s, e);
    }
  }

  // ---- whole streams ----

  /** Step `i` puts the agent under a tool call. */
  predicate Attached(es: seq<Event>, i: nat, a: string)
    requires i < |es|
  {
    var e := es[i];
    || (e.SubAgentStart? && e.agentId == a && Truthy(e.spawner) && e.spawner.value in IntroducedBy(es[..i]))
    || (e.ToolCall? && e.toolName == DELEGATE && a in SpawnersOf(es[..i]) && SpawnersOf(es[..i])[a] == e.callId)
  }

  lemma TakingIsAttaching(es: seq<Event>, i: nat, a: string)
    requires FreshRun(es) && i < |es|
    ensures Takes(Run(es[..i]), es[i], a) <==> Attached(es, i, a)
  {
    FreshPrefixes(es, i);
    RunHomes(es[..i]);
    KnownToolsAreIntroduced(es[..i]);
    hide Run, FreshRun, Inv, Homed;
  }

  lemma FreshPrefixes(es: seq<Event>, n: nat)
    requires FreshRun(es) && n <= |es|
    ensures FreshRun(es[..n])
  {
    forall i | 0 <= i < n ensures Fresh(Run(es[..n][..i]), es[..n][i]) {
      assert es[..n][..i] == es[..i];
    }
  }

  lemma LastEventSeats(es: seq<Event>, n: nat, a: string)
    requires FreshRun(es) && n < |es| && a in Run(es[..n]).agents.vals
    ensures a in Run(es[..n + 1]).agents.vals
    ensures Seated(Run(es[..n + 1]), AgentRef(a)) <==> Seated(Run(es[..n]), AgentRef(a)) || Attached(es, n, a)
  {
    assert es[..n + 1][..n] == es[..n];
    assert Run(es[..n + 1]) == Step(Run(es[..n]), es[n]);
    assert Fresh(Run(es[..n]), es[n]);
    FreshPrefixes(es, n);
    RunHomes(es[..n]);
    hide *;
    TakingIsAttaching(es, n, a);
    StepSeats(Run(es[..n]), es[n], a);
    NodesStay(Run(es[..n]), es[n], a);
  }

  /** The agent has a node from step `b` on, which then sat under nothing. */
  lemma {:induction false} SeatedSince(es: seq<Event>, b: nat, n: nat, a: string)
    requires FreshRun(es) && b < n <= |es|
    requires a in Run(es[..b + 1]).agents.vals && !Seated(Run(es[..b + 1]), AgentRef(a))
    ensures a in Run(es[..n]).agents.vals
    ensures Seated(Run(es[..n]), AgentRef(a)) <==> exists i :: b < i < n && Attached(es, i, a)
  {
    hide *;
    if n > b + 1 {
      SeatedSince(es, b, n - 1, a);
      LastEventSeats(es, n - 1, a);
    }
  }

  /** Step `b` is the first to name the agent, and names no parent for it. */
  ghost predicate FirstNamedByContent(es: seq<Event>, b: nat, a: string) {
    && b < |es| && (forall i :: 0 <= i < b ==> !NamesAgent(es[i], a))
    && Introduces(es[b]).Some? && Introduces(es[b]).value.0 == a && !Truthy(Introduces(es[b]).value.1)
  }

  lemma ContentFloats(es: seq<Event>, b: nat, a: string)
    requires FreshRun(es) && FirstNamedByContent(es, b, a)
    ensures b < |es|
    ensures a in Run(es[..b + 1]).agents.vals && !Seated(Run(es[..b + 1]), AgentRef(a))
  {
    FreshPrefixes(es, b);
    RunHomes(es[..b]);
    assert forall e <- es[..b] :: !NamesAgent(e, a);
    UnnamedHasNoNode(es[..b], a);
    assert Fresh(Run(es[..b]), es[b]);
    assert es[..b + 1][..b] == es[..b];
    assert Run(es[..b + 1]) == Step(Run(es[..b]), es[b]);
    hide Run, FreshRun, Inv, Homed, Fresh, Step, Seated, NamesAgent;
    BornFloating(Run(es[..b]), es[b], a);
  }

  /**
   * An agent that is first named by its content sits under something at the end if and only if a later start
   * of it named a call id that was known by then, or a delegate call came with the id its last start had named.
   */
  lemma EarlyContentIsSeatedExactly(es: seq<Event>, b: nat, a: string)
    requires FreshRun(es) && FirstNamedByContent(es, b, a)
    ensures Seated(Run(es), AgentRef(a)) <==> exists i :: b < i < |es| && Attached(es, i, a)
  {
    hide FreshRun, FirstNamedByContent, Run, Seated, Attached;
    ContentFloats(es, b, a);
    SeatedSince(es, b, |es|, a);
    assert es[..|es|] == es;
  }

  // ---- what is not displayed ----

  lemma FloatingHasNoPosition(s: State, t: Tree, p: seq<nat>, u: Tree, a: string)
    requires Shape(s, t) && Sub(t, p, u) && !Seated(s, AgentRef(a)) && ItemOf(t) != Branch(AgentRef(a))
    ensures ItemOf(u) != Branch(AgentRef(a))
  {
    if p != [] {
      var q := SubParent(t, p, u);
      SubShape(s, t, p[..|p| - 1], q);
      if ItemOf(u) == Branch(AgentRef(a)) {
        assert Kids(s, RefOf(q))[p[|p| - 1]] == Branch(AgentRef(a));
        assert Under(s, RefOf(q), AgentRef(a));
      }
    }
  }

  /**
   * A start that names no call does not help: an agent other than the root whose content came first, and none of
   * whose starts names a call, has no row in the full display, whatever else the stream holds.
   */
  lemma UnclaimedContentIsNotShown(es: seq<Event>, b: nat, a: string, t: Tree)
    requires FreshRun(es) && FirstNamedByContent(es, b, a)
    requires forall e <- es :: NamesSpawner(e) ==> e.agentId != a
    requires Shape(Run(es), t) && ItemOf(t) != Branch(AgentRef(a))
    ensures !Seated(Run(es), AgentRef(a))
    ensures forall r <- Walk(t, 0, "r", FULL) :: ItemOf(r.item) != Branch(AgentRef(a))
  {
    EarlyContentIsSeatedExactly(es, b, a);
    forall i | b < i < |es| ensures !Attached(es, i, a) {
      assert es[i] in es;
      assert forall e <- es[..i] :: e in es;
      NeverSpawned(es[..i], a);
    }
    hide Run, FreshRun, Seated, Shape, Attached, FirstNamedByContent;
    forall r <- Walk(t, 0, "r", FULL) ensures ItemOf(r.item) != Branch(AgentRef(a)) {
      var p := RowHasPosition(t, 0, "r", r);
      FloatingHasNoPosition(Run(es), t, p, r.item, a);
    }
  }

  lemma {:induction false} NeverSpawned(es: seq<Event>, a: string)
    requires forall e <- es :: NamesSpawner(e) ==> e.agentId != a
    ensures a !in SpawnersOf(es)
  {
    if es != [] {
      assert forall e <- es[..|es| - 1] :: e in es;
      NeverSpawned(es[..|es| - 1], a);
      assert es[|es| - 1] in es;
    }
  }
}
