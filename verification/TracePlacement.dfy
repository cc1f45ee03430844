/**
 * Where the nodes of a trace sit. After every event each agent and tool node is
 * held by at most one `children` array, at one position, as long as no
 * `tool-call` re-announces a call id whose node already holds a sub-agent; that
 * condition is exact.
 */
module TracePlacement {
  import opened Basics
  import opened TraceModel

  /** Position `i` of the children of `r` holds the node `c`. */
  ghost predicate At(s: State, r: Ref, i: int, c: Ref) {
    0 <= i < |Kids(s, r)| && Kids(s, r)[i] == Branch(c)
  }

  ghost predicate Placed(s: State, c: Ref) {
    exists r, i :: At(s, r, i, c)
  }

  /** Each node occurs at most once across all children arrays. */
  ghost predicate Single(s: State) {
    forall r1, i1, r2, i2, c :: At(s, r1, i1, c) && At(s, r2, i2, c) ==> r1 == r2 && i1 == i2
  }

  /** The node exists. */
  predicate Known(s: State, c: Ref) {
    match c
    case AgentRef(id) => id in s.agents.vals
    case ToolRef(n) => n < |s.nodes|
  }

  /** The node is still reachable through `agents` or `tools`, so `detachItem` looks into it. */
  predicate Listed(s: State, r: Ref) {
    match r
    case AgentRef(id) => id in s.agents.vals
    case ToolRef(n) =>
      n < |s.nodes| && s.nodes[n].callId in s.tools.vals && s.tools.vals[s.nodes[n].callId] == n
  }

  ghost predicate Indexed(s: State) {
    forall t <- s.tools.vals :: s.tools.vals[t] < |s.nodes| && s.nodes[s.tools.vals[t]].callId == t
  }

  /** Whatever holds `c`, `detachItem` will look there. */
  ghost predicate Findable(s: State, c: Ref) {
    forall r, i :: At(s, r, i, c) ==> Listed(s, r)
  }

  ghost predicate Sound(s: State) {
    Single(s) && Indexed(s) && forall r, i, c :: At(s, r, i, c) ==> Known(s, c)
  }

  ghost predicate Inv(s: State) {
    Sound(s) && forall c :: Findable(s, c)
  }

  /** The event does not re-announce a tool whose node already holds a sub-agent. */
  ghost predicate Fresh(s: State, e: Event) {
    e.ToolCall? && e.callId in s.tools.vals ==>
      forall i, c :: !At(s, ToolRef(s.tools.vals[e.callId]), i, c)
  }

  // ---- the primitive moves ----

  lemma ContainersAreListed(s: State, r: Ref)
    requires Indexed(s)
    ensures r in Containers(s) <==> Listed(s, r)
  {
    var as_ := seq(|s.agents.keys|, i requires 0 <= i < |s.agents.keys| => AgentRef(s.agents.keys[i]));
    var ts := seq(|s.tools.keys|, i requires 0 <= i < |s.tools.keys| => ToolRef(s.tools.vals[s.tools.keys[i]]));
    assert Containers(s) == as_ + ts;
    if Listed(s, r) {
      match r
      case AgentRef(id) =>
        var i :| 0 <= i < |s.agents.keys| && s.agents.keys[i] == id;
        assert as_[i] == r;
      case ToolRef(n) =>
        var i :| 0 <= i < |s.tools.keys| && s.tools.keys[i] == s.nodes[n].callId;
        assert ts[i] == r;
    }
  }

  /** Where the item now at position `i` of `r` sat before position `j` of `h` was taken out. */
  function Was(r: Ref, i: int, h: Ref, j: int): int {
    if r == h && i >= j then i + 1 else i
  }

  lemma Removed(s: State, h: Ref, j: nat)
    requires j < |Kids(s, h)|
    ensures var d := WithKids(s, h, Without(Kids(s, h), j));
      && (forall r, i, b :: At(d, r, i, b) ==> At(s, r, Was(r, i, h, j), b))
      && (forall r, b :: Kids(s, h)[j] != Branch(b) ==> (Branch(b) in Kids(s, r) <==> Branch(b) in Kids(d, r)))
  {
    var k := Kids(s, h);
    var d := WithKids(s, h, Without(k, j));
    forall r | r != h ensures Kids(d, r) == Kids(s, r) {}
    assert forall i :: 0 <= i < |k| - 1 ==> Without(k, j)[i] == k[if i >= j then i + 1 else i];
    forall b | k[j] != Branch(b) && Branch(b) in k ensures Branch(b) in Without(k, j) {
      var i :| 0 <= i < |k| && k[i] == Branch(b);
      assert Without(k, j)[if i < j then i else i - 1] == Branch(b);
    }
  }

  /** `detachItem` takes a findable node out of the tree and leaves every other node with its parent. */
  lemma Detached(s: State, c: Ref)
    requires Sound(s) && Findable(s, c)
    ensures var d := Detach(s, c); Sound(d) && !Placed(d, c) && d == s.(kids := d.kids)
    ensures forall b :: Findable(s, b) ==> Findable(Detach(s, c), b)
    ensures forall r, b :: b != c ==> (Branch(b) in Kids(s, r) <==> Branch(b) in Kids(Detach(s, c), r))
  {
    var h := Holder(s, Containers(s), Branch(c));
    if h.None? {
      forall r, i ensures !At(s, r, i, c) {
        ContainersAreListed(s, r);
      }
    } else {
      var j := IndexOf(Kids(s, h.value), Branch(c));
      Removed(s, h.value, j);
      RemovedSound(s, h.value, j, c);
    }
  }

  lemma RemovedSound(s: State, h: Ref, j: nat, c: Ref)
    requires Sound(s) && At(s, h, j, c)
    ensures var d := WithKids(s, h, Without(Kids(s, h), j));
      && Sound(d) && !Placed(d, c)
      && forall b :: Findable(s, b) ==> Findable(d, b)
  {
    var d := WithKids(s, h, Without(Kids(s, h), j));
    Removed(s, h, j);
    forall r1, i1, r2, i2, b | At(d, r1, i1, b) && At(d, r2, i2, b) ensures r1 == r2 && i1 == i2 {
      assert At(s, r1, Was(r1, i1, h, j), b) && At(s, r2, Was(r2, i2, h, j), b);
    }
    forall r, i, b | At(d, r, i, b)
      ensures Known(d, b) && b != c && (Findable(s, b) ==> Listed(d, r))
    {
      assert At(s, r, Was(r, i, h, j), b);
    }
  }

  /** Pushing a node that sits nowhere keeps the placement. */
  lemma Pushed(s: State, to: Ref, c: Ref)
    requires Sound(s) && Listed(s, to) && Known(s, c) && !Placed(s, c)
    ensures Sound(Push(s, to, Branch(c))) && Findable(Push(s, to, Branch(c)), c)
    ensures forall b :: Findable(s, b) ==> Findable(Push(s, to, Branch(c)), b)
  {
    var p := Push(s, to, Branch(c));
    forall r, i, b | At(p, r, i, b)
      ensures if r == to && i == |Kids(s, to)| then b == c else At(s, r, i, b)
    {}
  }

  lemma Moved(s: State, c: Ref, to: Ref)
    requires Sound(s) && Findable(s, c) && Listed(s, to) && Known(s, c)
    ensures var m := MoveUnder(s, c, to);
      Sound(m) && Findable(m, c) && Branch(c) in Kids(m, to) && m == s.(kids := m.kids)
    ensures forall b :: Findable(s, b) ==> Findable(MoveUnder(s, c, to), b)
    ensures forall r, b :: b != c ==> (Branch(b) in Kids(s, r) <==> Branch(b) in Kids(MoveUnder(s, c, to), r))
  {
    hide Detach, Single, Indexed;
    if Branch(c) !in Kids(s, to) {
      Detached(s, c);
      var d := Detach(s, c);
      Pushed(d, to, c);
      assert Kids(Push(d, to, Branch(c)), to)[|Kids(d, to)|] == Branch(c);
    }
  }

  /** A change that leaves the branches of every array in place. */
  lemma SameBranches(s: State, t: State)
    requires Sound(s)
    requires t.tools == s.tools && s.agents.vals.Keys <= t.agents.vals.Keys
    requires |t.nodes| == |s.nodes| && forall n | 0 <= n < |s.nodes| :: t.nodes[n].callId == s.nodes[n].callId
    requires forall r, i, c :: At(t, r, i, c) ==> At(s, r, i, c)
    ensures Sound(t) && forall c :: Findable(s, c) ==> Findable(t, c)
  {
    forall r, i, c | At(t, r, i, c) ensures Known(t, c) && (Findable(s, c) ==> Listed(t, r)) {
      assert At(s, r, i, c);
    }
  }

  // ---- one event ----

  lemma EnsuredAgent(s: State, id: string, role: Option<string>, parent: Option<string>, attachTo: Option<Ref>)
    requires Inv(s)
    requires attachTo.Some? ==> Listed(s, attachTo.value)
    ensures var t := EnsureAgent(s, id, role, parent, attachTo);
      && Inv(t) && t.tools == s.tools && t.nodes == s.nodes && id in t.agents.vals
      && s.agents.vals.Keys <= t.agents.vals.Keys
  {
    if id in s.agents.vals {
      EnsuredKnown(s, id, role, parent, attachTo);
    } else {
      EnsuredNew(s, id, role, parent, attachTo);
    }
  }

  lemma EnsuredKnown(s: State, id: string, role: Option<string>, parent: Option<string>, attachTo: Option<Ref>)
    requires Inv(s) && id in s.agents.vals
    requires attachTo.Some? ==> Listed(s, attachTo.value)
    ensures var t := EnsureAgent(s, id, role, parent, attachTo);
      && Inv(t) && t.tools == s.tools && t.nodes == s.nodes && id in t.agents.vals
      && s.agents.vals.Keys <= t.agents.vals.Keys
  {
    var t := EnsureAgent(s, id, role, parent, attachTo);
    if attachTo.Some? {
      Moved(s, AgentRef(id), attachTo.value);
      AgentSet(MoveUnder(s, AgentRef(id), attachTo.value), id, t.agents.vals[id]);
    }
    AgentSet(s, id, t.agents.vals[id]);
  }

  lemma AgentSet(s: State, id: string, a: AgentItem)
    requires Inv(s)
    ensures Inv(SetAgent(s, id, a))
  {
    SameBranches(s, SetAgent(s, id, a));
  }

  lemma EnsuredNew(s: State, id: string, role: Option<string>, parent: Option<string>, attachTo: Option<Ref>)
    requires Inv(s) && id !in s.agents.vals
    requires attachTo.Some? ==> Listed(s, attachTo.value)
    ensures var t := EnsureAgent(s, id, role, parent, attachTo);
      && Inv(t) && t.tools == s.tools && t.nodes == s.nodes && id in t.agents.vals
      && s.agents.vals.Keys <= t.agents.vals.Keys
  {
    var t := EnsureAgent(s, id, role, parent, attachTo);
    var s1 := WithKids(SetAgent(s, id, t.agents.vals[id]), AgentRef(id), []);
    BornAgent(s, id, t.agents.vals[id]);
    match Berth(s, id, parent, attachTo)
    case Some(r) => Pushed(s1, r, AgentRef(id));
    case None => SameBranches(s1, t);
  }

  lemma BornAgent(s: State, id: string, a: AgentItem)
    requires Inv(s) && id !in s.agents.vals
    ensures var t := WithKids(SetAgent(s, id, a), AgentRef(id), []);
      && Inv(t) && !Placed(t, AgentRef(id))
  {
    var t := WithKids(SetAgent(s, id, a), AgentRef(id), []);
    forall r, i, c | At(t, r, i, c) ensures At(s, r, i, c) && c != AgentRef(id) {
      assert Kids(t, r) == Kids(s, r) || Kids(t, r) == [];
      assert At(s, r, i, c);
    }
    SameBranches(s, t);
  }

  /** The new node joins the tree; the node it replaces under its call id, if any, is no longer listed. */
  lemma AddedTool(s: State, t: ToolItem)
    requires Sound(s) && t.agentId in s.agents.vals
    ensures var r := NewTool(s, t);
      && Sound(r) && Listed(r, ToolRef(|s.nodes|)) && r.agents == s.agents
      && r.nodes == s.nodes + [t] && r.tools.vals == s.tools.vals[t.callId := |s.nodes|]
      && forall b :: (b == ToolRef(|s.nodes|) ||
                      (Findable(s, b) &&
                       (t.callId in s.tools.vals ==> Branch(b) !in Kids(s, ToolRef(s.tools.vals[t.callId])))))
                     ==> Findable(r, b)
    ensures forall r | r != ToolRef(|s.nodes|) && r != AgentRef(t.agentId) :: Kids(NewTool(s, t), r) == Kids(s, r)
    ensures forall r, b :: b != ToolRef(|s.nodes|) && Branch(b) in Kids(NewTool(s, t), r) ==> Branch(b) in Kids(s, r)
    ensures forall r, b :: r != ToolRef(|s.nodes|) && Branch(b) in Kids(s, r) ==> Branch(b) in Kids(NewTool(s, t), r)
  {
    var n := |s.nodes|;
    var s1 := WithKids(s.(nodes := s.nodes + [t], tools := Put(s.tools, t.callId, n)), ToolRef(n), []);
    forall r, i, c | At(s1, r, i, c) ensures At(s, r, i, c) && Known(s1, c) && c != ToolRef(n) {
      assert Kids(s1, r) == Kids(s, r) || Kids(s1, r) == [];
      assert At(s, r, i, c);
    }
    forall b, r, i | Findable(s, b) && At(s1, r, i, b)
        && (t.callId in s.tools.vals ==> Branch(b) !in Kids(s, ToolRef(s.tools.vals[t.callId])))
      ensures Listed(s1, r)
    {
      assert At(s, r, i, b);
    }
    Pushed(s1, AgentRef(t.agentId), ToolRef(n));
  }

  /** `a` names the tool call `callId` as its spawner. */
  predicate Names(s: State, a: string, callId: string) {
    a in s.agents.vals && s.agents.vals[a].spawnedBy == Some(callId)
  }

  /** `b` is one of the agents `ids` that name the tool call. */
  predicate Called(s: State, ids: seq<string>, b: Ref, callId: string) {
    b.AgentRef? && b.id in ids && Names(s, b.id, callId)
  }

  /** Rehoming collects exactly the sub-agents that name the tool. */
  lemma {:induction false} Rehomed(s: State, ids: seq<string>, tool: Ref, callId: string)
    requires Sound(s) && Listed(s, tool)
    requires forall a <- ids | Names(s, a, callId) :: Findable(s, AgentRef(a))
    ensures var t := Rehome(s, ids, tool, callId);
      && Sound(t) && t == s.(kids := t.kids)
      && (forall b :: Findable(s, b) ==> Findable(t, b))
      && (forall a <- ids | Names(s, a, callId) :: Branch(AgentRef(a)) in Kids(t, tool))
      && forall b, r | !Called(s, ids, b, callId) :: Branch(b) in Kids(s, r) <==> Branch(b) in Kids(t, r)
    decreases |ids|
  {
    if ids != [] {
      if Names(s, ids[0], callId) {
        Moved(s, AgentRef(ids[0]), tool);
        var next := MoveUnder(s, AgentRef(ids[0]), tool);
        Rehomed(next, ids[1..], tool, callId);
        if ids[0] !in ids[1..] {
          assert Branch(AgentRef(ids[0])) in Kids(next, tool);
        }
        forall b, r | !Called(s, ids, b, callId)
          ensures Branch(b) in Kids(s, r) <==> Branch(b) in Kids(Rehome(s, ids, tool, callId), r)
        {
          assert b != AgentRef(ids[0]);
          assert Branch(b) in Kids(s, r) <==> Branch(b) in Kids(next, r);
        }
      } else {
        Rehomed(s, ids[1..], tool, callId);
      }
    }
  }

  /** Rewriting leaves never touches a branch. */
  ghost predicate SameShape(k: seq<Item>, k': seq<Item>) {
    && |k| <= |k'|
    && (forall i :: 0 <= i < |k| ==> (k[i] == k'[i] || (k[i].Leaf? && k'[i].Leaf?)))
    && forall i :: |k| <= i < |k'| ==> k'[i].Leaf?
  }

  lemma Rewritten(s: State, r: Ref, k: seq<Item>)
    requires Inv(s) && SameShape(Kids(s, r), k)
    ensures Inv(WithKids(s, r, k))
  {
    SameBranches(s, WithKids(s, r, k));
  }

  lemma StatusSet(s: State, callId: string, st: ToolStatus)
    requires Inv(s)
    ensures Inv(SetStatus(s, callId, st))
  {
    SameBranches(s, SetStatus(s, callId, st));
  }

  /** Every event keeps the placement, unless it re-announces a tool that already holds a sub-agent. */
  lemma StepKeepsPlacement(s: State, e: Event)
    requires Inv(s) && Fresh(s, e)
    ensures Inv(Step(s, e))
  {
    hide EnsureAgent, Gate, Stream, StartSubAgent, CallTool, Inv, Fresh;
    match e
    case UserText(text) => RootTalkKeeps(s, Text(text, User));
    case ShellStart(command) => RootTalkKeeps(s, Shell(command, None));
    case ShellResult(_, _) => ShellResultKeeps(s, e);
    case TextDelta(id, text) => StreamKeeps(s, id, text, Assistant);
    case ReasoningDelta(id, text) => StreamKeeps(s, id, text, Reasoning);
    case ToolCall(_, _, _) => ToolCallKeeps(s, e);
    case ApprovalRequired(id, parent, callId, toolName) =>
      GateKeeps(s, id, parent, ToolItem(callId, id, toolName, Approval));
    case QuestionRequired(id, parent, callId) =>
      GateKeeps(s, id, parent, ToolItem(callId, id, "askUserQuestion", Question));
    case ToolResult(callId, isError) => StatusSet(s, callId, if isError then Error else Ok);
    case SubAgentStart(_, _, _, _, _) => SubAgentStartKeeps(s, e);
    case SubAgentFinish(id) => FinishKeeps(s, id);
    case CompactionStart => RootPushKeeps(s, Compaction(false));
    case CompactionEnd => CompactionEndKeeps(s);
    case ArtifactCreated(id) => RootPushKeeps(s, Artifact(id));
    case SetArtifacts(ids) => CardsKeep(s, ids);
    case ApprovalDecision(callId, rejected) => StatusSet(s, callId, if rejected then Error else Running);
    case AnswerQuestion(callId) => StatusSet(s, callId, Running);
    case RunFinish(runId) => if Truthy(s.root) { FinishKeeps(s, s.root.value); }
  }

  lemma RootTalkKeeps(s: State, c: Content)
    requires Inv(s)
    ensures Inv(Push(EnsureAgent(s, ORCHESTRATOR, None, None, None), AgentRef(ORCHESTRATOR), Leaf(c)))
  {
    EnsuredAgent(s, ORCHESTRATOR, None, None, None);
    var s1 := EnsureAgent(s, ORCHESTRATOR, None, None, None);
    Rewritten(s1, AgentRef(ORCHESTRATOR), Kids(s1, AgentRef(ORCHESTRATOR)) + [Leaf(c)]);
  }

  lemma ShellResultKeeps(s: State, e: Event)
    requires Inv(s) && e.ShellResult?
    ensures Inv(Step(s, e))
  {
    var k := Kids(s, AgentRef(ORCHESTRATOR));
    var i := LastIndex(k, RunningShell);
    if i >= 0 {
      Rewritten(s, AgentRef(ORCHESTRATOR), k[i := Leaf(Shell(k[i].content.command, Some((e.output, e.exitCode))))]);
    }
  }

  lemma CompactionEndKeeps(s: State)
    requires Inv(s)
    ensures Inv(CloseCompaction(s))
  {
    if Truthy(s.root) {
      var k := Kids(s, AgentRef(s.root.value));
      var i := LastIndex(k, CompactionMark);
      if i >= 0 { Rewritten(s, AgentRef(s.root.value), k[i := Leaf(Compaction(true))]); }
    }
  }

  lemma ToolCallKeeps(s: State, e: Event)
    requires Inv(s) && Fresh(s, e) && e.ToolCall?
    ensures Inv(CallTool(s, e))
  {
    EnsuredAgent(s, e.agentId, None, None, None);
    StillFresh(s, e);
    var s1 := EnsureAgent(s, e.agentId, None, None, None);
    hide EnsureAgent, Single;
    AddedTool(s1, ToolItem(e.callId, e.agentId, e.toolName, Running));
    if e.callId in s1.tools.vals { NothingHeld(s1, e); }
    var s2 := NewTool(s1, ToolItem(e.callId, e.agentId, e.toolName, Running));
    Rehomed(s2, s2.agents.keys, ToolRef(|s1.nodes|), e.callId);
  }

  lemma NothingHeld(s: State, e: Event)
    requires Fresh(s, e) && e.ToolCall? && e.callId in s.tools.vals
    ensures forall b :: Branch(b) !in Kids(s, ToolRef(s.tools.vals[e.callId]))
  {
    var stale := ToolRef(s.tools.vals[e.callId]);
    forall b | Branch(b) in Kids(s, stale) ensures false {
      var i :| 0 <= i < |Kids(s, stale)| && Kids(s, stale)[i] == Branch(b);
      assert At(s, stale, i, b);
    }
  }

  lemma SubAgentStartKeeps(s: State, e: Event)
    requires Inv(s) && e.SubAgentStart?
    ensures Inv(Step(s, e))
  {
    EnsuredAgent(s, e.agentId, Some(e.role), Some(e.parent), ToolFor(s, e.spawner));
    SameBranches(EnsureAgent(s, e.agentId, Some(e.role), Some(e.parent), ToolFor(s, e.spawner)), Step(s, e));
  }

  lemma FinishKeeps(s: State, id: string)
    requires Inv(s)
    ensures Inv(FinishAgent(s, id))
  {
    if id in s.agents.vals { AgentSet(s, id, s.agents.vals[id].(done := true)); }
  }

  lemma StreamKeeps(s: State, id: string, text: string, who: Speaker)
    requires Inv(s)
    ensures Inv(Stream(s, id, text, who))
  {
    EnsuredAgent(s, id, None, None, None);
    var s1 := EnsureAgent(s, id, None, None, None);
    Rewritten(s1, AgentRef(id), AppendText(Kids(s1, AgentRef(id)), text, who));
  }

  /** Ensuring an agent without moving it puts nothing under a tool. */
  lemma EnsuringKeepsTools(s: State, id: string, parent: Option<string>, n: nat)
    ensures var t := EnsureAgent(s, id, None, parent, None);
      t.tools == s.tools && t.nodes == s.nodes && Kids(t, ToolRef(n)) == Kids(s, ToolRef(n))
  {
    hide MoveUnder;
    var t := EnsureAgent(s, id, None, parent, None);
    if id in s.agents.vals {
      assert t.kids == s.kids;
    } else {
      hide KnownAgent;
      var s1 := WithKids(s, AgentRef(id), []);
      match Berth(s, id, parent, None)
      case Some(r) => assert t.kids == Push(s1, r, Branch(AgentRef(id))).kids;
      case None => assert t.kids == s1.kids;
    }
  }

  lemma StillFresh(s: State, e: Event)
    requires e.ToolCall? && Fresh(s, e)
    ensures Fresh(EnsureAgent(s, e.agentId, None, None, None), e)
  {
    if e.callId in s.tools.vals {
      EnsuringKeepsTools(s, e.agentId, None, s.tools.vals[e.callId]);
    } else {
      EnsuringKeepsTools(s, e.agentId, None, 0);
    }
    hide EnsureAgent;
    var t := EnsureAgent(s, e.agentId, None, None, None);
    if e.callId in t.tools.vals {
      var held := ToolRef(s.tools.vals[e.callId]);
      forall i, c ensures !At(t, held, i, c) {
        assert !At(s, held, i, c);
      }
    }
  }

  lemma GateKeeps(s: State, id: string, parent: Option<string>, t: ToolItem)
    requires Inv(s) && t.agentId == id
    ensures Inv(Gate(s, id, parent, t))
  {
    EnsuredAgent(s, id, None, parent, None);
    var s1 := EnsureAgent(s, id, None, parent, None);
    if t.callId !in s1.tools.vals {
      AddedTool(s1, t);
    }
    StatusSet(if t.callId in s1.tools.vals then s1 else NewTool(s1, t), t.callId, t.status);
  }

  lemma RootPushKeeps(s: State, c: Content)
    requires Inv(s)
    ensures Inv(PushToRoot(s, Leaf(c)))
  {
    if Truthy(s.root) && s.root.value in s.agents.vals {
      Rewritten(s, AgentRef(s.root.value), Kids(s, AgentRef(s.root.value)) + [Leaf(c)]);
    }
  }

  lemma CardsKeep(s: State, ids: seq<string>)
    requires Inv(s)
    ensures Inv(RestoreCards(s, ids))
  {
    if Truthy(s.root) && s.root.value in s.agents.vals {
      var r := AgentRef(s.root.value);
      Rewritten(s, r, Kids(s, r) + MissingCards(Kids(s, r), ids));
    }
  }

  // ---- the condition is exact ----

  /** The event re-announces a delegate call whose present node holds a sub-agent that names it. */
  ghost predicate Reclaims(s: State, e: Event) {
    && e.ToolCall? && e.toolName == DELEGATE && e.callId in s.tools.vals
    && exists a :: Names(s, a, e.callId) && Branch(AgentRef(a)) in Kids(s, ToolRef(s.tools.vals[e.callId]))
  }

  lemma EnsuringKeepsNames(s: State, id: string, parent: Option<string>)
    ensures var t := EnsureAgent(s, id, None, parent, None);
      && id in t.agents.vals
      && t.agents.vals == s.agents.vals[id := t.agents.vals[id]]
      && t.agents.vals[id].spawnedBy == if id in s.agents.vals then s.agents.vals[id].spawnedBy else None
  {
    hide Kids, Berth, MoveUnder;
    if id in s.agents.vals {
      assert EnsureAgent(s, id, None, parent, None) == SetAgent(s, id, s.agents.vals[id]);
    }
  }

  /** The state in which a re-announced tool starts to look for its sub-agents. */
  function Announced(s: State, e: Event): State
    requires e.ToolCall?
  {
    NewTool(EnsureAgent(s, e.agentId, None, None, None), ToolItem(e.callId, e.agentId, e.toolName, Running))
  }

  lemma CallToolIs(s: State, e: Event)
    requires e.ToolCall?
    ensures var t := Announced(s, e);
      && t.nodes == s.nodes + [ToolItem(e.callId, e.agentId, e.toolName, Running)]
      && t.tools.vals == s.tools.vals[e.callId := |s.nodes|]
      && CallTool(s, e) == if e.toolName == DELEGATE then Rehome(t, t.agents.keys, ToolRef(|s.nodes|), e.callId) else t
  {
    hide Rehome, MoveUnder;
    var s1 := EnsureAgent(s, e.agentId, None, None, None);
    assert s1.nodes == s.nodes && s1.tools == s.tools;
  }

  lemma ReannouncedTool(s: State, e: Event)
    requires Inv(s) && e.ToolCall? && e.callId in s.tools.vals
    ensures var t := Announced(s, e); var stale := ToolRef(s.tools.vals[e.callId]);
      && Sound(t)
      && Kids(t, stale) == Kids(s, stale) && !Listed(t, stale) && Listed(t, ToolRef(|s.nodes|))
      && (forall a :: Names(t, a, e.callId) <==> Names(s, a, e.callId))
      && (forall b :: Branch(b) !in Kids(s, stale) ==> Findable(t, b))
  {
    EnsuredAgent(s, e.agentId, None, None, None);
    EnsuringKeepsTools(s, e.agentId, None, s.tools.vals[e.callId]);
    EnsuringKeepsNames(s, e.agentId, None);
    var s1 := EnsureAgent(s, e.agentId, None, None, None);
    hide EnsureAgent;
    ReplacedNode(s1, ToolItem(e.callId, e.agentId, e.toolName, Running));
  }

  lemma ReplacedNode(s: State, t: ToolItem)
    requires Inv(s) && t.callId in s.tools.vals && t.agentId in s.agents.vals
    ensures var u := NewTool(s, t); var stale := ToolRef(s.tools.vals[t.callId]);
      && Sound(u) && u.agents == s.agents
      && Kids(u, stale) == Kids(s, stale) && !Listed(u, stale) && Listed(u, ToolRef(|s.nodes|))
      && (forall b :: Branch(b) !in Kids(s, stale) ==> Findable(u, b))
  {
    AddedTool(s, t);
    hide NewTool, Single;
  }

  /** Rehoming never looks into a node that is no longer listed. */
  lemma {:induction false} UnlistedKept(s: State, ids: seq<string>, tool: Ref, callId: string, r: Ref)
    requires Indexed(s) && !Listed(s, r) && Listed(s, tool)
    ensures Kids(Rehome(s, ids, tool, callId), r) == Kids(s, r)
    decreases |ids|
  {
    if ids != [] {
      hide Containers;
      var next := if Names(s, ids[0], callId) then MoveUnder(s, AgentRef(ids[0]), tool) else s;
      ContainersAreListed(s, r);
      assert Kids(next, r) == Kids(s, r);
      UnlistedKept(next, ids[1..], tool, callId, r);
    }
  }

  /** Rehoming leaves every agent that names the tool under it, sound or not. */
  lemma {:induction false} Collected(s: State, ids: seq<string>, tool: Ref, callId: string, a: string)
    requires Names(s, a, callId)
    requires a in ids || Branch(AgentRef(a)) in Kids(s, tool)
    ensures Branch(AgentRef(a)) in Kids(Rehome(s, ids, tool, callId), tool)
    decreases |ids|
  {
    if ids != [] {
      var b := AgentRef(ids[0]);
      var next := if Names(s, ids[0], callId) then MoveUnder(s, b, tool) else s;
      if next != s && (a == ids[0] || Branch(AgentRef(a)) in Kids(s, tool)) {
        StillThere(s, b, tool, AgentRef(a));
      }
      Collected(next, ids[1..], tool, callId, a);
    }
  }

  lemma StillThere(s: State, b: Ref, tool: Ref, c: Ref)
    requires c == b || Branch(c) in Kids(s, tool)
    ensures Branch(c) in Kids(MoveUnder(s, b, tool), tool)
  {
    if Branch(b) !in Kids(s, tool) {
      var d := Detach(s, b);
      var h := Holder(s, Containers(s), Branch(b));
      assert Kids(d, tool) == Kids(s, tool);
      var k := Kids(Push(d, tool, Branch(b)), tool);
      assert k == Kids(s, tool) + [Branch(b)];
      assert k[|k| - 1] == Branch(b);
    }
  }

  /** From a well-placed state, one event breaks single placement exactly when it reclaims a held sub-agent. */
  lemma SinglePlacementExactly(s: State, e: Event)
    requires Inv(s)
    ensures Single(Step(s, e)) <==> !Reclaims(s, e)
  {
    hide EnsureAgent, Gate, Stream, StartSubAgent, NewTool, Single, Findable;
    if !e.ToolCall? || e.callId !in s.tools.vals {
      StepKeepsPlacement(s, e);
    } else if Reclaims(s, e) {
      ReclaimDoubles(s, e);
    } else {
      ReannouncedTool(s, e);
      CallToolIs(s, e);
      if e.toolName == DELEGATE { WithoutReclaim(s, e); }
    }
  }

  lemma ReclaimDoubles(s: State, e: Event)
    requires Inv(s) && Reclaims(s, e)
    ensures !Single(CallTool(s, e))
  {
    hide EnsureAgent, NewTool, Findable, Single;
    var stale, latest := ToolRef(s.tools.vals[e.callId]), ToolRef(|s.nodes|);
    ReannouncedTool(s, e);
    CallToolIs(s, e);
    hide CallTool;
    var u := Announced(s, e);
    var a :| Names(s, a, e.callId) && Branch(AgentRef(a)) in Kids(s, stale);
    UnlistedKept(u, u.agents.keys, latest, e.callId, stale);
    assert Names(u, a, e.callId);
    Collected(u, u.agents.keys, latest, e.callId, a);
    TwoHolders(CallTool(s, e), stale, latest, AgentRef(a));
  }

  lemma TwoHolders(s: State, q: Ref, r: Ref, c: Ref)
    requires q != r && Branch(c) in Kids(s, q) && Branch(c) in Kids(s, r)
    ensures !Single(s)
  {
    var i :| 0 <= i < |Kids(s, q)| && Kids(s, q)[i] == Branch(c);
    var j :| 0 <= j < |Kids(s, r)| && Kids(s, r)[j] == Branch(c);
    assert At(s, q, i, c) && At(s, r, j, c);
  }

  lemma WithoutReclaim(s: State, e: Event)
    requires Inv(s) && e.ToolCall? && e.callId in s.tools.vals && e.toolName == DELEGATE && !Reclaims(s, e)
    ensures Single(CallTool(s, e))
  {
    hide EnsureAgent, NewTool, Findable, Single, Listed;
    ReannouncedTool(s, e);
    CallToolIs(s, e);
    hide CallTool;
    var u := Announced(s, e);
    forall a | Names(u, a, e.callId) ensures Findable(u, AgentRef(a)) {
      assert Names(s, a, e.callId);
    }
    Rehomed(u, u.agents.keys, ToolRef(|s.nodes|), e.callId);
  }

  /** The invariant itself survives exactly the fresh events. */
  lemma PlacementInvariantExactly(s: State, e: Event)
    requires Inv(s)
    ensures Inv(Step(s, e)) <==> Fresh(s, e)
  {
    hide EnsureAgent, Gate, Stream, StartSubAgent, CallTool, Inv;
    if Fresh(s, e) {
      StepKeepsPlacement(s, e);
    } else {
      StaleNodeKeepsItsContent(s, e);
    }
  }

  lemma StaleNodeKeepsItsContent(s: State, e: Event)
    requires Inv(s) && !Fresh(s, e)
    ensures !Inv(CallTool(s, e))
  {
    hide EnsureAgent, NewTool, Single;
    var stale, latest := ToolRef(s.tools.vals[e.callId]), ToolRef(|s.nodes|);
    var i, c :| At(s, stale, i, c);
    ReannouncedTool(s, e);
    CallToolIs(s, e);
    var u := Announced(s, e);
    UnlistedKept(u, u.agents.keys, latest, e.callId, stale);
    RehomeKeepsRegistry(u, u.agents.keys, latest, e.callId);
    hide CallTool;
    assert At(CallTool(s, e), stale, i, c) && !Findable(CallTool(s, e), c);
  }

  lemma {:induction false} RehomeKeepsRegistry(s: State, ids: seq<string>, tool: Ref, callId: string)
    ensures var t := Rehome(s, ids, tool, callId); t == s.(kids := t.kids)
    decreases |ids|
  {
    if ids != [] {
      var next := if Names(s, ids[0], callId) then MoveUnder(s, AgentRef(ids[0]), tool) else s;
      RehomeKeepsRegistry(next, ids[1..], tool, callId);
    }
  }

  /** A whole stream in which no event re-announces a tool that already holds a sub-agent. */
  ghost predicate FreshRun(es: seq<Event>) {
    forall i :: 0 <= i < |es| ==> Fresh(Run(es[..i]), es[i])
  }

  lemma {:induction false} RunKeepsPlacement(es: seq<Event>)
    requires FreshRun(es)
    ensures Inv(Run(es))
  {
    if es != [] {
      var n := |es| - 1;
      forall i | 0 <= i < n ensures Fresh(Run(es[..n][..i]), es[..n][i]) {
        assert es[..n][..i] == es[..i];
      }
      RunKeepsPlacement(es[..n]);
      assert Fresh(Run(es[..n]), es[n]);
      StepKeepsPlacement(Run(es[..n]), es[n]);
    }
  }

  const EarlyApproval := ApprovalRequired(ORCHESTRATOR, None, "t", DELEGATE)
  const EarlyStart := SubAgentStart("sub", "r", "worker", ORCHESTRATOR, Some("t"))
  const LateCall := ToolCall(ORCHESTRATOR, "t", DELEGATE)

  lemma AfterEarlyApproval()
    ensures var s := Step(Initial, EarlyApproval);
      "t" in s.tools.vals && s.tools.vals["t"] == 0 && "sub" !in s.agents.vals && Inv(s)
  {
    StepKeepsPlacement(Initial, EarlyApproval);
  }

  lemma AfterEarlyStart(s: State)
    requires Inv(s) && "t" in s.tools.vals && s.tools.vals["t"] == 0 && "sub" !in s.agents.vals
    ensures Reclaims(Step(s, EarlyStart), LateCall) && Inv(Step(s, EarlyStart))
  {
    hide Inv, KnownAgent, MoveUnder;
    StepKeepsPlacement(s, EarlyStart);
    var k := Kids(Step(s, EarlyStart), ToolRef(0));
    assert k[|k| - 1] == Branch(AgentRef("sub"));
    assert Names(Step(s, EarlyStart), "sub", "t");
  }

  /**
   * An approval that arrives before its delegate `tool-call`, with the sub-agent's start in between:
   * the sub-agent ends up in two children arrays.
   */
  lemma ApprovalFirstDoublesASubAgent()
    ensures !Single(Run([EarlyApproval, EarlyStart, LateCall]))
  {
    var es := [EarlyApproval, EarlyStart, LateCall];
    assert es[..2] == [EarlyApproval, EarlyStart] && es[..2][..1] == [EarlyApproval] && es[..2][..1][..0] == [];
    AfterEarlyApproval();
    var s1 := Step(Initial, EarlyApproval);
    AfterEarlyStart(s1);
    SinglePlacementExactly(Step(s1, EarlyStart), LateCall);
    assert Run(es) == Step(Run(es[..2]), LateCall);
    assert Run(es[..2]) == Step(Run(es[..2][..1]), EarlyStart);
  }
}
