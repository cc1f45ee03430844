/**
 * The trace reducer's data and its transition function on values
 * (apps/cli/src/core/trace.ts). A tree item is reached by reference in the
 * source; here an agent is named by its id, because `agents` never replaces an
 * entry, and a tool node by the serial number of its creation, because a second
 * `tool-call` with a known id makes a second node.
 */
module TraceModel {
  import opened Basics

  const ORCHESTRATOR := "orch"
  const DELEGATE := "delegateToSubAgent"

  datatype Ref = AgentRef(id: string) | ToolRef(serial: nat)

  datatype Speaker = User | Assistant | Reasoning

  /** Items without children. */
  datatype Content =
    | Text(text: string, speaker: Speaker)
    | Shell(command: string, result: Option<(string, int)>)
    | Compaction(done: bool)
    | Artifact(id: string)

  datatype Item = Leaf(content: Content) | Branch(ref: Ref)

  datatype AgentItem = AgentItem(
    role: string,
    parentAgentId: Option<string>,
    spawnedBy: Option<string>,
    done: bool)

  datatype ToolStatus = Running | Ok | Error | Approval | Question

  datatype ToolItem = ToolItem(callId: string, agentId: string, toolName: string, status: ToolStatus)

  /** `kids` holds the `children` array of every agent and tool node. */
  datatype State = State(
    agents: JsMap<AgentItem>,
    tools: JsMap<nat>,
    nodes: seq<ToolItem>,
    kids: map<Ref, seq<Item>>,
    root: Option<string>,
    subRuns: set<string>)

  const Initial := State(RawMap([], map[]), RawMap([], map[]), [], map[], None, {})

  datatype Event =
    | UserText(text: string)
    | ShellStart(command: string)
    | ShellResult(output: string, exitCode: int)
    | TextDelta(agentId: string, text: string)
    | ReasoningDelta(agentId: string, text: string)
    | ToolCall(agentId: string, callId: string, toolName: string)
    | ApprovalRequired(agentId: string, parentAgentId: Option<string>, callId: string, toolName: string)
    | QuestionRequired(agentId: string, parentAgentId: Option<string>, callId: string)
    | ToolResult(callId: string, isError: bool)
    | SubAgentStart(agentId: string, runId: string, role: string, parent: string, spawner: Option<string>)
    | SubAgentFinish(agentId: string)
    | CompactionStart
    | CompactionEnd
    | ArtifactCreated(artifactId: string)
    | SetArtifacts(artifacts: seq<string>)
    | ApprovalDecision(callId: string, rejected: bool)
    | AnswerQuestion(callId: string)
    | RunFinish(runId: string)

  // ---- children arrays ----

  function Kids(s: State, r: Ref): seq<Item> {
    if r in s.kids then s.kids[r] else []
  }

  function WithKids(s: State, r: Ref, k: seq<Item>): State {
    s.(kids := s.kids[r := k])
  }

  function Push(s: State, r: Ref, x: Item): State {
    WithKids(s, r, Kids(s, r) + [x])
  }

  /** `indexOf`: the first position of `x`, or -1. */
  function IndexOf(k: seq<Item>, x: Item): (i: int)
    ensures -1 <= i < |k|
    ensures i == -1 <==> x !in k
    ensures i >= 0 ==> k[i] == x && x !in k[..i]
  {
    if k == [] then -1
    else if k[0] == x then 0
    else
      var i := IndexOf(k[1..], x);
      if i == -1 then -1 else assert k[..i + 1] == [k[0]] + k[1..][..i]; i + 1
  }

  /** Every node the reducer can still find, in the order `detachItem` looks through them. */
  function Containers(s: State): seq<Ref> {
    seq(|s.agents.keys|, i requires 0 <= i < |s.agents.keys| => AgentRef(s.agents.keys[i]))
    + seq(|s.tools.keys|, i requires 0 <= i < |s.tools.keys| => ToolRef(s.tools.vals[s.tools.keys[i]]))
  }

  function Holder(s: State, rs: seq<Ref>, x: Item): (h: Option<Ref>)
    ensures h.None? ==> forall r <- rs :: x !in Kids(s, r)
    ensures h.Some? ==> h.value in rs && x in Kids(s, h.value)
  {
    if rs == [] then None
    else if x in Kids(s, rs[0]) then Some(rs[0])
    else Holder(s, rs[1..], x)
  }

  function Without(k: seq<Item>, i: nat): seq<Item>
    requires i < |k|
  {
    k[..i] + k[i + 1..]
  }

  /** `detachItem`: take `c` out of the first array that holds it. */
  function Detach(s: State, c: Ref): State {
    match Holder(s, Containers(s), Branch(c))
    case None => s
    case Some(r) => WithKids(s, r, Without(Kids(s, r), IndexOf(Kids(s, r), Branch(c))))
  }

  /** Move `c` under `to`, unless it is there already. */
  function MoveUnder(s: State, c: Ref, to: Ref): State {
    if Branch(c) in Kids(s, to) then s else Push(Detach(s, c), to, Branch(c))
  }

  function SetAgent(s: State, id: string, a: AgentItem): State {
    s.(agents := Put(s.agents, id, a))
  }

  function RootOr(s: State, id: string): State {
    if s.root.Some? then s else s.(root := Some(id))
  }

  /** An agent that already has a node: rename it, and re-home it under the tool that spawned it. */
  function KnownAgent(s: State, id: string, role: Option<string>, parent: Option<string>, attachTo: Option<Ref>)
    : State
    requires id in s.agents.vals
  {
    var a := s.agents.vals[id];
    var named := if Truthy(role) then a.(role := role.value) else a;
    if attachTo.Some? && Branch(AgentRef(id)) !in Kids(s, attachTo.value) then
      SetAgent(MoveUnder(s, AgentRef(id), attachTo.value), id,
               if Truthy(parent) then named.(parentAgentId := parent) else named)
    else
      SetAgent(s, id, named)
  }

  /** Where a newly created agent is hung, if anywhere: by then it is itself among the agents. */
  function Berth(s: State, id: string, parent: Option<string>, attachTo: Option<Ref>): Option<Ref> {
    if attachTo.Some? then attachTo
    else if Truthy(parent) && (parent.value == id || parent.value in s.agents.vals) then Some(AgentRef(parent.value))
    else None
  }

  function NewAgent(s: State, id: string, role: Option<string>, parent: Option<string>, attachTo: Option<Ref>): State {
    var role' := if role.Some? then role.value else if Truthy(parent) then "sub-agent" else "orchestrator";
    var s1 := WithKids(SetAgent(s, id, AgentItem(role', parent, None, false)), AgentRef(id), []);
    match Berth(s, id, parent, attachTo)
    case Some(r) => Push(s1, r, Branch(AgentRef(id)))
    case None => RootOr(s1, id)
  }

  function EnsureAgent(s: State, id: string, role: Option<string>, parent: Option<string>, attachTo: Option<Ref>)
    : State
  {
    if id in s.agents.vals then KnownAgent(s, id, role, parent, attachTo) else NewAgent(s, id, role, parent, attachTo)
  }

  /** Create a tool node, hang it under its agent and register it under its call id. */
  function NewTool(s: State, t: ToolItem): State {
    var n := |s.nodes|;
    var s1 := WithKids(s.(nodes := s.nodes + [t], tools := Put(s.tools, t.callId, n)), ToolRef(n), []);
    Push(s1, AgentRef(t.agentId), Branch(ToolRef(n)))
  }

  /** `rehomeSubAgentsForTool`, over the agents still to be looked at. */
  function Rehome(s: State, ids: seq<string>, tool: Ref, callId: string): State
    decreases |ids|
  {
    if ids == [] then s
    else if ids[0] in s.agents.vals && s.agents.vals[ids[0]].spawnedBy == Some(callId) then
      Rehome(MoveUnder(s, AgentRef(ids[0]), tool), ids[1..], tool, callId)
    else Rehome(s, ids[1..], tool, callId)
  }

  function SetStatus(s: State, callId: string, st: ToolStatus): State {
    if callId in s.tools.vals && s.tools.vals[callId] < |s.nodes| then
      var n := s.tools.vals[callId];
      s.(nodes := s.nodes[n := s.nodes[n].(status := st)])
    else s
  }

  /** The text an agent is streaming: merge into an open block of the same speaker. */
  function AppendText(k: seq<Item>, text: string, who: Speaker): seq<Item> {
    if k != [] && k[|k| - 1].Leaf? && k[|k| - 1].content.Text? && k[|k| - 1].content.speaker == who then
      k[..|k| - 1] + [Leaf(Text(k[|k| - 1].content.text + text, who))]
    else k + [Leaf(Text(text, who))]
  }

  function Stream(s: State, id: string, text: string, who: Speaker): State {
    var s1 := EnsureAgent(s, id, None, None, None);
    WithKids(s1, AgentRef(id), AppendText(Kids(s1, AgentRef(id)), text, who))
  }

  /** The last position of `k` that satisfies `p`, or -1. */
  function LastIndex(k: seq<Item>, p: Item -> bool): (i: int)
    ensures -1 <= i < |k|
    ensures i >= 0 ==> p(k[i])
    ensures forall j :: i < j < |k| ==> !p(k[j])
  {
    if k == [] then -1
    else if p(k[|k| - 1]) then |k| - 1
    else LastIndex(k[..|k| - 1], p)
  }

  predicate RunningShell(x: Item) {
    x.Leaf? && x.content.Shell? && x.content.result.None?
  }

  predicate CompactionMark(x: Item) {
    x.Leaf? && x.content.Compaction?
  }

  function PushToRoot(s: State, x: Item): State {
    if Truthy(s.root) && s.root.value in s.agents.vals then Push(s, AgentRef(s.root.value), x) else s
  }

  /** A card for every artifact that has none in `k`. */
  function MissingCards(k: seq<Item>, ids: seq<string>): (cards: seq<Item>)
    ensures forall i :: 0 <= i < |cards| ==> cards[i].Leaf? && cards[i].content.Artifact?
  {
    if ids == [] then []
    else
      var n := |ids| - 1;
      MissingCards(k, ids[..n]) + if Leaf(Artifact(ids[n])) in k then [] else [Leaf(Artifact(ids[n]))]
  }

  function WithCards(s: State, r: Ref, cards: seq<Item>): State {
    if cards == [] then s else WithKids(s, r, Kids(s, r) + cards)
  }

  /** `@set-artifacts`: which cards are missing is decided before the first one is added. */
  function RestoreCards(s: State, ids: seq<string>): State {
    if Truthy(s.root) && s.root.value in s.agents.vals then
      WithCards(s, AgentRef(s.root.value), MissingCards(Kids(s, AgentRef(s.root.value)), ids))
    else s
  }

  /** `@answer-question`: the tool that asked resumes. */
  function Answered(s: State, callId: string): State {
    if callId in s.tools.vals && s.tools.vals[callId] < |s.nodes| && s.nodes[s.tools.vals[callId]].status == Question
    then SetStatus(s, callId, Running)
    else s
  }

  function CloseCompaction(s: State): State {
    if Truthy(s.root) && s.root.value in s.agents.vals then
      var k := Kids(s, AgentRef(s.root.value));
      var i := LastIndex(k, CompactionMark);
      if i >= 0 then WithKids(s, AgentRef(s.root.value), k[i := Leaf(Compaction(true))]) else s
    else s
  }

  function FinishAgent(s: State, id: string): State {
    if id in s.agents.vals then SetAgent(s, id, s.agents.vals[id].(done := true)) else s
  }

  function ToolFor(s: State, spawner: Option<string>): Option<Ref> {
    if Truthy(spawner) && spawner.value in s.tools.vals then Some(ToolRef(s.tools.vals[spawner.value])) else None
  }

  function StartSubAgent(s: State, e: Event): State
    requires e.SubAgentStart?
  {
    var s1 := EnsureAgent(s, e.agentId, Some(e.role), Some(e.parent), ToolFor(s, e.spawner));
    var s2 := if Truthy(e.spawner) && e.agentId in s1.agents.vals
              then SetAgent(s1, e.agentId, s1.agents.vals[e.agentId].(spawnedBy := e.spawner)) else s1;
    s2.(subRuns := s2.subRuns + {e.runId})
  }

  function CallTool(s: State, e: Event): State
    requires e.ToolCall?
  {
    var s1 := EnsureAgent(s, e.agentId, None, None, None);
    var s2 := NewTool(s1, ToolItem(e.callId, e.agentId, e.toolName, Running));
    if e.toolName == DELEGATE
    then Rehome(s2, s2.agents.keys, ToolRef(|s1.nodes|), e.callId)
    else s2
  }

  /** A gate event creates its tool node only when no node is known under that id. */
  function Gate(s: State, agentId: string, parent: Option<string>, t: ToolItem): State {
    var s1 := EnsureAgent(s, agentId, None, parent, None);
    SetStatus(if t.callId in s1.tools.vals then s1 else NewTool(s1, t), t.callId, t.status)
  }

  /** `reduceTrace`: one event. */
  function Step(s: State, e: Event): State {
    match e
    case UserText(text) =>
      Push(EnsureAgent(s, ORCHESTRATOR, None, None, None), AgentRef(ORCHESTRATOR), Leaf(Text(text, User)))
    case ShellStart(command) =>
      Push(EnsureAgent(s, ORCHESTRATOR, None, None, None), AgentRef(ORCHESTRATOR), Leaf(Shell(command, None)))
    case ShellResult(output, exitCode) =>
      var k := Kids(s, AgentRef(ORCHESTRATOR));
      var i := LastIndex(k, RunningShell);
      if ORCHESTRATOR in s.agents.vals && i >= 0 then
        WithKids(s, AgentRef(ORCHESTRATOR), k[i := Leaf(Shell(k[i].content.command, Some((output, exitCode))))])
      else s
    case TextDelta(id, text) => Stream(s, id, text, Assistant)
    case ReasoningDelta(id, text) => Stream(s, id, text, Reasoning)
    case ToolCall(_, _, _) => CallTool(s, e)
    case ApprovalRequired(id, parent, callId, toolName) =>
      Gate(s, id, parent, ToolItem(callId, id, toolName, Approval))
    case QuestionRequired(id, parent, callId) =>
      Gate(s, id, parent, ToolItem(callId, id, "askUserQuestion", Question))
    case ToolResult(callId, isError) => SetStatus(s, callId, if isError then Error else Ok)
    case SubAgentStart(_, _, _, _, _) => StartSubAgent(s, e)
    case SubAgentFinish(id) => FinishAgent(s, id)
    case CompactionStart => PushToRoot(s, Leaf(Compaction(false)))
    case CompactionEnd => CloseCompaction(s)
    case ArtifactCreated(id) => PushToRoot(s, Leaf(Artifact(id)))
    case SetArtifacts(ids) => RestoreCards(s, ids)
    case ApprovalDecision(callId, rejected) => SetStatus(s, callId, if rejected then Error else Running)
    case AnswerQuestion(callId) => Answered(s, callId)
    case RunFinish(runId) =>
      if runId in s.subRuns || !Truthy(s.root) then s else FinishAgent(s, s.root.value)
  }

  /** The state after a whole event stream. */
  function Run(es: seq<Event>): State {
    if es == [] then Initial else Step(Run(es[..|es| - 1]), es[|es| - 1])
  }
}
