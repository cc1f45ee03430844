/**
 * What is said in a trace. However nodes are created, re-homed and re-announced, the
 * text blocks of an agent hold exactly what was streamed to it, in order.
 */
module TraceText {
  import opened Basics
  import opened TraceModel

  function Utterance(x: Item, who: Speaker): string {
    if x.Leaf? && x.content.Text? && x.content.speaker == who then x.content.text else ""
  }

  /** The text of one speaker in a `children` array. */
  function Said(k: seq<Item>, who: Speaker): string {
    if k == [] then "" else Said(k[..|k| - 1], who) + Utterance(k[|k| - 1], who)
  }

  /** What one event says to an agent. */
  function Speech(e: Event, id: string, who: Speaker): string {
    match e
    case TextDelta(to, text) => if to == id && who == Assistant then text else ""
    case ReasoningDelta(to, text) => if to == id && who == Reasoning then text else ""
    case UserText(text) => if id == ORCHESTRATOR && who == User then text else ""
    case _ => ""
  }

  function Spoken(es: seq<Event>, id: string, who: Speaker): string {
    if es == [] then "" else Spoken(es[..|es| - 1], id, who) + Speech(es[|es| - 1], id, who)
  }

  function Heard(s: State, id: string, who: Speaker): string {
    Said(Kids(s, AgentRef(id)), who)
  }

  /** Agents without a node hold nothing. */
  ghost predicate Mute(s: State) {
    forall id :: id !in s.agents.vals ==> Kids(s, AgentRef(id)) == []
  }

  ghost predicate SameSpeech(s: State, t: State) {
    forall id, who :: Heard(t, id, who) == Heard(s, id, who)
  }

  ghost predicate Quietly(s: State, t: State) {
    SameSpeech(s, t) && (Mute(s) ==> Mute(t)) && s.agents.vals.Keys <= t.agents.vals.Keys
  }

  // ---- arrays ----

  lemma SaidAppend(k: seq<Item>, x: Item, who: Speaker)
    ensures Said(k + [x], who) == Said(k, who) + Utterance(x, who)
  {
    assert (k + [x])[..|k|] == k;
  }

  lemma {:induction false} SaidWithout(k: seq<Item>, i: nat, who: Speaker)
    requires i < |k| && Utterance(k[i], who) == ""
    ensures Said(Without(k, i), who) == Said(k, who)
    decreases |k|
  {
    var n := |k| - 1;
    if i < n {
      SaidWithout(k[..n], i, who);
      assert Without(k, i) == Without(k[..n], i) + [k[n]];
      SaidAppend(Without(k[..n], i), k[n], who);
    } else {
      assert Without(k, i) == k[..n];
      assert Said(k[..n], who) + "" == Said(k[..n], who);
    }
  }

  lemma {:induction false} SaidReplaced(k: seq<Item>, i: nat, x: Item, who: Speaker)
    requires i < |k| && Utterance(k[i], who) == Utterance(x, who)
    ensures Said(k[i := x], who) == Said(k, who)
    decreases |k|
  {
    var n := |k| - 1;
    if i < n {
      SaidReplaced(k[..n], i, x, who);
      assert k[i := x][..n] == k[..n][i := x];
    } else {
      assert k[i := x][..n] == k[..n];
    }
  }

  lemma Joins(a: string, b: string, c: string)
    ensures a + (b + c) == a + b + c && a + "" == a
  {}

  /** Growing the last block says the same as saying its text and then more. */
  lemma GrownBlockSays(k: seq<Item>, block: string, text: string, to: Speaker, who: Speaker)
    requires k != [] && k[|k| - 1] == Leaf(Text(block, to))
    ensures Said(k[..|k| - 1] + [Leaf(Text(block + text, to))], who)
         == Said(k, who) + if who == to then text else ""
  {
    var n := |k| - 1;
    var said := Said(k[..n], who);
    SaidAppend(k[..n], Leaf(Text(block + text, to)), who);
    assert Said(k, who) == said + Utterance(k[n], who);
    hide Said;
    Joins(said, block, text);
  }

  lemma AppendTextSays(k: seq<Item>, text: string, to: Speaker, who: Speaker)
    ensures Said(AppendText(k, text, to), who) == Said(k, who) + if who == to then text else ""
  {
    var n := |k| - 1;
    hide Said;
    if k != [] && k[n].Leaf? && k[n].content.Text? && k[n].content.speaker == to {
      GrownBlockSays(k, k[n].content.text, text, to, who);
    } else {
      SaidAppend(k, Leaf(Text(text, to)), who);
    }
  }

  // ---- moves ----

  predicate Silent(x: Item) {
    !(x.Leaf? && x.content.Text?)
  }

  lemma PushIsQuiet(s: State, r: Ref, x: Item)
    requires Silent(x) && (r.AgentRef? ==> r.id in s.agents.vals)
    ensures Quietly(s, Push(s, r, x))
  {
    var t := Push(s, r, x);
    forall id, who ensures Heard(t, id, who) == Heard(s, id, who) {
      SaidAppend(Kids(s, r), x, who);
      assert Said(Kids(s, r), who) + "" == Said(Kids(s, r), who);
    }
  }

  lemma DetachIsQuiet(s: State, c: Ref)
    ensures Quietly(s, Detach(s, c))
  {
    var t := Detach(s, c);
    var h := Holder(s, Containers(s), Branch(c));
    hide Containers;
    if h.Some? {
      var k := Kids(s, h.value);
      forall id, who ensures Heard(t, id, who) == Heard(s, id, who) {
        SaidWithout(k, IndexOf(k, Branch(c)), who);
      }
    }
  }

  lemma MoveIsQuiet(s: State, c: Ref, to: Ref)
    requires to.AgentRef? ==> to.id in s.agents.vals
    ensures Quietly(s, MoveUnder(s, c, to)) && MoveUnder(s, c, to).agents == s.agents
  {
    DetachIsQuiet(s, c);
    PushIsQuiet(Detach(s, c), to, Branch(c));
    hide Said, Detach;
    DetachKeepsAgents(s, c);
  }

  lemma DetachKeepsAgents(s: State, c: Ref)
    ensures Detach(s, c).agents == s.agents
  {}

  lemma QuietTwice(s: State, t: State, u: State)
    requires Quietly(s, t) && Quietly(t, u)
    ensures Quietly(s, u)
  {
    hide Heard, Mute;
  }

  lemma SameKidsAreQuiet(s: State, t: State)
    requires t.kids == s.kids && s.agents.vals.Keys <= t.agents.vals.Keys
    ensures Quietly(s, t)
  {
    hide Said;
  }

  lemma KnownIsQuiet(s: State, id: string, role: Option<string>, parent: Option<string>, attachTo: Option<Ref>)
    requires id in s.agents.vals && (attachTo.Some? ==> attachTo.value.ToolRef?)
    ensures Quietly(s, KnownAgent(s, id, role, parent, attachTo))
  {
    var t := KnownAgent(s, id, role, parent, attachTo);
    if attachTo.Some? && Branch(AgentRef(id)) !in Kids(s, attachTo.value) {
      var m := MoveUnder(s, AgentRef(id), attachTo.value);
      MoveIsQuiet(s, AgentRef(id), attachTo.value);
      hide MoveUnder, Quietly;
      SameKidsAreQuiet(m, t);
      QuietTwice(s, m, t);
    } else {
      SameKidsAreQuiet(s, t);
    }
  }

  lemma BirthIsQuiet(s: State, id: string, a: AgentItem)
    requires Mute(s) && id !in s.agents.vals
    ensures Quietly(s, WithKids(SetAgent(s, id, a), AgentRef(id), []))
  {
    var t := WithKids(SetAgent(s, id, a), AgentRef(id), []);
    hide Said;
    assert forall r :: r != AgentRef(id) ==> Kids(t, r) == Kids(s, r);
  }

  lemma EnsureIsQuiet(s: State, id: string, role: Option<string>, parent: Option<string>, attachTo: Option<Ref>)
    requires Mute(s) && (attachTo.Some? ==> attachTo.value.ToolRef?)
    ensures Quietly(s, EnsureAgent(s, id, role, parent, attachTo))
    ensures id in EnsureAgent(s, id, role, parent, attachTo).agents.vals
  {
    var t := EnsureAgent(s, id, role, parent, attachTo);
    if id in s.agents.vals {
      KnownIsQuiet(s, id, role, parent, attachTo);
      hide Quietly, MoveUnder;
      KnownKeepsAgents(s, id, role, parent, attachTo);
    } else {
      var a := AgentItem(if role.Some? then role.value else if Truthy(parent) then "sub-agent" else "orchestrator",
                         parent, None, false);
      var b := WithKids(SetAgent(s, id, a), AgentRef(id), []);
      BirthIsQuiet(s, id, a);
      match Berth(s, id, parent, attachTo) {
        case Some(r) => PushIsQuiet(b, r, Branch(AgentRef(id)));
        case None => SameKidsAreQuiet(b, t);
      }
      hide Quietly;
      QuietTwice(s, b, t);
    }
  }

  lemma KnownKeepsAgents(s: State, id: string, role: Option<string>, parent: Option<string>, attachTo: Option<Ref>)
    requires id in s.agents.vals
    ensures id in KnownAgent(s, id, role, parent, attachTo).agents.vals
  {}

  lemma NewToolIsQuiet(s: State, t: ToolItem)
    requires t.agentId in s.agents.vals
    ensures Quietly(s, NewTool(s, t))
  {
    var n := |s.nodes|;
    var b := WithKids(s.(nodes := s.nodes + [t], tools := Put(s.tools, t.callId, n)), ToolRef(n), []);
    assert Quietly(s, b) by { hide Said; }
    PushIsQuiet(b, AgentRef(t.agentId), Branch(ToolRef(n)));
    hide Quietly, Push;
    QuietTwice(s, b, NewTool(s, t));
  }

  lemma {:induction false} RehomeIsQuiet(s: State, ids: seq<string>, tool: Ref, callId: string)
    requires tool.ToolRef?
    ensures Quietly(s, Rehome(s, ids, tool, callId))
    decreases |ids|
  {
    if ids == [] {
      SameKidsAreQuiet(s, s);
    } else if ids[0] in s.agents.vals && s.agents.vals[ids[0]].spawnedBy == Some(callId) {
      var m := MoveUnder(s, AgentRef(ids[0]), tool);
      MoveIsQuiet(s, AgentRef(ids[0]), tool);
      hide Quietly, MoveUnder;
      RehomeIsQuiet(m, ids[1..], tool, callId);
      QuietTwice(s, m, Rehome(m, ids[1..], tool, callId));
    } else {
      RehomeIsQuiet(s, ids[1..], tool, callId);
    }
  }

  lemma StatusIsQuiet(s: State, callId: string, st: ToolStatus)
    ensures Quietly(s, SetStatus(s, callId, st))
  {
    SameKidsAreQuiet(s, SetStatus(s, callId, st));
  }

  lemma ReplaceIsQuiet(s: State, id: string, i: nat, x: Item)
    requires id in s.agents.vals && i < |Kids(s, AgentRef(id))|
    requires Silent(x) && Silent(Kids(s, AgentRef(id))[i])
    ensures Quietly(s, WithKids(s, AgentRef(id), Kids(s, AgentRef(id))[i := x]))
  {
    var k := Kids(s, AgentRef(id));
    var t := WithKids(s, AgentRef(id), k[i := x]);
    forall b, who ensures Heard(t, b, who) == Heard(s, b, who) {
      SaidReplaced(k, i, x, who);
    }
  }

  // ---- steps ----

  /** The step says to its agent what its event says, and nothing to anyone else. */
  ghost predicate Speaks(s: State, e: Event, t: State) {
    && (forall id, who :: Heard(t, id, who) == Heard(s, id, who) + Speech(e, id, who))
    && Mute(t)
  }

  lemma QuietSpeaks(s: State, e: Event, t: State)
    requires Mute(s) && Quietly(s, t) && forall id, who :: Speech(e, id, who) == ""
    ensures Speaks(s, e, t)
  {
    hide Heard, Mute, Speech;
    forall id, who ensures Heard(t, id, who) == Heard(s, id, who) + Speech(e, id, who) {
      assert Heard(s, id, who) + "" == Heard(s, id, who);
    }
  }

  /** After an agent is ensured, new contents for it change what it says and leave the others alone. */
  lemma SayingSpeaks(s: State, e: Event, to: string, k: seq<Item>)
    requires Mute(s)
    requires var b := EnsureAgent(s, to, None, None, None);
      forall id, who :: Said(if id == to then k else Kids(b, AgentRef(id)), who) == Heard(b, id, who) + Speech(e, id, who)
    ensures Speaks(s, e, WithKids(EnsureAgent(s, to, None, None, None), AgentRef(to), k))
  {
    var b := EnsureAgent(s, to, None, None, None);
    var t := WithKids(b, AgentRef(to), k);
    EnsureIsQuiet(s, to, None, None, None);
    forall id ensures Kids(t, AgentRef(id)) == if id == to then k else Kids(b, AgentRef(id)) {}
    assert Mute(b) && t.agents == b.agents;
    hide EnsureAgent, Speech, Said, Kids, WithKids;
    forall id, who ensures Heard(t, id, who) == Heard(s, id, who) + Speech(e, id, who) {
      assert Heard(b, id, who) == Heard(s, id, who);
    }
  }

  lemma StreamSpeaks(s: State, e: Event, to: string, text: string, speaker: Speaker)
    requires Mute(s) && forall id, who :: Speech(e, id, who) == if id == to && who == speaker then text else ""
    ensures Speaks(s, e, Stream(s, to, text, speaker))
  {
    var b := EnsureAgent(s, to, None, None, None);
    var k := AppendText(Kids(b, AgentRef(to)), text, speaker);
    hide EnsureAgent, Speech, AppendText, Said;
    forall id, who
      ensures Said(if id == to then k else Kids(b, AgentRef(id)), who) == Heard(b, id, who) + Speech(e, id, who)
    {
      AppendTextSays(Kids(b, AgentRef(to)), text, speaker, who);
      assert Heard(b, id, who) + "" == Heard(b, id, who);
    }
    SayingSpeaks(s, e, to, k);
  }

  lemma UserStepIs(s: State, e: Event)
    requires e.UserText?
    ensures var b := EnsureAgent(s, ORCHESTRATOR, None, None, None);
      Step(s, e) == WithKids(b, AgentRef(ORCHESTRATOR), Kids(b, AgentRef(ORCHESTRATOR)) + [Leaf(Text(e.text, User))])
  {
    hide EnsureAgent;
  }

  lemma UserSpeaks(s: State, e: Event)
    requires Mute(s) && e.UserText?
    ensures Speaks(s, e, Step(s, e))
  {
    var b := EnsureAgent(s, ORCHESTRATOR, None, None, None);
    var x := Leaf(Text(e.text, User));
    var k := Kids(b, AgentRef(ORCHESTRATOR)) + [x];
    assert Step(s, e) == WithKids(b, AgentRef(ORCHESTRATOR), k) by { UserStepIs(s, e); }
    hide EnsureAgent, Said, Step, Kids, WithKids;
    forall id, who
      ensures Said(if id == ORCHESTRATOR then k else Kids(b, AgentRef(id)), who) == Heard(b, id, who) + Speech(e, id, who)
    {
      SaidAppend(Kids(b, AgentRef(ORCHESTRATOR)), x, who);
      assert Heard(b, id, who) + "" == Heard(b, id, who);
    }
    SayingSpeaks(s, e, ORCHESTRATOR, k);
  }

  lemma CallIsQuiet(s: State, e: Event)
    requires Mute(s) && e.ToolCall?
    ensures Quietly(s, CallTool(s, e))
  {
    var a := EnsureAgent(s, e.agentId, None, None, None);
    var b := NewTool(a, ToolItem(e.callId, e.agentId, e.toolName, Running));
    EnsureIsQuiet(s, e.agentId, None, None, None);
    NewToolIsQuiet(a, ToolItem(e.callId, e.agentId, e.toolName, Running));
    hide EnsureAgent, NewTool, Quietly;
    QuietTwice(s, a, b);
    if e.toolName == DELEGATE {
      RehomeIsQuiet(b, b.agents.keys, ToolRef(|a.nodes|), e.callId);
      QuietTwice(s, b, CallTool(s, e));
    }
  }

  lemma GateIsQuiet(s: State, agentId: string, parent: Option<string>, t: ToolItem)
    requires Mute(s) && t.agentId == agentId
    ensures Quietly(s, Gate(s, agentId, parent, t))
  {
    var a := EnsureAgent(s, agentId, None, parent, None);
    EnsureIsQuiet(s, agentId, None, parent, None);
    var b := if t.callId in a.tools.vals then a else NewTool(a, t);
    if t.callId !in a.tools.vals { NewToolIsQuiet(a, t); } else { SameKidsAreQuiet(a, a); }
    StatusIsQuiet(b, t.callId, t.status);
    hide EnsureAgent, NewTool, SetStatus, Quietly;
    QuietTwice(s, a, b);
    QuietTwice(s, b, Gate(s, agentId, parent, t));
  }

  lemma StartIsQuiet(s: State, e: Event)
    requires Mute(s) && e.SubAgentStart?
    ensures Quietly(s, StartSubAgent(s, e))
  {
    var a := EnsureAgent(s, e.agentId, Some(e.role), Some(e.parent), ToolFor(s, e.spawner));
    EnsureIsQuiet(s, e.agentId, Some(e.role), Some(e.parent), ToolFor(s, e.spawner));
    hide EnsureAgent, Quietly;
    SameKidsAreQuiet(a, StartSubAgent(s, e));
    QuietTwice(s, a, StartSubAgent(s, e));
  }

  lemma FinishIsQuiet(s: State, id: string)
    ensures Quietly(s, FinishAgent(s, id))
  {
    SameKidsAreQuiet(s, FinishAgent(s, id));
  }

  lemma CardIsQuiet(s: State, x: Item)
    requires Silent(x)
    ensures Quietly(s, PushToRoot(s, x))
  {
    if Truthy(s.root) && s.root.value in s.agents.vals {
      PushIsQuiet(s, AgentRef(s.root.value), x);
    } else {
      SameKidsAreQuiet(s, s);
    }
  }

  lemma {:induction false} SilentEnd(k: seq<Item>, more: seq<Item>, who: Speaker)
    requires forall i :: 0 <= i < |more| ==> Silent(more[i])
    ensures Said(k + more, who) == Said(k, who)
  {
    if more == [] {
      assert k + more == k;
    } else {
      var n := |more| - 1;
      SilentEnd(k, more[..n], who);
      assert k + more == (k + more[..n]) + [more[n]];
      SaidAppend(k + more[..n], more[n], who);
    }
  }

  lemma CardsAreQuiet(s: State, ids: seq<string>)
    ensures Quietly(s, RestoreCards(s, ids))
  {
    SameKidsAreQuiet(s, s);
    if Truthy(s.root) && s.root.value in s.agents.vals {
      var r := AgentRef(s.root.value);
      var cards := MissingCards(Kids(s, r), ids);
      var t := WithKids(s, r, Kids(s, r) + cards);
      forall id, who ensures Heard(t, id, who) == Heard(s, id, who) {
        SilentEnd(Kids(s, r), cards, who);
      }
    }
  }

  lemma ShellIsQuiet(s: State, command: string)
    requires Mute(s)
    ensures Quietly(s, Step(s, ShellStart(command)))
  {
    var b := EnsureAgent(s, ORCHESTRATOR, None, None, None);
    var x := Leaf(Shell(command, None));
    EnsureIsQuiet(s, ORCHESTRATOR, None, None, None);
    PushIsQuiet(b, AgentRef(ORCHESTRATOR), x);
    hide EnsureAgent, Quietly, Push;
    QuietTwice(s, b, Push(b, AgentRef(ORCHESTRATOR), x));
  }

  lemma ShellResultIsQuiet(s: State, output: string, exitCode: int)
    ensures Quietly(s, Step(s, ShellResult(output, exitCode)))
  {
    var k := Kids(s, AgentRef(ORCHESTRATOR));
    var i := LastIndex(k, RunningShell);
    if ORCHESTRATOR in s.agents.vals && i >= 0 {
      ReplaceIsQuiet(s, ORCHESTRATOR, i, Leaf(Shell(k[i].content.command, Some((output, exitCode)))));
    } else {
      SameKidsAreQuiet(s, s);
    }
  }

  lemma CloseIsQuiet(s: State)
    ensures Quietly(s, CloseCompaction(s))
  {
    if Truthy(s.root) && s.root.value in s.agents.vals {
      var k := Kids(s, AgentRef(s.root.value));
      var i := LastIndex(k, CompactionMark);
      if i >= 0 {
        ReplaceIsQuiet(s, s.root.value, i, Leaf(Compaction(true)));
        return;
      }
    }
    SameKidsAreQuiet(s, s);
  }

  lemma StepSpeaks(s: State, e: Event)
    requires Mute(s)
    ensures Speaks(s, e, Step(s, e))
  {
    hide Quietly, Speaks, Mute, Stream, CallTool, Gate, StartSubAgent, FinishAgent, PushToRoot, CloseCompaction, SetStatus;
    match e
    case UserText(_) => UserSpeaks(s, e);
    case TextDelta(id, text) => StreamSpeaks(s, e, id, text, Assistant);
    case ReasoningDelta(id, text) => StreamSpeaks(s, e, id, text, Reasoning);
    case _ =>
      OthersAreQuiet(s, e);
      QuietSpeaks(s, e, Step(s, e));
  }

  lemma OthersAreQuiet(s: State, e: Event)
    requires Mute(s) && !e.UserText? && !e.TextDelta? && !e.ReasoningDelta?
    ensures Quietly(s, Step(s, e))
  {
    hide Quietly, Mute, CallTool, Gate, StartSubAgent, FinishAgent, PushToRoot, CloseCompaction, SetStatus, RestoreCards;
    match e
    case ShellStart(command) => ShellIsQuiet(s, command);
    case ShellResult(output, exitCode) => ShellResultIsQuiet(s, output, exitCode);
    case ToolCall(_, _, _) => CallIsQuiet(s, e);
    case ApprovalRequired(id, parent, callId, toolName) =>
      GateIsQuiet(s, id, parent, ToolItem(callId, id, toolName, Approval));
    case QuestionRequired(id, parent, callId) =>
      GateIsQuiet(s, id, parent, ToolItem(callId, id, "askUserQuestion", Question));
    case ToolResult(callId, isError) => StatusIsQuiet(s, callId, if isError then Error else Ok);
    case SubAgentStart(_, _, _, _, _) => StartIsQuiet(s, e);
    case SubAgentFinish(id) => FinishIsQuiet(s, id);
    case CompactionStart => CardIsQuiet(s, Leaf(Compaction(false)));
    case CompactionEnd => CloseIsQuiet(s);
    case ArtifactCreated(id) => CardIsQuiet(s, Leaf(Artifact(id)));
    case SetArtifacts(ids) => CardsAreQuiet(s, ids);
    case ApprovalDecision(callId, rejected) => StatusIsQuiet(s, callId, if rejected then Error else Running);
    case AnswerQuestion(callId) =>
      SameKidsAreQuiet(s, s);
      StatusIsQuiet(s, callId, Running);
    case RunFinish(runId) =>
      if runId in s.subRuns || !Truthy(s.root) { SameKidsAreQuiet(s, s); } else { FinishIsQuiet(s, s.root.value); }
  }

  /**
   * Over any event stream whatever, the blocks of each speaker in an agent's `children` read, one after
   * another, exactly what was said to that agent in that voice: nothing is lost, doubled or moved to another
   * agent when nodes float, are re-homed or are announced again.
   */
  lemma {:induction false} EverythingSaidIsKept(es: seq<Event>, id: string, who: Speaker)
    ensures Heard(Run(es), id, who) == Spoken(es, id, who) && Mute(Run(es))
  {
    if es != [] {
      var n := |es| - 1;
      EverythingSaidIsKept(es[..n], id, who);
      StepSpeaks(Run(es[..n]), es[n]);
      hide Heard, Mute, Step, Speech;
    }
  }

  // ---- blocks ----

  lemma EnsuringAgainIsNothing(s: State, id: string)
    requires id in s.agents.vals
    ensures EnsureAgent(s, id, None, None, None) == s
  {
    assert s.agents.vals[id := s.agents.vals[id]] == s.agents.vals;
  }

  lemma EnsuredIsThere(s: State, id: string)
    ensures id in EnsureAgent(s, id, None, None, None).agents.vals
  {
    hide Berth, MoveUnder;
  }

  lemma BlocksMerge(k: seq<Item>, a: string, b: string, who: Speaker)
    ensures AppendText(AppendText(k, a, who), b, who) == AppendText(k, a + b, who)
  {
    var n := |k| - 1;
    if k != [] && k[n].Leaf? && k[n].content.Text? && k[n].content.speaker == who {
      var x := Leaf(Text(k[n].content.text + a, who));
      assert (k[..n] + [x])[..n] == k[..n] && (k[..n] + [x])[n] == x;
      assert k[n].content.text + a + b == k[n].content.text + (a + b);
    } else {
      assert (k + [Leaf(Text(a, who))])[..|k|] == k;
    }
  }

  lemma StreamsMerge(s: State, id: string, a: string, b: string, who: Speaker)
    ensures Stream(Stream(s, id, a, who), id, b, who) == Stream(s, id, a + b, who)
  {
    hide EnsureAgent, AppendText;
    var r := AgentRef(id);
    var s1 := EnsureAgent(s, id, None, None, None);
    var k := AppendText(Kids(s1, r), a, who);
    var s2 := WithKids(s1, r, k);
    EnsuredIsThere(s, id);
    EnsuringAgainIsNothing(s2, id);
    BlocksMerge(Kids(s1, r), a, b, who);
    assert Kids(s2, r) == k;
    assert s1.kids[r := k][r := AppendText(k, b, who)] == s1.kids[r := AppendText(k, b, who)];
  }

  /** How a stream is cut into deltas does not matter: two in a row are one. */
  lemma DeltasCoalesce(s: State, id: string, a: string, b: string)
    ensures Step(Step(s, TextDelta(id, a)), TextDelta(id, b)) == Step(s, TextDelta(id, a + b))
    ensures Step(Step(s, ReasoningDelta(id, a)), ReasoningDelta(id, b)) == Step(s, ReasoningDelta(id, a + b))
  {
    StreamsMerge(s, id, a, b, Assistant);
    StreamsMerge(s, id, a, b, Reasoning);
    hide Stream;
  }

  /** The last item is a text block of that voice. */
  predicate OpenBlock(k: seq<Item>, who: Speaker) {
    k != [] && k[|k| - 1].Leaf? && k[|k| - 1].content.Text? && k[|k| - 1].content.speaker == who
  }

  /**
   * Between `s` and `t` only the array of the agent changes: its open block of the voice grows by the text, or,
   * if its last item is anything else, one new block is put at its end.
   */
  ghost predicate SaysAtTheEnd(s: State, t: State, id: string, text: string, who: Speaker) {
    var r := AgentRef(id);
    var k := Kids(s, r);
    && (forall q :: q != r ==> Kids(t, q) == Kids(s, q))
    && Kids(t, r) == if OpenBlock(k, who)
                     then k[|k| - 1 := Leaf(Text(k[|k| - 1].content.text + text, who))]
                     else k + [Leaf(Text(text, who))]
  }

  lemma EnsuringKeepsKids(s: State, id: string)
    requires Mute(s)
    ensures forall q :: Kids(EnsureAgent(s, id, None, None, None), q) == Kids(s, q)
  {
    if id in s.agents.vals { EnsuringAgainIsNothing(s, id); }
    hide Kids;
    if id !in s.agents.vals { BirthKeepsKids(s, id); }
  }

  lemma BirthKeepsKids(s: State, id: string)
    requires Mute(s) && id !in s.agents.vals
    ensures forall q :: Kids(EnsureAgent(s, id, None, None, None), q) == Kids(s, q)
  {
    var t := EnsureAgent(s, id, None, None, None);
    assert t.kids == s.kids[AgentRef(id) := []];
    assert Kids(s, AgentRef(id)) == [];
  }

  lemma DeltaSteps(s: State, id: string, text: string)
    ensures Step(s, TextDelta(id, text)) == Stream(s, id, text, Assistant)
    ensures Step(s, ReasoningDelta(id, text)) == Stream(s, id, text, Reasoning)
  {
    hide Stream;
  }

  /** Over every stream: a delta goes to the end of its agent's array and nowhere else. */
  lemma DeltasGoToTheEnd(es: seq<Event>, id: string, text: string)
    ensures var s := Run(es);
      && SaysAtTheEnd(s, Step(s, TextDelta(id, text)), id, text, Assistant)
      && SaysAtTheEnd(s, Step(s, ReasoningDelta(id, text)), id, text, Reasoning)
  {
    hide *;
    EverythingSaidIsKept(es, id, User);
    DeltaSteps(Run(es), id, text);
    StreamGoesToTheEnd(Run(es), id, text, Assistant);
    StreamGoesToTheEnd(Run(es), id, text, Reasoning);
  }

  /** What the user says is always a block of its own. */
  lemma UserTextIsItsOwnBlock(es: seq<Event>, text: string)
    ensures var s, r := Run(es), AgentRef(ORCHESTRATOR); var t := Step(s, UserText(text));
      && Kids(t, r) == Kids(s, r) + [Leaf(Text(text, User))]
      && forall q :: q != r ==> Kids(t, q) == Kids(s, q)
  {
    hide Run, Step, EnsureAgent, Mute;
    var s := Run(es);
    EverythingSaidIsKept(es, ORCHESTRATOR, User);
    EnsuringKeepsKids(s, ORCHESTRATOR);
    UserStepIs(s, UserText(text));
  }

  lemma StreamGoesToTheEnd(s: State, id: string, text: string, who: Speaker)
    requires Mute(s)
    ensures SaysAtTheEnd(s, Stream(s, id, text, who), id, text, who)
  {
    var r := AgentRef(id);
    EnsuringKeepsKids(s, id);
    var s1 := EnsureAgent(s, id, None, None, None);
    hide EnsureAgent;
    var k := Kids(s, r);
    assert Kids(s1, r) == k;
    var k' := AppendText(k, text, who);
    if OpenBlock(k, who) {
      assert k' == k[|k| - 1 := Leaf(Text(k[|k| - 1].content.text + text, who))];
    }
    forall q | q != r ensures Kids(WithKids(s1, r, k'), q) == Kids(s, q) { assert Kids(s1, q) == Kids(s, q); }
  }
}
