/** What a whole event stream displays, and what happens outside the hypotheses of that result. */
module TraceDisplay {
  import opened Basics
  import opened TraceModel
  import opened TracePlacement
  import opened TraceRehome
  import opened TraceTree
  import opened TraceRows

  /** Every spawner named by a `sub-agent-start` has been announced as a delegate call. */
  ghost predicate AllAnnounced(es: seq<Event>) {
    forall a <- SpawnersOf(es) :: SpawnersOf(es)[a] in DelegatesOf(es)
  }

  lemma {:induction false} SettledOnceAnnounced(es: seq<Event>, t: Tree)
    requires FreshRun(es) && AllAnnounced(es) && Shape(Run(es), t)
    ensures Settled(t)
    decreases t
  {
    hide Run, FreshRun;
    forall i | 0 <= i < |Below(t)| ensures !Skipped(t, Below(t)[i], CONTAINED) && Settled(Below(t)[i]) {
      var c := Below(t)[i];
      assert Shape(Run(es), c);
      SettledOnceAnnounced(es, c);
      if t.AgentT? && c.AgentT? {
        assert Under(Run(es), AgentRef(t.id), AgentRef(c.id));
        UnderAnAgentHasNoSpawner(es, t.id, c.id);
      }
    }
  }

  /** A sub-agent whose spawner has been announced sits under that tool, not under an agent. */
  lemma UnderAnAgentHasNoSpawner(es: seq<Event>, a: string, b: string)
    requires FreshRun(es) && AllAnnounced(es)
    requires Under(Run(es), AgentRef(a), AgentRef(b)) && b in Run(es).agents.vals
    ensures Run(es).agents.vals[b].spawnedBy.None?
  {
    RunHomes(es);
    hide Run, FreshRun, Inv;
    var p := Run(es).agents.vals[b].spawnedBy;
    if p.Some? {
      assert Names(Run(es), b, p.value);
      HomeWhenBothSeen(es, b);
    }
  }

  /**
   * Once every delegate call of a stream has arrived, the full display of its tree is the contained
   * display with each sub-agent log spliced in after its tool.
   */
  lemma StreamDisplaysAgree(es: seq<Event>, t: Tree)
    requires FreshRun(es) && AllAnnounced(es) && Shape(Run(es), t)
    ensures Within(Walk(t, 0, "r", CONTAINED), Size(t))
    ensures Strip(Walk(t, 0, "r", FULL)) == Splice(Walk(t, 0, "r", CONTAINED), Size(t))
  {
    SettledOnceAnnounced(es, t);
    FullIsSplicedContained(t, 0, "r", "r");
  }

  // ---- artifact cards ----

  lemma {:induction false} MissingCardsAre(k: seq<Item>, ids: seq<string>)
    ensures forall id :: Leaf(Artifact(id)) in MissingCards(k, ids) <==> id in ids && Leaf(Artifact(id)) !in k
  {
    if ids != [] {
      var n := |ids| - 1;
      MissingCardsAre(k, ids[..n]);
      assert ids == ids[..n] + [ids[n]];
    }
  }

  lemma {:induction false} NoneMissing(k: seq<Item>, ids: seq<string>)
    requires forall id <- ids :: Leaf(Artifact(id)) in k
    ensures MissingCards(k, ids) == []
  {
    if ids != [] {
      NoneMissing(k, ids[..|ids| - 1]);
      assert ids[|ids| - 1] in ids;
    }
  }

  lemma {:induction false} MissingCardsDiffer(k: seq<Item>, ids: seq<string>, id: string)
    requires forall i, j :: 0 <= i < j < |ids| ==> ids[i] != ids[j]
    ensures multiset(MissingCards(k, ids))[Leaf(Artifact(id))] == if id in ids && Leaf(Artifact(id)) !in k then 1 else 0
  {
    if ids != [] {
      var n := |ids| - 1;
      MissingCardsDiffer(k, ids[..n], id);
      assert ids == ids[..n] + [ids[n]];
      assert ids[n] !in ids[..n];
    }
  }

  function RootKids(s: State): seq<Item> {
    if Truthy(s.root) && s.root.value in s.agents.vals then Kids(s, AgentRef(s.root.value)) else []
  }

  /**
   * Restoring the artifacts of a session gives each a card if there is a root, leaves every card that is there
   * alone, doubles none if the list names none twice, and changes nothing when it is done again.
   */
  lemma CardsAreRestoredOnce(s: State, ids: seq<string>)
    ensures var t := RestoreCards(s, ids);
      && RestoreCards(t, ids) == t
      && RootKids(s) <= RootKids(t)
      && (Truthy(s.root) && s.root.value in s.agents.vals ==> forall id <- ids :: Leaf(Artifact(id)) in RootKids(t))
    ensures (forall i, j :: 0 <= i < j < |ids| ==> ids[i] != ids[j]) ==>
      forall id :: multiset(RootKids(RestoreCards(s, ids)))[Leaf(Artifact(id))] <=
                   if multiset(RootKids(s))[Leaf(Artifact(id))] == 0 then 1 else multiset(RootKids(s))[Leaf(Artifact(id))]
  {
    if Truthy(s.root) && s.root.value in s.agents.vals {
      var k := RootKids(s);
      var cards := MissingCards(k, ids);
      var t := RestoreCards(s, ids);
      assert RootKids(t) == k + cards;
      MissingCardsAre(k, ids);
      NoneMissing(k + cards, ids);
      if forall i, j :: 0 <= i < j < |ids| ==> ids[i] != ids[j] {
        forall id ensures multiset(k + cards)[Leaf(Artifact(id))] <=
            if multiset(k)[Leaf(Artifact(id))] == 0 then 1 else multiset(k)[Leaf(Artifact(id))]
        {
          MissingCardsDiffer(k, ids, id);
          assert multiset(k + cards) == multiset(k) + multiset(cards);
        }
      }
    }
  }

  // ---- outside the hypotheses ----

  const OwnCall := ToolCall(ORCHESTRATOR, "t", DELEGATE)
  const OwnStart := SubAgentStart(ORCHESTRATOR, "r", "worker", "", Some("t"))

  lemma OneToolAnnounced()
    ensures var u := Announced(Initial, OwnCall);
      && u.agents.keys == [ORCHESTRATOR] && !Names(u, ORCHESTRATOR, "t")
      && u.tools.vals == map["t" := 0] && |u.nodes| == 1 && u.root == Some(ORCHESTRATOR)
      && Kids(u, AgentRef(ORCHESTRATOR)) == [Branch(ToolRef(0))]
  {}

  lemma OneToolIs()
    ensures Step(Initial, OwnCall) == Announced(Initial, OwnCall)
  {
    hide Rehome, Step, CallTool, Announced, Kids, Names;
    OneToolAnnounced();
    CallToolIs(Initial, OwnCall);
    StepIs(Initial, OwnCall);
    NobodyNamed(Announced(Initial, OwnCall), "t", ToolRef(0));
  }

  lemma NothingPlacedYet()
    ensures Inv(Initial) && Fresh(Initial, OwnCall)
  {}

  lemma OneTool()
    ensures var s := Step(Initial, OwnCall);
      && Inv(s) && ORCHESTRATOR in s.agents.vals && "t" in s.tools.vals && s.tools.vals["t"] == 0
      && |s.nodes| == 1 && s.root == Some(ORCHESTRATOR)
      && Under(s, AgentRef(ORCHESTRATOR), ToolRef(0))
  {
    var u := Announced(Initial, OwnCall);
    hide Inv, Fresh, Step, Announced, Names, Rehome, CallTool;
    NothingPlacedYet();
    StepKeepsPlacement(Initial, OwnCall);
    OneToolIs();
    OneToolAnnounced();
    assert Kids(u, AgentRef(ORCHESTRATOR))[0] == Branch(ToolRef(0));
    assert u.agents.keys[0] == ORCHESTRATOR;
  }

  lemma NobodyNamed(s: State, callId: string, tool: Ref)
    requires |s.agents.keys| == 1 && !Names(s, s.agents.keys[0], callId)
    ensures Rehome(s, s.agents.keys, tool, callId) == s
  {
    assert Rehome(s, s.agents.keys[1..], tool, callId) == s;
  }

  /**
   * A `sub-agent-start` that names the orchestrator itself under one of its own calls makes the root
   * its own ancestor: no finite tree hangs below it, so walking it would not end.
   */
  lemma RootUnderItsOwnCallHasNoTree()
    ensures var s := Run([OwnCall, OwnStart]); s.root == Some(ORCHESTRATOR) && !HasTree(s, AgentRef(ORCHESTRATOR))
  {
    var es := [OwnCall, OwnStart];
    assert es[..1] == [OwnCall] && es[..1][..0] == [];
    assert Run(es[..1]) == Step(Run(es[..1][..0]), OwnCall);
    var s := Step(Initial, OwnCall);
    assert Run(es) == Step(s, OwnStart);
    hide Run;
    OneTool();
    RootMovedUnderItself(s);
  }

  lemma RootMovedUnderItself(s: State)
    requires Inv(s) && ORCHESTRATOR in s.agents.vals && "t" in s.tools.vals && s.tools.vals["t"] == 0
    requires |s.nodes| == 1 && s.root == Some(ORCHESTRATOR) && Under(s, AgentRef(ORCHESTRATOR), ToolRef(0))
    ensures var u := Step(s, OwnStart); u.root == s.root && !HasTree(u, AgentRef(ORCHESTRATOR))
  {
    hide EnsureAgent, StartSubAgent, Inv;
    StepKeepsPlacement(s, OwnStart);
    AttachingMoves(s, OwnStart);
    StartSetsNoRoot(s, OwnStart);
    var u := Step(s, OwnStart);
    var r := AgentRef(ORCHESTRATOR);
    var p := [r, ToolRef(0), r];
    assert Under(u, p[0], p[1]) && Under(u, p[1], p[2]);
    assert Chain(u, p);
    TreeExactly(u, r);
  }

  /** Content that arrives before its `sub-agent-start` makes a node that sits under nothing. */
  lemma EarlyContentFloats(s: State, id: string, text: string)
    requires Inv(s) && s.root.Some? && id !in s.agents.vals
    ensures var u := Step(s, TextDelta(id, text)); id in u.agents.vals && !Seated(u, AgentRef(id)) && u.root == s.root
  {
    var s1 := EnsureAgent(s, id, None, None, None);
    UnlistedHoldsNothing(s, AgentRef(id));
    BornFields(s, id, None, None, None);
    AttachedNew(s, id, None, None, None);
    StreamIsCalm(s, id, text, Assistant);
    hide Stream, NewAgent, KnownAgent;
    forall r | Under(s1, r, AgentRef(id)) ensures false {
      UnderIsAt(s, r, AgentRef(id));
    }
    ShapeKeepsUnder(s1, id, text);
  }

  lemma ShapeKeepsUnder(s: State, id: string, text: string)
    ensures var u := WithKids(s, AgentRef(id), AppendText(Kids(s, AgentRef(id)), text, Assistant));
      forall r, c :: Under(u, r, c) <==> Under(s, r, c)
  {
    var k := Kids(s, AgentRef(id));
    var u := WithKids(s, AgentRef(id), AppendText(k, text, Assistant));
    forall c ensures Under(u, AgentRef(id), c) <==> Under(s, AgentRef(id), c) {
      UnderIsAt(s, AgentRef(id), c);
      UnderIsAt(u, AgentRef(id), c);
      assert forall i :: At(s, AgentRef(id), i, c) <==> At(u, AgentRef(id), i, c);
    }
    forall r, c | r != AgentRef(id) ensures Under(u, r, c) <==> Under(s, r, c) {}
  }
}
