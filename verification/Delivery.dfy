/**
 * Who receives which event: subscriptions that grow with the run tree, the
 * access checks that guard them, and the same run tree as the headless and the
 * terminal host compute it.
 */
module Delivery {
  import opened Basics
  import opened ServerModel

  datatype Scope = SessionScope(sessionId: string) | RunScope(runId: string) | AccountScope

  /** `scopeKey`: the key under which a scope is remembered. */
  function ScopeKey(s: Scope): string {
    match s
    case SessionScope(id) => "session:" + id
    case RunScope(id) => "run:" + id
    case AccountScope => "account"
  }

  /** Different scopes never share a key. */
  lemma ScopeKeysDiffer(a: Scope, b: Scope)
    requires ScopeKey(a) == ScopeKey(b)
    ensures a == b
  {
    assert ScopeKey(a)[0] == ScopeKey(b)[0];
    match a
    case SessionScope(x) => assert ScopeKey(a)[8..] == x && ScopeKey(b)[8..] == b.sessionId;
    case RunScope(x) => assert ScopeKey(a)[4..] == x && ScopeKey(b)[4..] == b.runId;
    case AccountScope =>
  }

  /** The notification an event is projected to. */
  function NoticeOf(e: Event): string {
    match e
    case SubAgent(spawn, _, _) => if spawn then "item/subAgentSpawned" else "item/subAgentStarted"
    case Gate(Approval, _, _) => "item/approvalRequired"
    case Gate(Question, _, _) => "item/questionRequired"
    case Gate(Plan, _, _) => "item/planProposed"
    case RunFinish(_) => "turn/completed"
    case OnRun(name, _) => name
    case TodoUpdate(_) => "session/updated"
    case OnSession(name, _, _) => name
  }

  function RunOf(e: Event): Option<string> {
    match e
    case OnSession(_, _, r) => r
    case TodoUpdate(_) => None
    case _ => Some(e.runId)
  }

  datatype Conn = Conn(auth: Auth, optOut: set<string>, subs: set<Scope>)

  predicate Interested(c: Conn, sid: string, e: Event) {
    || SessionScope(sid) in c.subs
    || (Truthy(RunOf(e)) && RunScope(RunOf(e).value) in c.subs)
    || (e.SubAgent? && e.parentRunId != "" && RunScope(e.parentRunId) in c.subs)
    || AccountScope in c.subs
  }

  /** Whether `deliver` enqueues the event for this connection. */
  predicate Receives(c: Conn, sid: string, e: Event) {
    NoticeOf(e) !in c.optOut && Interested(c, sid, e)
  }

  /** `deliver`: a delivered sub-agent notice subscribes the connection to the sub-agent's run. */
  function Deliver(c: Conn, sid: string, e: Event): Conn {
    if Receives(c, sid, e) && e.SubAgent? && e.runId != "" then c.(subs := c.subs + {RunScope(e.runId)}) else c
  }

  // ---- one connection against everything that happens at the server ----

  datatype View = View(books: Books, conn: Conn)

  /** A host event, any request that touches the books, or a subscription change of this connection. */
  datatype Act = Host(e: Event) | Request(step: ServerModel.Step) | Subscribe(s: Scope) | Unsubscribe(s: Scope)

  function See(v: View, e: Event): View {
    View(OnHostEvent(v.books, e),
         match SessionOf(e, v.books.runs)
         case Some(sid) => Deliver(v.conn, sid, e)
         case None => v.conn)
  }

  function Do(v: View, a: Act): View {
    match a
    case Host(e) => See(v, e)
    case Request(HostEvent(e)) => See(v, e)
    case Request(step) => v.(books := Apply(Server(v.books, []), step).books)
    case Subscribe(s) => v.(conn := v.conn.(subs := v.conn.subs + {s}))
    case Unsubscribe(s) => v.(conn := v.conn.(subs := v.conn.subs - {s}))
  }

  function Watch(v: View, acts: seq<Act>): View {
    if acts == [] then v else Do(Watch(v, acts[..|acts| - 1]), acts[|acts| - 1])
  }

  function EventOf(a: Act): Option<Event> {
    match a
    case Host(e) => Some(e)
    case Request(HostEvent(e)) => Some(e)
    case _ => None
  }

  /** The host events among the acts, as every host sees them. */
  function Events(acts: seq<Act>): seq<Event> {
    if acts == [] then []
    else
      var n := |acts| - 1;
      match EventOf(acts[n])
      case Some(e) => Events(acts[..n]) + [e]
      case None => Events(acts[..n])
  }

  /** The headless host's `turnRuns`: the turn and every sub-agent run announced under an admitted run. */
  function Admit(runs: set<string>, e: Event): set<string> {
    if e.SubAgent? && !e.spawn && e.parentRunId in runs then runs + {e.runId} else runs
  }

  function TurnRuns(r: string, es: seq<Event>): set<string> {
    if es == [] then {r} else Admit(TurnRuns(r, es[..|es| - 1]), es[|es| - 1])
  }

  /** The runs of the turn, as the headless host knows them after the acts. */
  function Turn(r: string, acts: seq<Act>): set<string> {
    TurnRuns(r, Events(acts))
  }

  /**
   * What the server goes on to do leaves the turn alone: none of its runs finishes or loses its session,
   * and this connection does not unsubscribe from one of them. Run and session ids are not empty.
   */
  predicate Spares(v: View, turn: set<string>, a: Act) {
    match EventOf(a)
    case Some(e) => (e.RunFinish? ==> e.runId !in turn) && (e.SubAgent? ==> e.runId != "")
    case None =>
      match a
      case Request(DeleteSession(sid)) => forall q <- turn :: q in v.books.runs ==> v.books.runs[q] != sid
      case Request(StartTurn(_, sid, _)) => sid != ""
      case Unsubscribe(RunScope(q)) => q !in turn
      case _ => true
  }

  ghost predicate Unfinished(v: View, r: string, acts: seq<Act>) {
    forall i :: 0 <= i < |acts| ==> Spares(Watch(v, acts[..i]), Turn(r, acts[..i]), acts[i])
  }

  const SubAgentNotices := {"item/subAgentStarted", "item/subAgentSpawned"}

  predicate NamedSessions(b: Books) {
    forall r <- b.runs :: b.runs[r] != ""
  }

  lemma UnfinishedPrefix(v: View, r: string, acts: seq<Act>)
    requires Unfinished(v, r, acts) && acts != []
    ensures var n := |acts| - 1;
      && Unfinished(v, r, acts[..n])
      && Spares(Watch(v, acts[..n]), Turn(r, acts[..n]), acts[n])
  {
    var n := |acts| - 1;
    forall i | 0 <= i < n ensures Spares(Watch(v, acts[..n][..i]), Turn(r, acts[..n][..i]), acts[..n][i]) {
      assert acts[..n][..i] == acts[..i];
    }
  }

  ghost predicate Follows(v: View, turn: set<string>) {
    && NamedSessions(v.books)
    && v.conn.optOut !! SubAgentNotices
    && forall q <- turn :: q != "" && q in v.books.runs && RunScope(q) in v.conn.subs
  }

  lemma EventFollowed(v: View, turn: set<string>, e: Event)
    requires Follows(v, turn)
    requires (e.RunFinish? ==> e.runId !in turn) && (e.SubAgent? ==> e.runId != "")
    ensures Follows(See(v, e), Admit(turn, e))
  {
    assert "item/subAgentStarted" in SubAgentNotices && "item/subAgentSpawned" in SubAgentNotices;
  }

  /**
   * While run `r` is unfinished, a connection that was subscribed to it and takes the sub-agent
   * notices is subscribed to every run the headless host counts into the same turn, whatever other
   * requests and events are handled in between.
   */
  lemma {:induction false} SubscribedToWholeTurn(v: View, r: string, acts: seq<Act>)
    requires Follows(v, {r}) && Unfinished(v, r, acts)
    ensures Follows(Watch(v, acts), Turn(r, acts))
  {
    if acts != [] {
      var n := |acts| - 1;
      UnfinishedPrefix(v, r, acts);
      SubscribedToWholeTurn(v, r, acts[..n]);
      match EventOf(acts[n])
      case Some(e) =>
        assert Do(Watch(v, acts[..n]), acts[n]) == See(Watch(v, acts[..n]), e);
        hide See, Do, Spares, Follows;
        EventFollowed(Watch(v, acts[..n]), Turn(r, acts[..n]), e);
        assert Events(acts)[..|Events(acts)| - 1] == Events(acts[..n]);
      case None => RequestFollowed(Watch(v, acts[..n]), Turn(r, acts[..n]), acts[n]);
    }
  }

  lemma RequestFollowed(v: View, turn: set<string>, a: Act)
    requires Follows(v, turn) && EventOf(a).None? && Spares(v, turn, a)
    ensures Follows(Do(v, a), turn)
  {}

  /** The event belongs to a run of the turn, or announces a sub-agent below one. */
  predicate TurnEvent(e: Event, turn: set<string>) {
    && ((RunOf(e).Some? && RunOf(e).value in turn) || (e.SubAgent? && e.parentRunId in turn))
    && (e.OnSession? ==> Truthy(e.sessionId))
  }

  /** So every event of the turn that the connection takes is handed to its queue. */
  lemma TurnEventsArrive(v: View, turn: set<string>, e: Event)
    requires Follows(v, turn) && TurnEvent(e, turn) && NoticeOf(e) !in v.conn.optOut
    ensures SessionOf(e, v.books.runs).Some? && Receives(v.conn, SessionOf(e, v.books.runs).value, e)
  {}

  /** Every spawn is announced again, by the start that follows it. */
  ghost predicate Paired(es: seq<Event>) {
    forall i :: 0 <= i < |es| && es[i].SubAgent? && es[i].spawn ==>
      i + 1 < |es| && es[i + 1] == SubAgent(false, es[i].runId, es[i].parentRunId)
  }

  /** All announced descendants, whichever of the two notices announced them. */
  function Descendants(r: string, es: seq<Event>): set<string> {
    if es == [] then {r} else Announce(Descendants(r, es[..|es| - 1]), es[|es| - 1])
  }

  function Announce(runs: set<string>, e: Event): set<string> {
    if e.SubAgent? && e.parentRunId in runs then runs + {e.runId} else runs
  }

  /** The last event is a spawn, whose start is still to come. */
  predicate Repeats(es: seq<Event>) {
    |es| > 0 && es[|es| - 1].SubAgent? && es[|es| - 1].spawn
  }

  lemma {:induction false} SpawnsChangeNothing(r: string, es: seq<Event>, n: nat)
    requires Paired(es) && n <= |es|
    ensures !Repeats(es[..n]) ==> Descendants(r, es[..n]) == TurnRuns(r, es[..n])
    ensures Repeats(es[..n]) ==> (
      && n < |es|
      && Descendants(r, es[..n])
         == TurnRuns(r, es[..n]) + if es[n].parentRunId in TurnRuns(r, es[..n]) then {es[n].runId} else {})
  {
    if n > 0 {
      SpawnsChangeNothing(r, es, n - 1);
      assert es[..n][..n - 1] == es[..n - 1] && es[..n][n - 1] == es[n - 1];
      if n > 1 { assert es[..n - 1][n - 2] == es[n - 2]; }
    }
  }

  /** The connection makes no subscription changes of its own. */
  ghost predicate Passive(acts: seq<Act>) {
    forall a <- acts :: !a.Subscribe? && !a.Unsubscribe?
  }

  predicate Within(subs: set<Scope>, runs: set<string>) {
    forall s <- subs :: s.RunScope? && s.runId in runs
  }

  lemma SeeStaysWithin(v: View, runs: set<string>, e: Event)
    requires Within(v.conn.subs, runs)
    ensures Within(See(v, e).conn.subs, Announce(runs, e))
  {}

  lemma OthersStayWithin(v: View, a: Act)
    requires EventOf(a).None? && !a.Subscribe? && !a.Unsubscribe?
    ensures Do(v, a).conn == v.conn
  {}

  lemma {:induction false} OnlyTheTurn(v: View, r: string, acts: seq<Act>)
    requires v.conn.subs == {RunScope(r)} && Passive(acts)
    ensures Within(Watch(v, acts).conn.subs, Descendants(r, Events(acts)))
  {
    if acts != [] {
      var n := |acts| - 1;
      OnlyTheTurn(v, r, acts[..n]);
      assert acts[n] in acts;
      var before := Watch(v, acts[..n]);
      hide Within;
      match EventOf(acts[n])
      case Some(e) =>
        assert Do(before, acts[n]) == See(before, e);
        hide Do, See;
        assert Events(acts)[..|Events(acts)| - 1] == Events(acts[..n]);
        SeeStaysWithin(before, Descendants(r, Events(acts[..n])), e);
      case None => OthersStayWithin(before, acts[n]);
    }
  }

  /**
   * A connection whose only subscription was `r` ends up subscribed to exactly the runs of the turn:
   * the server's growing subscriptions and the headless host's set are the same closure.
   */
  lemma HostsAgreeOnTheTurn(v: View, r: string, acts: seq<Act>)
    requires Follows(v, {r}) && v.conn.subs == {RunScope(r)}
    requires Unfinished(v, r, acts) && Passive(acts) && Paired(Events(acts))
    ensures Watch(v, acts).conn.subs == set q | q in Turn(r, acts) :: RunScope(q)
  {
    var es := Events(acts);
    SubscribedToWholeTurn(v, r, acts);
    OnlyTheTurn(v, r, acts);
    SpawnsChangeNothing(r, es, |es|);
    assert es[..|es|] == es;
    assert !Repeats(es);
  }

  // ---- late subscriptions ----

  function Closure(runs: set<string>, es: seq<Event>): set<string> {
    if es == [] then runs else Admit(Closure(runs, es[..|es| - 1]), es[|es| - 1])
  }

  lemma {:induction false} TurnGoesOn(r: string, es: seq<Event>, fs: seq<Event>)
    ensures TurnRuns(r, es + fs) == Closure(TurnRuns(r, es), fs)
    ensures TurnRuns(r, es) <= TurnRuns(r, es + fs)
  {
    if fs == [] {
      assert es + fs == es;
    } else {
      var n := |fs| - 1;
      TurnGoesOn(r, es, fs[..n]);
      assert (es + fs)[..|es| + n] == es + fs[..n] && (es + fs)[|es| + n] == fs[n];
    }
  }

  lemma {:induction false} ClosureOfOne(r: string, es: seq<Event>)
    ensures Closure({r}, es) == TurnRuns(r, es)
  {
    if es != [] { ClosureOfOne(r, es[..|es| - 1]); }
  }

  /** Every run of a turn but the first has been announced. */
  lemma {:induction false} RunsAreAnnounced(r: string, es: seq<Event>, q: string)
    requires q in TurnRuns(r, es) && q != r
    ensures exists e <- es :: e.SubAgent? && !e.spawn && e.runId == q
  {
    if es != [] {
      var n := |es| - 1;
      assert es[n] in es;
      if q in TurnRuns(r, es[..n]) {
        RunsAreAnnounced(r, es[..n], q);
        var e :| e in es[..n] && e.SubAgent? && !e.spawn && e.runId == q;
        assert e in es;
      }
    }
  }

  /**
   * A connection that subscribes to a run after the events `es` follows its whole turn if and only if no
   * sub-agent run had been announced in the turn by then, given that no sub-agent is announced a second time.
   */
  lemma LateSubscriberFollowsExactly(v: View, r: string, es: seq<Event>, acts: seq<Act>)
    requires Follows(v, {r}) && v.conn.subs == {RunScope(r)}
    requires Unfinished(v, r, acts) && Passive(acts) && Paired(Events(acts))
    requires forall e <- Events(acts) :: e.SubAgent? && !e.spawn ==> e.runId !in TurnRuns(r, es)
    ensures Watch(v, acts).conn.subs == (set q | q in TurnRuns(r, es + Events(acts)) :: RunScope(q))
      <==> TurnRuns(r, es) == {r}
  {
    var fs := Events(acts);
    HostsAgreeOnTheTurn(v, r, acts);
    TurnGoesOn(r, es, fs);
    ClosureOfOne(r, fs);
    RootOfTurn(r, es);
    hide *;
    if TurnRuns(r, es) != {r} {
      var q :| q in TurnRuns(r, es) && q != r;
      if q in TurnRuns(r, fs) { RunsAreAnnounced(r, fs, q); }
      assert q in TurnRuns(r, es + fs);
      MissedScope(TurnRuns(r, fs), TurnRuns(r, es + fs), q);
    }
  }

  lemma {:induction false} RootOfTurn(r: string, es: seq<Event>)
    ensures r in TurnRuns(r, es)
  {
    if es != [] { RootOfTurn(r, es[..|es| - 1]); }
  }

  lemma MissedScope(got: set<string>, all: set<string>, q: string)
    requires q in all && q !in got
    ensures (set p | p in got :: RunScope(p)) != set p | p in all :: RunScope(p)
  {
    var heard, wanted := set p | p in got :: RunScope(p), set p | p in all :: RunScope(p);
    assert RunScope(q) in wanted && RunScope(q) !in heard;
  }

  // ---- the terminal host ----

  /** `subRuns`: sub-agent runs under the tracked run, which is not itself a member. */
  function SubRuns(r: string, es: seq<Event>): set<string> {
    if es == [] then {}
    else
      var n := |es| - 1;
      var runs := SubRuns(r, es[..n]);
      if es[n].SubAgent? && !es[n].spawn && (es[n].parentRunId == r || es[n].parentRunId in runs)
      then runs + {es[n].runId} else runs
  }

  /** The error of an infrastructure component, which belongs to no run. */
  predicate InfrastructureError(e: Event) {
    NoticeOf(e) == "item/error" && (RunOf(e) == Some("mcp") || RunOf(e) == Some("sandbox"))
  }

  /** `belongsToActive`, for the tracked run and the open session, if any. */
  predicate BelongsToActive(e: Event, active: Option<string>, subRuns: set<string>, open: Option<string>) {
    if InfrastructureError(e) then true
    else if e.TodoUpdate? then open == Some(e.session)
    else if RunOf(e).Some? then (active.Some? && RunOf(e) == active) || RunOf(e).value in subRuns
    else true
  }

  lemma {:induction false} TerminalRunsAre(r: string, es: seq<Event>)
    ensures SubRuns(r, es) + {r} == TurnRuns(r, es)
  {
    if es != [] {
      TerminalRunsAre(r, es[..|es| - 1]);
    }
  }

  /**
   * The terminal shows an event of a run exactly when the headless host counts the run into the turn or the
   * event is an infrastructure error; a todo list exactly when it is the open session's; any other event always.
   */
  lemma TerminalShowsTheTurn(r: string, es: seq<Event>, e: Event, open: Option<string>)
    ensures BelongsToActive(e, Some(r), SubRuns(r, es), open)
      <==> || (RunOf(e).Some? && RunOf(e).value in TurnRuns(r, es))
           || InfrastructureError(e)
           || (e.TodoUpdate? && open == Some(e.session))
           || (RunOf(e).None? && !e.TodoUpdate?)
  {
    TerminalRunsAre(r, es);
  }

  /** An instance: subscribed after its sub-agent was announced, a connection does not get that sub-agent's events. */
  lemma LateSubscriberMissesSubAgents(b: Books, auth: Auth)
    ensures var v := View(b.(runs := map["r" := "s"]), Conn(auth, {}, {}));
      var w := See(v, SubAgent(false, "sub", "r"));
      var late := w.conn.(subs := w.conn.subs + {RunScope("r")});
      && "sub" in TurnRuns("r", [SubAgent(false, "sub", "r")])
      && SessionOf(OnRun("item/textDelta", "sub"), w.books.runs) == Some("s")
      && !Receives(late, "s", OnRun("item/textDelta", "sub"))
  {
    assert [SubAgent(false, "sub", "r")][..0] == [];
    assert TurnRuns("r", []) == {"r"};
  }
}
