/**
 * A turn run without a person (apps/cli/src/headless/run.ts): the handler that admits sub-agent runs,
 * answers every gate by policy and ends with an exit code.
 */
module Headless {
  import opened Basics
  import opened ServerModel
  import opened Delivery
  import opened ApprovePolicy

  const EXIT_OK := 0
  const EXIT_ERROR := 1
  const EXIT_REJECTED := 4
  const EXIT_INTERRUPTED := 130

  /**
   * A host event, with the call an approval event asks about; an `error` event of a run; or an interrupt from
   * the terminal.
   */
  datatype Signal = Event(e: ServerModel.Event, request: Request) | Failure(runId: string) | Interrupt

  datatype Reply =
    | ApproveTool(id: string, decision: Decision)
    | DismissQuestion(id: string)
    | ApprovePlan(id: string, approve: bool)

  datatype Handler = Handler(turnRuns: set<string>, rejected: bool, exit: Option<int>, replies: seq<Reply>)

  function NewHandler(r: string): Handler {
    Handler({r}, false, None, [])
  }

  function PolicyReply(k: Policy, gate: GateKind, id: string, request: Request): Reply {
    match gate
    case Approval => ApproveTool(id, Decide(k, request))
    case Question => DismissQuestion(id)
    case Plan => ApprovePlan(id, k.Auto?)
  }

  /** Questions are dismissed, which is no refusal. */
  predicate Refuses(v: Reply) {
    (v.ApproveTool? && v.decision.Reject?) || (v.ApprovePlan? && !v.approve)
  }

  function Finish(h: Handler, code: int): Handler {
    if h.exit.Some? then h else h.(exit := Some(code))
  }

  /** One signal. Once the turn has ended the handler is detached. */
  function Handle(h: Handler, r: string, k: Policy, s: Signal): Handler {
    if h.exit.Some? then h
    else
      match s
      case Interrupt => Finish(h, EXIT_INTERRUPTED)
      case Failure(q) => if q == r then Finish(h, EXIT_ERROR) else h
      case Event(SubAgent(false, q, p), _) => if p in h.turnRuns then h.(turnRuns := h.turnRuns + {q}) else h
      case Event(Gate(gate, q, id), request) =>
        if q in h.turnRuns then
          var v := PolicyReply(k, gate, id, request);
          h.(rejected := h.rejected || Refuses(v), replies := h.replies + [v])
        else h
      case Event(RunFinish(q), _) =>
        if q == r then Finish(h, if h.rejected then EXIT_REJECTED else EXIT_OK) else h
      case Event(_, _) => h
  }

  function Play(r: string, k: Policy, ss: seq<Signal>): Handler {
    if ss == [] then NewHandler(r) else Handle(Play(r, k, ss[..|ss| - 1]), r, k, ss[|ss| - 1])
  }

  // ---- what the signals say ----

  function EventsOf(ss: seq<Signal>): seq<ServerModel.Event> {
    if ss == [] then []
    else
      var n := |ss| - 1;
      EventsOf(ss[..n]) + if ss[n].Event? then [ss[n].e] else []
  }

  /** The signals that end the turn `r`. */
  predicate Ends(s: Signal, r: string) {
    s.Interrupt? || (s.Failure? && s.runId == r) || (s.Event? && s.e == RunFinish(r))
  }

  predicate Open(ss: seq<Signal>, r: string) {
    forall s <- ss :: !Ends(s, r)
  }

  /** The `j`-th signal is a gate of the turn, by the runs announced before it. */
  predicate GateAt(ss: seq<Signal>, r: string, j: nat)
    requires j < |ss|
  {
    ss[j].Event? && ss[j].e.Gate? && ss[j].e.runId in TurnRuns(r, EventsOf(ss[..j]))
  }

  predicate RefusedAt(ss: seq<Signal>, r: string, k: Policy, j: nat)
    requires j < |ss|
  {
    GateAt(ss, r, j) && Refuses(PolicyReply(k, ss[j].e.gate, ss[j].e.id, ss[j].request))
  }

  /** The policy has refused one of the first `n` signals. */
  predicate RefusedBefore(ss: seq<Signal>, r: string, k: Policy, n: nat)
    requires n <= |ss|
  {
    exists j :: 0 <= j < n && RefusedAt(ss, r, k, j)
  }

  function ExitCode(s: Signal, refused: bool): int {
    if s.Interrupt? then EXIT_INTERRUPTED else if s.Failure? then EXIT_ERROR
    else if refused then EXIT_REJECTED else EXIT_OK
  }

  function RepliesDue(ss: seq<Signal>, r: string, k: Policy, n: nat): seq<Reply>
    requires n <= |ss|
  {
    if n == 0 then []
    else
      var s := ss[n - 1];
      RepliesDue(ss, r, k, n - 1) + if GateAt(ss, r, n - 1) then [PolicyReply(k, s.e.gate, s.e.id, s.request)] else []
  }

  // ---- while the turn is open ----

  lemma {:induction false} DuePrefix(ss: seq<Signal>, r: string, k: Policy, n: nat, m: nat)
    requires n <= m <= |ss|
    ensures RepliesDue(ss[..m], r, k, n) == RepliesDue(ss, r, k, n)
  {
    if n > 0 {
      DuePrefix(ss, r, k, n - 1, m);
      assert ss[..m][..n - 1] == ss[..n - 1];
    }
  }

  /** Until the turn ends, every gate of its run tree has been answered in order, and nothing else. */
  lemma {:induction false} OpenTurnAnswersItsGates(r: string, k: Policy, ss: seq<Signal>)
    requires Open(ss, r)
    ensures var h := Play(r, k, ss);
      && h.exit.None?
      && h.turnRuns == TurnRuns(r, EventsOf(ss))
      && h.replies == RepliesDue(ss, r, k, |ss|)
      && (h.rejected <==> RefusedBefore(ss, r, k, |ss|))
  {
    if ss != [] {
      var n := |ss| - 1;
      assert ss[n] in ss && forall s <- ss[..n] :: s in ss;
      OpenTurnAnswersItsGates(r, k, ss[..n]);
      DuePrefix(ss, r, k, n, n);
      TurnGrows(r, ss);
      RefusedPrefix(ss, r, k, n);
      RefusedGrows(ss, r, k, n);
      hide TurnRuns, EventsOf, RefusedBefore;
    }
  }

  lemma TurnGrows(r: string, ss: seq<Signal>)
    requires ss != []
    ensures var n := |ss| - 1;
      TurnRuns(r, EventsOf(ss)) ==
      if ss[n].Event? then Admit(TurnRuns(r, EventsOf(ss[..n])), ss[n].e) else TurnRuns(r, EventsOf(ss[..n]))
  {
    var n := |ss| - 1;
    if ss[n].Event? {
      assert EventsOf(ss)[..|EventsOf(ss)| - 1] == EventsOf(ss[..n]);
    } else {
      assert EventsOf(ss) == EventsOf(ss[..n]);
    }
  }

  lemma RefusedPrefix(ss: seq<Signal>, r: string, k: Policy, n: nat)
    requires n <= |ss|
    ensures RefusedBefore(ss[..n], r, k, n) <==> RefusedBefore(ss, r, k, n)
  {
    forall j | 0 <= j < n ensures RefusedAt(ss[..n], r, k, j) <==> RefusedAt(ss, r, k, j) {
      assert ss[..n][..j] == ss[..j];
    }
    hide RefusedAt;
  }

  lemma RefusedGrows(ss: seq<Signal>, r: string, k: Policy, n: nat)
    requires n < |ss|
    ensures RefusedBefore(ss, r, k, n + 1) <==> RefusedBefore(ss, r, k, n) || RefusedAt(ss, r, k, n)
  {
    hide RefusedAt;
  }

  // ---- when it ends ----

  lemma {:induction false} NothingAfterTheEnd(r: string, k: Policy, ss: seq<Signal>, n: nat)
    requires n <= |ss| && Play(r, k, ss[..n]).exit.Some?
    ensures Play(r, k, ss) == Play(r, k, ss[..n])
    decreases |ss|
  {
    if n == |ss| {
      assert ss[..n] == ss;
    } else {
      assert ss[..|ss| - 1][..n] == ss[..n];
      NothingAfterTheEnd(r, k, ss[..|ss| - 1], n);
    }
  }

  /**
   * The first signal that ends the turn decides the exit code, together with whether the policy refused a
   * gate of the run tree before it; by then every such gate has been answered once, in order, and no gate of
   * another run has. Later signals change nothing.
   */
  lemma ExitCodeExactly(r: string, k: Policy, ss: seq<Signal>, n: nat)
    requires n < |ss| && Open(ss[..n], r) && Ends(ss[n], r)
    ensures var h := Play(r, k, ss);
      && h.exit == Some(ExitCode(ss[n], RefusedBefore(ss, r, k, n)))
      && h.replies == RepliesDue(ss, r, k, n)
  {
    var h := Play(r, k, ss[..n]);
    OpenTurnAnswersItsGates(r, k, ss[..n]);
    DuePrefix(ss, r, k, n, n);
    RefusedPrefix(ss, r, k, n);
    hide RefusedBefore;
    var to := ss[..n + 1];
    assert to[..n] == ss[..n] && to[n] == ss[n];
    assert Play(r, k, to) == Handle(h, r, k, ss[n]);
    NothingAfterTheEnd(r, k, ss, n + 1);
  }

  class HeadlessTurn {
    const runId: string
    const policy: Policy
    var turnRuns: set<string>
    var rejected: bool
    var exit: Option<int>
    /** What the host has been told. */
    var replies: seq<Reply>

    constructor (runId: string, policy: Policy)
      ensures this.runId == runId && this.policy == policy && Value() == NewHandler(runId)
    {
      this.runId, this.policy := runId, policy;
      turnRuns, rejected, exit, replies := {runId}, false, None, [];
    }

    function Value(): Handler
      reads this
    {
      Handler(turnRuns, rejected, exit, replies)
    }

    method End(code: int)
      modifies this`exit
      ensures Value() == Finish(old(Value()), code)
    {
      if exit.Some? { return; }
      exit := Some(code);
    }

    method OnSignal(s: Signal)
      modifies this
      ensures Value() == Handle(old(Value()), runId, policy, s)
    {
      if exit.Some? { return; }
      match s
      case Interrupt => End(EXIT_INTERRUPTED);
      case Failure(q) => if q == runId { End(EXIT_ERROR); }
      case Event(e, request) =>
        if e.SubAgent? && !e.spawn && e.parentRunId in turnRuns {
          turnRuns := turnRuns + {e.runId};
          return;
        }
        if e.Gate? && e.runId in turnRuns {
          var v := PolicyReply(policy, e.gate, e.id, request);
          if Refuses(v) { rejected := true; }
          replies := replies + [v];
          return;
        }
        if e.RunFinish? && e.runId == runId {
          End(if rejected then EXIT_REJECTED else EXIT_OK);
        }
    }
  }
}
