/**
 * The app server's bookkeeping as functions on values: which session a run
 * belongs to, which turn a session runs, which actions wait for an answer
 * (packages/agent-server/src/server.ts).
 */
module ServerModel {
  import opened Basics

  datatype GateKind = Approval | Question | Plan

  /**
   * Host events, as far as routing looks at them. `SubAgent` is `sub-agent-start` (or `-spawn`),
   * `Gate` one of the three events that wait for an answer, `OnRun` any other event that carries a
   * run id alone, `OnSession` any other event with a `sessionId` field.
   */
  datatype Event =
    | SubAgent(spawn: bool, runId: string, parentRunId: string)
    | Gate(gate: GateKind, runId: string, id: string)
    | RunFinish(runId: string)
    | OnRun(name: string, runId: string)
    | TodoUpdate(session: string)
    | OnSession(name: string, sessionId: Option<string>, onRun: Option<string>)

  datatype Auth = Auth(accountId: Option<string>, trusted: bool)

  datatype Pending = Pending(kind: GateKind, accountId: Option<string>, sessionId: string, runId: string)

  datatype Books = Books(
    runs: map<string, string>,
    turns: map<string, string>,
    accounts: map<string, Option<string>>,
    pending: map<string, Pending>)

  const NoBooks := Books(map[], map[], map[], map[])

  function Session(runs: map<string, string>, runId: string): Option<string> {
    if runId in runs && runs[runId] != "" then Some(runs[runId]) else None
  }

  /** `sessionIdForEvent`; the caller drops an event without a session. */
  function SessionOf(e: Event, runs: map<string, string>): Option<string> {
    match e
    case OnSession(_, sid, _) => if Truthy(sid) then sid else None
    case TodoUpdate(sid) => if sid != "" then Some(sid) else None
    case SubAgent(_, r, p) => if Session(runs, r).Some? then Session(runs, r) else Session(runs, p)
    case Gate(_, r, _) => Session(runs, r)
    case RunFinish(r) => Session(runs, r)
    case OnRun(_, r) => Session(runs, r)
  }

  function TrackRun(b: Books, runId: string, sid: string, account: Option<string>): Books {
    b.(runs := b.runs[runId := sid],
       accounts := if sid in b.accounts then b.accounts else b.accounts[sid := account])
  }

  function ClearRun(b: Books, runId: string): Books {
    b.(runs := b.runs - {runId},
       turns := map s | s in b.turns && b.turns[s] != runId :: b.turns[s],
       pending := map id | id in b.pending && b.pending[id].runId != runId :: b.pending[id])
  }

  function AccountOf(b: Books, sid: string): Option<string> {
    if sid in b.accounts then b.accounts[sid] else None
  }

  /** `handleHostEvent`, without the delivery. */
  function OnHostEvent(b: Books, e: Event): Books {
    match SessionOf(e, b.runs)
    case None => b
    case Some(sid) =>
      match e
      case SubAgent(_, r, _) => TrackRun(b, r, sid, AccountOf(b, sid))
      case Gate(kind, r, id) => b.(pending := b.pending[id := Pending(kind, AccountOf(b, sid), sid, r)])
      case RunFinish(r) => ClearRun(b, r)
      case _ => b
  }

  /** What `turn/start` does once the host has accepted the message. */
  function TurnStarted(b: Books, runId: string, sid: string, account: Option<string>): Books {
    var t := TrackRun(b, runId, sid, account);
    t.(turns := t.turns[sid := runId])
  }

  function SessionCreated(b: Books, sid: string, account: Option<string>): Books {
    b.(accounts := b.accounts[sid := account])
  }

  /** What `session/delete` does once the host has deleted the session. */
  function SessionDeleted(b: Books, sid: string): Books {
    var gone := set r | r in b.runs && b.runs[r] == sid;
    Books(b.runs - gone,
          map s | s in b.turns && b.turns[s] !in gone :: b.turns[s],
          b.accounts - {sid},
          map id | id in b.pending && b.pending[id].runId !in gone :: b.pending[id])
  }

  datatype Verdict = Granted | Conflict | Forbidden

  /** `claimPending` */
  function ClaimVerdict(b: Books, auth: Auth, id: string, kind: GateKind): Verdict {
    if id !in b.pending || b.pending[id].kind != kind then Conflict
    else if !auth.trusted && b.pending[id].accountId != auth.accountId then Forbidden
    else Granted
  }

  function Claim(b: Books, auth: Auth, id: string, kind: GateKind): Books {
    if ClaimVerdict(b, auth, id, kind) == Granted then b.(pending := b.pending - {id}) else b
  }

  // ---- consistency ----

  /** Every active turn and every pending action refers to a run still mapped to that same session. */
  ghost predicate Consistent(b: Books) {
    && (forall r <- b.runs :: b.runs[r] != "")
    && (forall s <- b.turns :: b.turns[s] in b.runs && b.runs[b.turns[s]] == s)
    && (forall id <- b.pending :: b.pending[id].runId in b.runs && b.runs[b.pending[id].runId] == b.pending[id].sessionId)
  }

  lemma HostEventKeepsConsistency(b: Books, e: Event)
    requires Consistent(b)
    ensures Consistent(OnHostEvent(b, e))
  {}

  /** Nothing still refers to the run as a run of another session. */
  predicate Unclaimed(b: Books, runId: string, sid: string) {
    && (forall s <- b.turns :: b.turns[s] == runId ==> s == sid)
    && (forall id <- b.pending :: b.pending[id].runId == runId ==> b.pending[id].sessionId == sid)
  }

  /** Starting a turn keeps the books consistent exactly when its run id is not in use for another session. */
  lemma TurnStartConsistentExactly(b: Books, runId: string, sid: string, account: Option<string>)
    requires Consistent(b) && sid != ""
    ensures Consistent(TurnStarted(b, runId, sid, account)) <==> Unclaimed(b, runId, sid)
  {
    var t := TurnStarted(b, runId, sid, account);
    if Consistent(t) {
      forall s <- b.turns | b.turns[s] == runId ensures s == sid {
        assert forall u <- b.turns :: u != sid ==> t.turns[u] == b.turns[u];
      }
      forall id <- b.pending | b.pending[id].runId == runId ensures b.pending[id].sessionId == sid {
        assert t.pending[id].runId == runId;
      }
    }
  }

  lemma OthersKeepConsistency(b: Books, sid: string, account: Option<string>, auth: Auth, id: string, kind: GateKind)
    requires Consistent(b)
    ensures Consistent(SessionCreated(b, sid, account)) && Consistent(SessionDeleted(b, sid))
    ensures Consistent(Claim(b, auth, id, kind))
  {}

  /** A late `run-finish` of an old run never clears a newer turn. */
  lemma LateFinishKeepsNewerTurn(b: Books, s: string, stale: string)
    requires s in b.turns && b.turns[s] != stale
    ensures s in OnHostEvent(b, RunFinish(stale)).turns && OnHostEvent(b, RunFinish(stale)).turns[s] == b.turns[s]
  {}

  /** A `run-finish` of a known run drops everything of that run and nothing else. */
  lemma FinishClearsTheRun(b: Books, r: string)
    requires Session(b.runs, r).Some?
    ensures var d := OnHostEvent(b, RunFinish(r));
      && r !in d.runs && (forall q <- b.runs | q != r :: q in d.runs && d.runs[q] == b.runs[q])
      && (forall s :: s in d.turns <==> s in b.turns && b.turns[s] != r)
      && (forall id :: id in d.pending <==> id in b.pending && b.pending[id].runId != r)
  {}

  /** After `session/delete` nothing of that session remains, and nothing of any other session is lost. */
  lemma DeletionIsComplete(b: Books, sid: string)
    requires Consistent(b)
    ensures var d := SessionDeleted(b, sid);
      && sid !in d.turns && sid !in d.accounts
      && (forall r <- d.runs :: d.runs[r] != sid)
      && (forall id <- d.pending :: d.pending[id].sessionId != sid)
      && (forall r <- b.runs | b.runs[r] != sid :: r in d.runs && d.runs[r] == b.runs[r])
      && (forall s <- b.turns | s != sid :: s in d.turns && d.turns[s] == b.turns[s])
      && (forall id <- b.pending | b.pending[id].sessionId != sid :: id in d.pending && d.pending[id] == b.pending[id])
  {}

  // ---- runs of the server ----

  /** A JSON field of a response, as far as its validation tells values apart. */
  datatype Field = Absent | Null | Text(text: string) | List | Other

  datatype Answer =
    | ApprovalAnswer(decision: Field)
    | QuestionAnswer(answers: Field)
    | PlanAnswer(decision: Field, targetMode: Field)

  function KindOf(a: Answer): GateKind {
    match a
    case ApprovalAnswer(_) => Approval
    case QuestionAnswer(_) => Question
    case PlanAnswer(_, _) => Plan
  }

  /** `asEnum` */
  predicate OneOf(f: Field, allowed: set<string>) {
    f.Text? && f.text in allowed
  }

  /** The payload passes the checks that come before the claim. */
  predicate WellFormed(id: Field, a: Answer) {
    && id.Text? && id.text != ""
    && match a
       case ApprovalAnswer(decision) => OneOf(decision, {"once", "session", "reject"})
       case QuestionAnswer(answers) => answers.Null? || answers.List?
       case PlanAnswer(decision, mode) =>
         && OneOf(decision, {"approve", "edit", "keep", "reject"})
         && (mode.Absent? || OneOf(mode, {"ask", "plan", "auto", "full"}))
  }

  datatype Step =
    | HostEvent(e: Event)
    | StartTurn(auth: Auth, sid: string, runId: string)
    | CreateSession(auth: Auth, sid: string, namespace: Option<string>)
    | DeleteSession(sid: string)
    | Respond(auth: Auth, id: Field, answer: Answer)

  /** An answer passed on to the host, with who gave it. */
  datatype Passed = Passed(id: string, auth: Auth, answer: Answer)

  datatype Server = Server(books: Books, answers: seq<Passed>)

  predicate Accepts(b: Books, auth: Auth, id: Field, a: Answer) {
    WellFormed(id, a) && ClaimVerdict(b, auth, id.text, KindOf(a)) == Granted
  }

  const Idle := Server(NoBooks, [])

  function Apply(v: Server, s: Step): Server {
    match s
    case HostEvent(e) => v.(books := OnHostEvent(v.books, e))
    case StartTurn(auth, sid, r) => v.(books := TurnStarted(v.books, r, sid, auth.accountId))
    case CreateSession(auth, sid, ns) =>
      v.(books := SessionCreated(v.books, sid, if auth.accountId.Some? then auth.accountId else ns))
    case DeleteSession(sid) => v.(books := SessionDeleted(v.books, sid))
    case Respond(auth, id, answer) =>
      if Accepts(v.books, auth, id, answer)
      then Server(Claim(v.books, auth, id.text, KindOf(answer)), v.answers + [Passed(id.text, auth, answer)])
      else v
  }

  function Replay(steps: seq<Step>): Server {
    if steps == [] then Idle else Apply(Replay(steps[..|steps| - 1]), steps[|steps| - 1])
  }

  /** Run ids of started turns are not in use for another session at that moment, and session ids are not empty. */
  ghost predicate Lawful(steps: seq<Step>) {
    forall i :: 0 <= i < |steps| && steps[i].StartTurn? ==>
      steps[i].sid != "" && Unclaimed(Replay(steps[..i]).books, steps[i].runId, steps[i].sid)
  }

  lemma LawfulPrefix(steps: seq<Step>)
    requires Lawful(steps) && steps != []
    ensures Lawful(steps[..|steps| - 1])
  {
    var front := steps[..|steps| - 1];
    forall i | 0 <= i < |front| && front[i].StartTurn?
      ensures front[i].sid != "" && Unclaimed(Replay(front[..i]).books, front[i].runId, front[i].sid)
    {
      assert front[..i] == steps[..i];
    }
  }

  lemma {:induction false} RunsAreConsistent(steps: seq<Step>)
    requires Lawful(steps)
    ensures Consistent(Replay(steps).books)
  {
    if steps != [] {
      var n := |steps| - 1;
      LawfulPrefix(steps);
      RunsAreConsistent(steps[..n]);
      var b := Replay(steps[..n]).books;
      match steps[n]
      case HostEvent(e) => HostEventKeepsConsistency(b, e);
      case StartTurn(auth, sid, r) => TurnStartConsistentExactly(b, r, sid, auth.accountId);
      case CreateSession(auth, sid, ns) =>
        OthersKeepConsistency(b, sid, if auth.accountId.Some? then auth.accountId else ns, auth, "", Plan);
      case DeleteSession(sid) => OthersKeepConsistency(b, sid, None, Auth(None, false), "", Plan);
      case Respond(auth, id, answer) =>
        if id.Text? { OthersKeepConsistency(b, "", None, auth, id.text, KindOf(answer)); }
    }
  }

  // ---- how long a turn is active ----

  predicate Active(b: Books, sid: string, r: string) {
    sid in b.turns && b.turns[sid] == r
  }

  predicate Starts(s: Step, sid: string, r: string) {
    s.StartTurn? && s.sid == sid && s.runId == r
  }

  /** The step drops the run: its finish, or the deletion of the session it is mapped to. */
  predicate Drops(b: Books, s: Step, r: string) {
    || (s == HostEvent(RunFinish(r)) && Session(b.runs, r).Some?)
    || (s.DeleteSession? && r in b.runs && b.runs[r] == s.sid)
  }

  /** The step takes the session's turn away from the run. */
  predicate Unseats(b: Books, s: Step, sid: string, r: string) {
    Drops(b, s, r) || (s.StartTurn? && s.sid == sid)
  }

  lemma ActiveStep(v: Server, s: Step, sid: string, r: string)
    ensures Active(Apply(v, s).books, sid, r)
      <==> Starts(s, sid, r) || (!Unseats(v.books, s, sid, r) && Active(v.books, sid, r))
  {}

  function Seatings(steps: seq<Step>, sid: string, r: string): seq<bool> {
    seq(|steps|, i requires 0 <= i < |steps| => Starts(steps[i], sid, r))
  }

  function Unseatings(steps: seq<Step>, sid: string, r: string): seq<bool> {
    seq(|steps|, i requires 0 <= i < |steps| => Unseats(Replay(steps[..i]).books, steps[i], sid, r))
  }

  lemma {:induction false} ActiveIsLatched(steps: seq<Step>, sid: string, r: string)
    ensures Active(Replay(steps).books, sid, r) <==> Latched(Seatings(steps, sid, r), Unseatings(steps, sid, r))
  {
    if steps != [] {
      var n := |steps| - 1;
      ActiveIsLatched(steps[..n], sid, r);
      ActiveStep(Replay(steps[..n]), steps[n], sid, r);
      hide Active, Starts, Unseats, Apply;
      assert forall i :: 0 <= i < n ==> steps[..n][..i] == steps[..i];
      assert Seatings(steps, sid, r)[..n] == Seatings(steps[..n], sid, r);
      assert Unseatings(steps, sid, r)[..n] == Unseatings(steps[..n], sid, r);
    }
  }

  /**
   * Over every run, `r` is the active turn of a session if and only if some `turn/start` made it so and
   * nothing later has: the finish of `r` while it was tracked, the deletion of its session, or another start.
   */
  lemma ActiveExactly(steps: seq<Step>, sid: string, r: string)
    ensures Active(Replay(steps).books, sid, r)
      <==> exists i :: 0 <= i < |steps| && Starts(steps[i], sid, r)
             && forall j :: i < j < |steps| ==> !Unseats(Replay(steps[..j]).books, steps[j], sid, r)
  {
    hide Active, Starts, Unseats, Replay, Latched;
    var on, off := Seatings(steps, sid, r), Unseatings(steps, sid, r);
    ActiveIsLatched(steps, sid, r);
    LatchedExactly(on, off);
    assert forall i :: 0 <= i < |steps| ==> on[i] == Starts(steps[i], sid, r);
    assert forall j :: 0 <= j < |steps| ==> off[j] == Unseats(Replay(steps[..j]).books, steps[j], sid, r);
  }

  /** On the face of the step: a start in the session, its deletion, or a finish of the run. */
  predicate Cuts(s: Step, sid: string, r: string) {
    (s.StartTurn? && s.sid == sid) || s == DeleteSession(sid) || s == HostEvent(RunFinish(r))
  }

  lemma CutIsUnseating(b: Books, s: Step, sid: string, r: string)
    requires Consistent(b) && Active(b, sid, r)
    ensures Cuts(s, sid, r) <==> Unseats(b, s, sid, r)
  {}

  function CutMarks(steps: seq<Step>, sid: string, r: string): seq<bool> {
    seq(|steps|, i requires 0 <= i < |steps| => Cuts(steps[i], sid, r))
  }

  lemma {:induction false} LawfulActiveIsLatched(steps: seq<Step>, sid: string, r: string)
    requires Lawful(steps)
    ensures Active(Replay(steps).books, sid, r) <==> Latched(Seatings(steps, sid, r), CutMarks(steps, sid, r))
  {
    if steps != [] {
      var n := |steps| - 1;
      var v := Replay(steps[..n]);
      LawfulPrefix(steps);
      LawfulActiveIsLatched(steps[..n], sid, r);
      ActiveStep(v, steps[n], sid, r);
      RunsAreConsistent(steps[..n]);
      if Active(v.books, sid, r) { CutIsUnseating(v.books, steps[n], sid, r); }
      hide Active, Starts, Unseats, Apply, Cuts, Consistent, Lawful;
      assert Seatings(steps, sid, r)[..n] == Seatings(steps[..n], sid, r);
      assert CutMarks(steps, sid, r)[..n] == CutMarks(steps[..n], sid, r);
    }
  }

  /** Where run ids are not shared between sessions, the steps alone decide it. */
  lemma LawfulActiveExactly(steps: seq<Step>, sid: string, r: string)
    requires Lawful(steps)
    ensures Active(Replay(steps).books, sid, r)
      <==> exists i :: 0 <= i < |steps| && Starts(steps[i], sid, r)
             && forall j :: i < j < |steps| ==> !Cuts(steps[j], sid, r)
  {
    hide Active, Starts, Cuts, Replay, Latched, Lawful;
    var on, off := Seatings(steps, sid, r), CutMarks(steps, sid, r);
    LawfulActiveIsLatched(steps, sid, r);
    LatchedExactly(on, off);
    assert forall i :: 0 <= i < |steps| ==> on[i] == Starts(steps[i], sid, r);
    assert forall j :: 0 <= j < |steps| ==> off[j] == Cuts(steps[j], sid, r);
  }

  lemma LastStartDecides(steps: seq<Step>, n: nat, sid: string, r: string)
    requires n < |steps| && Starts(steps[n], sid, r) && forall j :: n < j < |steps| ==> !Starts(steps[j], sid, r)
    ensures (exists i :: 0 <= i < |steps| && Starts(steps[i], sid, r)
               && forall j :: i < j < |steps| ==> !Cuts(steps[j], sid, r))
            <==> forall j :: n < j < |steps| ==> !Cuts(steps[j], sid, r)
  {
    hide Cuts, Starts;
  }

  /**
   * A `run-finish` that overtakes the reply of `turn/start` does not end the turn: under a run id that is not
   * started again the turn stays active until another start in the session, its deletion or one more finish.
   */
  lemma FinishBeforeTrackingLeavesTurnActive(steps: seq<Step>, n: nat, sid: string, r: string)
    requires Lawful(steps) && 0 < n < |steps|
    requires steps[n - 1] == HostEvent(RunFinish(r)) && Starts(steps[n], sid, r)
    requires forall j :: n < j < |steps| ==> !Starts(steps[j], sid, r)
    ensures Active(Replay(steps).books, sid, r) <==> forall j :: n < j < |steps| ==> !Cuts(steps[j], sid, r)
  {
    hide *;
    LawfulActiveExactly(steps, sid, r);
    LastStartDecides(steps, n, sid, r);
  }

  // ---- which answers are passed on ----

  predicate Waits(b: Books, id: string, p: Pending) {
    id in b.pending && b.pending[id] == p
  }

  /** The step is a gate event of that id whose run is known, and this is what it leaves waiting. */
  predicate Registers(b: Books, s: Step, id: string, p: Pending) {
    && s.HostEvent? && s.e.Gate? && s.e.id == id && SessionOf(s.e, b.runs) == Some(p.sessionId)
    && p.kind == s.e.gate && p.runId == s.e.runId && p.accountId == AccountOf(b, p.sessionId)
  }

  /** The step takes the waiting action away: an accepted answer, a new registration of the id, or the end of its run. */
  predicate Withdraws(b: Books, s: Step, id: string, p: Pending) {
    || Drops(b, s, p.runId)
    || (s.HostEvent? && s.e.Gate? && s.e.id == id && SessionOf(s.e, b.runs).Some?)
    || (s.Respond? && Accepts(b, s.auth, s.id, s.answer) && s.id.text == id)
  }

  lemma WaitsStep(v: Server, s: Step, id: string, p: Pending)
    ensures Waits(Apply(v, s).books, id, p)
      <==> Registers(v.books, s, id, p) || (!Withdraws(v.books, s, id, p) && Waits(v.books, id, p))
  {}

  function Registrations(steps: seq<Step>, id: string, p: Pending): seq<bool> {
    seq(|steps|, i requires 0 <= i < |steps| => Registers(Replay(steps[..i]).books, steps[i], id, p))
  }

  function Withdrawals(steps: seq<Step>, id: string, p: Pending): seq<bool> {
    seq(|steps|, i requires 0 <= i < |steps| => Withdraws(Replay(steps[..i]).books, steps[i], id, p))
  }

  lemma LastWaitsStep(steps: seq<Step>, id: string, p: Pending)
    requires steps != []
    ensures var n := |steps| - 1; var b := Replay(steps[..n]).books;
      Waits(Replay(steps).books, id, p)
      <==> Registers(b, steps[n], id, p) || (!Withdraws(b, steps[n], id, p) && Waits(b, id, p))
  {
    hide Waits, Registers, Withdraws, Apply;
    WaitsStep(Replay(steps[..|steps| - 1]), steps[|steps| - 1], id, p);
  }

  lemma MarksSplit(steps: seq<Step>, id: string, p: Pending)
    requires steps != []
    ensures var n := |steps| - 1; var b := Replay(steps[..n]).books;
      && Registrations(steps, id, p) == Registrations(steps[..n], id, p) + [Registers(b, steps[n], id, p)]
      && Withdrawals(steps, id, p) == Withdrawals(steps[..n], id, p) + [Withdraws(b, steps[n], id, p)]
  {
    hide Registers, Withdraws, Replay;
    assert forall i :: 0 <= i < |steps| - 1 ==> steps[..|steps| - 1][..i] == steps[..i];
  }

  lemma {:induction false} WaitsIsLatched(steps: seq<Step>, id: string, p: Pending)
    ensures |Registrations(steps, id, p)| == |Withdrawals(steps, id, p)|
    ensures Waits(Replay(steps).books, id, p) <==> Latched(Registrations(steps, id, p), Withdrawals(steps, id, p))
  {
    if steps != [] {
      LastWaitsStep(steps, id, p);
      MarksSplit(steps, id, p);
      hide *;
      var n := |steps| - 1;
      var b := Replay(steps[..n]).books;
      WaitsIsLatched(steps[..n], id, p);
      LatchedGrows(Registrations(steps[..n], id, p), Withdrawals(steps[..n], id, p),
                   Registers(b, steps[n], id, p), Withdraws(b, steps[n], id, p));
    }
  }

  /** The action waits since step `i`. */
  ghost predicate WaitsSince(steps: seq<Step>, i: nat, id: string, p: Pending) {
    && i < |steps| && Registers(Replay(steps[..i]).books, steps[i], id, p)
    && forall j :: i < j < |steps| ==> !Withdraws(Replay(steps[..j]).books, steps[j], id, p)
  }

  lemma WaitsExactly(steps: seq<Step>, id: string, p: Pending)
    ensures Waits(Replay(steps).books, id, p) <==> exists i :: WaitsSince(steps, i, id, p)
  {
    hide Waits, Registers, Withdraws, Replay, Latched;
    var on, off := Registrations(steps, id, p), Withdrawals(steps, id, p);
    WaitsIsLatched(steps, id, p);
    LatchedExactly(on, off);
    forall i: nat ensures WaitsSince(steps, i, id, p) <==> i < |on| && on[i] && forall j :: i < j < |on| ==> !off[j] {
      assert forall j :: 0 <= j < |steps| ==> off[j] == Withdraws(Replay(steps[..j]).books, steps[j], id, p);
    }
    hide WaitsSince, Registrations, Withdrawals;
    if i: int :| 0 <= i < |on| && on[i] && forall j :: i < j < |on| ==> !off[j] {
      assert WaitsSince(steps, i, id, p);
    }
  }

  /**
   * Over every run, an answer is passed on if and only if its payload is valid, a gate event of its kind was
   * registered under its id and nothing has taken that action away since, and the responder is trusted or
   * holds the account the session had at the registration. Any other answer changes nothing.
   */
  lemma AnswerAcceptedExactly(steps: seq<Step>, auth: Auth, id: Field, answer: Answer)
    ensures var v := Replay(steps); var w := Apply(v, Respond(auth, id, answer));
      var ok := WellFormed(id, answer) && exists i, p ::
        WaitsSince(steps, i, id.text, p) && p.kind == KindOf(answer) && (auth.trusted || p.accountId == auth.accountId);
      && (ok ==> w.answers == v.answers + [Passed(id.text, auth, answer)]
                 && w.books == v.books.(pending := v.books.pending - {id.text}))
      && (!ok ==> w == v)
  {
    var v := Replay(steps);
    hide Replay, WaitsSince;
    if id.Text? {
      if id.text in v.books.pending { WaitsExactly(steps, id.text, v.books.pending[id.text]); }
      forall i, p | WaitsSince(steps, i, id.text, p) ensures Waits(v.books, id.text, p) {
        WaitsExactly(steps, id.text, p);
      }
    }
  }

  // ---- answered at most once ----

  function Answered(v: Server, id: string): nat {
    |Answers(v.answers, id)|
  }

  function Answers(answers: seq<Passed>, id: string): seq<Passed> {
    if answers == [] then []
    else
      var n := |answers| - 1;
      Answers(answers[..n], id) + if answers[n].id == id then [answers[n]] else []
  }

  /** How often `id` was registered: a gate event of that id reached the server while its run was known. */
  function Registered(steps: seq<Step>, id: string): nat {
    if steps == [] then 0
    else
      var n := |steps| - 1;
      var e := steps[n];
      Registered(steps[..n], id)
      + if e.HostEvent? && e.e.Gate? && e.e.id == id && SessionOf(e.e, Replay(steps[..n]).books.runs).Some? then 1 else 0
  }

  /** However many connections race, the host gets at most one answer for each registration. */
  lemma {:induction false} AnsweredAtMostOncePerRegistration(steps: seq<Step>, id: string)
    ensures Answered(Replay(steps), id) + (if id in Replay(steps).books.pending then 1 else 0) <= Registered(steps, id)
  {
    if steps != [] {
      var n := |steps| - 1;
      AnsweredAtMostOncePerRegistration(steps[..n], id);
      var v := Replay(steps[..n]);
      var w := Replay(steps);
      if w.answers != v.answers {
        assert w.answers[..|w.answers| - 1] == v.answers;
      }
    }
  }
}
