/** What the app server's books hold, read off the steps alone (packages/agent-server/src/server.ts). */
module ServerHistory {
  import opened Basics
  import opened ServerModel

  /** The session a run is mapped to. */
  function RunBy(steps: seq<Step>, r: string): Option<string> {
    if steps == [] then None
    else
      var n := |steps| - 1;
      var was := RunBy(steps[..n], r);
      match steps[n]
      case StartTurn(_, sid, q) => if q == r then Some(sid) else was
      case HostEvent(SubAgent(_, q, p)) =>
        if q == r && !Truthy(was) && Truthy(RunBy(steps[..n], p)) then RunBy(steps[..n], p) else was
      case HostEvent(RunFinish(q)) => if q == r && Truthy(was) then None else was
      case DeleteSession(sid) => if was == Some(sid) then None else was
      case _ => was
  }

  /** The account of a session: of its last creation, else of the first turn in it, since it was last deleted. */
  function AccountBy(steps: seq<Step>, sid: string): Option<Option<string>> {
    if steps == [] then None
    else
      var n := |steps| - 1;
      var was := AccountBy(steps[..n], sid);
      match steps[n]
      case CreateSession(auth, s, namespace) =>
        if s != sid then was else Some(if auth.accountId.Some? then auth.accountId else namespace)
      case StartTurn(auth, s, _) => if s == sid && was.None? then Some(auth.accountId) else was
      case DeleteSession(s) => if s == sid then None else was
      case _ => was
  }

  /** A session that has a run has an account. */
  ghost predicate Named(b: Books) {
    forall r <- b.runs :: b.runs[r] in b.accounts
  }

  predicate RunIs(b: Books, r: string, sid: Option<string>) {
    if sid.Some? then r in b.runs && b.runs[r] == sid.value else r !in b.runs
  }

  predicate AccountIs(b: Books, sid: string, account: Option<Option<string>>) {
    if account.Some? then sid in b.accounts && b.accounts[sid] == account.value else sid !in b.accounts
  }

  lemma StepNames(v: Server, s: Step)
    requires Named(v.books)
    ensures Named(Apply(v, s).books)
  {}

  lemma {:induction false} SessionsAreNamed(steps: seq<Step>)
    ensures Named(Replay(steps).books)
  {
    if steps != [] {
      SessionsAreNamed(steps[..|steps| - 1]);
      StepNames(Replay(steps[..|steps| - 1]), steps[|steps| - 1]);
      hide Named, Apply;
    }
  }

  /** For every run of the server: which session a run id stands for. */
  lemma {:induction false} RunsExactly(steps: seq<Step>, r: string)
    ensures RunIs(Replay(steps).books, r, RunBy(steps, r))
  {
    if steps != [] {
      var n := |steps| - 1;
      RunsExactly(steps[..n], r);
      if steps[n].HostEvent? && steps[n].e.SubAgent? { RunsExactly(steps[..n], steps[n].e.parentRunId); }
    }
  }

  lemma {:induction false} AccountsExactly(steps: seq<Step>, sid: string)
    ensures AccountIs(Replay(steps).books, sid, AccountBy(steps, sid))
  {
    if steps != [] {
      var n := |steps| - 1;
      AccountsExactly(steps[..n], sid);
      SessionsAreNamed(steps[..n]);
    }
  }

  /**
   * What waits for an answer waits in the session its run stood for when the gate was reached, and for the account
   * that session had then.
   */
  lemma WaitsForTheAccount(steps: seq<Step>, i: nat, id: string, p: Pending)
    requires WaitsSince(steps, i, id, p)
    ensures i < |steps| && RunBy(steps[..i], p.runId) == Some(p.sessionId)
    ensures var account := AccountBy(steps[..i], p.sessionId); account.Some? && p.accountId == account.value
  {
    hide Replay, Withdraws;
    RunsExactly(steps[..i], p.runId);
    AccountsExactly(steps[..i], p.sessionId);
    SessionsAreNamed(steps[..i]);
  }

  // ---- the payloads of answers ----

  /** The response names an action and is one of the answers to its kind. */
  predicate Payload(id: Field, a: Answer) {
    && id.Text? && id.text != ""
    && match a
       case ApprovalAnswer(d) => d == Text("once") || d == Text("session") || d == Text("reject")
       case QuestionAnswer(answers) => answers == Null || answers == List
       case PlanAnswer(d, mode) =>
         && (d == Text("approve") || d == Text("edit") || d == Text("keep") || d == Text("reject"))
         && (|| mode == Absent || mode == Text("ask") || mode == Text("plan") || mode == Text("auto")
             || mode == Text("full"))
  }

  /** The kind of gate an answer is for. */
  predicate IsFor(a: Answer, kind: GateKind) {
    || (a.ApprovalAnswer? && kind == Approval)
    || (a.QuestionAnswer? && kind == Question)
    || (a.PlanAnswer? && kind == Plan)
  }

  /** The responder is trusted, or the account that the session had when its gate was reached. */
  ghost predicate MayAnswer(steps: seq<Step>, auth: Auth, i: nat, id: string, a: Answer, p: Pending) {
    && WaitsSince(steps, i, id, p) && IsFor(a, p.kind) && i < |steps|
    && (auth.trusted || AccountBy(steps[..i], p.sessionId) == Some(auth.accountId))
  }

  lemma PayloadIsWellFormed(id: Field, a: Answer)
    ensures Payload(id, a) <==> WellFormed(id, a)
    ensures forall kind :: IsFor(a, kind) <==> kind == KindOf(a)
  {}

  /** Over every run, exactly these answers are passed on, and any other changes nothing. */
  lemma AnswersByPayload(steps: seq<Step>, auth: Auth, id: Field, a: Answer)
    ensures var v := Replay(steps); var w := Apply(v, Respond(auth, id, a));
      if Payload(id, a) && exists i, p :: MayAnswer(steps, auth, i, id.text, a, p)
      then
        && w.answers == v.answers + [Passed(id.text, auth, a)]
        && w.books == v.books.(pending := v.books.pending - {id.text})
      else w == v
  {
    hide Replay, Apply, WaitsSince, Payload, WellFormed, IsFor, AccountBy;
    PayloadIsWellFormed(id, a);
    AnswerAcceptedExactly(steps, auth, id, a);
    if Payload(id, a) {
      assert id.Text? by { NamesAnAction(id, a); }
      forall i: nat, p | WaitsSince(steps, i, id.text, p)
        ensures i < |steps| && Some(p.accountId) == AccountBy(steps[..i], p.sessionId)
        ensures MayAnswer(steps, auth, i, id.text, a, p) <==>
          p.kind == KindOf(a) && (auth.trusted || p.accountId == auth.accountId)
      {
        WaitsForTheAccount(steps, i, id.text, p);
      }
      if i: nat, p :| MayAnswer(steps, auth, i, id.text, a, p) {
        assert WaitsSince(steps, i, id.text, p) && p.kind == KindOf(a)
               && (auth.trusted || p.accountId == auth.accountId);
      }
      if i: nat, p :| WaitsSince(steps, i, id.text, p) && p.kind == KindOf(a)
                      && (auth.trusted || p.accountId == auth.accountId) {
        assert MayAnswer(steps, auth, i, id.text, a, p);
      }
    }
  }

  lemma NamesAnAction(id: Field, a: Answer)
    requires Payload(id, a)
    ensures id.Text?
  {}
}
