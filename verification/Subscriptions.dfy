/**
 * Which events a connection gets, read off its history: what it subscribed to, what it unsubscribed
 * from and which sub-agents were announced to it (packages/agent-server/src/server.ts).
 */
module Subscriptions {
  import opened Basics
  import opened ServerModel
  import opened Delivery

  /** The event is an item of the run, or of its end. */
  predicate Carries(e: Event, r: string) {
    || ((e.SubAgent? || e.Gate? || e.RunFinish? || e.OnRun?) && e.runId == r)
    || (e.OnSession? && e.onRun == Some(r))
  }

  /** The notification under which a client can opt out of the event. */
  predicate Notices(e: Event, name: string) {
    || (name == "item/subAgentSpawned" && e.SubAgent? && e.spawn)
    || (name == "item/subAgentStarted" && e.SubAgent? && !e.spawn)
    || (name == "item/approvalRequired" && e.Gate? && e.gate == Approval)
    || (name == "item/questionRequired" && e.Gate? && e.gate == Question)
    || (name == "item/planProposed" && e.Gate? && e.gate == Plan)
    || (name == "turn/completed" && e.RunFinish?)
    || (name == "session/updated" && e.TodoUpdate?)
    || ((e.OnRun? || e.OnSession?) && e.name == name)
  }

  predicate OptsOut(names: set<string>, e: Event) {
    exists name <- names :: Notices(e, name)
  }

  lemma EventsSay(e: Event)
    ensures forall r :: Carries(e, r) <==> RunOf(e) == Some(r)
    ensures forall name :: Notices(e, name) <==> name == NoticeOf(e)
    ensures forall names :: OptsOut(names, e) <==> NoticeOf(e) in names
  {
    assert Notices(e, NoticeOf(e));
  }

  /** The act subscribes the connection to the scope: a request, or a sub-agent announced to it. */
  ghost predicate Grants(v: View, before: seq<Act>, a: Act, s: Scope)
    decreases |before|, 3
  {
    || a == Delivery.Subscribe(s)
    || (EventOf(a).Some? && EventOf(a).value.SubAgent?
        && s == RunScope(EventOf(a).value.runId) && EventOf(a).value.runId != ""
        && exists sid :: SessionOf(EventOf(a).value, Watch(v, before).books.runs) == Some(sid)
             && Gets(v, before, sid, EventOf(a).value))
  }

  /** Act `i` gave the connection the scope, and no later act takes it back. */
  ghost predicate GivenSince(v: View, acts: seq<Act>, i: nat, s: Scope)
    decreases |acts|, 0
  {
    && i < |acts| && Grants(v, acts[..i], acts[i], s)
    && forall j :: i < j < |acts| ==> acts[j] != Delivery.Unsubscribe(s)
  }

  /** The connection came with the scope or was given it, and has not unsubscribed from it since. */
  ghost predicate Held(v: View, acts: seq<Act>, s: Scope)
    decreases |acts|, 1
  {
    || (s in v.conn.subs && Delivery.Unsubscribe(s) !in acts)
    || exists i :: GivenSince(v, acts, i, s)
  }

  /**
   * An event of session `sid` goes to a connection that takes its notice and holds the session, the account,
   * the run of the event, or the run under which it announces a sub-agent.
   */
  ghost predicate Gets(v: View, acts: seq<Act>, sid: string, e: Event)
    decreases |acts|, 2
  {
    && !OptsOut(v.conn.optOut, e)
    && (|| Held(v, acts, SessionScope(sid))
        || Held(v, acts, AccountScope)
        || (exists r :: r != "" && Carries(e, r) && Held(v, acts, RunScope(r)))
        || (e.SubAgent? && e.parentRunId != "" && Held(v, acts, RunScope(e.parentRunId))))
  }

  lemma GivenGrows(v: View, acts: seq<Act>, i: nat, s: Scope)
    requires acts != []
    ensures var n := |acts| - 1;
      GivenSince(v, acts, i, s)
      <==> (i == n && Grants(v, acts[..n], acts[n], s))
           || (i < n && GivenSince(v, acts[..n], i, s) && acts[n] != Delivery.Unsubscribe(s))
  {
    hide Grants;
    var n := |acts| - 1;
    if i < n {
      assert acts[..n][..i] == acts[..i] && acts[..n][i] == acts[i];
      assert forall j :: i < j < n ==> acts[..n][j] == acts[j];
    }
  }

  lemma HeldGrows(v: View, acts: seq<Act>, s: Scope)
    requires acts != []
    ensures var n := |acts| - 1;
      Held(v, acts, s) <==>
        Grants(v, acts[..n], acts[n], s) || (acts[n] != Delivery.Unsubscribe(s) && Held(v, acts[..n], s))
  {
    hide Grants, GivenSince;
    var n := |acts| - 1;
    assert acts == acts[..n] + [acts[n]];
    forall i: nat ensures GivenSince(v, acts, i, s)
      <==> (i == n && Grants(v, acts[..n], acts[n], s))
           || (i < n && GivenSince(v, acts[..n], i, s) && acts[n] != Delivery.Unsubscribe(s))
    {
      GivenGrows(v, acts, i, s);
    }
    if Grants(v, acts[..n], acts[n], s) { assert GivenSince(v, acts, n, s); }
    if i: nat :| GivenSince(v, acts[..n], i, s) { GivenInside(v, acts[..n], i, s); }
  }

  lemma GivenInside(v: View, acts: seq<Act>, i: nat, s: Scope)
    requires GivenSince(v, acts, i, s)
    ensures i < |acts|
  {}

  lemma {:induction false} SubscriptionsExactly(v: View, acts: seq<Act>, s: Scope)
    ensures s in Watch(v, acts).conn.subs <==> Held(v, acts, s)
    ensures Watch(v, acts).conn.optOut == v.conn.optOut
    decreases |acts|, 0
  {
    if acts != [] {
      var n := |acts| - 1;
      var before, a := Watch(v, acts[..n]), acts[n];
      HeldGrows(v, acts, s);
      SubscriptionsExactly(v, acts[..n], s);
      hide Held, Watch;
      if EventOf(a).Some? {
        var e := EventOf(a).value;
        if SessionOf(e, before.books.runs).Some? {
          ReceivesExactly(v, acts[..n], SessionOf(e, before.books.runs).value, e);
        }
      }
    }
  }

  /** Over every sequence of requests, events and subscription changes. */
  lemma {:induction false} ReceivesExactly(v: View, acts: seq<Act>, sid: string, e: Event)
    ensures Receives(Watch(v, acts).conn, sid, e) <==> Gets(v, acts, sid, e)
    decreases |acts|, 1
  {
    SubscriptionsExactly(v, acts, SessionScope(sid));
    SubscriptionsExactly(v, acts, AccountScope);
    if RunOf(e).Some? { SubscriptionsExactly(v, acts, RunScope(RunOf(e).value)); }
    if e.SubAgent? { SubscriptionsExactly(v, acts, RunScope(e.parentRunId)); }
    EventsSay(e);
    hide Held, Watch, Carries, Notices, OptsOut, NoticeOf, RunOf;
  }

  // ---- subscribers of a session or of the account ----

  /** The event is one of the session: it carries its id, or its run is mapped to it. */
  predicate InSession(b: Books, e: Event, sid: string) {
    && sid != ""
    && match e
       case OnSession(_, s, _) => s == Some(sid)
       case TodoUpdate(s) => s == sid
       case SubAgent(_, r, p) =>
         if r in b.runs && b.runs[r] != "" then b.runs[r] == sid else p in b.runs && b.runs[p] == sid
       case Gate(_, r, _) => r in b.runs && b.runs[r] == sid
       case RunFinish(r) => r in b.runs && b.runs[r] == sid
       case OnRun(_, r) => r in b.runs && b.runs[r] == sid
  }

  lemma SessionOfExactly(b: Books, e: Event, sid: string)
    ensures SessionOf(e, b.runs) == Some(sid) <==> InSession(b, e, sid)
  {}

  /** The act put the scope there, and no later act takes it back. */
  ghost predicate SubscribedSince(acts: seq<Act>, i: nat, s: Scope) {
    && i < |acts| && acts[i] == Delivery.Subscribe(s)
    && forall j :: i < j < |acts| ==> acts[j] != Delivery.Unsubscribe(s)
  }

  /** A subscriber of a session gets every event of it, and one of the account every event of any session. */
  lemma SubscribersHearEverything(v: View, acts: seq<Act>, i: nat, s: Scope, e: Event, sid: string)
    requires SubscribedSince(acts, i, s) && (s == SessionScope(sid) || s == AccountScope)
    requires InSession(Watch(v, acts).books, e, sid) && !OptsOut(v.conn.optOut, e)
    ensures var w := Watch(v, acts); SessionOf(e, w.books.runs) == Some(sid) && Receives(w.conn, sid, e)
  {
    SessionOfExactly(Watch(v, acts).books, e, sid);
    assert Grants(v, acts[..i], acts[i], s);
    assert GivenSince(v, acts, i, s);
    hide Grants, InSession, Watch, GivenSince;
    ReceivesExactly(v, acts, sid, e);
  }
}
