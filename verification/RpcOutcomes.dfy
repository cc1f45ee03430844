/** With what a request ends, and what is emitted, read off the calls and turns alone (client.ts, server.ts). */
module RpcOutcomes {
  import opened Basics
  import opened Rpc

  // ---- the client ----

  predicate Ended(calls: seq<Call>) {
    exists i :: 0 <= i < |calls| && calls[i].Ends?
  }

  /** How many ids have been issued; they count from one, and a closed client issues none. */
  function Issued(calls: seq<Call>): nat {
    if calls == [] then 0
    else
      var n := |calls| - 1;
      Issued(calls[..n]) + if calls[n].Asks? && !Ended(calls[..n]) then 1 else 0
  }

  /** What a call settles an id with that is still open: its reply, a failed send or the end. */
  function Settles(call: Call, id: nat): Option<Outcome> {
    match call
    case Hears(Reply(to, o)) => if to == Num(id) then Some(o) else None
    case SendRejected(sent) => if sent == id then Some(Unsent) else None
    case Ends => Some(CutOff)
    case _ => None
  }

  /** What the first call that settles an issued id settles it with. */
  function Fate(calls: seq<Call>, id: nat): Option<Outcome> {
    if calls == [] then None
    else
      var n := |calls| - 1;
      var was := Fate(calls[..n], id);
      if was.Some? || id == 0 || id > Issued(calls[..n]) then was
      else Settles(calls[n], id)
  }

  /** The notifications, and an error for each unusable text, in order. */
  function Emitted(calls: seq<Call>): seq<string> {
    if calls == [] then []
    else
      var n := |calls| - 1;
      Emitted(calls[..n]) +
      match calls[n]
      case Hears(Garbage) => ["client/error"]
      case Hears(Note(name)) => [name]
      case _ => []
  }

  lemma SettleIs(c: Client, id: nat, o: Outcome, k: nat)
    requires Accounted(c)
    ensures var d := Settle(c, id, o);
      && d.nextId == c.nextId && d.closed == c.closed && d.notes == c.notes
      && (k in d.pending <==> k in c.pending && k != id)
      && forall q :: Settlement(k, q) in d.settled <==>
           Settlement(k, q) in c.settled || (k == id && q == o && id in c.pending)
  {
    var i := IndexOf(c.pending, id);
    if i < |c.pending| {
      assert Entries(c, id) <= 1;
      var w := Without(c.pending, i);
      forall j | 0 <= j < |c.pending| && j != i ensures c.pending[j] != id {
        if c.pending[j] == id {
          if i < j { CountHasBoth(Itself, c.pending, i, j, id); } else { CountHasBoth(Itself, c.pending, j, i, id); }
        }
      }
      if k in c.pending && k != id {
        var j :| 0 <= j < |c.pending| && c.pending[j] == k;
        assert w[if j < i then j else j - 1] == k;
      }
      assert forall j :: 0 <= j < |w| ==> w[j] == c.pending[if j < i then j else j + 1];
    }
    hide Entries, Balanced, Count;
  }

  lemma {:induction false} RejectAllIs(c: Client, k: nat)
    ensures var d := RejectAll(c);
      && d.pending == [] && d.nextId == c.nextId && d.closed == c.closed && d.notes == c.notes
      && forall q :: Settlement(k, q) in d.settled <==> Settlement(k, q) in c.settled || (k in c.pending && q == CutOff)
    decreases |c.pending|
  {
    if c.pending != [] {
      var d := c.(pending := c.pending[1..], settled := c.settled + [Settlement(c.pending[0], CutOff)]);
      RejectAllIs(d, k);
      assert c.pending == [c.pending[0]] + d.pending;
    }
  }

  ghost predicate Follows(c: Client, calls: seq<Call>, id: nat) {
    && (c.closed <==> Ended(calls))
    && c.nextId == Issued(calls) + 1
    && c.notes == Emitted(calls)
    && (id in c.pending <==> 1 <= id <= Issued(calls) && Fate(calls, id).None?)
    && forall o :: Settlement(id, o) in c.settled <==> Fate(calls, id) == Some(o)
  }

  lemma EndedGrows(calls: seq<Call>)
    requires calls != []
    ensures var n := |calls| - 1; Ended(calls) <==> Ended(calls[..n]) || calls[n].Ends?
  {
    var n := |calls| - 1;
    assert forall i :: 0 <= i < n ==> calls[..n][i] == calls[i];
  }

  /** One call, for one id. */
  ghost predicate Moves(c: Client, call: Call, id: nat) {
    var d := Do(c, call);
    && (d.closed <==> c.closed || call.Ends?)
    && d.nextId == c.nextId + (if call.Asks? && !c.closed then 1 else 0)
    && d.notes == c.notes + (if call.Hears? && call.f.Garbage? then ["client/error"]
                             else if call.Hears? && call.f.Note? then [call.f.name] else [])
    && (id in d.pending <==>
          (id in c.pending && Settles(call, id).None?) || (call.Asks? && !c.closed && id == c.nextId))
    && forall o :: Settlement(id, o) in d.settled <==>
         Settlement(id, o) in c.settled || (id in c.pending && Settles(call, id) == Some(o))
  }

  lemma SettlingMoves(c: Client, call: Call, to: nat, o: Outcome, id: nat)
    requires Accounted(c) && (call == Hears(Reply(Num(to), o)) || (call == SendRejected(to) && o == Unsent))
    ensures Moves(c, call, id)
  {
    hide Accounted, Settle, RejectAll;
    SettleIs(c, to, o, id);
    assert c.notes + [] == c.notes;
    assert Do(c, call) == Settle(c, to, o);
    assert Settles(call, id) == if to == id then Some(o) else None;
  }

  lemma EndingMoves(c: Client, id: nat)
    requires Accounted(c)
    ensures Moves(c, Ends, id)
  {
    hide Balanced, RejectAll;
    assert c.notes + [] == c.notes;
    if !c.closed { RejectAllIs(c.(closed := true), id); }
  }

  lemma QuietMoves(c: Client, call: Call, id: nat)
    requires call.Asks? || (call.Hears? && !(call.f.Reply? && call.f.id.Num?))
    ensures Moves(c, call, id)
  {
    hide Settle, RejectAll;
    assert c.notes + [] == c.notes;
    var p := c.pending + [c.nextId];
    assert id in p <==> id in c.pending || id == c.nextId;
  }

  lemma CallMoves(c: Client, call: Call, id: nat)
    requires Accounted(c)
    ensures Moves(c, call, id)
  {
    hide Accounted, Moves;
    match call
    case Hears(Reply(Num(to), o)) => SettlingMoves(c, call, to, o, id);
    case SendRejected(to) => SettlingMoves(c, call, to, Unsent, id);
    case Ends => EndingMoves(c, id);
    case _ => QuietMoves(c, call, id);
  }

  lemma CallsGrow(calls: seq<Call>, id: nat)
    requires calls != []
    ensures var n := |calls| - 1; var front := calls[..n];
      && Issued(calls) == Issued(front) + (if calls[n].Asks? && !Ended(front) then 1 else 0)
      && Fate(calls, id) == (if Fate(front, id).Some? || id == 0 || id > Issued(front) then Fate(front, id)
                             else Settles(calls[n], id))
      && Emitted(calls) == Emitted(front) + (if calls[n].Hears? && calls[n].f.Garbage? then ["client/error"]
                             else if calls[n].Hears? && calls[n].f.Note? then [calls[n].f.name] else [])
  {
    hide Ended;
  }

  /**
   * Over every sequence of calls: an id is pending if and only if it has been issued and nothing has settled it,
   * it settles with what the first call about it says, and the notifications are emitted in order.
   */
  lemma {:induction false} FatesExactly(calls: seq<Call>, id: nat)
    ensures Follows(DoAll(calls), calls, id)
    ensures Fate(calls, id).Some? ==> 1 <= id <= Issued(calls)
  {
    if calls != [] {
      var n := |calls| - 1;
      var c, call := DoAll(calls[..n]), calls[n];
      FatesExactly(calls[..n], id);
      EveryRequestSettlesAtMostOnce(calls[..n]);
      EndedGrows(calls);
      CallsGrow(calls, id);
      CallMoves(c, call, id);
      hide Ended, Accounted, Do, Settles, Issued, Fate, Emitted;
    }
  }

  // ---- the server ----

  /** The answer that is given without work, by whether the connection has been opened before. */
  predicate AtOnce(raw: Raw, open: bool, o: Outcome) {
    match raw
    case Broken => o == Failure(-32700)
    case NoRequest => o == Failure(-32600)
    case OddId => o == Failure(-32600)
    case Request(_, name, params) =>
      if open || name != "initialize" then o == Failure(-32000)
      else if !params.clientOk then o == Failure(-32602)
      else if !params.optOutOk then o == Failure(-32603)
      else o.Result?
  }

  /** The `t`-th turn ends the work on the `k`-th arrival with this outcome. */
  ghost predicate EndsJob(turns: seq<Turn>, t: nat, k: nat, o: Outcome) {
    t < |turns| &&
    var s := ServeAll(turns[..t]);
    turns[t].Finishes? && turns[t].o == o && turns[t].i < |s.jobs| && s.jobs[turns[t].i].k == k
  }

  ghost predicate JobEnded(turns: seq<Turn>, k: nat, o: Outcome) {
    exists t :: EndsJob(turns, t, k, o)
  }

  lemma JobEndedGrows(turns: seq<Turn>, k: nat, o: Outcome)
    requires turns != []
    ensures var n := |turns| - 1; JobEnded(turns, k, o) <==> JobEnded(turns[..n], k, o) || EndsJob(turns, n, k, o)
  {
    var n := |turns| - 1;
    hide ServeAll;
    forall t: nat | t < n ensures EndsJob(turns[..n], t, k, o) <==> EndsJob(turns, t, k, o) {
      assert turns[..n][..t] == turns[..t];
    }
  }

  /** With what the `k`-th arrival is answered. */
  ghost predicate AnsweredWith(turns: seq<Turn>, arrived: seq<Raw>, k: nat, o: Outcome) {
    && k < |arrived|
    && if IsWork(arrived[k]) && OpenedBefore(arrived, k) then JobEnded(turns, k, o)
       else AtOnce(arrived[k], OpenedBefore(arrived, k), o)
  }

  lemma ArrivedGrows(turns: seq<Turn>)
    requires turns != []
    ensures var n := |turns| - 1;
      ServeAll(turns).arrived == ServeAll(turns[..n]).arrived + if turns[n].Receives? then [turns[n].raw] else []
  {
    hide Judge;
  }

  lemma WithGrows(turns: seq<Turn>, arrived: seq<Raw>, more: seq<Raw>, k: nat, o: Outcome)
    requires turns != [] && |more| <= 1 && AnsweredWith(turns[..|turns| - 1], arrived, k, o)
    ensures AnsweredWith(turns, arrived + more, k, o)
  {
    JobEndedGrows(turns, k, o);
    if more != [] { OpenedStays(arrived, more[0], k); }
    hide JobEnded, EndsJob, AtOnce, OpenedBefore;
    if more == [] { assert arrived + more == arrived; } else { assert arrived + more == arrived + [more[0]]; }
  }

  lemma ReceiveAnswers(s: Server, raw: Raw)
    ensures var t := Receive(s, raw);
      if IsWork(raw) && s.initialized then t.answers == s.answers
      else
        && |t.answers| == |s.answers| + 1 && t.answers[..|s.answers|] == s.answers
        && t.answers[|s.answers|].k == |s.arrived| && t.answers[|s.answers|].frame.Reply?
        && AtOnce(raw, s.initialized, t.answers[|s.answers|].frame.outcome)
  {}

  lemma OneMore(was: seq<Answer>, now: seq<Answer>, a: Answer)
    requires a in now && a !in was && |was| <= |now| <= |was| + 1 && now[..|was|] == was
    ensures |now| == |was| + 1 && a == now[|was|]
  {
    forall j | 0 <= j < |was| ensures now[j] != a {
      assert now[j] == was[j] && was[j] in was;
    }
  }

  lemma ArrivalAnswered(turns: seq<Turn>, a: Answer)
    requires turns != [] && turns[|turns| - 1].Receives? && Gated(ServeAll(turns[..|turns| - 1]))
    requires a in ServeAll(turns).answers && a !in ServeAll(turns[..|turns| - 1]).answers
    ensures a.frame.Reply? && AnsweredWith(turns, ServeAll(turns).arrived, a.k, a.frame.outcome)
  {
    var n := |turns| - 1;
    var s, u, raw := ServeAll(turns[..n]), ServeAll(turns), turns[n].raw;
    assert u == Receive(s, raw);
    hide ServeAll, Receive, OpenedBefore, AtOnce, JobEnded, ReplyId;
    ReceiveAnswers(s, raw);
    ArrivedGrows(turns);
    OpenedStays(s.arrived, raw, |s.arrived|);
    assert a == u.answers[|s.answers|] by { OneMore(s.answers, u.answers, a); }
    assert (s.initialized <==> OpenedBefore(s.arrived, |s.arrived|));
  }

  lemma JobAnswered(turns: seq<Turn>, a: Answer)
    requires turns != [] && turns[|turns| - 1].Finishes? && Gated(ServeAll(turns[..|turns| - 1]))
    requires a in ServeAll(turns).answers && a !in ServeAll(turns[..|turns| - 1]).answers
    ensures a.frame.Reply? && AnsweredWith(turns, ServeAll(turns).arrived, a.k, a.frame.outcome)
  {
    var n := |turns| - 1;
    var s, u, i, o := ServeAll(turns[..n]), ServeAll(turns), turns[n].i, turns[n].o;
    assert u == Finish(s, i, o);
    hide ServeAll, OpenedBefore, AtOnce;
    assert s.jobs[i] in s.jobs;
    assert EndsJob(turns, n, a.k, o);
  }

  /** Every answer is the one its arrival calls for: the code of its fault, or what its work came to. */
  lemma {:induction false} AnswersExactly(turns: seq<Turn>)
    ensures var s := ServeAll(turns);
      forall a <- s.answers :: a.frame.Reply? && AnsweredWith(turns, s.arrived, a.k, a.frame.outcome)
  {
    if turns != [] {
      var n := |turns| - 1;
      var s, u := ServeAll(turns[..n]), ServeAll(turns);
      AnswersExactly(turns[..n]);
      WorkStartsExactlyAfterOpening(turns[..n]);
      ArrivedGrows(turns);
      hide ServeAll, AnsweredWith, Gated;
      var more := if turns[n].Receives? then [turns[n].raw] else [];
      forall a | a in u.answers ensures a.frame.Reply? && AnsweredWith(turns, u.arrived, a.k, a.frame.outcome) {
        if a in s.answers {
          WithGrows(turns, s.arrived, more, a.k, a.frame.outcome);
        } else if turns[n].Receives? {
          ArrivalAnswered(turns, a);
        } else {
          JobAnswered(turns, a);
        }
      }
    }
  }
}
