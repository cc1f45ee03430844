/** The app server and its connections as the objects they are (packages/agent-server/src/server.ts). */
module AppServer {
  import opened Basics
  import opened ServerModel
  import Delivery
  import Outbox

  class Connection {
    const auth: Auth
    const cap: nat
    var optOut: set<string>
    var subs: set<Delivery.Scope>
    var queue: seq<Outbox.Message>
    var flushing: bool
    var inFlight: Option<Outbox.Message>
    var closed: bool
    /** How often the transport has been told to close. */
    var hangUps: nat

    constructor (auth: Auth, optOut: set<string>, cap: nat)
      ensures Standing() == Delivery.Conn(auth, optOut, {}) && Box() == Outbox.EmptyBox && this.cap == cap
      ensures hangUps == 0
    {
      this.auth, this.optOut, this.cap := auth, optOut, cap;
      subs, queue, flushing, inFlight, closed, hangUps := {}, [], false, None, false, 0;
    }

    function Standing(): Delivery.Conn
      reads this
    {
      Delivery.Conn(auth, optOut, subs)
    }

    function Box(): Outbox.Box
      reads this
    {
      Outbox.Box(queue, flushing, inFlight, closed)
    }

    method Subscribe(s: Delivery.Scope)
      modifies this`subs
      ensures subs == old(subs) + {s}
    {
      subs := subs + {s};
    }

    method Unsubscribe(s: Delivery.Scope)
      modifies this`subs
      ensures subs == old(subs) - {s}
    {
      subs := subs - {s};
    }

    /** The transport is closed exactly when the connection closes. */
    twostate predicate HangsUpOnce()
      reads this
    {
      hangUps == old(hangUps) + if closed && !old(closed) then 1 else 0
    }

    /** `close`, but for the unregistering, which is the server's */
    method Close()
      modifies this`closed, this`queue, this`hangUps
      ensures Box() == Outbox.Closed(old(Box())) && HangsUpOnce()
    {
      if closed { return; }
      closed := true;
      queue := [];
      hangUps := hangUps + 1;
    }

    /** The head of the flush loop, up to the point where it waits for a send. */
    method TakeNext()
      modifies this`queue, this`inFlight, this`flushing
      ensures Box() == Outbox.TakeNext(old(Box()))
    {
      if |queue| > 0 && !closed {
        inFlight := Some(queue[0]);
        queue := queue[1..];
      } else {
        inFlight := None;
        flushing := false;
      }
    }

    method Flush()
      modifies this`queue, this`inFlight, this`flushing
      ensures Box() == Outbox.Flush(old(Box()))
    {
      if flushing || closed { return; }
      flushing := true;
      TakeNext();
    }

    method Enqueue(m: Outbox.Message)
      modifies this`queue, this`inFlight, this`flushing, this`closed, this`hangUps
      ensures Box() == Outbox.Apply(old(Box()), cap, Outbox.Enqueue(m)) && HangsUpOnce()
    {
      if closed { return; }
      if |queue| >= cap {
        if Outbox.Droppable(m) { return; }
        Close();
        return;
      }
      queue := queue + [m];
      Flush();
    }

    /** The pending send has completed. */
    method SendDone()
      requires inFlight.Some?
      modifies this`queue, this`inFlight, this`flushing
      ensures Box() == Outbox.Apply(old(Box()), cap, Outbox.SendDone)
    {
      TakeNext();
    }

    /** The pending send has failed. */
    method SendFailed()
      requires inFlight.Some?
      modifies this`queue, this`inFlight, this`flushing, this`closed, this`hangUps
      ensures Box() == Outbox.Apply(old(Box()), cap, Outbox.SendFailed) && HangsUpOnce()
    {
      Close();
      inFlight := None;
      flushing := false;
    }

    method Deliver(sid: string, e: Event, m: Outbox.Message)
      modifies this`subs, this`queue, this`inFlight, this`flushing, this`closed, this`hangUps
      ensures Standing() == Delivery.Deliver(old(Standing()), sid, e)
      ensures Box() == if Delivery.Receives(old(Standing()), sid, e)
                       then Outbox.Apply(old(Box()), cap, Outbox.Enqueue(m)) else old(Box())
      ensures HangsUpOnce()
    {
      if Delivery.NoticeOf(e) in optOut { return; }
      var run := Delivery.RunOf(e);
      var subscribed :=
        || Delivery.SessionScope(sid) in subs
        || (Truthy(run) && Delivery.RunScope(run.value) in subs)
        || (e.SubAgent? && e.parentRunId != "" && Delivery.RunScope(e.parentRunId) in subs)
        || Delivery.AccountScope in subs;
      if !subscribed { return; }
      if e.SubAgent? && e.runId != "" { subs := subs + {Delivery.RunScope(e.runId)}; }
      Enqueue(m);
    }
  }

  /** The books without a set of runs. */
  ghost function Cleared(b: Books, gone: set<string>): Books {
    Books(b.runs - gone,
          map s | s in b.turns && b.turns[s] !in gone :: b.turns[s],
          b.accounts,
          map id | id in b.pending && b.pending[id].runId !in gone :: b.pending[id])
  }

  lemma NothingCleared(b: Books)
    ensures Cleared(b, {}) == b
  {
    assert Cleared(b, {}).turns == b.turns && Cleared(b, {}).pending == b.pending;
  }

  lemma ClearedOneMore(b: Books, gone: set<string>, r: string, accounts: map<string, Option<string>>)
    ensures ServerModel.ClearRun(Cleared(b, gone).(accounts := accounts), r)
         == Cleared(b, gone + {r}).(accounts := accounts)
    ensures Cleared(b, gone + {r}).runs == Cleared(b, gone).runs - {r}
  {
    var c, d := Cleared(b, gone), Cleared(b, gone + {r});
    assert c.runs - {r} == d.runs;
    assert (map s | s in c.turns && c.turns[s] != r :: c.turns[s]) == d.turns;
    assert (map id | id in c.pending && c.pending[id].runId != r :: c.pending[id]) == d.pending;
  }

  class Server {
    var runToSession: map<string, string>
    var activeTurns: map<string, string>
    var sessionToAccount: map<string, Option<string>>
    var pending: map<string, Pending>
    var connections: set<Connection>

    constructor ()
      ensures Value() == NoBooks && connections == {}
    {
      runToSession, activeTurns, sessionToAccount, pending := map[], map[], map[], map[];
      connections := {};
    }

    function Value(): Books
      reads this
    {
      Books(runToSession, activeTurns, sessionToAccount, pending)
    }

    /** Closed connections have unregistered. */
    predicate AllOpen()
      reads this, connections
    {
      forall c <- connections :: !c.closed
    }

    method Register(c: Connection)
      requires AllOpen() && !c.closed
      modifies this`connections
      ensures connections == old(connections) + {c} && AllOpen()
    {
      connections := connections + {c};
    }

    /** What a connection does on closing. */
    method Unregister(c: Connection)
      modifies this`connections
      ensures connections == old(connections) - {c}
    {
      connections := connections - {c};
    }

    /** `close` of a connection, as a whole */
    method Disconnect(c: Connection)
      requires AllOpen()
      modifies this`connections, c
      ensures c.Box() == Outbox.Closed(old(c.Box())) && c.Standing() == old(c.Standing()) && c.HangsUpOnce()
      ensures connections == old(connections) - {c} && AllOpen()
    {
      c.Close();
      Unregister(c);
    }

    /** Queue a reply for a connection; one whose queue is full closes. */
    method Emit(c: Connection, m: Outbox.Message)
      requires AllOpen()
      modifies this`connections, c
      ensures c.Box() == Outbox.Apply(old(c.Box()), c.cap, Outbox.Enqueue(m)) && c.Standing() == old(c.Standing())
      ensures c.HangsUpOnce()
      ensures connections == (if c.closed then old(connections) - {c} else old(connections)) && AllOpen()
    {
      c.Enqueue(m);
      if c.closed { Unregister(c); }
    }

    /** A send of a connection has failed. */
    method LoseTransport(c: Connection)
      requires AllOpen() && c.inFlight.Some?
      modifies this`connections, c
      ensures c.Box() == Outbox.Apply(old(c.Box()), c.cap, Outbox.SendFailed) && c.Standing() == old(c.Standing())
      ensures c.HangsUpOnce()
      ensures connections == old(connections) - {c} && AllOpen()
    {
      c.SendFailed();
      Unregister(c);
    }

    method TrackRun(runId: string, sid: string, account: Option<string>)
      modifies this`runToSession, this`sessionToAccount
      ensures Value() == ServerModel.TrackRun(old(Value()), runId, sid, account)
    {
      runToSession := runToSession[runId := sid];
      if sid !in sessionToAccount { sessionToAccount := sessionToAccount[sid := account]; }
    }

    /** `clearRun`: drop the run, then look through the turns and the pending actions. */
    method ClearRun(runId: string)
      modifies this`runToSession, this`activeTurns, this`pending
      ensures Value() == ServerModel.ClearRun(old(Value()), runId)
    {
      runToSession := runToSession - {runId};
      ClearTurns(runId);
      ClearPending(runId);
    }

    method ClearTurns(runId: string)
      modifies this`activeTurns
      ensures activeTurns == map s | s in old(activeTurns) && old(activeTurns)[s] != runId :: old(activeTurns)[s]
    {
      var todo := activeTurns.Keys;
      while todo != {}
        invariant todo <= activeTurns.Keys <= old(activeTurns).Keys
        invariant forall s <- activeTurns :: activeTurns[s] == old(activeTurns)[s]
        invariant forall s <- old(activeTurns) :: s in todo || (s in activeTurns <==> old(activeTurns)[s] != runId)
        decreases todo
      {
        var s :| s in todo;
        if activeTurns[s] == runId { activeTurns := activeTurns - {s}; }
        todo := todo - {s};
      }
    }

    method ClearPending(runId: string)
      modifies this`pending
      ensures pending == map id | id in old(pending) && old(pending)[id].runId != runId :: old(pending)[id]
    {
      var todo := pending.Keys;
      while todo != {}
        invariant todo <= pending.Keys <= old(pending).Keys
        invariant forall id <- pending :: pending[id] == old(pending)[id]
        invariant forall id <- old(pending) :: id in todo || (id in pending <==> old(pending)[id].runId != runId)
        decreases todo
      {
        var id :| id in todo;
        if pending[id].runId == runId { pending := pending - {id}; }
        todo := todo - {id};
      }
    }

    /** The rest of `session/delete` once the host has deleted the session. */
    method SessionDelete(sid: string)
      modifies this`runToSession, this`activeTurns, this`pending, this`sessionToAccount
      ensures Value() == SessionDeleted(old(Value()), sid)
    {
      hide ServerModel.ClearRun;
      sessionToAccount := sessionToAccount - {sid};
      var todo := runToSession.Keys;
      ghost var gone: set<string> := {};
      NothingCleared(old(Value()));
      while todo != {}
        invariant sessionToAccount == old(sessionToAccount) - {sid}
        invariant todo <= runToSession.Keys
        invariant gone == set r | r in old(runToSession) && r !in todo && old(runToSession)[r] == sid
        invariant Value() == Cleared(old(Value()), gone).(accounts := sessionToAccount)
        decreases todo
      {
        var r :| r in todo;
        todo := todo - {r};
        if runToSession[r] == sid {
          ClearedOneMore(old(Value()), gone, r, sessionToAccount);
          gone := gone + {r};
          ClearRun(r);
        }
      }
    }

    method RegisterPending(e: Event, sid: string, account: Option<string>)
      modifies this`pending
      ensures pending == if e.Gate? then old(pending)[e.id := Pending(e.gate, account, sid, e.runId)] else old(pending)
    {
      if e.Gate? { pending := pending[e.id := Pending(e.gate, account, sid, e.runId)]; }
    }

    /** `handleHostEvent`: keep the books, then offer the notice to every connection, in any order. */
    method HandleHostEvent(e: Event, m: Outbox.Message)
      requires AllOpen()
      modifies this, connections
      ensures Value() == OnHostEvent(old(Value()), e)
      ensures forall c <- old(connections) ::
        match SessionOf(e, old(runToSession))
        case None => c.Standing() == old(c.Standing()) && c.Box() == old(c.Box())
        case Some(sid) =>
          && c.Standing() == Delivery.Deliver(old(c.Standing()), sid, e)
          && c.Box() == if Delivery.Receives(old(c.Standing()), sid, e)
                        then Outbox.Apply(old(c.Box()), c.cap, Outbox.Enqueue(m)) else old(c.Box())
      ensures connections <= old(connections)
      ensures forall c <- old(connections) :: c in connections <==> !c.closed
    {
      var sid := SessionOf(e, runToSession);
      if sid.None? { return; }
      var account := if sid.value in sessionToAccount then sessionToAccount[sid.value] else None;
      if e.SubAgent? { TrackRun(e.runId, sid.value, account); }
      RegisterPending(e, sid.value, account);
      Broadcast(sid.value, e, m);
      if e.RunFinish? { ClearRun(e.runId); }
    }

    method Broadcast(sid: string, e: Event, m: Outbox.Message)
      requires AllOpen()
      modifies this`connections, connections
      ensures Value() == old(Value())
      ensures forall c <- old(connections) ::
        && c.Standing() == Delivery.Deliver(old(c.Standing()), sid, e)
        && c.Box() == if Delivery.Receives(old(c.Standing()), sid, e)
                      then Outbox.Apply(old(c.Box()), c.cap, Outbox.Enqueue(m)) else old(c.Box())
      ensures connections <= old(connections)
      ensures forall c <- old(connections) :: c in connections <==> !c.closed
    {
      var todo := connections;
      while todo != {}
        invariant Value() == old(Value())
        invariant todo <= connections <= old(connections)
        invariant forall c <- todo :: c.Standing() == old(c.Standing()) && c.Box() == old(c.Box())
        invariant forall c <- old(connections) | c !in todo ::
          && c.Standing() == Delivery.Deliver(old(c.Standing()), sid, e)
          && c.Box() == if Delivery.Receives(old(c.Standing()), sid, e)
                        then Outbox.Apply(old(c.Box()), c.cap, Outbox.Enqueue(m)) else old(c.Box())
        invariant forall c <- old(connections) :: c in todo || (c in connections <==> !c.closed)
        decreases todo
      {
        var c :| c in todo;
        todo := todo - {c};
        c.Deliver(sid, e, m);
        if c.closed { Unregister(c); }
      }
    }

    /** `turn/start`, after the host has accepted the message */
    method TurnStart(conn: Connection, sid: string, runId: string)
      modifies this`runToSession, this`sessionToAccount, this`activeTurns, conn`subs
      ensures Value() == TurnStarted(old(Value()), runId, sid, conn.auth.accountId)
      ensures conn.subs == old(conn.subs) + {Delivery.RunScope(runId)}
    {
      TrackRun(runId, sid, conn.auth.accountId);
      activeTurns := activeTurns[sid := runId];
      conn.Subscribe(Delivery.RunScope(runId));
    }

    /** `claimPending` */
    method ClaimPending(auth: Auth, id: string, kind: GateKind) returns (verdict: Verdict)
      modifies this`pending
      ensures verdict == ClaimVerdict(old(Value()), auth, id, kind)
      ensures Value() == Claim(old(Value()), auth, id, kind)
    {
      if id !in pending || pending[id].kind != kind { return Conflict; }
      if !auth.trusted && pending[id].accountId != auth.accountId { return Forbidden; }
      pending := pending - {id};
      verdict := Granted;
    }
  }
}
