/** What a connection is allowed and gets, read off the moves alone (packages/agent-server/src/server.ts). */
module AccessHistory {
  import opened Basics
  import opened ServerModel
  import opened Delivery
  import opened Access

  // ---- connections and sessions ----

  /** The connection was made by move `i`, the first one of that name. */
  predicate ConnectedAt(ms: seq<Move>, i: nat, k: nat) {
    i < |ms| && ms[i].Connect? && ms[i].k == k && forall j :: 0 <= j < i ==> !(ms[j].Connect? && ms[j].k == k)
  }

  ghost predicate Connected(ms: seq<Move>, k: nat) {
    exists i :: ConnectedAt(ms, i, k)
  }

  predicate MadeAs(w: World, k: nat, m: Move) {
    m.Connect? && k in w.links && w.links[k].conn.auth == m.auth && w.links[k].conn.optOut == m.optOut
  }

  /** A connection is there once it has been made, with the authority and the opt-outs it came with. */
  lemma {:induction false} LinksExactly(ms: seq<Move>, k: nat)
    ensures k in PlayAll(ms).links <==> Connected(ms, k)
    ensures forall i: nat :: ConnectedAt(ms, i, k) ==> MadeAs(PlayAll(ms), k, ms[i])
  {
    if ms != [] {
      var n := |ms| - 1;
      LinksExactly(ms[..n], k);
      PlayKeepsLinks(PlayAll(ms[..n]), ms[n], k);
      ConnectedGrows(ms, k);
      assert forall i: nat :: ConnectedAt(ms[..n], i, k) ==> i < n && ms[..n][i] == ms[i];
      assert forall i: nat :: ConnectedAt(ms[..n], i, k) ==> Connected(ms[..n], k);
      hide Play, Connected, ConnectedAt;
    }
  }

  lemma ConnectedGrows(ms: seq<Move>, k: nat)
    requires ms != []
    ensures var n := |ms| - 1;
      && (Connected(ms, k) <==> Connected(ms[..n], k) || (ms[n].Connect? && ms[n].k == k))
      && forall i: nat :: ConnectedAt(ms, i, k) <==>
           ConnectedAt(ms[..n], i, k) || (i == n && ms[n].Connect? && ms[n].k == k && !Connected(ms[..n], k))
  {
    var n := |ms| - 1;
    forall i: nat ensures i < n ==> (ConnectedAt(ms, i, k) <==> ConnectedAt(ms[..n], i, k)) {
      if i < n { assert forall j :: 0 <= j <= i ==> ms[..n][j] == ms[j]; }
    }
    if ms[n].Connect? && ms[n].k == k {
      if ConnectedAt(ms, n, k) {
        assert !Connected(ms[..n], k) by {
          assert forall i :: 0 <= i < n ==> ms[..n][i] == ms[i];
        }
      } else {
        var j := FirstConnect(ms, n, k);
        assert ConnectedAt(ms[..n], j, k);
      }
    }
  }

  lemma {:induction false} FirstConnect(ms: seq<Move>, n: nat, k: nat) returns (i: nat)
    requires n < |ms| && exists j :: 0 <= j < n && ms[j].Connect? && ms[j].k == k
    ensures i < n && ConnectedAt(ms, i, k) && ConnectedAt(ms[..n], i, k)
  {
    i :| 0 <= i < n && ms[i].Connect? && ms[i].k == k;
    if j :| 0 <= j < i && ms[j].Connect? && ms[j].k == k {
      i := FirstConnect(ms, i, k);
      assert forall j :: 0 <= j <= i ==> ms[..n][j] == ms[j];
    } else {
      assert forall j :: 0 <= j <= i ==> ms[..n][j] == ms[j];
    }
  }

  lemma PlayKeepsLinks(w: World, m: Move, k: nat)
    ensures var u := Play(w, m);
      && (k in u.links <==> k in w.links || (m.Connect? && m.k == k))
      && (k in w.links ==>
            u.links[k].conn.auth == w.links[k].conn.auth && u.links[k].conn.optOut == w.links[k].conn.optOut)
      && (k !in w.links && m.Connect? && m.k == k ==> u.links[k] == Link(Conn(m.auth, m.optOut, {}), {}, {}, []))
  {
    hide SessionOf, OnHostEvent, TurnStarted, SessionCreated, SessionDeleted, NamespaceFor, Owns, Receives;
  }

  // ---- what one move does at a connection ----

  /** The acts of the server and of the connection `k` that a move stands for. */
  function ActsOf(w: World, m: Move, k: nat): seq<Delivery.Act> {
    match m
    case Emit(e) => [Host(e)]
    case Created(j, sid, requested) =>
      if j !in w.links then []
      else
        [Request(CreateSession(w.links[j].conn.auth, sid, NamespaceFor(w.links[j].conn.auth, requested)))]
        + (if j == k then [Delivery.Subscribe(SessionScope(sid))] else [])
    case Subscribed(j, scope) =>
      if j == k && k in w.links
         && (scope in w.links[k].granted || (scope == AccountScope && w.links[k].conn.auth.trusted))
      then [Delivery.Subscribe(scope)] else []
    case Unsubscribed(j, scope) => if j == k then [Delivery.Unsubscribe(scope)] else []
    case Started(j, sid, r) =>
      if j in w.links && sid in w.links[j].checked
      then [Request(StartTurn(w.links[j].conn.auth, sid, r))] + if j == k then [Delivery.Subscribe(RunScope(r))] else []
      else []
    case Deleted(j, sid) =>
      if j in w.links && sid in w.links[j].checked then [Request(DeleteSession(sid))] else []
    case _ => []
  }

  lemma WatchOne(v: View, a: Delivery.Act)
    ensures Watch(v, [a]) == Delivery.Do(v, a) && Watch(v, []) == v
  {
    assert [a][..0] == [];
  }

  lemma WatchTwo(v: View, a: Delivery.Act, b: Delivery.Act)
    ensures Watch(v, [a] + [b]) == Delivery.Do(Delivery.Do(v, a), b)
  {
    assert ([a] + [b])[..1] == [a];
    WatchOne(v, a);
  }

  /**
   * Each move does to the books and to a connection what its acts do, so that everything proved about who gets
   * which event holds behind the access checks; and the connection gets an event exactly when it receives it.
   */
  lemma MovesAreActs(w: World, m: Move, k: nat)
    requires k in w.links
    ensures var u := Play(w, m); var l := w.links[k];
      && k in u.links
      && View(u.books, u.links[k].conn) == Watch(View(w.books, l.conn), ActsOf(w, m, k))
      && u.links[k].got == l.got +
           if m.Emit? && SessionOf(m.e, w.books.runs).Some? && Receives(l.conn, SessionOf(m.e, w.books.runs).value, m.e)
           then [SessionOf(m.e, w.books.runs).value] else []
  {
    PlayKeepsLinks(w, m, k);
    var v, acts := View(w.books, w.links[k].conn), ActsOf(w, m, k);
    assert w.links[k].got + [] == w.links[k].got;
    if |acts| == 1 { WatchOne(v, acts[0]); assert acts == [acts[0]]; }
    if |acts| == 2 { WatchTwo(v, acts[0], acts[1]); assert acts == [acts[0]] + [acts[1]]; }
    if acts == [] { WatchOne(v, Host(TodoUpdate(""))); }
    hide Watch, SessionOf, OnHostEvent, TurnStarted, SessionCreated, SessionDeleted, NamespaceFor, Owns, Receives;
  }

  // ---- permissions ----

  /** A session that is there and that the connection owns. */
  predicate Admitted(w: World, k: nat, sid: string) {
    && k in w.links && sid in w.alive && sid in w.homes
    && var auth := w.links[k].conn.auth;
       auth.trusted || (auth.accountId.Some? && auth.accountId.value != "" && w.homes[sid] == auth.accountId)
  }

  /** The move checks the connection for the scope, which belongs to the session. */
  predicate Checks(w: World, m: Move, k: nat, sid: string, scope: Scope) {
    || (m.Created? && m.k == k && m.sid == sid && scope == SessionScope(sid) && k in w.links)
    || (m == CheckSession(k, sid) && scope == SessionScope(sid) && Admitted(w, k, sid))
    || (m.CheckRun? && m.k == k && scope == RunScope(m.runId) && m.runId in w.books.runs
        && w.books.runs[m.runId] == sid && Admitted(w, k, sid))
  }

  ghost predicate CheckedAt(ms: seq<Move>, i: nat, k: nat, sid: string, scope: Scope) {
    i < |ms| && Checks(PlayAll(ms[..i]), ms[i], k, sid, scope)
  }

  ghost predicate EverChecked(ms: seq<Move>, k: nat, sid: string, scope: Scope) {
    exists i :: CheckedAt(ms, i, k, sid, scope)
  }

  ghost predicate Permits(ms: seq<Move>, k: nat, sid: string, scope: Scope) {
    var w := PlayAll(ms);
    && (k in w.links ==>
          && (sid in w.links[k].checked <==> exists s :: EverChecked(ms, k, sid, s))
          && (scope in w.links[k].granted <==> exists q :: EverChecked(ms, k, q, scope)))
    && (k !in w.links ==> forall q, s :: !EverChecked(ms, k, q, s))
  }

  lemma StepChecks(w: World, m: Move, k: nat, sid: string, scope: Scope)
    requires k in w.links
    ensures var u := Play(w, m);
      && k in u.links
      && (sid in u.links[k].checked <==> sid in w.links[k].checked || exists s :: Checks(w, m, k, sid, s))
      && (scope in u.links[k].granted <==> scope in w.links[k].granted || exists q :: Checks(w, m, k, q, scope))
  {
    PlayKeepsLinks(w, m, k);
    hide SessionOf, OnHostEvent, TurnStarted, SessionCreated, SessionDeleted, NamespaceFor, Receives, Deliver;
    match m
    case Created(j, s, _) =>
      if j == k { assert Checks(w, m, k, s, SessionScope(s)); }
    case CheckSession(j, s) =>
      if j == k && Admitted(w, k, s) { assert Checks(w, m, k, s, SessionScope(s)); }
    case CheckRun(j, r) =>
      if j == k && r in w.books.runs && Admitted(w, k, w.books.runs[r]) {
        assert Checks(w, m, k, w.books.runs[r], RunScope(r));
      }
    case _ =>
  }

  lemma CheckedGrows(ms: seq<Move>, k: nat, sid: string, scope: Scope)
    requires ms != []
    ensures var n := |ms| - 1;
      EverChecked(ms, k, sid, scope) <==>
        EverChecked(ms[..n], k, sid, scope) || Checks(PlayAll(ms[..n]), ms[n], k, sid, scope)
  {
    hide PlayAll, Checks;
    var n := |ms| - 1;
    forall i: nat | i < n ensures CheckedAt(ms[..n], i, k, sid, scope) <==> CheckedAt(ms, i, k, sid, scope) {
      assert ms[..n][..i] == ms[..i] && ms[..n][i] == ms[i];
    }
    if Checks(PlayAll(ms[..n]), ms[n], k, sid, scope) { assert CheckedAt(ms, n, k, sid, scope); }
  }

  /**
   * Over every run a connection has been checked for a session if and only if it created it, or asked for it or
   * for one of its runs while the session was there and its own; and it may subscribe to exactly the scopes it
   * was checked for.
   */
  lemma {:induction false} PermissionsExactly(ms: seq<Move>, k: nat, sid: string, scope: Scope)
    ensures Permits(ms, k, sid, scope)
  {
    if ms != [] {
      var n := |ms| - 1;
      var w := PlayAll(ms[..n]);
      PermissionsExactly(ms[..n], k, sid, scope);
      forall q, s ensures EverChecked(ms, k, q, s) <==> EverChecked(ms[..n], k, q, s) || Checks(w, ms[n], k, q, s) {
        CheckedGrows(ms, k, q, s);
      }
      PlayKeepsLinks(w, ms[n], k);
      if k in w.links {
        StepChecks(w, ms[n], k, sid, scope);
      } else {
        assert forall q, s :: !Checks(w, ms[n], k, q, s);
      }
      hide Play, Checks, EverChecked;
    }
  }

  // ---- which sessions are there ----

  predicate Makes(w: World, m: Move, sid: string) {
    m.Created? && m.sid == sid && m.k in w.links
  }

  predicate Ends(w: World, m: Move, sid: string) {
    m.Deleted? && m.sid == sid && m.k in w.links && sid in w.links[m.k].checked
  }

  /** Created by a connection, and deleted by none that was checked for it since. */
  ghost predicate ThereSince(ms: seq<Move>, i: nat, sid: string) {
    && i < |ms| && Makes(PlayAll(ms[..i]), ms[i], sid)
    && forall j :: i < j < |ms| ==> !Ends(PlayAll(ms[..j]), ms[j], sid)
  }

  lemma ThereGrows(ms: seq<Move>, i: nat, sid: string)
    requires ms != []
    ensures var n := |ms| - 1;
      ThereSince(ms, i, sid) <==>
        || (i == n && Makes(PlayAll(ms[..n]), ms[n], sid))
        || (i < n && ThereSince(ms[..n], i, sid) && !Ends(PlayAll(ms[..n]), ms[n], sid))
  {
    hide PlayAll, Makes, Ends;
    var n := |ms| - 1;
    assert forall j :: 0 <= j < n ==> ms[..n][..j] == ms[..j] && ms[..n][j] == ms[j];
  }

  lemma {:induction false} SessionsExactly(ms: seq<Move>, sid: string)
    ensures sid in PlayAll(ms).alive <==> exists i :: ThereSince(ms, i, sid)
  {
    if ms != [] {
      var n := |ms| - 1;
      var w := PlayAll(ms[..n]);
      SessionsExactly(ms[..n], sid);
      forall i: nat
        ensures ThereSince(ms, i, sid) <==>
          (i == n && Makes(w, ms[n], sid)) || (i < n && ThereSince(ms[..n], i, sid) && !Ends(w, ms[n], sid))
      {
        ThereGrows(ms, i, sid);
      }
      forall i: nat ensures ThereSince(ms[..n], i, sid) ==> i < n {}
      AliveStep(w, ms[n], sid);
      hide Play, Makes, Ends, ThereSince;
      if Makes(w, ms[n], sid) { assert ThereSince(ms, n, sid); }
    }
  }

  lemma AliveStep(w: World, m: Move, sid: string)
    ensures sid in Play(w, m).alive <==> Makes(w, m, sid) || (sid in w.alive && !Ends(w, m, sid))
  {
    hide SessionOf, OnHostEvent, TurnStarted, SessionCreated, SessionDeleted, NamespaceFor, Receives, Deliver, Owns;
  }
}
