/**
 * Isolation of the accounts that share one app server. Requests wait for the
 * host between their access check and what they go on to do, so a check leaves
 * a permission behind that a later step may use.
 */
module Access {
  import opened Basics
  import opened ServerModel
  import opened Delivery

  /** Events of a manual compaction carry this run id whatever their session. */
  const MANUAL := "manual"

  /** A connection; `checked` are the sessions it created or was checked for, `got` those it received events of. */
  datatype Link = Link(conn: Conn, checked: set<string>, granted: set<Scope>, got: seq<string>)

  /** `homes` is the memory namespace each session was created with; `alive` are those not deleted. */
  datatype World = World(books: Books, homes: map<string, Option<string>>, alive: set<string>, links: map<nat, Link>)

  const Start := World(NoBooks, map[], {}, map[])

  datatype Move =
    | Emit(e: Event)
    | Connect(k: nat, auth: Auth, optOut: set<string>)
    | Created(k: nat, sid: string, namespace: Option<string>)
    | CheckSession(k: nat, sid: string)
    | CheckRun(k: nat, runId: string)
    | Subscribed(k: nat, scope: Scope)
    | Unsubscribed(k: nat, scope: Scope)
    | Started(k: nat, sid: string, runId: string)
    | Deleted(k: nat, sid: string)

  /** `defaultOwnsSession` */
  predicate Owns(auth: Auth, namespace: Option<string>) {
    auth.trusted || (Truthy(auth.accountId) && namespace == auth.accountId)
  }

  /** The namespace `scopeConfigFor` lets a new session have. */
  function NamespaceFor(auth: Auth, requested: Option<string>): Option<string> {
    if auth.trusted || !Truthy(auth.accountId) then requested else auth.accountId
  }

  function Reach(l: Link, sid: string, e: Event): Link {
    l.(conn := Deliver(l.conn, sid, e), got := if Receives(l.conn, sid, e) then l.got + [sid] else l.got)
  }

  function SetLink(w: World, k: nat, l: Link): World {
    w.(links := w.links[k := l])
  }

  /** The check has passed: remember the session and allow the scope. */
  function Grant(w: World, k: nat, sid: string, scope: Scope): World
    requires k in w.links
  {
    var l := w.links[k];
    SetLink(w, k, l.(checked := l.checked + {sid}, granted := l.granted + {scope}))
  }

  function WithSubs(w: World, k: nat, subs: set<Scope>): World
    requires k in w.links
  {
    SetLink(w, k, w.links[k].(conn := w.links[k].conn.(subs := subs)))
  }

  function Play(w: World, m: Move): World {
    match m
    case Emit(e) =>
      (match SessionOf(e, w.books.runs)
       case None => w
       case Some(sid) =>
         w.(books := OnHostEvent(w.books, e), links := map k | k in w.links :: Reach(w.links[k], sid, e)))
    case Connect(k, auth, optOut) =>
      if k in w.links then w else SetLink(w, k, Link(Conn(auth, optOut, {}), {}, {}, []))
    case Created(k, sid, requested) =>
      if k !in w.links then w
      else
        var auth := w.links[k].conn.auth;
        var ns := NamespaceFor(auth, requested);
        var w1 := w.(homes := w.homes[sid := ns], alive := w.alive + {sid},
                     books := SessionCreated(w.books, sid, if auth.accountId.Some? then auth.accountId else ns));
        var w2 := Grant(w1, k, sid, SessionScope(sid));
        WithSubs(w2, k, w2.links[k].conn.subs + {SessionScope(sid)})
    case CheckSession(k, sid) =>
      if k in w.links && sid in w.alive && sid in w.homes && Owns(w.links[k].conn.auth, w.homes[sid])
      then Grant(w, k, sid, SessionScope(sid)) else w
    case CheckRun(k, r) =>
      if k in w.links && r in w.books.runs && w.books.runs[r] in w.alive && w.books.runs[r] in w.homes
         && Owns(w.links[k].conn.auth, w.homes[w.books.runs[r]])
      then Grant(w, k, w.books.runs[r], RunScope(r)) else w
    case Subscribed(k, scope) =>
      if k in w.links && (scope in w.links[k].granted || (scope == AccountScope && w.links[k].conn.auth.trusted))
      then WithSubs(w, k, w.links[k].conn.subs + {scope}) else w
    case Unsubscribed(k, scope) =>
      if k in w.links then WithSubs(w, k, w.links[k].conn.subs - {scope}) else w
    case Started(k, sid, r) =>
      if k in w.links && sid in w.links[k].checked then
        WithSubs(w.(books := TurnStarted(w.books, r, sid, w.links[k].conn.auth.accountId)),
                 k, w.links[k].conn.subs + {RunScope(r)})
      else w
    case Deleted(k, sid) =>
      if k in w.links && sid in w.links[k].checked
      then w.(books := SessionDeleted(w.books, sid), alive := w.alive - {sid}) else w
  }

  function PlayAll(ms: seq<Move>): World {
    if ms == [] then Start else Play(PlayAll(ms[..|ms| - 1]), ms[|ms| - 1])
  }

  /**
   * The host keeps its ids apart: `owner` gives the session of every run, events that name both a run
   * and a session agree with it, a sub-agent belongs to its parent's session, and session ids are new.
   */
  predicate HostConsistent(owner: string -> string, w: World, m: Move) {
    match m
    case Emit(SubAgent(_, r, p)) => r != MANUAL && owner(r) == owner(p)
    case Emit(OnSession(_, sid, r)) => Truthy(sid) && Truthy(r) && r.value != MANUAL ==> owner(r.value) == sid.value
    case Started(_, sid, r) => r != MANUAL && owner(r) == sid
    case Created(_, sid, _) => sid !in w.homes
    case _ => true
  }

  ghost predicate ConsistentRun(owner: string -> string, ms: seq<Move>) {
    forall i :: 0 <= i < |ms| ==> HostConsistent(owner, PlayAll(ms[..i]), ms[i])
  }

  predicate ScopeAllowed(owner: string -> string, checked: set<string>, s: Scope) {
    match s
    case SessionScope(sid) => sid in checked
    case RunScope(r) => r != MANUAL && owner(r) in checked
    case AccountScope => false
  }

  /** Everything an untrusted connection may see, and has seen, belongs to sessions it was checked for. */
  predicate Confined(owner: string -> string, homes: map<string, Option<string>>, l: Link) {
    !l.conn.auth.trusted ==>
      && (forall s <- l.conn.subs :: ScopeAllowed(owner, l.checked, s))
      && (forall s <- l.granted :: ScopeAllowed(owner, l.checked, s))
      && (forall sid <- l.got :: sid in l.checked)
      && (forall sid <- l.checked :: sid in homes)
      && (Truthy(l.conn.auth.accountId) ==> forall sid <- l.checked :: sid in homes && homes[sid] == l.conn.auth.accountId)
  }

  ghost predicate Isolated(owner: string -> string, w: World) {
    && (forall r <- w.books.runs :: r != MANUAL && owner(r) == w.books.runs[r])
    && (forall sid <- w.alive :: sid in w.homes)
    && forall k <- w.links :: Confined(owner, w.homes, w.links[k])
  }

  lemma EmitKeepsIsolation(owner: string -> string, w: World, e: Event)
    requires Isolated(owner, w) && HostConsistent(owner, w, Emit(e))
    ensures Isolated(owner, Play(w, Emit(e)))
  {
    var sid := SessionOf(e, w.books.runs);
    if sid.Some? {
      var u := Play(w, Emit(e));
      forall k <- u.links ensures Confined(owner, u.homes, u.links[k]) {
        ReachConfined(owner, w, e, sid.value, w.links[k]);
      }
    }
  }

  lemma ReachConfined(owner: string -> string, w: World, e: Event, sid: string, l: Link)
    requires Isolated(owner, w) && HostConsistent(owner, w, Emit(e)) && SessionOf(e, w.books.runs) == Some(sid)
    requires Confined(owner, w.homes, l)
    ensures Confined(owner, w.homes, Reach(l, sid, e))
  {
    if !l.conn.auth.trusted && Receives(l.conn, sid, e) {
      assert AccountScope !in l.conn.subs;
      if SessionScope(sid) in l.conn.subs {
        assert ScopeAllowed(owner, l.checked, SessionScope(sid));
      } else if Truthy(RunOf(e)) && RunScope(RunOf(e).value) in l.conn.subs {
        assert ScopeAllowed(owner, l.checked, RunScope(RunOf(e).value));
      } else {
        assert ScopeAllowed(owner, l.checked, RunScope(e.parentRunId));
      }
      assert sid in l.checked;
    }
  }

  lemma MoveKeepsIsolation(owner: string -> string, w: World, m: Move)
    requires Isolated(owner, w) && HostConsistent(owner, w, m)
    ensures Isolated(owner, Play(w, m))
  {
    match m
    case Emit(e) => EmitKeepsIsolation(owner, w, e);
    case Created(k, sid, requested) => CreatedKeeps(owner, w, m);
    case CheckSession(k, sid) => GrantKeeps(owner, w, k, sid, SessionScope(sid), m);
    case CheckRun(k, r) => if r in w.books.runs { GrantKeeps(owner, w, k, w.books.runs[r], RunScope(r), m); }
    case Subscribed(_, _) => SubscribedKeeps(owner, w, m);
    case Started(_, _, _) => StartedKeeps(owner, w, m);
    case _ =>
  }

  lemma CreatedKeeps(owner: string -> string, w: World, m: Move)
    requires Isolated(owner, w) && m.Created? && HostConsistent(owner, w, m)
    ensures Isolated(owner, Play(w, m))
  {
    if m.k in w.links {
      var u := Play(w, m);
      forall k <- u.links ensures Confined(owner, u.homes, u.links[k]) {
        assert Confined(owner, w.homes, w.links[k]);
      }
    }
  }

  lemma GrantKeeps(owner: string -> string, w: World, k: nat, sid: string, scope: Scope, m: Move)
    requires Isolated(owner, w)
    requires (m == CheckSession(k, sid) && scope == SessionScope(sid))
      || (m.CheckRun? && m.k == k && m.runId in w.books.runs && w.books.runs[m.runId] == sid && scope == RunScope(m.runId))
    ensures Isolated(owner, Play(w, m))
  {
    if Play(w, m) != w {
      var u := Play(w, m);
      assert u == Grant(w, k, sid, scope);
      assert Confined(owner, w.homes, w.links[k]);
    }
  }

  lemma SubscribedKeeps(owner: string -> string, w: World, m: Move)
    requires Isolated(owner, w) && m.Subscribed?
    ensures Isolated(owner, Play(w, m))
  {
    if m.k in w.links { assert Confined(owner, w.homes, w.links[m.k]); }
  }

  lemma StartedKeeps(owner: string -> string, w: World, m: Move)
    requires Isolated(owner, w) && m.Started? && HostConsistent(owner, w, m)
    ensures Isolated(owner, Play(w, m))
  {
    if m.k in w.links { assert Confined(owner, w.homes, w.links[m.k]); }
  }

  lemma {:induction false} RunsAreIsolated(owner: string -> string, ms: seq<Move>)
    requires ConsistentRun(owner, ms)
    ensures Isolated(owner, PlayAll(ms))
  {
    if ms != [] {
      var n := |ms| - 1;
      forall i | 0 <= i < n ensures HostConsistent(owner, PlayAll(ms[..n][..i]), ms[..n][i]) {
        assert ms[..n][..i] == ms[..i];
      }
      RunsAreIsolated(owner, ms[..n]);
      assert HostConsistent(owner, PlayAll(ms[..n]), ms[n]);
      MoveKeepsIsolation(owner, PlayAll(ms[..n]), ms[n]);
    }
  }

  /**
   * Over any run of a consistent host, an untrusted connection receives events only of sessions it
   * created or was checked for; with an account, only of sessions in that account's own namespace.
   */
  lemma OnlyOwnSessions(owner: string -> string, ms: seq<Move>, k: nat, i: nat)
    requires ConsistentRun(owner, ms)
    requires var w := PlayAll(ms); k in w.links && !w.links[k].conn.auth.trusted && i < |w.links[k].got|
    ensures var w := PlayAll(ms); var l := w.links[k]; var sid := l.got[i];
      && sid in l.checked && sid in w.homes
      && (Truthy(l.conn.auth.accountId) ==> w.homes[sid] == l.conn.auth.accountId)
  {
    RunsAreIsolated(owner, ms);
    hide PlayAll;
    var w := PlayAll(ms);
    assert Confined(owner, w.homes, w.links[k]);
    assert w.links[k].got[i] in w.links[k].got;
  }

  /**
   * The hypothesis is needed: an event that names a run of one session and, in its `sessionId`, another
   * session reaches whoever is subscribed to the run.
   */
  lemma MixedIdsLeak(l: Link, r: string, other: string)
    requires r != "" && other != "" && l.conn.subs == {RunScope(r)} && l.conn.optOut == {}
    ensures var e := OnSession("item/memoryCaptured", Some(other), Some(r));
      SessionOf(e, map[]) == Some(other) && other in Reach(l, other, e).got
  {
    var e := OnSession("item/memoryCaptured", Some(other), Some(r));
    assert Reach(l, other, e).got == l.got + [other];
  }

  // ---- what owners are given ----

  /** The memory namespace a session is created with: an account's own, and whatever a trusted connection asks for. */
  lemma CreatedExactly(w: World, k: nat, sid: string, requested: Option<string>)
    requires k in w.links
    ensures var u := Play(w, Created(k, sid, requested)); var auth := w.links[k].conn.auth;
      && sid in u.alive && sid in u.homes && sid in u.links[k].checked && SessionScope(sid) in u.links[k].conn.subs
      && (if !auth.trusted && auth.accountId.Some? && auth.accountId.value != "" then u.homes[sid] == auth.accountId
          else u.homes[sid] == requested)
  {}

  /** A connection that has checked a session and subscribed to it hears its events if and only if it owns it. */
  lemma OwnersHearExactly(w: World, k: nat, sid: string, e: Event)
    requires k in w.links && SessionOf(e, w.books.runs) == Some(sid) && NoticeOf(e) !in w.links[k].conn.optOut
    requires w.links[k].conn.subs == {} && w.links[k].granted == {}
    ensures var u := Play(Play(Play(w, CheckSession(k, sid)), Subscribed(k, SessionScope(sid))), Emit(e));
      var auth := w.links[k].conn.auth;
      var owns := sid in w.alive && sid in w.homes
        && (auth.trusted || (auth.accountId.Some? && auth.accountId.value != "" && w.homes[sid] == auth.accountId));
      u.links[k].got == w.links[k].got + if owns then [sid] else []
  {
    var w1 := Play(w, CheckSession(k, sid));
    var w2 := Play(w1, Subscribed(k, SessionScope(sid)));
    var l := w2.links[k];
    assert w2.books == w.books;
    assert l.conn.subs == {} || l.conn.subs == {SessionScope(sid)};
    assert SessionScope(sid) in l.conn.subs ==> Receives(l.conn, sid, e);
    assert l.conn.subs == {} ==> !Receives(l.conn, sid, e);
    var u := Play(w2, Emit(e));
    assert u.links[k] == Reach(l, sid, e);
    hide Receives, SessionOf, OnHostEvent;
  }
}
