/**
 * The desktop's connection to its app server (apps/desktop/src/main/connection.ts):
 * dials, handshakes and retries that overtake each other, fenced by a generation
 * counter.
 */
module Connection {
  import opened Basics

  /** Where a dialled socket is in its own life; `Settled` once no handshake result can come any more. */
  datatype Phase = Dialling | Shaking | Settled | Gone

  datatype Socket = Socket(phase: Phase, target: nat)

  /**
   * `generation`, `target`, `client` and `retry` are the manager's; a target is named by the identity of
   * its object and a client by the generation of its socket. The rest is the world around it: `sockets`
   * holds every socket dialled so far by its generation, `timers` counts the retry timers still to fire,
   * `timerKnown` says that `retryTimer` is one of them, `dials` counts the sockets opened, and `halted`
   * says that the current target was given up because its key was refused.
   */
  datatype State = State(
    generation: nat,
    target: Option<nat>,
    client: Option<nat>,
    retry: nat,
    sockets: map<nat, Socket>,
    timers: nat,
    timerKnown: bool,
    dials: nat,
    halted: bool)

  const Initial := State(0, None, None, 0, map[], 0, false, 0, false)

  /** `disposeSocket`: fence everything that is under way, drop the client, clear the retry timer. */
  function Dispose(s: State): State {
    s.(generation := s.generation + 1,
       client := None,
       timers := if s.timerKnown && s.timers > 0 then s.timers - 1 else s.timers,
       timerKnown := false)
  }

  function Dial(s: State): State {
    if s.target.None? then s
    else
      var gen := s.generation + 1;
      s.(generation := gen, sockets := s.sockets[gen := Socket(Dialling, s.target.value)], dials := s.dials + 1)
  }

  /** `scheduleRetry`, for the target the socket was dialled for */
  function ScheduleRetry(s: State, target: nat): State {
    if s.target != Some(target) then s
    else s.(retry := s.retry + 1, timers := s.timers + 1, timerKnown := true)
  }

  /** What can happen; a socket's events name it by its generation. */
  datatype Act =
    | SetTarget(wanted: Option<nat>)
    | Shutdown
    | Opened(gen: nat)
    | Refused(gen: nat, code: int)
    | ShookHands(gen: nat)
    | HandshakeFailed(gen: nat, authFailure: bool)
    | SocketClosed(gen: nat)
    | TimerFires

  predicate AuthCode(code: int) {
    code == 401 || code == 403
  }

  predicate InPhase(s: State, gen: nat, p: Phase) {
    gen in s.sockets && s.sockets[gen].phase == p
  }

  /**
   * The order in which one socket reports: refused or opened, then at most one handshake result. A close in
   * the middle of the handshake makes the handshake fail behind it, but no handshake succeeds and no key is
   * refused once the socket has closed. A timer fires only while one is pending.
   */
  predicate Possible(s: State, a: Act) {
    match a
    case Opened(gen) => InPhase(s, gen, Dialling)
    case Refused(gen, _) => InPhase(s, gen, Dialling)
    case ShookHands(gen) => InPhase(s, gen, Shaking)
    case HandshakeFailed(gen, authFailure) => InPhase(s, gen, Shaking) || (InPhase(s, gen, Gone) && !authFailure)
    case SocketClosed(gen) => gen in s.sockets && s.sockets[gen].phase != Gone
    case TimerFires => s.timers > 0
    case _ => true
  }

  function Mark(s: State, gen: nat, p: Phase): State {
    if gen in s.sockets then s.(sockets := s.sockets[gen := s.sockets[gen].(phase := p)]) else s
  }

  function Retry(s: State, gen: nat): State {
    if gen in s.sockets then ScheduleRetry(s, s.sockets[gen].target) else s
  }

  function Apply(s: State, a: Act): State {
    match a
    case SetTarget(wanted) =>
      var d := Dispose(s.(target := wanted, retry := 0, halted := false));
      if wanted.None? then d else Dial(d)
    case Shutdown => Dispose(s.(target := None))
    case Opened(gen) => Mark(s, gen, if gen == s.generation then Shaking else Settled)
    case Refused(gen, code) =>
      var t := Mark(s, gen, Settled);
      if gen != s.generation then t
      else if AuthCode(code) then t.(generation := s.generation + 1, halted := true)
      else Retry(t.(generation := s.generation + 1), gen)
    case ShookHands(gen) =>
      var t := Mark(s, gen, Settled);
      if gen != s.generation then t else t.(client := Some(gen), retry := 0)
    case HandshakeFailed(gen, authFailure) =>
      var t := if InPhase(s, gen, Gone) then s else Mark(s, gen, Settled);
      if gen != s.generation then t
      else if authFailure then Dispose(t.(generation := s.generation + 1, halted := true)) else t
    case SocketClosed(gen) =>
      var t := Mark(s, gen, Gone);
      if gen != s.generation then t else Retry(t.(client := None), gen)
    case TimerFires => Dial(s.(timers := s.timers - (if s.timers > 0 then 1 else 0), timerKnown := false))
  }

  function Replay(acts: seq<Act>): State {
    if acts == [] then Initial else
      var s := Replay(acts[..|acts| - 1]);
      if Possible(s, acts[|acts| - 1]) then Apply(s, acts[|acts| - 1]) else s
  }

  /** The current generation's socket has not closed yet. */
  predicate Live(s: State) {
    s.generation in s.sockets && s.sockets[s.generation].phase != Gone
  }

  /** A server is wanted and its key has not been refused. */
  predicate Trying(s: State) {
    s.target.Some? && !s.halted
  }

  ghost predicate Fenced(s: State) {
    && (forall g <- s.sockets :: g <= s.generation)
    && (s.client.Some? ==> s.client.value == s.generation && InPhase(s, s.generation, Settled))
    && (Live(s) ==> s.target == Some(s.sockets[s.generation].target))
    && s.timers == (if Trying(s) && !Live(s) then 1 else 0)
    && (s.timerKnown <==> s.timers == 1)
    && (Live(s) ==> Trying(s))
  }

  lemma ActKeepsFence(s: State, a: Act)
    requires Fenced(s) && Possible(s, a)
    ensures Fenced(Apply(s, a))
  {}

  /**
   * At every moment the client belongs to the current generation's open socket; at most one retry timer is
   * pending; and while a server is wanted and its key not refused, exactly one of an open socket and a
   * pending timer is there to carry the connection on.
   */
  lemma {:induction false} RunsAreFenced(acts: seq<Act>)
    ensures var s := Replay(acts);
      && (s.client.Some? ==> s.client.value == s.generation && InPhase(s, s.generation, Settled))
      && s.timers <= 1
      && (Trying(s) <==> Live(s) || s.timers == 1)
      && !(Live(s) && s.timers == 1)
    ensures Fenced(Replay(acts))
  {
    if acts != [] {
      RunsAreFenced(acts[..|acts| - 1]);
      var s := Replay(acts[..|acts| - 1]);
      if Possible(s, acts[|acts| - 1]) { ActKeepsFence(s, acts[|acts| - 1]); }
    }
  }

  function Continue(s: State, acts: seq<Act>): State
    decreases |acts|
  {
    if acts == [] then s
    else if Possible(s, acts[0]) then Continue(Apply(s, acts[0]), acts[1..])
    else Continue(s, acts[1..])
  }

  lemma {:induction false} QuietStaysQuiet(s: State, acts: seq<Act>)
    requires Fenced(s) && !Trying(s) && forall a <- acts :: !a.SetTarget?
    ensures var t := Continue(s, acts); !Trying(t) && t.dials == s.dials && t.client.None?
    decreases |acts|
  {
    if acts != [] {
      var a := acts[0];
      assert a in acts;
      if Possible(s, a) {
        ActKeepsFence(s, a);
        QuietStaysQuiet(Apply(s, a), acts[1..]);
      } else {
        QuietStaysQuiet(s, acts[1..]);
      }
    }
  }

  /** The acts that give the connection up. */
  predicate GivesUp(s: State, a: Act) {
    || a == Shutdown
    || a == SetTarget(None)
    || (a.Refused? && a.gen == s.generation && AuthCode(a.code))
    || (a.HandshakeFailed? && a.gen == s.generation && a.authFailure)
  }

  /**
   * After disposal, or once the server has refused the key at the upgrade or in the handshake, nothing
   * dials again, whatever sockets and timers still report, until a target is set. Any other act leaves a
   * connection that is being tried still tried.
   */
  lemma NoRedialAfterTheEnd(acts: seq<Act>, end: Act, later: seq<Act>)
    requires Possible(Replay(acts), end) && forall a <- later :: !a.SetTarget?
    ensures var s := Apply(Replay(acts), end);
      GivesUp(Replay(acts), end) ==> Continue(s, later).dials == s.dials && Continue(s, later).client.None?
    ensures Trying(Replay(acts)) ==> (Trying(Apply(Replay(acts), end)) <==> !GivesUp(Replay(acts), end))
  {
    RunsAreFenced(acts);
    var s := Replay(acts);
    hide Replay;
    ActKeepsFence(s, end);
    if GivesUp(s, end) { QuietStaysQuiet(Apply(s, end), later); }
  }

  /** The failure that a close brings about behind itself changes nothing: the close has planned the retry. */
  lemma FailureBehindTheClose(acts: seq<Act>, gen: nat)
    requires InPhase(Replay(acts), gen, Shaking)
    ensures var closed := acts + [SocketClosed(gen)];
      Possible(Replay(closed), HandshakeFailed(gen, false))
      && Replay(closed + [HandshakeFailed(gen, false)]) == Replay(closed)
  {
    var closed := acts + [SocketClosed(gen)];
    assert closed[..|acts|] == acts;
    assert (closed + [HandshakeFailed(gen, false)])[..|closed|] == closed;
  }

  /**
   * The hypothesis on the order of events is needed: a handshake that completes after its socket has
   * closed leaves a client on a dead socket, with a retry still to come.
   */
  lemma LateHandshakeResurrects(s: State)
    requires Fenced(s) && InPhase(s, s.generation, Shaking)
    ensures var t := Apply(Apply(s, SocketClosed(s.generation)), ShookHands(s.generation));
      t.client == Some(s.generation) && t.timers == 1
  {}

  class ConnectionManager {
    var generation: nat
    var target: Option<nat>
    var client: Option<nat>
    var retry: nat
    /** The world around the manager, as in `State`. */
    var sockets: map<nat, Socket>
    var timers: nat
    var timerKnown: bool
    var dials: nat
    var halted: bool

    constructor ()
      ensures Value() == Initial
    {
      generation, target, client, retry := 0, None, None, 0;
      sockets, timers, timerKnown, dials, halted := map[], 0, false, 0, false;
    }

    function Value(): State
      reads this
    {
      State(generation, target, client, retry, sockets, timers, timerKnown, dials, halted)
    }

    method DisposeSocket()
      modifies this
      ensures Value() == Dispose(old(Value()))
    {
      generation := generation + 1;
      if timerKnown && timers > 0 { timers := timers - 1; }
      timerKnown := false;
      client := None;
    }

    method DialTarget()
      modifies this
      ensures Value() == Dial(old(Value()))
    {
      if target.None? { return; }
      generation := generation + 1;
      sockets := sockets[generation := Socket(Dialling, target.value)];
      dials := dials + 1;
    }

    method RetryFor(wanted: nat)
      modifies this
      ensures Value() == ScheduleRetry(old(Value()), wanted)
    {
      if target != Some(wanted) { return; }
      retry := retry + 1;
      timers := timers + 1;
      timerKnown := true;
    }

    method Aim(wanted: Option<nat>)
      modifies this
      ensures Value() == Apply(old(Value()), SetTarget(wanted))
    {
      target := wanted;
      retry := 0;
      halted := false;
      DisposeSocket();
      if wanted.None? { return; }
      DialTarget();
    }

    method Shut()
      modifies this
      ensures Value() == Apply(old(Value()), Shutdown)
    {
      target := None;
      DisposeSocket();
    }

    method OnOpen(gen: nat)
      requires gen in sockets
      modifies this`sockets
      ensures Value() == Apply(old(Value()), Opened(gen))
    {
      if gen != generation {
        sockets := sockets[gen := sockets[gen].(phase := Settled)];
      } else {
        sockets := sockets[gen := sockets[gen].(phase := Shaking)];
      }
    }

    method OnUnexpectedResponse(gen: nat, code: int)
      requires gen in sockets
      modifies this
      ensures Value() == Apply(old(Value()), Refused(gen, code))
    {
      sockets := sockets[gen := sockets[gen].(phase := Settled)];
      if gen != generation { return; }
      if code == 401 || code == 403 {
        generation := generation + 1;
        halted := true;
        return;
      }
      generation := generation + 1;
      RetryFor(sockets[gen].target);
    }

    method OnHandshake(gen: nat)
      requires gen in sockets
      modifies this
      ensures Value() == Apply(old(Value()), ShookHands(gen))
    {
      sockets := sockets[gen := sockets[gen].(phase := Settled)];
      if gen != generation { return; }
      client := Some(gen);
      retry := 0;
    }

    method OnHandshakeError(gen: nat, authFailure: bool)
      requires gen in sockets
      modifies this
      ensures Value() == Apply(old(Value()), HandshakeFailed(gen, authFailure))
    {
      if sockets[gen].phase != Gone { sockets := sockets[gen := sockets[gen].(phase := Settled)]; }
      if gen != generation { return; }
      if authFailure {
        generation := generation + 1;
        halted := true;
        DisposeSocket();
      }
    }

    method OnClose(gen: nat)
      requires gen in sockets
      modifies this
      ensures Value() == Apply(old(Value()), SocketClosed(gen))
    {
      sockets := sockets[gen := sockets[gen].(phase := Gone)];
      if gen != generation { return; }
      client := None;
      RetryFor(sockets[gen].target);
    }

    method OnTimer()
      requires timers > 0
      modifies this
      ensures Value() == Apply(old(Value()), TimerFires)
    {
      timers := timers - 1;
      timerKnown := false;
      DialTarget();
    }
  }
}
