/**
 * When the desktop has a client, by what has happened to the sockets
 * (apps/desktop/src/main/connection.ts).
 */
module ConnectionLife {
  import opened Basics
  import opened Connection

  /** Every act could happen when it did. */
  ghost predicate PossibleRun(acts: seq<Act>) {
    forall i :: 0 <= i < |acts| ==> Possible(Replay(acts[..i]), acts[i])
  }

  /** Act `d` dialled the socket. */
  ghost predicate DialledAt(acts: seq<Act>, d: nat, g: nat) {
    d < |acts| && g !in Replay(acts[..d]).sockets && g in Replay(acts[..d + 1]).sockets
  }

  /** What takes a client away: a close or a failure of its socket, another target, a shutdown. */
  predicate Cuts(a: Act, g: nat) {
    || a.SetTarget? || a == Shutdown || a == SocketClosed(g)
    || (a.Refused? && a.gen == g) || (a.HandshakeFailed? && a.gen == g)
  }

  // ---- the life of one socket ----

  datatype Stage = Fresh | Open | Ready | Over

  function Advance(st: Stage, a: Act, g: nat): Stage {
    if Cuts(a, g) then Over
    else if st.Fresh? && a == Opened(g) then Open
    else if st.Open? && a == ShookHands(g) then Ready
    else st
  }

  function StageAfter(acts: seq<Act>, g: nat): Stage {
    if acts == [] then Fresh else Advance(StageAfter(acts[..|acts| - 1], g), acts[|acts| - 1], g)
  }

  /** How the manager sees a socket in that stage. */
  predicate Seen(s: State, g: nat, st: Stage) {
    && g in s.sockets && g <= s.generation
    && match st
       case Fresh => s.generation == g && InPhase(s, g, Dialling) && s.client.None?
       case Open => s.generation == g && InPhase(s, g, Shaking) && s.client.None?
       case Ready => s.generation == g && s.client == Some(g)
       case Over => s.client != Some(g) && (s.generation != g || InPhase(s, g, Settled) || InPhase(s, g, Gone))
  }

  lemma ActAdvances(s: State, a: Act, g: nat, st: Stage)
    requires Fenced(s) && Possible(s, a) && Seen(s, g, st)
    ensures Seen(Apply(s, a), g, Advance(st, a, g))
  {}

  lemma NewSocketIsFresh(s: State, a: Act, g: nat)
    requires Fenced(s) && Possible(s, a) && g !in s.sockets && g in Apply(s, a).sockets
    ensures Seen(Apply(s, a), g, Fresh)
  {}

  lemma PossiblePrefix(acts: seq<Act>, n: nat)
    requires PossibleRun(acts) && n <= |acts|
    ensures PossibleRun(acts[..n])
  {
    assert forall i :: 0 <= i < n ==> acts[..n][..i] == acts[..i];
  }

  lemma NextState(acts: seq<Act>, n: nat)
    requires PossibleRun(acts) && n < |acts|
    ensures Possible(Replay(acts[..n]), acts[n]) && Replay(acts[..n + 1]) == Apply(Replay(acts[..n]), acts[n])
    ensures Fenced(Replay(acts[..n]))
  {
    RunsAreFenced(acts[..n]);
    assert acts[..n + 1][..n] == acts[..n];
  }

  lemma BornFresh(acts: seq<Act>, d: nat, g: nat)
    requires PossibleRun(acts) && DialledAt(acts, d, g)
    ensures d < |acts| && Seen(Replay(acts[..d + 1]), g, Fresh)
  {
    hide Replay, Possible, Apply, Seen, Fenced, PossibleRun;
    NextState(acts, d);
    NewSocketIsFresh(Replay(acts[..d]), acts[d], g);
  }

  lemma LivesOn(acts: seq<Act>, n: nat, g: nat, st: Stage)
    requires PossibleRun(acts) && n < |acts| && Seen(Replay(acts[..n]), g, st)
    ensures Seen(Replay(acts[..n + 1]), g, Advance(st, acts[n], g))
  {
    hide *;
    NextState(acts, n);
    ActAdvances(Replay(acts[..n]), acts[n], g, st);
  }

  lemma StageGrows(acts: seq<Act>, d: nat, n: nat, g: nat)
    requires d < n < |acts|
    ensures StageAfter(acts[d + 1..n + 1], g) == Advance(StageAfter(acts[d + 1..n], g), acts[n], g)
  {
    hide Advance;
    var more := acts[d + 1..n + 1];
    assert more[..|more| - 1] == acts[d + 1..n] && more[|more| - 1] == acts[n];
  }

  lemma {:induction false} SocketLives(acts: seq<Act>, d: nat, g: nat, n: nat)
    requires PossibleRun(acts) && DialledAt(acts, d, g) && d < n <= |acts|
    ensures Seen(Replay(acts[..n]), g, StageAfter(acts[d + 1..n], g))
  {
    hide PossibleRun, DialledAt, Seen, Replay, Advance;
    if n == d + 1 {
      assert acts[d + 1..n] == [];
      BornFresh(acts, d, g);
    } else {
      hide StageAfter;
      SocketLives(acts, d, g, n - 1);
      LivesOn(acts, n - 1, g, StageAfter(acts[d + 1..n - 1], g));
      StageGrows(acts, d, n - 1, g);
    }
  }

  lemma {:induction false} SocketsAreDialled(acts: seq<Act>, g: nat) returns (d: nat)
    requires g in Replay(acts).sockets
    ensures DialledAt(acts, d, g)
  {
    var n := |acts| - 1;
    if acts != [] {
      assert acts[..n + 1] == acts;
      if g in Replay(acts[..n]).sockets {
        d := SocketsAreDialled(acts[..n], g);
        assert acts[..n][..d] == acts[..d] && acts[..n][..d + 1] == acts[..d + 1];
      } else {
        d := n;
      }
    }
  }

  // ---- by the acts alone ----

  /** Reported open at `i`, shaken hands with at `j`, and nothing has cut it off. */
  ghost predicate Connected(acts: seq<Act>, i: nat, j: nat, g: nat) {
    && i < j < |acts| && acts[i] == Opened(g) && acts[j] == ShookHands(g)
    && forall k :: 0 <= k < |acts| ==> !Cuts(acts[k], g)
  }

  ghost predicate Shook(acts: seq<Act>, g: nat) {
    exists i, j :: Connected(acts, i, j, g)
  }

  lemma {:induction false} StageIs(acts: seq<Act>, g: nat)
    ensures var st := StageAfter(acts, g);
      && (st.Over? <==> exists k :: 0 <= k < |acts| && Cuts(acts[k], g))
      && (st.Fresh? ==> forall k :: 0 <= k < |acts| ==> acts[k] != Opened(g))
      && (st.Open? ==> exists i :: 0 <= i < |acts| && acts[i] == Opened(g))
      && (st.Ready? <==> Shook(acts, g))
  {
    if acts != [] {
      var n := |acts| - 1;
      var st := StageAfter(acts[..n], g);
      StageIs(acts[..n], g);
      hide Cuts;
      assert forall k :: 0 <= k < n ==> acts[..n][k] == acts[k];
      if st.Over? {
        var k :| 0 <= k < n && Cuts(acts[..n][k], g);
        assert Cuts(acts[k], g);
      } else if !Cuts(acts[n], g) {
        ShookGrows(acts, g);
        assert forall k :: 0 <= k < n ==> !Cuts(acts[..n][k], g);
        hide Shook;
      }
    }
  }

  lemma ShookGrows(acts: seq<Act>, g: nat)
    requires acts != [] && forall k :: 0 <= k < |acts| ==> !Cuts(acts[k], g)
    ensures var n := |acts| - 1;
      Shook(acts, g) <==> || Shook(acts[..n], g)
                          || (acts[n] == ShookHands(g) && exists i :: 0 <= i < n && acts[i] == Opened(g))
  {
    hide Cuts;
    var n := |acts| - 1;
    if i: nat, j: nat :| Connected(acts, i, j, g) {
      if j < n { assert Connected(acts[..n], i, j, g); }
    }
    if i: nat, j: nat :| Connected(acts[..n], i, j, g) { assert Connected(acts, i, j, g); }
    if i :| 0 <= i < n && acts[i] == Opened(g) {
      if acts[n] == ShookHands(g) { assert Connected(acts, i, n, g); }
    }
  }

  /** Act `d` dialled the socket, and after it the socket was reported open, shook hands and was not cut off. */
  ghost predicate ConnectedSince(acts: seq<Act>, d: nat, g: nat) {
    DialledAt(acts, d, g) && Shook(acts[d + 1..], g)
  }

  /**
   * Over every run, the manager has the client of a socket if and only if the socket was dialled, then
   * reported open, then shook hands, and since it was dialled neither it has failed or closed nor another
   * target been set nor the manager shut down.
   */
  lemma ClientExactly(acts: seq<Act>, g: nat)
    requires PossibleRun(acts)
    ensures Replay(acts).client == Some(g) <==> exists d :: ConnectedSince(acts, d, g)
  {
    hide Replay, PossibleRun, Shook, StageAfter;
    assert acts[..|acts|] == acts;
    forall d: nat | DialledAt(acts, d, g)
      ensures Replay(acts).client == Some(g) <==> Shook(acts[d + 1..], g)
    {
      SocketLives(acts, d, g, |acts|);
      assert acts[d + 1..|acts|] == acts[d + 1..];
      StageIs(acts[d + 1..], g);
    }
    hide DialledAt;
    if Replay(acts).client == Some(g) {
      RunsAreFenced(acts);
      var d := SocketsAreDialled(acts, g);
      assert ConnectedSince(acts, d, g);
    }
  }

  /** The first connection: a target, an opened socket, a handshake. */
  lemma FirstConnection(target: nat)
    ensures var acts := [SetTarget(Some(target)), Opened(2), ShookHands(2)];
      PossibleRun(acts) && Replay(acts).client == Some(2)
  {
    var acts := [SetTarget(Some(target)), Opened(2), ShookHands(2)];
    assert acts[..0] == [] && acts[..1] == [acts[0]] && acts[..2] == [acts[0], acts[1]] && acts[..3] == acts;
    assert [acts[0], acts[1]][..1] == [acts[0]] && [acts[0]][..0] == [];
    assert Replay([acts[0]]) == Apply(Initial, acts[0]);
    assert Replay([acts[0], acts[1]]) == Apply(Apply(Initial, acts[0]), acts[1]);
  }

  /** Setting a target dials it and nothing else is being tried. */
  lemma TargetIsDialled(acts: seq<Act>, target: nat)
    ensures var s, t := Replay(acts), Replay(acts + [SetTarget(Some(target))]);
      && Trying(t) && t.dials == s.dials + 1 && t.generation !in s.sockets
      && t.sockets == s.sockets[t.generation := Socket(Dialling, target)] && t.client.None? && t.timers == 0
  {
    assert (acts + [SetTarget(Some(target))])[..|acts|] == acts;
    RunsAreFenced(acts);
  }

  /** A close of the current socket is answered by a retry, and the retry dials the same target again. */
  lemma CloseIsRetried(acts: seq<Act>)
    requires var s := Replay(acts); Live(s)
    ensures var s := Replay(acts); var t := Apply(Apply(s, SocketClosed(s.generation)), TimerFires);
      && Possible(s, SocketClosed(s.generation)) && Possible(Apply(s, SocketClosed(s.generation)), TimerFires)
      && t.dials == s.dials + 1 && Live(t) && t.target == s.target && t.generation > s.generation
  {
    RunsAreFenced(acts);
    hide Replay;
  }

  /** A refused upgrade by its status: 401 and 403 end the trying for good, any other status is retried. */
  lemma RefusalsByStatus(acts: seq<Act>, code: int, later: seq<Act>)
    requires var s := Replay(acts); InPhase(s, s.generation, Dialling)
    requires forall a <- later :: !a.SetTarget?
    ensures var s := Replay(acts); var t := Apply(s, Refused(s.generation, code));
      if code == 401 || code == 403 then t.timers == 0 && Continue(t, later).dials == s.dials
      else t.timers == 1 && Apply(t, TimerFires).dials == s.dials + 1 && Live(Apply(t, TimerFires))
  {
    var s := Replay(acts);
    RunsAreFenced(acts);
    hide Replay;
    if code == 401 || code == 403 { NoRedialAfterTheEnd(acts, Refused(s.generation, code), later); }
    hide Continue;
  }

  /** How often a retry has been planned since the target was set or a handshake last gave a client. */
  function Failures(acts: seq<Act>): nat {
    if acts == [] then 0
    else
      var n := |acts| - 1;
      var s, t := Replay(acts[..n]), Replay(acts);
      if acts[n].SetTarget? || (acts[n].ShookHands? && t.client == Some(acts[n].gen)) then 0
      else Failures(acts[..n]) + if t.timers > s.timers then 1 else 0
  }

  /** The count that picks the delay of the next retry. */
  lemma {:induction false} RetryExactly(acts: seq<Act>)
    requires PossibleRun(acts)
    ensures Replay(acts).retry == Failures(acts)
  {
    if acts != [] {
      var n := |acts| - 1;
      PossiblePrefix(acts, n);
      RetryExactly(acts[..n]);
      RunsAreFenced(acts[..n]);
      assert Possible(Replay(acts[..n]), acts[n]);
      RetryStep(Replay(acts[..n]), acts[n]);
      hide PossibleRun, Fenced, Apply, Possible;
    }
  }

  lemma RetryStep(s: State, a: Act)
    requires Fenced(s) && Possible(s, a)
    ensures var t := Apply(s, a);
      t.retry == if a.SetTarget? || (a.ShookHands? && t.client == Some(a.gen)) then 0
                 else s.retry + if t.timers > s.timers then 1 else 0
  {}
}
