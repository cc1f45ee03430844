/** What a crash loop does to the sidecar, poll by poll (apps/desktop/src/main/supervisor.ts). */
module CrashLoop {
  import opened Basics
  import opened Supervisor

  function Do(s: State, a: Act, k: Config): State
    requires |k.backoffMs| > 0
  {
    match a
    case StartAct(now) => Start(s, now)
    case StopAct(_) => Stop(s)
    case TickAct(st, now) => Tick(s, st, now, k)
  }

  function Play(s: State, acts: seq<Act>, k: Config): State
    requires |k.backoffMs| > 0
  {
    if acts == [] then s else Do(Play(s, acts[..|acts| - 1], k), acts[|acts| - 1], k)
  }

  /** How often the process has been started. */
  function Launches(s: State, acts: seq<Act>, k: Config): nat
    requires |k.backoffMs| > 0
  {
    if acts == [] then 0
    else
      var n := |acts| - 1;
      var a := acts[n];
      Launches(s, acts[..n], k)
      + if a.StartAct? || (a.TickAct? && Restarts(Play(s, acts[..n], k), a.st, a.now)) then 1 else 0
  }

  lemma {:induction false} PlayJoins(s: State, a: seq<Act>, b: seq<Act>, k: Config)
    requires |k.backoffMs| > 0
    ensures Play(s, a + b, k) == Play(Play(s, a, k), b, k)
    ensures Launches(s, a + b, k) == Launches(s, a, k) + Launches(Play(s, a, k), b, k)
  {
    if b == [] {
      assert a + b == a;
    } else {
      var n := |b| - 1;
      PlayJoins(s, a, b[..n], k);
      assert (a + b)[..|a| + n] == a + b[..n] && (a + b)[|a| + n] == b[n];
      hide Do, Restarts;
    }
  }

  /** The process is up, but not for as long as it takes to be trusted again. */
  predicate Young(a: Act, k: Config) {
    && a.TickAct? && a.st.Running?
    && (a.st.startedAt.None? || a.now - a.st.startedAt.value < k.stableMs)
  }

  predicate Armed(s: State) {
    !s.fused && !s.manualStopped
  }

  /** Short runs leave the count alone, and a run that is long enough ends the streak. */
  lemma RunsAndTheCount(s: State, startedAt: int, rpc: bool, now: int, k: Config)
    requires |k.backoffMs| > 0
    ensures var t := Tick(s, Running(Some(startedAt), rpc), now, k);
      && t.crashCount == (if now - startedAt < k.stableMs then s.crashCount else 0)
      && t.fused == s.fused && t.manualStopped == s.manualStopped && t.nextRestartAt.None?
    ensures Tick(s, Running(None, rpc), now, k).crashCount == s.crashCount
  {}

  lemma {:induction false} ShortRunsKeepTheCount(s: State, young: seq<Act>, k: Config)
    requires |k.backoffMs| > 0 && s.nextRestartAt.None? && forall i :: 0 <= i < |young| ==> Young(young[i], k)
    ensures var t := Play(s, young, k);
      && t.crashCount == s.crashCount && t.fused == s.fused && t.manualStopped == s.manualStopped
      && t.nextRestartAt.None?
    ensures Launches(s, young, k) == 0
  {
    if young != [] { ShortRunsKeepTheCount(s, young[..|young| - 1], k); }
  }

  lemma {:induction false} EarlyPollsWait(s: State, due: int, early: seq<Act>, k: Config)
    requires |k.backoffMs| > 0 && Armed(s) && s.nextRestartAt == Some(due)
    requires forall i :: 0 <= i < |early| ==> early[i].TickAct? && early[i].st.Error? && early[i].now < due
    ensures Play(s, early, k) == s && Launches(s, early, k) == 0
  {
    if early != [] { EarlyPollsWait(s, due, early[..|early| - 1], k); }
  }

  /**
   * One turn of a crash loop after `n` counted crashes: a poll finds the crash, polls before the delay is over
   * wait, the next one starts the process, and it does not stay up for long.
   */
  ghost predicate Round(acts: seq<Act>, n: nat, k: Config)
    requires |k.backoffMs| > 0
  {
    exists a, b, early, young :: IsRound(acts, n, k, a, b, early, young)
  }

  predicate IsRound(acts: seq<Act>, n: nat, k: Config, a: int, b: int, early: seq<Act>, young: seq<Act>)
    requires |k.backoffMs| > 0
  {
    var due := a + k.backoffMs[if n < |k.backoffMs| then n else |k.backoffMs| - 1];
    && acts == [TickAct(Error, a)] + early + [TickAct(Error, b)] + young
    && (forall i :: 0 <= i < |early| ==> early[i].TickAct? && early[i].st.Error? && early[i].now < due)
    && due <= b
    && forall i :: 0 <= i < |young| ==> Young(young[i], k)
  }

  /** The supervisor waits with `n` crashes counted. */
  predicate Counting(s: State, n: nat) {
    Armed(s) && s.crashCount == n && s.nextRestartAt.None?
  }

  lemma OneTick(s: State, a: Act, k: Config)
    requires |k.backoffMs| > 0
    ensures Play(s, [a], k) == Do(s, a, k)
    ensures Launches(s, [a], k) == if a.StartAct? || (a.TickAct? && Restarts(s, a.st, a.now)) then 1 else 0
  {
    assert [a][..0] == [];
    hide Do, Restarts;
  }

  lemma RoundStartsOnce(s: State, acts: seq<Act>, n: nat, k: Config)
    requires |k.backoffMs| > 0 && Counting(s, n) && n < k.crashLoopLimit && Round(acts, n, k)
    ensures Counting(Play(s, acts, k), n + 1) && Launches(s, acts, k) == 1
  {
    var a, b, early, young :| IsRound(acts, n, k, a, b, early, young);
    var crash, start := TickAct(Error, a), TickAct(Error, b);
    var due := a + Delay(k, n);
    var s1 := Do(s, crash, k);
    assert s1 == s.(crashCount := n + 1, nextRestartAt := Some(due));
    OneTick(s, crash, k);
    EarlyPollsWait(s1, due, early, k);
    PlayJoins(s, [crash], early, k);
    OneTick(s1, start, k);
    var s2 := Do(s1, start, k);
    assert Counting(s2, n + 1);
    PlayJoins(s, [crash] + early, [start], k);
    ShortRunsKeepTheCount(s2, young, k);
    PlayJoins(s, [crash] + early + [start], young, k);
    hide Play, Launches, Do;
  }

  /** `n` turns of a crash loop, one after the other. */
  ghost predicate Crashes(rounds: seq<seq<Act>>, k: Config)
    requires |k.backoffMs| > 0
  {
    forall i :: 0 <= i < |rounds| ==> Round(rounds[i], i, k)
  }

  function Joined(rounds: seq<seq<Act>>): seq<Act> {
    if rounds == [] then [] else Joined(rounds[..|rounds| - 1]) + rounds[|rounds| - 1]
  }

  /** Up to the limit every crash is answered by one start. */
  lemma {:induction false} CrashesAreRestarted(s: State, rounds: seq<seq<Act>>, k: Config)
    requires |k.backoffMs| > 0 && Counting(s, 0) && Crashes(rounds, k) && |rounds| <= k.crashLoopLimit
    ensures Counting(Play(s, Joined(rounds), k), |rounds|) && Launches(s, Joined(rounds), k) == |rounds|
  {
    if rounds != [] {
      var n := |rounds| - 1;
      CrashesAreRestarted(s, rounds[..n], k);
      RoundStartsOnce(Play(s, Joined(rounds[..n]), k), rounds[n], n, k);
      PlayJoins(s, Joined(rounds[..n]), rounds[n], k);
      hide Play, Launches, Round;
    }
  }

  /** The crash after that blows the fuse: as many starts as the limit, then none. */
  lemma OneCrashTooMany(s: State, rounds: seq<seq<Act>>, now: int, k: Config)
    requires |k.backoffMs| > 0 && Counting(s, 0) && Crashes(rounds, k) && |rounds| == k.crashLoopLimit
    ensures var acts := Joined(rounds) + [TickAct(Error, now)];
      Play(s, acts, k).fused && Launches(s, acts, k) == k.crashLoopLimit
  {
    CrashesAreRestarted(s, rounds, k);
    var t := Play(s, Joined(rounds), k);
    OneTick(t, TickAct(Error, now), k);
    PlayJoins(s, Joined(rounds), [TickAct(Error, now)], k);
    hide Play, Launches;
  }

  /** After a stop by hand no poll starts the process, whatever it finds. */
  lemma {:induction false} StopHolds(s: State, acts: seq<Act>, k: Config)
    requires |k.backoffMs| > 0 && forall i :: 0 <= i < |acts| ==> !acts[i].StartAct?
    ensures Play(Stop(s), acts, k).manualStopped && Launches(Stop(s), acts, k) == 0
  {
    if acts != [] { StopHolds(s, acts[..|acts| - 1], k); }
  }

  /** Every start, by hand or by a poll, shows as a restart from then on, and a stop by hand ends that. */
  lemma StartsShow(s: State, a: Act, k: Config)
    requires |k.backoffMs| > 0
    ensures Launches(s, [a], k) == 1 ==> Play(s, [a], k).restartingSince == Some(a.now)
    ensures a.StopAct? ==> Play(s, [a], k).restartingSince.None?
  {
    OneTick(s, a, k);
    hide Play, Launches;
  }

  /** A poll that finds the process up or stopped drops the plan: the crash after it is counted, not answered. */
  lemma PlanIsDropped(s: State, st: Status, now: int, later: int, k: Config)
    requires |k.backoffMs| > 0 && !st.Error?
    ensures Launches(s, [TickAct(st, now), TickAct(Error, later)], k) == 0
  {
    var first, second := TickAct(st, now), TickAct(Error, later);
    OneTick(s, first, k);
    OneTick(Play(s, [first], k), second, k);
    PlayJoins(s, [first], [second], k);
    assert [first] + [second] == [first, second];
    hide Play, Launches;
  }

  predicate LongRun(a: Act, k: Config) {
    a.TickAct? && a.st.Running? && a.st.startedAt.Some? && a.now - a.st.startedAt.value >= k.stableMs
  }

  /** Without a long run and without a start by hand the process is not started more often than the limit. */
  lemma {:induction false} LaunchesAreBounded(s: State, acts: seq<Act>, k: Config)
    requires |k.backoffMs| > 0 && Counting(s, 0)
    requires forall i :: 0 <= i < |acts| ==> !acts[i].StartAct? && !LongRun(acts[i], k)
    ensures var t := Play(s, acts, k); var due := Launches(s, acts, k) + if t.nextRestartAt.Some? then 1 else 0;
      due <= t.crashCount && due <= k.crashLoopLimit && (!t.fused ==> t.crashCount <= k.crashLoopLimit)
  {
    if acts != [] { LaunchesAreBounded(s, acts[..|acts| - 1], k); }
  }

  /** The poll shows that a restart is over: the process answers, or has been up too long without. */
  predicate Settles(a: Act, since: int, k: Config) {
    a.TickAct? && a.st.Running? && (a.st.rpc || a.now - since >= k.restartTimeoutMs)
  }

  /** Without another start or a stop, the process counts as restarting if and only if no poll has shown otherwise. */
  lemma {:induction false} RestartingExactly(s: State, since: int, acts: seq<Act>, k: Config)
    requires |k.backoffMs| > 0 && s.restartingSince == Some(since) && Launches(s, acts, k) == 0
    requires forall i :: 0 <= i < |acts| ==> acts[i].TickAct?
    ensures Play(s, acts, k).restartingSince
      == if exists i :: 0 <= i < |acts| && Settles(acts[i], since, k) then None else Some(since)
  {
    if acts != [] {
      var n := |acts| - 1;
      RestartingExactly(s, since, acts[..n], k);
      assert forall i :: 0 <= i < n ==> acts[..n][i] == acts[i];
      TickSettles(Play(s, acts[..n], k), acts[n], k);
      hide Play, Settles, Restarts;
      assert Play(s, acts, k) == Do(Play(s, acts[..n], k), acts[n], k) by { LastAct(s, acts, k); }
    }
  }

  lemma LastAct(s: State, acts: seq<Act>, k: Config)
    requires |k.backoffMs| > 0 && acts != []
    ensures Play(s, acts, k) == Do(Play(s, acts[..|acts| - 1], k), acts[|acts| - 1], k)
  {}

  lemma TickSettles(s: State, a: Act, k: Config)
    requires |k.backoffMs| > 0 && a.TickAct? && !Restarts(s, a.st, a.now)
    ensures Do(s, a, k).restartingSince
      == if s.restartingSince.Some? && Settles(a, s.restartingSince.value, k) then None else s.restartingSince
  {}

  /** These are the runs the bounds and the fuse are about. */
  lemma {:induction false} PlayIsReplay(acts: seq<Act>, t0: int, k: Config)
    requires |k.backoffMs| > 0
    ensures Replay(acts, t0, k).s == Play(Initial, acts, k)
  {
    if acts != [] {
      PlayIsReplay(acts[..|acts| - 1], t0, k);
      hide Start, Stop, Tick;
    }
  }

  /** A start by hand, and the beginning, are such states. */
  lemma StartsCountFromZero(s: State, now: int)
    ensures Counting(Start(s, now), 0) && Counting(Initial, 0)
  {}
}
