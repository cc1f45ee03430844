/**
 * Crash restarts of the sidecar process (apps/desktop/src/main/supervisor.ts):
 * backoff, fuse and manual control. The clock and the polled process status are
 * arguments.
 */
module Supervisor {
  import opened Basics

  datatype Status = Running(startedAt: Option<int>, rpc: bool) | Stopped | Error

  datatype Config = Config(backoffMs: seq<nat>, crashLoopLimit: nat, stableMs: nat, restartTimeoutMs: nat)

  datatype State = State(
    fused: bool,
    crashCount: nat,
    manualStopped: bool,
    nextRestartAt: Option<int>,
    restartingSince: Option<int>)

  const Initial := State(false, 0, false, None, None)

  /** The delay after the crash with this index; the last entry repeats. */
  function Delay(k: Config, i: nat): nat
    requires |k.backoffMs| > 0
  {
    k.backoffMs[if i < |k.backoffMs| then i else |k.backoffMs| - 1]
  }

  function Start(s: State, now: int): State {
    State(false, 0, false, None, Some(now))
  }

  function Stop(s: State): State {
    s.(manualStopped := true, nextRestartAt := None, restartingSince := None)
  }

  /** The process has been up long enough for its crash streak to be over. */
  predicate Stable(s: State, st: Status, now: int, k: Config) {
    s.crashCount > 0 && st.Running? && st.startedAt.Some? && now - st.startedAt.value >= k.stableMs
  }

  /** The poll finds a crash it has to react to, and its restart is due. */
  predicate Restarts(s: State, st: Status, now: int) {
    st.Error? && !s.manualStopped && !s.fused && s.nextRestartAt.Some? && now >= s.nextRestartAt.value
  }

  function Tick(s: State, st: Status, now: int, k: Config): State
    requires |k.backoffMs| > 0
  {
    match st
    case Running(_, rpc) =>
      s.(nextRestartAt := None,
         crashCount := if Stable(s, st, now, k) then 0 else s.crashCount,
         restartingSince := if s.restartingSince.Some? && (rpc || now - s.restartingSince.value >= k.restartTimeoutMs)
                            then None else s.restartingSince)
    case Stopped => s.(nextRestartAt := None)
    case Error =>
      if s.manualStopped || s.fused then s
      else if s.nextRestartAt.None? then
        var crashes := s.crashCount + 1;
        if crashes > k.crashLoopLimit then s.(crashCount := crashes, fused := true)
        else s.(crashCount := crashes, nextRestartAt := Some(now + Delay(k, crashes - 1)))
      else if now >= s.nextRestartAt.value then s.(nextRestartAt := None, restartingSince := Some(now))
      else s
  }

  // ---- runs ----

  datatype Act = StartAct(now: int) | StopAct(now: int) | TickAct(st: Status, now: int)

  /** `starts` are the automatic starts, and `firstCrash` the first counted crash, since the last re-arm or stable run. */
  datatype History = History(s: State, starts: seq<int>, firstCrash: Option<int>, now: int)

  function Apply(h: History, a: Act, k: Config): History
    requires |k.backoffMs| > 0
  {
    match a
    case StartAct(now) => History(Start(h.s, now), [], None, now)
    case StopAct(now) => h.(s := Stop(h.s), now := now)
    case TickAct(st, now) =>
      var s := Tick(h.s, st, now, k);
      if Stable(h.s, st, now, k) then History(s, [], None, now)
      else History(s,
                   if Restarts(h.s, st, now) then h.starts + [now] else h.starts,
                   if h.firstCrash.None? && s.crashCount > h.s.crashCount then Some(now) else h.firstCrash,
                   now)
  }

  function Replay(acts: seq<Act>, t0: int, k: Config): History
    requires |k.backoffMs| > 0
  {
    if acts == [] then History(Initial, [], None, t0)
    else Apply(Replay(acts[..|acts| - 1], t0, k), acts[|acts| - 1], k)
  }

  /** The clock never goes back. */
  predicate Forward(acts: seq<Act>, t0: int) {
    acts == [] ||
    (var n := |acts| - 1; Forward(acts[..n], t0) && (if n == 0 then t0 else acts[n - 1].now) <= acts[n].now)
  }

  predicate NonDecreasing(k: Config) {
    forall i, j :: 0 <= i <= j < |k.backoffMs| ==> k.backoffMs[i] <= k.backoffMs[j]
  }

  function TotalDelay(k: Config, n: nat): nat
    requires |k.backoffMs| > 0
  {
    if n == 0 then 0 else TotalDelay(k, n - 1) + Delay(k, n - 1)
  }

  /** Automatic starts and a pending one are paid for by counted crashes, and a fused supervisor has none pending. */
  predicate Counted(h: History, k: Config) {
    && |h.starts| + (if h.s.nextRestartAt.Some? then 1 else 0) <= h.s.crashCount
    && |h.starts| + (if h.s.nextRestartAt.Some? then 1 else 0) <= k.crashLoopLimit
    && (!h.s.fused ==> h.s.crashCount <= k.crashLoopLimit)
    && (h.s.fused || h.s.manualStopped ==> h.s.nextRestartAt.None?)
  }

  /** Since the last re-arm or stable run there have been at most `crashLoopLimit` automatic starts. */
  lemma {:induction false} StartsAreBounded(acts: seq<Act>, t0: int, k: Config)
    requires |k.backoffMs| > 0
    ensures Counted(Replay(acts, t0, k), k)
  {
    if acts != [] { StartsAreBounded(acts[..|acts| - 1], t0, k); }
  }

  /** A poll starts the process only with the fuse intact, no manual stop, and its restart due. */
  lemma PollStartsOnlyWhenArmed(acts: seq<Act>, t0: int, k: Config, st: Status, now: int)
    requires |k.backoffMs| > 0
    ensures var h := Replay(acts, t0, k); var g := Apply(h, TickAct(st, now), k);
      && (|g.starts| > |h.starts| ==> !h.s.fused && !h.s.manualStopped && st.Error? && |h.starts| < k.crashLoopLimit)
      && (h.s.fused ==> g.s.fused && g.s.nextRestartAt.None?)
  {
    StartsAreBounded(acts, t0, k);
  }

  /** The `i`-th automatic start, and the pending one, respect the sum of the delays before them. */
  predicate Spaced(h: History, k: Config)
    requires |k.backoffMs| > 0
  {
    && (h.firstCrash.None? <==> h.s.crashCount == 0)
    && (h.firstCrash.None? ==> h.starts == [] && h.s.nextRestartAt.None?)
    && (h.firstCrash.Some? ==>
          && h.firstCrash.value <= h.now
          && (forall i :: 0 <= i < |h.starts| ==>
                h.firstCrash.value + TotalDelay(k, i + 1) <= h.starts[i] && h.starts[i] <= h.now)
          && (h.s.nextRestartAt.Some? ==>
                h.s.nextRestartAt.value >= h.firstCrash.value + TotalDelay(k, |h.starts| + 1)))
  }

  lemma DelaysGrow(k: Config, i: nat, j: nat)
    requires |k.backoffMs| > 0 && NonDecreasing(k) && i <= j
    ensures Delay(k, i) <= Delay(k, j)
  {}

  /** A counted crash puts the next start at least one more delay away. */
  lemma CrashKeepsSpacing(h: History, now: int, k: Config)
    requires |k.backoffMs| > 0 && NonDecreasing(k) && Counted(h, k) && Spaced(h, k) && h.now <= now
    requires !h.s.manualStopped && !h.s.fused && h.s.nextRestartAt.None?
    ensures Spaced(Apply(h, TickAct(Error, now), k), k)
  {
    var n := |h.starts|;
    DelaysGrow(k, n, h.s.crashCount);
    assert TotalDelay(k, n + 1) == TotalDelay(k, n) + Delay(k, n);
    if n > 0 {
      assert h.firstCrash.value + TotalDelay(k, n) <= h.starts[n - 1];
    }
    hide TotalDelay, Delay, NonDecreasing;
  }

  lemma ActKeepsSpacing(h: History, a: Act, k: Config)
    requires |k.backoffMs| > 0 && NonDecreasing(k) && Counted(h, k) && Spaced(h, k) && h.now <= a.now
    ensures Spaced(Apply(h, a, k), k)
  {
    hide TotalDelay, Delay, NonDecreasing;
    if a.TickAct? && a.st.Error? && !h.s.manualStopped && !h.s.fused && h.s.nextRestartAt.None? {
      CrashKeepsSpacing(h, a.now, k);
    }
  }

  lemma {:induction false} SpacingHolds(acts: seq<Act>, t0: int, k: Config)
    requires |k.backoffMs| > 0 && NonDecreasing(k) && Forward(acts, t0)
    ensures var h := Replay(acts, t0, k);
      && Counted(h, k) && Spaced(h, k)
      && h.now == if acts == [] then t0 else acts[|acts| - 1].now
  {
    StartsAreBounded(acts, t0, k);
    if acts != [] {
      var n := |acts| - 1;
      SpacingHolds(acts[..n], t0, k);
      ActKeepsSpacing(Replay(acts[..n], t0, k), acts[n], k);
    }
  }

  /** The n-th automatic start of a streak comes at least the sum of the first n delays after its first counted crash. */
  lemma BackoffIsHonoured(acts: seq<Act>, t0: int, k: Config, i: nat)
    requires |k.backoffMs| > 0 && NonDecreasing(k) && Forward(acts, t0)
    requires i < |Replay(acts, t0, k).starts|
    ensures var h := Replay(acts, t0, k);
      h.firstCrash.Some? && h.starts[i] >= h.firstCrash.value + TotalDelay(k, i + 1)
  {
    SpacingHolds(acts, t0, k);
  }

  // ---- the fuse ----

  /** The poll counts one crash more than the limit allows. */
  predicate Blows(s: State, a: Act, k: Config) {
    && a.TickAct? && a.st.Error? && !s.manualStopped && !s.fused && s.nextRestartAt.None?
    && s.crashCount >= k.crashLoopLimit
  }

  function Blowings(acts: seq<Act>, t0: int, k: Config): seq<bool>
    requires |k.backoffMs| > 0
  {
    seq(|acts|, i requires 0 <= i < |acts| => Blows(Replay(acts[..i], t0, k).s, acts[i], k))
  }

  function Rearmings(acts: seq<Act>): seq<bool> {
    seq(|acts|, i requires 0 <= i < |acts| => acts[i].StartAct?)
  }

  lemma FuseStep(h: History, a: Act, k: Config)
    requires |k.backoffMs| > 0
    ensures Apply(h, a, k).s.fused <==> Blows(h.s, a, k) || (!a.StartAct? && h.s.fused)
  {}

  lemma {:induction false} FuseIsLatched(acts: seq<Act>, t0: int, k: Config)
    requires |k.backoffMs| > 0
    ensures Replay(acts, t0, k).s.fused <==> Latched(Blowings(acts, t0, k), Rearmings(acts))
  {
    if acts != [] {
      hide Apply, Blows;
      var n := |acts| - 1;
      FuseIsLatched(acts[..n], t0, k);
      FuseStep(Replay(acts[..n], t0, k), acts[n], k);
      assert forall i :: 0 <= i < n ==> acts[..n][..i] == acts[..i];
      assert Blowings(acts, t0, k)[..n] == Blowings(acts[..n], t0, k);
      assert Rearmings(acts)[..n] == Rearmings(acts[..n]);
    }
  }

  /** The fuse is blown if and only if a crash streak has blown it and no start by hand has come since. */
  lemma FusedExactly(acts: seq<Act>, t0: int, k: Config)
    requires |k.backoffMs| > 0
    ensures Replay(acts, t0, k).s.fused
      <==> exists i :: 0 <= i < |acts| && Blows(Replay(acts[..i], t0, k).s, acts[i], k)
             && forall j :: i < j < |acts| ==> !acts[j].StartAct?
  {
    hide Replay, Blows, Latched;
    var on, off := Blowings(acts, t0, k), Rearmings(acts);
    FuseIsLatched(acts, t0, k);
    LatchedExactly(on, off);
    assert forall i :: 0 <= i < |acts| ==> on[i] == Blows(Replay(acts[..i], t0, k).s, acts[i], k);
    assert forall j :: 0 <= j < |acts| ==> off[j] == acts[j].StartAct?;
  }

  /**
   * Once blown, the fuse holds: until a start by hand no poll starts the process, however long some run
   * stays up in between and whatever the streak counts by then.
   */
  lemma BlownFuseHolds(acts: seq<Act>, t0: int, k: Config, i: nat)
    requires |k.backoffMs| > 0 && i < |acts| && Blows(Replay(acts[..i], t0, k).s, acts[i], k)
    requires forall j :: i < j < |acts| ==> !acts[j].StartAct?
    ensures Replay(acts, t0, k).s.fused
    ensures forall j :: i <= j < |acts| && acts[j].TickAct? ==>
      !Restarts(Replay(acts[..j], t0, k).s, acts[j].st, acts[j].now)
  {
    FusedExactly(acts, t0, k);
    forall j | i < j < |acts| && acts[j].TickAct?
      ensures !Restarts(Replay(acts[..j], t0, k).s, acts[j].st, acts[j].now)
    {
      FusedExactly(acts[..j], t0, k);
      assert acts[..j][..i] == acts[..i] && acts[..j][i] == acts[i];
    }
  }

  // ---- the object ----

  class SidecarSupervisor {
    const config: Config
    var fused: bool
    var crashCount: nat
    var manualStopped: bool
    var nextRestartAt: Option<int>
    var restartingSince: Option<int>
    /** How often `manager.start` has been called. */
    var launches: nat

    constructor (config: Config)
      ensures Value() == Initial && this.config == config && launches == 0
    {
      this.config := config;
      fused, crashCount, manualStopped, nextRestartAt, restartingSince, launches := false, 0, false, None, None, 0;
    }

    function Value(): State
      reads this
    {
      State(fused, crashCount, manualStopped, nextRestartAt, restartingSince)
    }

    method Rearm()
      modifies this`fused, this`crashCount, this`nextRestartAt
      ensures Value() == old(Value()).(fused := false, crashCount := 0, nextRestartAt := None)
    {
      fused := false;
      crashCount := 0;
      nextRestartAt := None;
    }

    method ManualStart(now: int)
      modifies this
      ensures Value() == Start(old(Value()), now) && launches == old(launches) + 1
    {
      manualStopped := false;
      Rearm();
      restartingSince := Some(now);
      launches := launches + 1;
    }

    method ManualStop()
      modifies this`manualStopped, this`nextRestartAt, this`restartingSince
      ensures Value() == Stop(old(Value()))
    {
      manualStopped := true;
      nextRestartAt := None;
      restartingSince := None;
    }

    method Poll(st: Status, now: int)
      requires |config.backoffMs| > 0
      modifies this
      ensures Value() == Tick(old(Value()), st, now, config)
      ensures launches == old(launches) + if Restarts(old(Value()), st, now) then 1 else 0
    {
      if st.Running? {
        nextRestartAt := None;
        if crashCount > 0 && st.startedAt.Some? && now - st.startedAt.value >= config.stableMs {
          crashCount := 0;
        }
        if restartingSince.Some? && (st.rpc || now - restartingSince.value >= config.restartTimeoutMs) {
          restartingSince := None;
        }
      } else if st.Error? && !manualStopped && !fused {
        if nextRestartAt.None? {
          crashCount := crashCount + 1;
          if crashCount > config.crashLoopLimit {
            fused := true;
          } else {
            nextRestartAt := Some(now + Delay(config, crashCount - 1));
          }
        } else if now >= nextRestartAt.value {
          nextRestartAt := None;
          restartingSince := Some(now);
          launches := launches + 1;
        }
      } else if st.Stopped? {
        nextRestartAt := None;
      }
    }
  }
}
