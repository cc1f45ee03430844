/**
 * The bounded outbound queue of a connection and its single flusher
 * (packages/agent-server/src/server.ts). `flush` is an async loop, so it is
 * cut where it waits: one step takes the next message and starts its send, the
 * completion of that send is another step.
 */
module Outbox {
  import opened Basics

  /** A reply carries no method; a notification does. */
  datatype Message = Message(notifies: Option<string>, body: string)

  predicate Droppable(m: Message) {
    m.notifies == Some("item/textDelta") || m.notifies == Some("item/reasoningDelta")
  }

  /** `inFlight` is the message whose send has started and not completed. */
  datatype Box = Box(queue: seq<Message>, flushing: bool, inFlight: Option<Message>, closed: bool)

  const EmptyBox := Box([], false, None, false)

  datatype Step = Enqueue(m: Message) | SendDone | SendFailed | Close

  /** The head of the flush loop: start the next send, or leave the loop. */
  function TakeNext(b: Box): Box {
    if b.queue != [] && !b.closed
    then b.(queue := b.queue[1..], inFlight := Some(b.queue[0]))
    else b.(inFlight := None, flushing := false)
  }

  function Closed(b: Box): Box {
    if b.closed then b else b.(closed := true, queue := [])
  }

  function Flush(b: Box): Box {
    if b.flushing || b.closed then b else TakeNext(b.(flushing := true))
  }

  function Apply(b: Box, cap: nat, s: Step): Box {
    match s
    case Enqueue(m) =>
      if b.closed then b
      else if |b.queue| >= cap then (if Droppable(m) then b else Closed(b))
      else Flush(b.(queue := b.queue + [m]))
    case SendDone => if b.inFlight.Some? then TakeNext(b) else b
    case SendFailed => if b.inFlight.Some? then Closed(b).(inFlight := None, flushing := false) else b
    case Close => Closed(b)
  }

  // ---- histories ----

  /** `offered` and `kept` record what was handed in while open and whether it was taken; `sent` what went out. */
  datatype History = History(box: Box, offered: seq<Message>, kept: seq<bool>, sent: seq<Message>)

  const Fresh := History(EmptyBox, [], [], [])

  function Record(h: History, cap: nat, s: Step): History {
    var b := Apply(h.box, cap, s);
    match s
    case Enqueue(m) =>
      if h.box.closed then h
      else History(b, h.offered + [m], h.kept + [|h.box.queue| < cap], h.sent)
    case SendDone =>
      History(b, h.offered, h.kept, if h.box.inFlight.Some? then h.sent + [h.box.inFlight.value] else h.sent)
    case _ => h.(box := b)
  }

  function Replay(cap: nat, steps: seq<Step>): History {
    if steps == [] then Fresh else Record(Replay(cap, steps[..|steps| - 1]), cap, steps[|steps| - 1])
  }

  /** The messages of `ms` whose mark is set, in order. */
  function Marked(ms: seq<Message>, marks: seq<bool>): seq<Message>
    requires |ms| == |marks|
  {
    if ms == [] then []
    else
      var n := |ms| - 1;
      Marked(ms[..n], marks[..n]) + if marks[n] then [ms[n]] else []
  }

  function Waiting(b: Box): seq<Message> {
    (if b.inFlight.Some? then [b.inFlight.value] else []) + b.queue
  }

  /** One active flusher exactly while a send is pending, and one whenever an open queue is not empty. */
  predicate Pumping(b: Box) {
    && (b.flushing <==> b.inFlight.Some?)
    && (!b.closed && b.queue != [] ==> b.flushing)
    && (b.closed ==> b.queue == [])
  }

  /** Messages refused while the queue is open are deltas; any other refusal has closed it, as its last act. */
  predicate RefusalsAreDeltas(h: History)
    requires |h.offered| == |h.kept|
  {
    forall i :: 0 <= i < |h.kept| && !h.kept[i] ==> Droppable(h.offered[i]) || (h.box.closed && i == |h.kept| - 1)
  }

  ghost predicate Ordered(h: History, cap: nat) {
    && |h.offered| == |h.kept|
    && |h.box.queue| <= cap
    && Pumping(h.box)
    && RefusalsAreDeltas(h)
    && (!h.box.closed ==> h.sent + Waiting(h.box) == Marked(h.offered, h.kept))
    && h.sent + Waiting(h.box) <= Marked(h.offered, h.kept)
  }

  lemma MarkedGrows(ms: seq<Message>, marks: seq<bool>, m: Message, mark: bool)
    requires |ms| == |marks|
    ensures Marked(ms + [m], marks + [mark]) == Marked(ms, marks) + if mark then [m] else []
  {
    assert (ms + [m])[..|ms|] == ms && (marks + [mark])[..|ms|] == marks;
  }

  lemma RefusalRecorded(h: History, g: History)
    requires |h.offered| == |h.kept| && RefusalsAreDeltas(h) && !h.box.closed
    requires |g.offered| == |g.kept| == |h.offered| + 1
    requires g.offered[..|h.offered|] == h.offered && g.kept[..|h.kept|] == h.kept
    requires g.kept[|h.kept|] || Droppable(g.offered[|h.kept|]) || g.box.closed
    ensures RefusalsAreDeltas(g)
  {
    forall i | 0 <= i < |h.kept| && !g.kept[i] ensures Droppable(g.offered[i]) {
      assert g.kept[i] == h.kept[i] && g.offered[i] == h.offered[i];
    }
  }

  lemma EnqueueKeepsOrder(h: History, cap: nat, m: Message)
    requires Ordered(h, cap) && !h.box.closed
    ensures Ordered(Record(h, cap, Enqueue(m)), cap)
  {
    var g := Record(h, cap, Enqueue(m));
    MarkedGrows(h.offered, h.kept, m, |h.box.queue| < cap);
    assert g.offered[..|h.offered|] == h.offered && g.kept[..|h.kept|] == h.kept;
    RefusalRecorded(h, g);
    hide Marked, RefusalsAreDeltas, Droppable;
    if |h.box.queue| < cap {
      assert Waiting(g.box) == Waiting(h.box) + [m];
      assert h.sent + Waiting(h.box) + [m] == h.sent + Waiting(g.box);
    } else {
      assert h.sent + Waiting(g.box) <= h.sent + Waiting(h.box);
    }
  }

  lemma SendKeepsOrder(h: History, cap: nat)
    requires Ordered(h, cap) && h.box.inFlight.Some?
    ensures Ordered(Record(h, cap, SendDone), cap)
  {
    var g := Record(h, cap, SendDone);
    hide Marked;
    assert h.sent + Waiting(h.box) == g.sent + h.box.queue;
    assert Waiting(g.box) == h.box.queue;
  }

  lemma StepKeepsOrder(h: History, cap: nat, s: Step)
    requires Ordered(h, cap)
    ensures Ordered(Record(h, cap, s), cap)
  {
    var g := Record(h, cap, s);
    hide Marked;
    match s
    case Enqueue(m) => if !h.box.closed { EnqueueKeepsOrder(h, cap, m); }
    case SendDone => if h.box.inFlight.Some? { SendKeepsOrder(h, cap); }
    case SendFailed => assert g.sent + Waiting(g.box) <= h.sent + Waiting(h.box);
    case Close => assert g.sent + Waiting(g.box) <= h.sent + Waiting(h.box);
  }

  /**
   * At every moment: at most one send is pending and the queue stays within its cap; while the
   * connection is open, what was sent, what is being sent and what waits are together exactly what was
   * handed in, in order, less deltas refused on overflow; and nothing waits without a flusher.
   */
  lemma {:induction false} QueueIsLossless(cap: nat, steps: seq<Step>)
    ensures Ordered(Replay(cap, steps), cap)
  {
    if steps != [] {
      QueueIsLossless(cap, steps[..|steps| - 1]);
      StepKeepsOrder(Replay(cap, steps[..|steps| - 1]), cap, steps[|steps| - 1]);
    }
  }

  /** While a queue stays open it refuses nothing but text and reasoning deltas: no reply and no other notice. */
  lemma OnlyDeltasAreRefused(cap: nat, steps: seq<Step>, i: nat)
    requires var h := Replay(cap, steps); !h.box.closed && i < |h.kept| && !h.kept[i]
    ensures var h := Replay(cap, steps);
      && i < |h.offered|
      && (h.offered[i].notifies == Some("item/textDelta") || h.offered[i].notifies == Some("item/reasoningDelta"))
  {
    QueueIsLossless(cap, steps);
    hide Replay, Marked, Pumping, Waiting;
  }

  /** What closes a connection: a close, a failed send, or anything but a delta where the queue is full. */
  predicate Breaks(b: Box, cap: nat, s: Step) {
    match s
    case Enqueue(m) =>
      |b.queue| >= cap && m.notifies != Some("item/textDelta") && m.notifies != Some("item/reasoningDelta")
    case SendDone => false
    case SendFailed => b.inFlight.Some?
    case Close => true
  }

  predicate BrokenAt(cap: nat, steps: seq<Step>, i: nat)
    requires i < |steps|
  {
    Breaks(Replay(cap, steps[..i]).box, cap, steps[i])
  }

  lemma BrokenInPrefix(cap: nat, steps: seq<Step>, n: nat, i: nat)
    requires i < n <= |steps|
    ensures BrokenAt(cap, steps[..n], i) <==> BrokenAt(cap, steps, i)
  {
    hide Replay, Breaks;
    assert steps[..n][..i] == steps[..i] && steps[..n][i] == steps[i];
  }

  /** Over every schedule the queue is closed if and only if some step has broken it; a delta too many never does. */
  lemma {:induction false} ClosedExactly(cap: nat, steps: seq<Step>)
    ensures Replay(cap, steps).box.closed <==> exists i: nat :: i < |steps| && BrokenAt(cap, steps, i)
  {
    if steps != [] {
      var n := |steps| - 1;
      ClosedExactly(cap, steps[..n]);
      BreakCloses(Replay(cap, steps[..n]), cap, steps[n]);
      LastRecord(cap, steps);
      assert BrokenAt(cap, steps, n) <==> Breaks(Replay(cap, steps[..n]).box, cap, steps[n]);
      hide Replay, Record, Breaks, BrokenAt;
      forall i: nat | i < n ensures BrokenAt(cap, steps[..n], i) <==> BrokenAt(cap, steps, i) {
        BrokenInPrefix(cap, steps, n, i);
      }
    }
  }

  lemma LastRecord(cap: nat, steps: seq<Step>)
    requires steps != []
    ensures Replay(cap, steps) == Record(Replay(cap, steps[..|steps| - 1]), cap, steps[|steps| - 1])
  {
    hide Record;
  }

  lemma BreakCloses(h: History, cap: nat, s: Step)
    ensures Record(h, cap, s).box.closed <==> h.box.closed || Breaks(h.box, cap, s)
  {}

  /** Once closed, a queue takes nothing and starts no send. */
  lemma NothingAfterClosing(cap: nat, steps: seq<Step>, s: Step)
    requires Replay(cap, steps).box.closed
    ensures var b := Replay(cap, steps).box; var c := Apply(b, cap, s);
      c.closed && c.queue == [] && (c.inFlight.None? || c.inFlight == b.inFlight) && (s.Enqueue? ==> c == b)
  {
    QueueIsLossless(cap, steps);
    hide Replay;
  }

  /** With every send completing, a queue of `n` messages is empty after `n + 1` completions. */
  lemma {:induction false} QueueDrains(cap: nat, h: History)
    requires Ordered(h, cap) && !h.box.closed && h.box.inFlight.Some?
    ensures var g := Completions(h, cap, |h.box.queue| + 1);
      !g.box.closed && !g.box.flushing && g.box.queue == [] && g.sent == Marked(h.offered, h.kept)
    decreases |h.box.queue|
  {
    var g := Record(h, cap, SendDone);
    StepKeepsOrder(h, cap, SendDone);
    if h.box.queue != [] {
      QueueDrains(cap, g);
    } else {
      assert Completions(g, cap, 0) == g;
    }
  }

  function Completions(h: History, cap: nat, n: nat): History
    decreases n
  {
    if n == 0 then h else Completions(Record(h, cap, SendDone), cap, n - 1)
  }
}
