/**
 * One connection from the host's events to its socket: what the subscriptions
 * select goes through the bounded queue (packages/agent-server/src/server.ts).
 */
module Feed {
  import opened Basics
  import opened Delivery
  import opened ServerModel
  import opened Subscriptions
  import Outbox

  /** An act at the server with the body its notice would have, or a step of this connection's queue. */
  datatype Item = Happens(act: Delivery.Act, body: string) | Queue(step: Outbox.Step)

  function Acts(items: seq<Item>): seq<Delivery.Act> {
    if items == [] then []
    else
      var n := |items| - 1;
      Acts(items[..n]) + if items[n].Happens? then [items[n].act] else []
  }

  function Notice(e: Event, body: string): Outbox.Message {
    Outbox.Message(Some(NoticeOf(e)), body)
  }

  /** What an act hands to the queue of a connection that stands like this. */
  function Offer(v: View, a: Delivery.Act, body: string): seq<Outbox.Step> {
    match EventOf(a)
    case None => []
    case Some(e) =>
      match SessionOf(e, v.books.runs)
      case None => []
      case Some(sid) => if Receives(v.conn, sid, e) then [Outbox.Enqueue(Notice(e, body))] else []
  }

  function Steps(v: View, items: seq<Item>): seq<Outbox.Step> {
    if items == [] then []
    else
      var n := |items| - 1;
      Steps(v, items[..n])
      + match items[n]
        case Queue(s) => [s]
        case Happens(a, body) => Offer(Watch(v, Acts(items[..n])), a, body)
  }

  /** The queue and its history after all that. */
  function Log(v: View, cap: nat, items: seq<Item>): Outbox.History {
    Outbox.Replay(cap, Steps(v, items))
  }

  /** The notice of an event of the turn that the connection takes, unless it is a delta and the queue has no room. */
  function Owed(optOut: set<string>, turn: set<string>, room: bool, item: Item): seq<Outbox.Message> {
    if item.Happens? && EventOf(item.act).Some? then
      var e := EventOf(item.act).value;
      if TurnEvent(e, turn) && NoticeOf(e) !in optOut && (room || !Outbox.Droppable(Notice(e, item.body)))
      then [Notice(e, item.body)] else []
    else []
  }

  predicate Room(v: View, cap: nat, items: seq<Item>) {
    |Log(v, cap, items).box.queue| < cap
  }

  /** Those notices, in order, over all that happens. */
  function TurnNotices(v: View, r: string, cap: nat, items: seq<Item>): seq<Outbox.Message> {
    if items == [] then []
    else
      var n := |items| - 1;
      TurnNotices(v, r, cap, items[..n])
      + Owed(v.conn.optOut, Turn(r, Acts(items[..n])), Room(v, cap, items[..n]), items[n])
  }

  predicate Subsequence<T(==)>(a: seq<T>, b: seq<T>) {
    a == [] ||
    (b != [] &&
     var m, n := |a| - 1, |b| - 1;
     Subsequence(a, b[..n]) || (a[m] == b[n] && Subsequence(a[..m], b[..n])))
  }

  lemma SubsequenceGrows<T>(a: seq<T>, b: seq<T>, x: seq<T>, y: T)
    requires Subsequence(a, b) && (x == [] || x == [y])
    ensures Subsequence(a + x, b + [y])
  {
    assert (b + [y])[..|b|] == b;
    if x == [] { assert a + x == a; } else { assert (a + x)[..|a|] == a; }
  }

  lemma {:induction false} OptOutStays(v: View, acts: seq<Delivery.Act>)
    ensures Watch(v, acts).conn.optOut == v.conn.optOut
  {
    if acts != [] { OptOutStays(v, acts[..|acts| - 1]); }
  }

  /** One queue step: an open queue was open before, and takes a message that may not be dropped. */
  lemma StepTakes(cap: nat, h: Outbox.History, s: Outbox.Step)
    requires Outbox.Ordered(h, cap) && !Outbox.Record(h, cap, s).box.closed
    ensures !h.box.closed
    ensures var g := Outbox.Record(h, cap, s);
      && |g.offered| == |g.kept| && (s.Enqueue? ==> |g.kept| > 0)
      && Outbox.Marked(g.offered, g.kept)
         == Outbox.Marked(h.offered, h.kept) + (if s.Enqueue? && g.kept[|g.kept| - 1] then [s.m] else [])
      && (s.Enqueue? ==> g.kept[|g.kept| - 1] || (Outbox.Droppable(s.m) && |h.box.queue| >= cap))
  {
    if s.Enqueue? { Outbox.MarkedGrows(h.offered, h.kept, s.m, |h.box.queue| < cap); }
  }

  /** What an act hands over is owed at most, and everything owed is handed over. */
  lemma OwedIsOffered(v: View, turn: set<string>, room: bool, item: Item)
    requires Follows(v, turn) && item.Happens?
    ensures var o := Offer(v, item.act, item.body); var x := Owed(v.conn.optOut, turn, room, item);
      && (o == [] ==> x == [])
      && (o != [] ==> |o| == 1 && o[0].Enqueue? && (x == [] || (x == [o[0].m] && (room || !Outbox.Droppable(o[0].m)))))
  {
    var e := EventOf(item.act);
    if e.Some? && TurnEvent(e.value, turn) && NoticeOf(e.value) !in v.conn.optOut {
      TurnEventsArrive(v, turn, e.value);
    }
  }

  lemma LogGrows(v: View, cap: nat, items: seq<Item>, steps: seq<Outbox.Step>)
    requires items != [] && |steps| <= 1 && Steps(v, items) == Steps(v, items[..|items| - 1]) + steps
    ensures var h := Log(v, cap, items[..|items| - 1]);
      Log(v, cap, items) == if steps == [] then h else Outbox.Record(h, cap, steps[0])
  {
    hide Steps, Outbox.Record;
    var before := Steps(v, items[..|items| - 1]);
    if steps == [] {
      assert before + steps == before;
    } else {
      assert (before + steps)[..|before|] == before && (before + steps)[|before|] == steps[0];
    }
  }

  /** One more step of the queue, which owes `x` of what it is offered. */
  lemma LogKeepsNotices(cap: nat, h: Outbox.History, s: Outbox.Step, owed: seq<Outbox.Message>, x: seq<Outbox.Message>)
    requires Outbox.Ordered(h, cap) && Subsequence(owed, Outbox.Marked(h.offered, h.kept))
    requires !Outbox.Record(h, cap, s).box.closed
    requires x == [] || (s.Enqueue? && x == [s.m] && (|h.box.queue| < cap || !Outbox.Droppable(s.m)))
    ensures var g := Outbox.Record(h, cap, s);
      |g.offered| == |g.kept| && Subsequence(owed + x, Outbox.Marked(g.offered, g.kept))
  {
    var g := Outbox.Record(h, cap, s);
    StepTakes(cap, h, s);
    hide *;
    var taken := Outbox.Marked(h.offered, h.kept);
    if s.Enqueue? && g.kept[|g.kept| - 1] {
      SubsequenceGrows(owed, taken, x, s.m);
    } else {
      assert owed + x == owed && taken + [] == taken;
    }
  }

  lemma {:induction false} NoticesAreKept(v: View, r: string, cap: nat, items: seq<Item>)
    requires Follows(v, {r}) && Unfinished(v, r, Acts(items))
    requires !Log(v, cap, items).box.closed
    ensures var h := Log(v, cap, items);
      |h.offered| == |h.kept| && Subsequence(TurnNotices(v, r, cap, items), Outbox.Marked(h.offered, h.kept))
  {
    if items != [] {
      hide Watch, Turn, Follows, Unfinished, Owed, Offer, Log, Subsequence, Outbox.Marked, Outbox.Ordered;
      var n := |items| - 1;
      var acts := Acts(items[..n]);
      var h := Log(v, cap, items[..n]);
      var x := Owed(v.conn.optOut, Turn(r, acts), Room(v, cap, items[..n]), items[n]);
      var steps := match items[n] case Queue(s) => [s] case Happens(a, body) => Offer(Watch(v, acts), a, body);
      ItemFacts(v, r, items, Room(v, cap, items[..n]), steps, x);
      LogGrows(v, cap, items, steps);
      Outbox.QueueIsLossless(cap, Steps(v, items[..n]));
      LogIs(v, cap, items[..n]);
      if steps == [] {
        NoticesAreKept(v, r, cap, items[..n]);
        assert TurnNotices(v, r, cap, items[..n]) + x == TurnNotices(v, r, cap, items[..n]);
      } else {
        StepTakes(cap, h, steps[0]);
        NoticesAreKept(v, r, cap, items[..n]);
        LogKeepsNotices(cap, h, steps[0], TurnNotices(v, r, cap, items[..n]), x);
      }
    }
  }

  lemma LogIs(v: View, cap: nat, items: seq<Item>)
    ensures Log(v, cap, items) == Outbox.Replay(cap, Steps(v, items))
  {}

  /** The last item: what it hands to the queue, what it owes, and the acts before it. */
  lemma ItemFacts(v: View, r: string, items: seq<Item>, room: bool, steps: seq<Outbox.Step>, x: seq<Outbox.Message>)
    requires Follows(v, {r}) && Unfinished(v, r, Acts(items)) && items != []
    requires var n := |items| - 1; var acts := Acts(items[..n]);
      && x == Owed(v.conn.optOut, Turn(r, acts), room, items[n])
      && steps == match items[n] case Queue(s) => [s] case Happens(a, body) => Offer(Watch(v, acts), a, body)
    ensures Unfinished(v, r, Acts(items[..|items| - 1])) && |steps| <= 1
    ensures x == []
            || (|steps| == 1 && steps[0].Enqueue? && x == [steps[0].m] && (room || !Outbox.Droppable(steps[0].m)))
  {
    hide Watch, Turn, Follows, Unfinished, Offer, TurnEvent, Outbox.Droppable;
    var n := |items| - 1;
    var acts := Acts(items[..n]);
    if items[n].Happens? {
      assert Acts(items)[..|acts|] == acts;
      UnfinishedPrefix(v, r, Acts(items));
      SubscribedToWholeTurn(v, r, acts);
      OptOutStays(v, acts);
      hide Owed;
      OwedIsOffered(Watch(v, acts), Turn(r, acts), room, items[n]);
    } else {
      assert Acts(items) == acts;
    }
  }

  /**
   * While the connection is open, what it has sent, is sending and has queued holds, in order, every notice of
   * the turn that it takes, but for text and reasoning deltas that found the queue full, whatever else it is sent
   * and however its sends go.
   */
  lemma NoTurnNoticeIsLost(v: View, r: string, cap: nat, items: seq<Item>)
    requires Follows(v, {r}) && Unfinished(v, r, Acts(items))
    ensures var h := Log(v, cap, items);
      !h.box.closed ==> Subsequence(TurnNotices(v, r, cap, items), h.sent + Outbox.Waiting(h.box))
  {
    hide Follows, Unfinished, Subsequence, Outbox.RefusalsAreDeltas, Outbox.Marked, Steps, Outbox.Replay;
    Outbox.QueueIsLossless(cap, Steps(v, items));
    if !Log(v, cap, items).box.closed { NoticesAreKept(v, r, cap, items); }
  }

  // ---- everything a connection is sent ----

  /** What the last item adds: the notice of an event the connection gets, or a reply, if the queue has room. */
  ghost function Added(v: View, cap: nat, before: seq<Item>, item: Item): seq<Outbox.Message> {
    match item
    case Queue(Enqueue(m)) => if Room(v, cap, before) then [m] else []
    case Queue(_) => []
    case Happens(a, body) =>
      if EventOf(a).Some? && Room(v, cap, before)
         && exists sid :: InSession(Watch(v, Acts(before)).books, EventOf(a).value, sid)
              && Gets(v, Acts(before), sid, EventOf(a).value)
      then [Notice(EventOf(a).value, body)]
      else []
  }

  ghost function Expected(v: View, cap: nat, items: seq<Item>): seq<Outbox.Message> {
    if items == [] then []
    else
      var n := |items| - 1;
      Expected(v, cap, items[..n]) + Added(v, cap, items[..n], items[n])
  }

  /** What an act hands to the queue, by the history of the connection. */
  lemma OfferExactly(v: View, acts: seq<Delivery.Act>, a: Delivery.Act, body: string)
    ensures var o := Offer(Watch(v, acts), a, body);
      o == if EventOf(a).Some? && exists sid :: InSession(Watch(v, acts).books, EventOf(a).value, sid)
                                            && Gets(v, acts, sid, EventOf(a).value)
           then [Outbox.Enqueue(Notice(EventOf(a).value, body))] else []
  {
    if EventOf(a).Some? {
      var e := EventOf(a).value;
      var w := Watch(v, acts);
      forall sid ensures SessionOf(e, w.books.runs) == Some(sid) <==> InSession(w.books, e, sid) {
        SessionOfExactly(w.books, e, sid);
      }
      forall sid ensures Receives(w.conn, sid, e) <==> Gets(v, acts, sid, e) { ReceivesExactly(v, acts, sid, e); }
      hide Watch, InSession, Gets, Receives, SessionOf;
    }
  }

  lemma LastItem(v: View, cap: nat, items: seq<Item>, steps: seq<Outbox.Step>)
    requires items != []
    requires var n := |items| - 1; var acts := Acts(items[..n]);
      steps == match items[n] case Queue(s) => [s] case Happens(a, body) => Offer(Watch(v, acts), a, body)
    ensures |steps| <= 1
    ensures var n := |items| - 1;
      Added(v, cap, items[..n], items[n])
      == if steps != [] && steps[0].Enqueue? && Room(v, cap, items[..n]) then [steps[0].m] else []
  {
    var n := |items| - 1;
    hide Watch, InSession, Gets, Room;
    if items[n].Happens? { OfferExactly(v, Acts(items[..n]), items[n].act, items[n].body); }
    hide Offer, Acts;
  }

  /**
   * While a connection is open, what it has sent, is sending and has queued is exactly the notices of the events
   * it gets and the replies, in order, less what found the queue full.
   */
  lemma {:induction false} FeedExactly(v: View, cap: nat, items: seq<Item>)
    requires !Log(v, cap, items).box.closed
    ensures var h := Log(v, cap, items);
      |h.offered| == |h.kept| && Outbox.Marked(h.offered, h.kept) == Expected(v, cap, items)
    ensures var h := Log(v, cap, items); h.sent + Outbox.Waiting(h.box) == Expected(v, cap, items)
  {
    hide Watch, Offer, Log, Added, Outbox.Marked, Outbox.RefusalsAreDeltas, Outbox.Waiting;
    LogIs(v, cap, items);
    Outbox.QueueIsLossless(cap, Steps(v, items));
    if items == [] {
      NothingYet(v, cap);
    } else {
      var n := |items| - 1;
      var acts := Acts(items[..n]);
      var h := Log(v, cap, items[..n]);
      var steps := match items[n] case Queue(s) => [s] case Happens(a, body) => Offer(Watch(v, acts), a, body);
      LastItem(v, cap, items, steps);
      LogGrows(v, cap, items, steps);
      Outbox.QueueIsLossless(cap, Steps(v, items[..n]));
      LogIs(v, cap, items[..n]);
      if steps != [] { StepTakes(cap, h, steps[0]); }
      FeedExactly(v, cap, items[..n]);
      hide Steps, Acts;
    }
  }

  lemma NothingYet(v: View, cap: nat)
    ensures var h := Log(v, cap, []); h.offered == [] && h.kept == [] && Outbox.Marked([], []) == []
  {}

  // ---- nothing but deltas is ever missing ----

  lemma OpenOneBefore(v: View, cap: nat, items: seq<Item>)
    requires items != [] && !Log(v, cap, items).box.closed
    ensures !Log(v, cap, items[..|items| - 1]).box.closed
  {
    hide Watch, Offer, Log, Acts, Outbox.Marked, Outbox.RefusalsAreDeltas, Outbox.Waiting;
    var n := |items| - 1;
    var acts := Acts(items[..n]);
    var steps := match items[n] case Queue(s) => [s] case Happens(a, body) => Offer(Watch(v, acts), a, body);
    LastItem(v, cap, items, steps);
    LogGrows(v, cap, items, steps);
    Outbox.QueueIsLossless(cap, Steps(v, items[..n]));
    LogIs(v, cap, items[..n]);
    hide Steps;
    if steps != [] { StepTakes(cap, Log(v, cap, items[..n]), steps[0]); }
  }

  lemma {:induction false} OpenBefore(v: View, cap: nat, items: seq<Item>, n: nat)
    requires n <= |items| && !Log(v, cap, items).box.closed
    ensures !Log(v, cap, items[..n]).box.closed
    decreases |items|
  {
    hide *;
    if n == |items| {
      assert items[..n] == items;
    } else {
      OpenOneBefore(v, cap, items);
      OpenBefore(v, cap, items[..|items| - 1], n);
      assert items[..|items| - 1][..n] == items[..n];
    }
  }

  lemma {:induction false} AddedStays(v: View, cap: nat, items: seq<Item>, i: nat, m: Outbox.Message)
    requires i < |items| && m in Added(v, cap, items[..i], items[i])
    ensures m in Expected(v, cap, items)
  {
    hide Added;
    var n := |items| - 1;
    if i < n {
      assert items[..n][..i] == items[..i];
      AddedStays(v, cap, items[..n], i, m);
    }
  }

  /** The item puts this message before the queue: a reply, or the notice of an event the connection gets. */
  ghost predicate Brings(v: View, before: seq<Item>, item: Item, m: Outbox.Message) {
    || item == Queue(Outbox.Enqueue(m))
    || (item.Happens? && EventOf(item.act).Some? && m == Notice(EventOf(item.act).value, item.body)
        && exists sid :: InSession(Watch(v, Acts(before)).books, EventOf(item.act).value, sid)
             && Gets(v, Acts(before), sid, EventOf(item.act).value))
  }

  predicate IsDelta(m: Outbox.Message) {
    m.notifies == Some("item/textDelta") || m.notifies == Some("item/reasoningDelta")
  }

  /** While the connection is open, every reply and every notice it gets but a delta is sent, in flight or queued. */
  lemma OnlyDeltasAreMissing(v: View, cap: nat, items: seq<Item>, i: nat, m: Outbox.Message)
    requires !Log(v, cap, items).box.closed
    requires i < |items| && Brings(v, items[..i], items[i], m) && !IsDelta(m)
    ensures var h := Log(v, cap, items); m in h.sent + Outbox.Waiting(h.box)
  {
    var upto := items[..i + 1];
    assert upto[..i] == items[..i] && upto[i] == items[i];
    FeedExactly(v, cap, items);
    OpenBefore(v, cap, items, i + 1);
    BroughtIsAdded(v, cap, upto, m);
    hide Log, Brings, Added, Outbox.Waiting;
    AddedStays(v, cap, items, i, m);
  }

  lemma BroughtIsAdded(v: View, cap: nat, items: seq<Item>, m: Outbox.Message)
    requires items != [] && !Log(v, cap, items).box.closed
    requires Brings(v, items[..|items| - 1], items[|items| - 1], m) && !IsDelta(m)
    ensures m in Added(v, cap, items[..|items| - 1], items[|items| - 1])
  {
    var n := |items| - 1;
    var acts := Acts(items[..n]);
    var steps := match items[n] case Queue(s) => [s] case Happens(a, body) => Offer(Watch(v, acts), a, body);
    if items[n].Happens? { OfferExactly(v, acts, items[n].act, items[n].body); }
    assert steps == [Outbox.Enqueue(m)];
    hide Watch, Offer, Log, Gets, InSession;
    LogGrows(v, cap, items, steps);
    Outbox.QueueIsLossless(cap, Steps(v, items[..n]));
    LogIs(v, cap, items[..n]);
    KeptHasRoom(cap, Log(v, cap, items[..n]), m);
    assert Room(v, cap, items[..n]);
  }

  lemma KeptHasRoom(cap: nat, h: Outbox.History, m: Outbox.Message)
    requires Outbox.Ordered(h, cap) && !Outbox.Record(h, cap, Outbox.Enqueue(m)).box.closed && !IsDelta(m)
    ensures |h.box.queue| < cap
  {
    StepTakes(cap, h, Outbox.Enqueue(m));
  }
}
