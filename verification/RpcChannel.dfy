/** What passes over one connection, read off its steps alone (packages/agent-client/src/client.ts, server.ts). */
module RpcChannel {
  import opened Basics
  import opened Rpc
  import opened RpcLink

  function Asks(steps: seq<Step>): nat {
    if steps == [] then 0
    else Asks(steps[..|steps| - 1]) + if steps[|steps| - 1].ClientAsks? then 1 else 0
  }

  /** The requests that left the client, in order; ids count all that were asked. */
  function Asked(steps: seq<Step>): seq<Raw> {
    if steps == [] then []
    else
      var n := |steps| - 1;
      match steps[n]
      case ClientAsks(name, params, true) => Asked(steps[..n]) + [Request(Num(Asks(steps[..n]) + 1), name, params)]
      case _ => Asked(steps[..n])
  }

  /** How many of them the server has read: one with each step, as long as there are any. */
  function Served(steps: seq<Step>): (n: nat)
    ensures n <= |Asked(steps)|
  {
    if steps == [] then 0
    else
      var n := |steps| - 1;
      if steps[n].ServerReads? && Served(steps[..n]) < |Asked(steps[..n])| then Served(steps[..n]) + 1
      else Served(steps[..n])
  }

  /** What the server's side goes through. */
  function TurnsOf(steps: seq<Step>): seq<Turn> {
    if steps == [] then []
    else
      var n := |steps| - 1;
      match steps[n]
      case ServerReads =>
        if Served(steps[..n]) < |Asked(steps[..n])|
        then TurnsOf(steps[..n]) + [Receives(Asked(steps[..n])[Served(steps[..n])])] else TurnsOf(steps[..n])
      case JobEnds(i, o) =>
        if o.Result? || o.Failure? then TurnsOf(steps[..n]) + [Finishes(i, o)] else TurnsOf(steps[..n])
      case _ => TurnsOf(steps[..n])
  }

  function FramesOf(answers: seq<Answer>): seq<Frame> {
    seq(|answers|, i requires 0 <= i < |answers| => answers[i].frame)
  }

  /** What the server has sent, in order: its answers, each when it is given, and its notifications. */
  function Frames(steps: seq<Step>): seq<Frame> {
    if steps == [] then []
    else
      var n := |steps| - 1;
      var was, now := ServeAll(TurnsOf(steps[..n])).answers, ServeAll(TurnsOf(steps)).answers;
      Frames(steps[..n]) +
      if steps[n].ServerNotes? then [Note(steps[n].name)]
      else if |was| <= |now| then FramesOf(now[|was|..]) else []
  }

  /** How many of them the client has read. */
  function Heard(steps: seq<Step>): (n: nat)
    ensures n <= |Frames(steps)|
  {
    if steps == [] then 0
    else
      var n := |steps| - 1;
      if steps[n].ClientReads? && Heard(steps[..n]) < |Frames(steps[..n])| then Heard(steps[..n]) + 1
      else Heard(steps[..n])
  }

  /** What the client goes through. */
  function CallsOf(steps: seq<Step>): seq<Call> {
    if steps == [] then []
    else
      var n := |steps| - 1;
      match steps[n]
      case ClientAsks(_, _, delivered) =>
        CallsOf(steps[..n]) + if delivered then [Call.Asks] else [Call.Asks, SendRejected(Asks(steps[..n]) + 1)]
      case ClientReads =>
        if Heard(steps[..n]) < |Frames(steps[..n])|
        then CallsOf(steps[..n]) + [Hears(Frames(steps[..n])[Heard(steps[..n])])] else CallsOf(steps[..n])
      case _ => CallsOf(steps[..n])
  }

  /** All but the first `k`. */
  function Rest<T>(s: seq<T>, k: nat): seq<T>
    requires k <= |s|
  {
    s[k..]
  }

  lemma RestGrows<T>(s: seq<T>, k: nat, more: seq<T>)
    requires k <= |s|
    ensures Rest(s + more, k) == Rest(s, k) + more
  {}

  lemma RestShrinks<T>(s: seq<T>, k: nat)
    requires k <= |s|
    ensures Rest(s, k) == [] <==> k == |s|
    ensures k < |s| ==> Rest(s, k)[0] == s[k] && Rest(s, k)[1..] == Rest(s, k + 1)
  {}

  ghost predicate Carried(l: Link, steps: seq<Step>) {
    && l.server == ServeAll(TurnsOf(steps)) && l.client == DoAll(CallsOf(steps))
    && l.up == Rest(Asked(steps), Served(steps)) && l.down == Rest(Frames(steps), Heard(steps))
    && !l.client.closed && l.client.nextId == Asks(steps) + 1
  }

  lemma ServedOnce(turns: seq<Turn>, t: Turn)
    ensures ServeAll(turns + [t]) == Serve(ServeAll(turns), t)
    ensures var was, now := ServeAll(turns).answers, ServeAll(turns + [t]).answers;
      now == was || (|now| == |was| + 1 && now[..|was|] == was)
  {
    assert (turns + [t])[..|turns|] == turns;
  }

  lemma Done(calls: seq<Call>, c: Call)
    ensures DoAll(calls + [c]) == Do(DoAll(calls), c)
  {
    assert (calls + [c])[..|calls|] == calls;
  }

  lemma SettleKeepsCount(c: Client, id: nat, o: Outcome)
    ensures Settle(c, id, o).nextId == c.nextId && Settle(c, id, o).closed == c.closed
  {}

  lemma LastNote(steps: seq<Step>)
    requires steps != [] && steps[|steps| - 1].ServerNotes?
    ensures var n := |steps| - 1; var front := steps[..n];
      && Asks(steps) == Asks(front) && Asked(steps) == Asked(front) && Served(steps) == Served(front)
      && TurnsOf(steps) == TurnsOf(front) && Frames(steps) == Frames(front) + [Note(steps[n].name)]
      && Heard(steps) == Heard(front) && CallsOf(steps) == CallsOf(front)
  {
    hide ServeAll, FramesOf;
  }

  lemma NoteCarries(steps: seq<Step>, l: Link)
    requires steps != [] && Carried(l, steps[..|steps| - 1]) && steps[|steps| - 1].ServerNotes?
    ensures Carried(Take(l, steps[|steps| - 1]), steps)
  {
    hide Asks, Asked, Served, TurnsOf, Frames, FramesOf, Heard, CallsOf, ServeAll, DoAll, Rest;
    var front := steps[..|steps| - 1];
    LastNote(steps);
    RestGrows(Frames(front), Heard(front), [Note(steps[|steps| - 1].name)]);
  }

  lemma StepCarries(steps: seq<Step>, l: Link)
    requires steps != [] && Carried(l, steps[..|steps| - 1]) && !steps[|steps| - 1].Breaks?
    ensures Carried(Take(l, steps[|steps| - 1]), steps)
  {
    hide Carried, Take;
    match steps[|steps| - 1]
    case ClientAsks(_, _, _) => AskCarries(steps, l);
    case ServerReads => ReadCarries(steps, l);
    case JobEnds(_, _) => EndCarries(steps, l);
    case ServerNotes(_) => NoteCarries(steps, l);
    case ClientReads => HearCarries(steps, l);
  }

  // ---- the last step, function by function ----

  lemma SameFrames(steps: seq<Step>)
    requires steps != [] && TurnsOf(steps) == TurnsOf(steps[..|steps| - 1]) && !steps[|steps| - 1].ServerNotes?
    ensures Frames(steps) == Frames(steps[..|steps| - 1])
  {
    hide ServeAll;
    assert Frames(steps[..|steps| - 1]) + [] == Frames(steps[..|steps| - 1]);
  }

  lemma LastAskGoesUp(steps: seq<Step>)
    requires steps != [] && steps[|steps| - 1].ClientAsks?
    ensures var n := |steps| - 1; var front, s := steps[..n], steps[n];
      && Asks(steps) == Asks(front) + 1
      && Asked(steps) == Asked(front) + (if s.delivered then [Request(Num(Asks(front) + 1), s.name, s.params)] else [])
      && Served(steps) == Served(front)
  {
    assert Asked(steps[..|steps| - 1]) + [] == Asked(steps[..|steps| - 1]);
  }

  lemma LastAskIsQuiet(steps: seq<Step>)
    requires steps != [] && steps[|steps| - 1].ClientAsks?
    ensures var front := steps[..|steps| - 1];
      TurnsOf(steps) == TurnsOf(front) && Frames(steps) == Frames(front) && Heard(steps) == Heard(front)
  {
    hide Asked, Served, ServeAll;
    SameFrames(steps);
  }

  lemma LastAskIsCalled(steps: seq<Step>)
    requires steps != [] && steps[|steps| - 1].ClientAsks?
    ensures var n := |steps| - 1; var front := steps[..n];
      CallsOf(steps) ==
        CallsOf(front) + if steps[n].delivered then [Call.Asks] else [Call.Asks, SendRejected(Asks(front) + 1)]
  {
    hide Asks, Asked, Frames, Heard;
  }

  lemma LastRead(steps: seq<Step>)
    requires steps != [] && steps[|steps| - 1].ServerReads?
    ensures var n := |steps| - 1; var front := steps[..n]; var more := Served(front) < |Asked(front)|;
      && Asks(steps) == Asks(front) && Asked(steps) == Asked(front)
      && Served(steps) == Served(front) + (if more then 1 else 0)
      && TurnsOf(steps) == TurnsOf(front) + (if more then [Receives(Asked(front)[Served(front)])] else [])
      && Heard(steps) == Heard(front) && CallsOf(steps) == CallsOf(front)
      && (!more ==> Frames(steps) == Frames(front))
  {
    hide ServeAll;
    if Served(steps[..|steps| - 1]) == |Asked(steps[..|steps| - 1])| { SameFrames(steps); }
  }

  lemma LastEnd(steps: seq<Step>)
    requires steps != [] && steps[|steps| - 1].JobEnds?
    ensures var n := |steps| - 1; var front, s := steps[..n], steps[n]; var told := ByServer(s.o);
      && Asks(steps) == Asks(front) && Asked(steps) == Asked(front) && Served(steps) == Served(front)
      && TurnsOf(steps) == TurnsOf(front) + (if told then [Finishes(s.i, s.o)] else [])
      && Heard(steps) == Heard(front) && CallsOf(steps) == CallsOf(front)
      && (!told ==> Frames(steps) == Frames(front))
  {
    hide ServeAll;
    if !ByServer(steps[|steps| - 1].o) { SameFrames(steps); }
  }

  lemma LastHear(steps: seq<Step>)
    requires steps != [] && steps[|steps| - 1].ClientReads?
    ensures var n := |steps| - 1; var front := steps[..n]; var more := Heard(front) < |Frames(front)|;
      && Asks(steps) == Asks(front) && Asked(steps) == Asked(front) && Served(steps) == Served(front)
      && TurnsOf(steps) == TurnsOf(front) && Frames(steps) == Frames(front)
      && Heard(steps) == Heard(front) + (if more then 1 else 0)
      && CallsOf(steps) == CallsOf(front) + if more then [Hears(Frames(front)[Heard(front)])] else []
  {
    hide ServeAll;
    SameFrames(steps);
  }

  lemma NewFrames(steps: seq<Step>)
    requires steps != [] && !steps[|steps| - 1].ServerNotes?
    ensures var front := steps[..|steps| - 1];
      var was, now := ServeAll(TurnsOf(front)).answers, ServeAll(TurnsOf(steps)).answers;
      |was| <= |now| ==> Frames(steps) == Frames(front) + FramesOf(now[|was|..])
  {
    hide ServeAll, TurnsOf, FramesOf;
  }

  lemma AskCarries(steps: seq<Step>, l: Link)
    requires steps != [] && Carried(l, steps[..|steps| - 1]) && steps[|steps| - 1].ClientAsks?
    ensures Carried(Take(l, steps[|steps| - 1]), steps)
  {
    hide Ask, Settle, Asks, Asked, Served, TurnsOf, Frames, FramesOf, Heard, CallsOf, ServeAll, DoAll, Rest;
    var n := |steps| - 1;
    var front, s := steps[..n], steps[n];
    LastAskGoesUp(steps);
    LastAskIsQuiet(steps);
    LastAskIsCalled(steps);
    AskCounts(l.client);
    Done(CallsOf(front), Call.Asks);
    if s.delivered {
      RestGrows(Asked(front), Served(front), [Request(Num(Asks(front) + 1), s.name, s.params)]);
    } else {
      AskFails(CallsOf(front), l.client, Asks(front) + 1);
      assert Asked(front) + [] == Asked(front);
    }
  }

  lemma AskFails(calls: seq<Call>, c: Client, id: nat)
    requires c == DoAll(calls) && !c.closed && c.nextId == id
    ensures var d := Settle(Ask(c), id, Unsent);
      d == DoAll(calls + [Call.Asks, SendRejected(id)]) && d.nextId == id + 1 && !d.closed
  {
    hide DoAll, Ask, Settle;
    Done(calls, Call.Asks);
    Done(calls + [Call.Asks], SendRejected(id));
    assert calls + [Call.Asks] + [SendRejected(id)] == calls + [Call.Asks, SendRejected(id)];
    AskCounts(c);
    SettleKeepsCount(Ask(c), id, Unsent);
  }

  lemma AskCounts(c: Client)
    requires !c.closed
    ensures !Ask(c).closed && Ask(c).nextId == c.nextId + 1
  {}

  /** What goes down when the server has moved on to `s`. */
  function Told(l: Link, s: Server): seq<Frame> {
    if |s.answers| > |l.server.answers| then [s.answers[|l.server.answers|].frame] else []
  }

  lemma SentIs(l: Link, s: Server)
    ensures Sent(l, s) == l.(server := s, down := l.down + Told(l, s))
  {
    assert l.down + [] == l.down;
  }

  lemma ToldIs(l: Link, steps: seq<Step>)
    requires steps != [] && !steps[|steps| - 1].ServerNotes? && l.server == ServeAll(TurnsOf(steps[..|steps| - 1]))
    requires var was, now := l.server.answers, ServeAll(TurnsOf(steps)).answers;
      now == was || (|now| == |was| + 1 && now[..|was|] == was)
    ensures Frames(steps) == Frames(steps[..|steps| - 1]) + Told(l, ServeAll(TurnsOf(steps)))
  {
    hide ServeAll, TurnsOf;
    NewFrames(steps);
    var was, now := l.server.answers, ServeAll(TurnsOf(steps)).answers;
    assert FramesOf(now[|was|..]) == Told(l, ServeAll(TurnsOf(steps)));
  }

  lemma ReadCarries(steps: seq<Step>, l: Link)
    requires steps != [] && Carried(l, steps[..|steps| - 1]) && steps[|steps| - 1].ServerReads?
    ensures Carried(Take(l, steps[|steps| - 1]), steps)
  {
    hide Receive, Sent, Told, Asks, Asked, Served, TurnsOf, Frames, FramesOf, Heard, CallsOf, ServeAll, DoAll, Rest;
    var front := steps[..|steps| - 1];
    LastRead(steps);
    RestShrinks(Asked(front), Served(front));
    if l.up != [] {
      var s := ServeAll(TurnsOf(steps));
      ServedOnce(TurnsOf(front), Receives(l.up[0]));
      ToldIs(l, steps);
      SentIs(l.(up := l.up[1..]), s);
      SameTold(l, l.(up := l.up[1..]), s);
      RestGrows(Frames(front), Heard(front), Told(l, s));
    } else {
      assert TurnsOf(front) + [] == TurnsOf(front);
    }
  }

  lemma SameTold(l: Link, m: Link, s: Server)
    requires l.server == m.server
    ensures Told(l, s) == Told(m, s)
  {}

  lemma EndCarries(steps: seq<Step>, l: Link)
    requires steps != [] && Carried(l, steps[..|steps| - 1]) && steps[|steps| - 1].JobEnds?
    ensures Carried(Take(l, steps[|steps| - 1]), steps)
  {
    hide Finish, Sent, Told, Asks, Asked, Served, TurnsOf, Frames, FramesOf, Heard, CallsOf, ServeAll, DoAll, Rest;
    var n := |steps| - 1;
    var front := steps[..n];
    LastEnd(steps);
    if ByServer(steps[n].o) {
      var s := ServeAll(TurnsOf(steps));
      ServedOnce(TurnsOf(front), Finishes(steps[n].i, steps[n].o));
      ToldIs(l, steps);
      SentIs(l, s);
      RestGrows(Frames(front), Heard(front), Told(l, s));
    } else {
      assert TurnsOf(front) + [] == TurnsOf(front);
    }
  }

  lemma TakenDown(l: Link)
    requires !l.client.closed && l.down != []
    ensures Take(l, ClientReads) == l.(client := Hear(l.client, l.down[0]), down := l.down[1..])
  {
    hide Hear;
  }

  lemma HearCarries(steps: seq<Step>, l: Link)
    requires steps != [] && Carried(l, steps[..|steps| - 1]) && steps[|steps| - 1].ClientReads?
    ensures Carried(Take(l, steps[|steps| - 1]), steps)
  {
    hide Take, Hear, Asks, Asked, Served, TurnsOf, Frames, FramesOf, Heard, CallsOf, ServeAll, DoAll, Rest;
    var front := steps[..|steps| - 1];
    LastHear(steps);
    RestShrinks(Frames(front), Heard(front));
    if l.down != [] {
      TakenDown(l);
      Done(CallsOf(front), Hears(l.down[0]));
      HearCounts(l.client, l.down[0]);
    } else {
      NothingTaken(l);
      assert CallsOf(front) + [] == CallsOf(front);
    }
  }

  lemma NothingTaken(l: Link)
    requires l.down == []
    ensures Take(l, ClientReads) == l
  {}

  lemma HearCounts(c: Client, f: Frame)
    ensures Hear(c, f).nextId == c.nextId && Hear(c, f).closed == c.closed
  {}

  /**
   * Until the connection breaks, both ends go through exactly what the other has sent them, in order and once:
   * nothing is lost, doubled or held back but what is still on its way.
   */
  lemma {:induction false} ChannelsExactly(steps: seq<Step>)
    requires forall s <- steps :: !s.Breaks?
    ensures Carried(Run(steps), steps)
  {
    if steps != [] {
      var n := |steps| - 1;
      assert steps[n] in steps && forall s <- steps[..n] :: s in steps;
      ChannelsExactly(steps[..n]);
      StepCarries(steps, Run(steps[..n]));
      hide Carried, Take;
    }
  }

  /** When it breaks, what was on its way is lost, and the client never changes again. */
  lemma {:induction false} AfterTheBreak(l: Link, more: seq<Step>)
    ensures var b := Take(l, Breaks); b.client.closed && b.up == [] && b.down == [] && b.server == l.server
    ensures From(Take(l, Breaks), more).client == Take(l, Breaks).client
  {
    if more != [] { AfterTheBreak(l, more[..|more| - 1]); }
  }

  function From(l: Link, more: seq<Step>): Link {
    if more == [] then l else Take(From(l, more[..|more| - 1]), more[|more| - 1])
  }
}
