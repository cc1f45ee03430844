/**
 * A client and the server's side of its connection, joined by two ordered channels
 * (packages/agent-client/src/client.ts, packages/agent-server/src/server.ts). The
 * outbound queue in between keeps order and drops no reply (module Outbox).
 */
module RpcLink {
  import opened Basics
  import opened Rpc

  datatype Link = Link(client: Client, server: Server, up: seq<Raw>, down: seq<Frame>)

  const NewLink := Link(NewClient, NewServer, [], [])

  /** `delivered` is false when the transport's `send` fails, so that the request never leaves. */
  datatype Step =
    | ClientAsks(name: string, params: Params, delivered: bool)
    | ServerReads
    | JobEnds(i: nat, o: Outcome)
    | ServerNotes(name: string)
    | ClientReads
    | Breaks

  predicate ByServer(o: Outcome) {
    o.Result? || o.Failure?
  }

  /** The server's new state, with the frames it answered sent down. */
  function Sent(l: Link, s: Server): Link {
    var n := |l.server.answers|;
    l.(server := s, down := if |s.answers| > n then l.down + [s.answers[n].frame] else l.down)
  }

  function Take(l: Link, s: Step): Link {
    match s
    case ClientAsks(name, params, delivered) =>
      var c := Ask(l.client);
      if l.client.closed then l
      else if delivered then l.(client := c, up := l.up + [Request(Num(l.client.nextId), name, params)])
      else l.(client := Settle(c, l.client.nextId, Unsent))
    case ServerReads =>
      if l.up == [] then l else Sent(l.(up := l.up[1..]), Receive(l.server, l.up[0]))
    case JobEnds(i, o) => if ByServer(o) then Sent(l, Finish(l.server, i, o)) else l
    case ServerNotes(name) => l.(down := l.down + [Note(name)])
    case ClientReads =>
      if l.down == [] then l
      else l.(client := if l.client.closed then l.client else Hear(l.client, l.down[0]), down := l.down[1..])
    case Breaks => l.(client := End(l.client), up := [], down := [])
  }

  function Run(steps: seq<Step>): Link {
    if steps == [] then NewLink else Take(Run(steps[..|steps| - 1]), steps[|steps| - 1])
  }

  // ---- where a request is ----

  function Numeric(id: Id): Option<nat> {
    if id.Num? then Some(id.n) else None
  }

  const UpNum := (r: Raw) => if r.Request? then Numeric(r.id) else None
  const JobNum := (j: Job) => Numeric(j.id)
  const DownNum := (f: Frame) => if f.Reply? then Numeric(f.id) else None

  function InFlight(l: Link, id: nat): nat {
    Count(UpNum, l.up, id) + Count(JobNum, l.server.jobs, id) + Count(DownNum, l.down, id)
  }

  /** A pending request is in exactly one place: on its way up, being worked on, or answered and on its way down. */
  ghost predicate Placed(l: Link) {
    !l.client.closed ==> forall id: nat :: InFlight(l, id) == Count(Itself, l.client.pending, id)
  }

  predicate IsAnswer(s: Server, f: Frame) {
    exists i :: 0 <= i < |s.answers| && s.answers[i].frame == f
  }

  /** Replies on their way down, and those already delivered, are the server's. */
  ghost predicate Honest(l: Link) {
    && (forall f <- l.down :: f.Reply? ==> IsAnswer(l.server, f))
    && (forall f <- l.down :: f.Reply? ==> ByServer(f.outcome))
    && (forall e <- l.client.settled :: ByServer(e.outcome) ==> IsAnswer(l.server, Reply(Num(e.id), e.outcome)))
  }

  function Sightings(l: Link, id: nat): nat {
    Count(UpNum, l.up, id) + Count(UpNum, l.server.arrived, id)
  }

  /** No id is used for two requests. */
  ghost predicate Distinct(l: Link) {
    && (forall id: nat :: Sightings(l, id) <= if 1 <= id < l.client.nextId then 1 else 0)
    && l.client.nextId >= 1
    && (forall r <- l.up :: r.Request? && r.id.Num?)
    && (forall r <- l.server.arrived :: r.Request? && r.id.Num?)
  }

  ghost predicate Sound(l: Link) {
    Accounted(l.client) && Correlated(l.server) && Placed(l) && Honest(l) && Distinct(l)
  }

  // ---- the client's steps ----

  lemma AskPlaces(l: Link, name: string, params: Params, delivered: bool)
    requires Sound(l) && !l.client.closed
    ensures Placed(Take(l, ClientAsks(name, params, delivered)))
  {
    var m := Take(l, ClientAsks(name, params, delivered));
    var n := l.client.nextId;
    var r := Request(Num(n), name, params);
    hide Accounted, Correlated, Honest, Distinct;
    forall id: nat ensures InFlight(m, id) == Count(Itself, m.client.pending, id) {
      assert InFlight(l, id) == Count(Itself, l.client.pending, id);
      CountAppend(Itself, l.client.pending, n, id);
      if delivered {
        CountAppend(UpNum, l.up, r, id);
      } else {
        var p := l.client.pending + [n];
        assert p[|l.client.pending|] == n;
        var i := IndexOf(p, n);
        CountWithout(Itself, p, i, id);
      }
    }
  }

  /** A reply on its way down is for a pending request, and settling that one removes its entry on both sides. */
  lemma ReplyIsAwaited(l: Link, n: nat, id: nat)
    requires Placed(l) && !l.client.closed && l.down != [] && DownNum(l.down[0]) == Some(n)
    ensures var i := IndexOf(l.client.pending, n);
      i < |l.client.pending| &&
      Count(Itself, Without(l.client.pending, i), id) + Has(Some(n), id) == Count(Itself, l.client.pending, id)
  {
    CountHas(DownNum, l.down, 0, n);
    assert InFlight(l, n) == Count(Itself, l.client.pending, n);
    var j := CountFinds(Itself, l.client.pending, n);
    assert l.client.pending[j] == n;
    CountWithout(Itself, l.client.pending, IndexOf(l.client.pending, n), id);
  }

  lemma ReadPlacesOne(l: Link, id: nat)
    requires Placed(l) && !l.client.closed && l.down != []
    ensures var m := Take(l, ClientReads); InFlight(m, id) == Count(Itself, m.client.pending, id)
  {
    var m, f := Take(l, ClientReads), l.down[0];
    assert InFlight(l, id) == Count(Itself, l.client.pending, id);
    assert m.up == l.up && m.server == l.server && m.down == Without(l.down, 0);
    CountWithout(DownNum, l.down, 0, id);
    if f.Reply? && f.id.Num? {
      ReplyIsAwaited(l, f.id.n, id);
      assert m.client.pending == Without(l.client.pending, IndexOf(l.client.pending, f.id.n));
      hide *;
      InFlightIs(l, id);
      InFlightIs(m, id);
    } else {
      assert m.client.pending == l.client.pending && DownNum(f).None?;
    }
  }

  lemma InFlightIs(l: Link, id: nat)
    ensures InFlight(l, id) == Count(UpNum, l.up, id) + Count(JobNum, l.server.jobs, id) + Count(DownNum, l.down, id)
  {}

  lemma ReadPlaces(l: Link)
    requires Placed(l) && !l.client.closed && l.down != []
    ensures Placed(Take(l, ClientReads))
  {
    forall id: nat ensures var m := Take(l, ClientReads); InFlight(m, id) == Count(Itself, m.client.pending, id) {
      ReadPlacesOne(l, id);
    }
    hide InFlight, Take;
  }

  // ---- the server's steps ----

  lemma ServePlaces(l: Link)
    requires Sound(l) && !l.client.closed && l.up != []
    ensures Placed(Take(l, ServerReads))
  {
    var m, r, s := Take(l, ServerReads), l.up[0], l.server;
    var k, v := |s.arrived|, Judge(s.initialized, r);
    assert r in l.up;
    assert v.id == r.id;
    hide Accounted, Correlated, Honest, Distinct, Judge;
    assert Without(l.up, 0) == l.up[1..];
    forall id: nat ensures InFlight(m, id) == Count(Itself, m.client.pending, id) {
      assert InFlight(l, id) == Count(Itself, l.client.pending, id);
      CountWithout(UpNum, l.up, 0, id);
      match v
      case ReplyNow(i, o) => CountAppend(DownNum, l.down, Reply(i, o), id);
      case Work(i) => CountAppend(JobNum, s.jobs, Job(k, i), id);
    }
  }

  lemma FinishPlaces(l: Link, i: nat, o: Outcome)
    requires Sound(l) && !l.client.closed
    ensures Placed(Take(l, JobEnds(i, o)))
  {
    var m, s := Take(l, JobEnds(i, o)), l.server;
    hide Accounted, Correlated, Honest, Distinct;
    if ByServer(o) && i < |s.jobs| {
      forall id: nat ensures InFlight(m, id) == Count(Itself, m.client.pending, id) {
        assert InFlight(l, id) == Count(Itself, l.client.pending, id);
        CountWithout(JobNum, s.jobs, i, id);
        CountAppend(DownNum, l.down, Reply(s.jobs[i].id, o), id);
      }
    }
  }

  lemma NotePlaces(l: Link, name: string)
    requires Placed(l)
    ensures Placed(Take(l, ServerNotes(name)))
  {
    forall id: nat ensures InFlight(Take(l, ServerNotes(name)), id) == InFlight(l, id) {
      CountAppend(DownNum, l.down, Note(name), id);
    }
  }

  lemma StepPlaces(l: Link, s: Step)
    requires Sound(l)
    ensures Placed(Take(l, s))
  {
    if l.client.closed {
      assert Take(l, s).client.closed;
    } else {
      match s
      case ClientAsks(name, params, delivered) => AskPlaces(l, name, params, delivered);
      case ServerReads => if l.up != [] { ServePlaces(l); }
      case JobEnds(i, o) => FinishPlaces(l, i, o);
      case ServerNotes(name) => NotePlaces(l, name);
      case ClientReads => if l.down != [] { ReadPlaces(l); }
      case Breaks =>
    }
  }

  lemma StepAccounts(l: Link, s: Step)
    requires Sound(l)
    ensures Accounted(Take(l, s).client) && Correlated(Take(l, s).server)
  {
    hide Accounted, Correlated, Placed, Honest, Distinct;
    match s
    case ClientAsks(_, _, delivered) =>
      DoAccounts(l.client, Asks);
      if !delivered { DoAccounts(Ask(l.client), SendRejected(l.client.nextId)); }
    case ServerReads => if l.up != [] { ReceiveCorrelates(l.server, l.up[0]); }
    case JobEnds(i, o) => FinishCorrelates(l.server, i, o);
    case ServerNotes(_) =>
    case ClientReads => if l.down != [] { DoAccounts(l.client, Hears(l.down[0])); }
    case Breaks => DoAccounts(l.client, Ends);
  }

  // ---- honesty ----

  lemma AnswerStays(s: Server, t: Server, f: Frame)
    requires IsAnswer(s, f) && |s.answers| <= |t.answers| && s.answers == t.answers[..|s.answers|]
    ensures IsAnswer(t, f)
  {
    var i :| 0 <= i < |s.answers| && s.answers[i].frame == f;
    assert t.answers[i] == s.answers[i];
  }

  lemma SentHonest(l: Link, t: Server)
    requires Honest(l) && |l.server.answers| <= |t.answers| <= |l.server.answers| + 1
    requires l.server.answers == t.answers[..|l.server.answers|]
    requires forall a <- t.answers[|l.server.answers|..] :: a.frame.Reply? && ByServer(a.frame.outcome)
    ensures Honest(Sent(l, t))
  {
    var m := Sent(l, t);
    var n := |l.server.answers|;
    forall f | f in m.down && f.Reply? ensures IsAnswer(t, f) && ByServer(f.outcome) {
      if f in l.down { AnswerStays(l.server, t, f); } else { assert t.answers[n] in t.answers[n..]; }
    }
    forall e | e in m.client.settled && ByServer(e.outcome) ensures IsAnswer(t, Reply(Num(e.id), e.outcome)) {
      AnswerStays(l.server, t, Reply(Num(e.id), e.outcome));
    }
  }

  lemma RejectAllOnlyCuts(c: Client)
    ensures forall e <- RejectAll(c).settled :: e in c.settled || e.outcome == CutOff
    decreases |c.pending|
  {
    if c.pending != [] {
      var d := c.(pending := c.pending[1..], settled := c.settled + [Settlement(c.pending[0], CutOff)]);
      RejectAllOnlyCuts(d);
    }
  }

  lemma StepHonest(l: Link, s: Step)
    requires Honest(l)
    ensures Honest(Take(l, s))
  {
    match s
    case ClientAsks(_, _, _) =>
    case ServerReads => if l.up != [] { SentHonest(l.(up := l.up[1..]), Receive(l.server, l.up[0])); }
    case JobEnds(i, o) => if ByServer(o) { SentHonest(l, Finish(l.server, i, o)); }
    case ServerNotes(_) =>
    case ClientReads =>
      if l.down != [] { assert l.down[0] in l.down; }
    case Breaks => RejectAllOnlyCuts(l.client.(closed := true));
  }

  // ---- distinct ids ----

  lemma AskDistinct(l: Link, name: string, params: Params)
    requires Distinct(l) && !l.client.closed
    ensures Distinct(Take(l, ClientAsks(name, params, true)))
  {
    var m := Take(l, ClientAsks(name, params, true));
    var n, r := l.client.nextId, Request(Num(l.client.nextId), name, params);
    hide Count;
    forall id: nat ensures Sightings(m, id) <= if 1 <= id < m.client.nextId then 1 else 0 {
      assert Sightings(l, id) <= if 1 <= id < n then 1 else 0;
      CountAppend(UpNum, l.up, r, id);
    }
  }

  lemma ReadDistinct(l: Link)
    requires Distinct(l) && l.up != []
    ensures Distinct(Take(l, ServerReads))
  {
    var m, r := Take(l, ServerReads), l.up[0];
    assert r in l.up;
    assert m.up == Without(l.up, 0) && m.server.arrived == l.server.arrived + [r];
    hide Count, Take;
    forall id: nat ensures Sightings(m, id) <= if 1 <= id < l.client.nextId then 1 else 0 {
      assert Sightings(l, id) <= if 1 <= id < l.client.nextId then 1 else 0;
      CountWithout(UpNum, l.up, 0, id);
      CountAppend(UpNum, l.server.arrived, r, id);
    }
    assert m.client == l.client by { TakeReads(l); }
  }

  lemma TakeReads(l: Link)
    ensures Take(l, ServerReads).client == l.client
  {}

  /** Steps that only take requests off the wire, or touch none. */
  lemma FewerDistinct(l: Link, m: Link)
    requires Distinct(l) && m.client.nextId >= l.client.nextId
    requires (m.up == l.up || m.up == []) && m.server.arrived == l.server.arrived
    ensures Distinct(m)
  {
    forall id: nat ensures Sightings(m, id) <= if 1 <= id < m.client.nextId then 1 else 0 {
      assert Sightings(l, id) <= if 1 <= id < l.client.nextId then 1 else 0;
    }
  }

  lemma StepDistinct(l: Link, s: Step)
    requires Distinct(l)
    ensures Distinct(Take(l, s))
  {
    hide Distinct, Count;
    match s
    case ClientAsks(name, params, delivered) =>
      if !l.client.closed && delivered { AskDistinct(l, name, params); } else { FewerDistinct(l, Take(l, s)); }
    case ServerReads => if l.up != [] { ReadDistinct(l); }
    case _ => FewerDistinct(l, Take(l, s));
  }

  // ---- whole runs ----

  lemma {:induction false} RunIsSound(steps: seq<Step>)
    ensures Sound(Run(steps))
  {
    if steps == [] {
    } else {
      var l, s := Run(steps[..|steps| - 1]), steps[|steps| - 1];
      RunIsSound(steps[..|steps| - 1]);
      StepAccounts(l, s);
      StepPlaces(l, s);
      StepHonest(l, s);
      StepDistinct(l, s);
      hide Accounted, Correlated, Placed, Honest, Distinct, Take;
    }
  }

  /**
   * Whatever the order in which requests, replies, notifications and failures interleave: a promise that
   * settles with a reply settles with the one the server gave to that very request, the only request with
   * that id, and no promise is left waiting once the open connection has nothing under way.
   */
  lemma RepliesReachTheirRequests(steps: seq<Step>)
    ensures var l := Run(steps);
      && (forall e <- l.client.settled :: ByServer(e.outcome) ==>
            exists a <- l.server.answers ::
              a.frame == Reply(Num(e.id), e.outcome) && a.k < |l.server.arrived| && l.server.arrived[a.k].Request?
              && l.server.arrived[a.k].id == Num(e.id))
      && (forall r <- l.server.arrived :: r.Request?)
      && (forall i, j :: 0 <= i < j < |l.server.arrived| ==> l.server.arrived[i].id != l.server.arrived[j].id)
      && (!l.client.closed && l.up == [] && l.server.jobs == [] && l.down == [] ==> l.client.pending == [])
  {
    var l := Run(steps);
    RunIsSound(steps);
    hide Run;
    forall e | e in l.client.settled && ByServer(e.outcome)
      ensures exists a <- l.server.answers ::
                a.frame == Reply(Num(e.id), e.outcome) && a.k < |l.server.arrived| && l.server.arrived[a.k].Request?
                && l.server.arrived[a.k].id == Num(e.id)
    {
      var i :| 0 <= i < |l.server.answers| && l.server.answers[i].frame == Reply(Num(e.id), e.outcome);
      assert l.server.answers[i] in l.server.answers;
      assert l.server.arrived[l.server.answers[i].k] in l.server.arrived;
    }
    forall i, j | 0 <= i < j < |l.server.arrived| ensures l.server.arrived[i].id != l.server.arrived[j].id {
      var r := l.server.arrived[i];
      assert r in l.server.arrived && l.server.arrived[j] in l.server.arrived;
      if r.id == l.server.arrived[j].id {
        assert Sightings(l, r.id.n) <= 1;
        CountHasBoth(UpNum, l.server.arrived, i, j, r.id.n);
      }
    }
    if !l.client.closed && l.up == [] && l.server.jobs == [] && l.down == [] && l.client.pending != [] {
      var id := l.client.pending[0];
      assert InFlight(l, id) == Count(Itself, l.client.pending, id);
      CountHas(Itself, l.client.pending, 0, id);
    }
  }
}
