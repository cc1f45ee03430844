/**
 * Requests and replies between `AgentClient` (packages/agent-client/src/client.ts) and
 * `AppServer.handle` (packages/agent-server/src/server.ts), first each on its own against
 * any peer and then joined by a connection. Replies follow section 5 of the JSON-RPC 2.0
 * specification.
 */
module Rpc {
  import opened Basics

  datatype Id = Null | Num(n: nat) | Text(s: string)

  /** How a request ends: answered by the server, never sent, or cut off by the end of the connection. */
  datatype Outcome = Result(value: string) | Failure(code: int) | Unsent | CutOff

  /** What reaches the client: unusable text, a notification, a reply, or a record that is neither. */
  datatype Frame = Garbage | Note(name: string) | Reply(id: Id, outcome: Outcome) | Other

  // ---- counting entries by key ----

  function Has(o: Option<nat>, k: nat): nat {
    if o == Some(k) then 1 else 0
  }

  /** How many entries carry the key `k`. */
  function Count<T>(key: T -> Option<nat>, s: seq<T>, k: nat): nat {
    if s == [] then 0 else Count(key, s[..|s| - 1], k) + Has(key(s[|s| - 1]), k)
  }

  lemma CountAppend<T>(key: T -> Option<nat>, s: seq<T>, x: T, k: nat)
    ensures Count(key, s + [x], k) == Count(key, s, k) + Has(key(x), k)
  {
    assert (s + [x])[..|s|] == s;
  }

  function Without<T>(s: seq<T>, i: nat): seq<T>
    requires i < |s|
  {
    s[..i] + s[i + 1..]
  }

  lemma {:induction false} CountWithout<T>(key: T -> Option<nat>, s: seq<T>, i: nat, k: nat)
    requires i < |s|
    ensures Count(key, s, k) == Count(key, Without(s, i), k) + Has(key(s[i]), k)
    decreases |s|
  {
    var n := |s| - 1;
    if i < n {
      CountWithout(key, s[..n], i, k);
      assert Without(s, i) == Without(s[..n], i) + [s[n]];
      CountAppend(key, Without(s[..n], i), s[n], k);
    } else {
      assert Without(s, i) == s[..n];
    }
  }

  lemma CountHas<T>(key: T -> Option<nat>, s: seq<T>, i: nat, k: nat)
    requires i < |s| && key(s[i]) == Some(k)
    ensures Count(key, s, k) >= 1
  {
    CountWithout(key, s, i, k);
  }

  lemma CountHasBoth<T>(key: T -> Option<nat>, s: seq<T>, i: nat, j: nat, k: nat)
    requires i < j < |s| && key(s[i]) == key(s[j]) == Some(k)
    ensures Count(key, s, k) >= 2
  {
    CountWithout(key, s, j, k);
    CountHas(key, Without(s, j), i, k);
  }

  lemma {:induction false} CountFinds<T>(key: T -> Option<nat>, s: seq<T>, k: nat) returns (i: nat)
    requires Count(key, s, k) >= 1
    ensures i < |s| && key(s[i]) == Some(k)
  {
    var n := |s| - 1;
    if key(s[n]) == Some(k) { return n; }
    i := CountFinds(key, s[..n], k);
  }

  // ---- the client ----

  datatype Settlement = Settlement(id: nat, outcome: Outcome)

  /** `pending` is the Map's key order; `settled` logs every promise resolved or rejected, `notes` what was emitted. */
  datatype Client = Client(nextId: nat, pending: seq<nat>, closed: bool, settled: seq<Settlement>, notes: seq<string>)

  const NewClient := Client(1, [], false, [], [])

  function IndexOf(s: seq<nat>, x: nat): (i: nat)
    ensures i <= |s| && (i < |s| ==> s[i] == x) && (i == |s| ==> x !in s)
  {
    if s == [] then 0 else if s[0] == x then 0 else 1 + IndexOf(s[1..], x)
  }

  /** Settle the promise of a pending request; anything else is ignored. */
  function Settle(c: Client, id: nat, o: Outcome): Client {
    var i := IndexOf(c.pending, id);
    if i == |c.pending| then c
    else c.(pending := Without(c.pending, i), settled := c.settled + [Settlement(id, o)])
  }

  function Ask(c: Client): Client {
    if c.closed then c else c.(nextId := c.nextId + 1, pending := c.pending + [c.nextId])
  }

  function Hear(c: Client, f: Frame): Client {
    match f
    case Garbage => c.(notes := c.notes + ["client/error"])
    case Note(name) => c.(notes := c.notes + [name])
    case Other => c
    case Reply(id, o) => if id.Num? then Settle(c, id.n, o) else c
  }

  function RejectAll(c: Client): (r: Client)
    ensures r == c.(pending := [], settled := r.settled)
    decreases |c.pending|
  {
    if c.pending == [] then c
    else RejectAll(c.(pending := c.pending[1..], settled := c.settled + [Settlement(c.pending[0], CutOff)]))
  }

  function End(c: Client): Client {
    if c.closed then c else RejectAll(c.(closed := true))
  }

  datatype Call = Asks | Hears(f: Frame) | SendRejected(id: nat) | Ends

  function Do(c: Client, call: Call): Client {
    match call
    case Asks => Ask(c)
    case Hears(f) => Hear(c, f)
    case SendRejected(id) => Settle(c, id, Unsent)
    case Ends => End(c)
  }

  function DoAll(calls: seq<Call>): Client {
    if calls == [] then NewClient else Do(DoAll(calls[..|calls| - 1]), calls[|calls| - 1])
  }

  const Itself := (id: nat) => Some(id)
  const SettledId := (e: Settlement) => Some(e.id)

  function Entries(c: Client, id: nat): nat {
    Count(Itself, c.pending, id) + Count(SettledId, c.settled, id)
  }

  /** Every issued id, and no other, is either pending or settled, once. */
  ghost predicate Balanced(c: Client) {
    c.nextId >= 1 && forall id: nat :: Entries(c, id) == if 1 <= id < c.nextId then 1 else 0
  }

  ghost predicate Accounted(c: Client) {
    Balanced(c) && (c.closed ==> c.pending == [])
  }

  lemma SettleBalances(c: Client, id: nat, o: Outcome)
    requires Accounted(c)
    ensures Accounted(Settle(c, id, o))
  {
    var i := IndexOf(c.pending, id);
    if i < |c.pending| {
      forall k: nat ensures Entries(Settle(c, id, o), k) == Entries(c, k) {
        CountWithout(Itself, c.pending, i, k);
        CountAppend(SettledId, c.settled, Settlement(id, o), k);
      }
    }
  }

  lemma {:induction false} RejectAllBalances(c: Client)
    requires Balanced(c)
    ensures Balanced(RejectAll(c))
    decreases |c.pending|
  {
    if c.pending != [] {
      var e := Settlement(c.pending[0], CutOff);
      var d := c.(pending := c.pending[1..], settled := c.settled + [e]);
      forall k: nat ensures Entries(d, k) == Entries(c, k) {
        CountWithout(Itself, c.pending, 0, k);
        assert Without(c.pending, 0) == c.pending[1..];
        CountAppend(SettledId, c.settled, e, k);
      }
      RejectAllBalances(d);
    }
  }

  lemma OnlyListsMatter(c: Client, d: Client)
    requires Balanced(c) && d.nextId == c.nextId && d.pending == c.pending && d.settled == c.settled
    ensures Balanced(d)
  {
    assert forall id: nat :: Entries(d, id) == Entries(c, id);
  }

  lemma DoAccounts(c: Client, call: Call)
    requires Accounted(c)
    ensures Accounted(Do(c, call))
  {
    match call
    case Asks =>
      forall k: nat ensures Entries(c.(pending := c.pending + [c.nextId]), k) == Entries(c, k) + Has(Some(c.nextId), k) {
        CountAppend(Itself, c.pending, c.nextId, k);
      }
    case Hears(f) =>
      if f.Reply? && f.id.Num? { SettleBalances(c, f.id.n, f.outcome); } else { OnlyListsMatter(c, Hear(c, f)); }
    case SendRejected(id) => SettleBalances(c, id, Unsent);
    case Ends =>
      if !c.closed {
        OnlyListsMatter(c, c.(closed := true));
        RejectAllBalances(c.(closed := true));
      }
  }

  lemma AccountedApart(c: Client)
    requires Accounted(c)
    ensures forall i, j :: 0 <= i < j < |c.settled| ==> c.settled[i].id != c.settled[j].id
    ensures forall e <- c.settled :: 1 <= e.id < c.nextId && e.id !in c.pending
    ensures forall id :: 1 <= id < c.nextId && id !in c.pending ==> exists e <- c.settled :: e.id == id
  {
    forall i, j | 0 <= i < j < |c.settled| ensures c.settled[i].id != c.settled[j].id {
      assert Entries(c, c.settled[i].id) <= 1;
      if c.settled[i].id == c.settled[j].id { CountHasBoth(SettledId, c.settled, i, j, c.settled[i].id); }
    }
    forall e | e in c.settled ensures 1 <= e.id < c.nextId && e.id !in c.pending {
      var i :| 0 <= i < |c.settled| && c.settled[i] == e;
      assert Entries(c, e.id) <= 1;
      CountHas(SettledId, c.settled, i, e.id);
      if e.id in c.pending { CountHas(Itself, c.pending, IndexOf(c.pending, e.id), e.id); }
    }
    forall id | 1 <= id < c.nextId && id !in c.pending ensures exists e <- c.settled :: e.id == id {
      assert Entries(c, id) == 1;
      if Count(Itself, c.pending, id) >= 1 {
        var i := CountFinds(Itself, c.pending, id);
      } else {
        var i := CountFinds(SettledId, c.settled, id);
      }
    }
  }

  /**
   * Whatever the peer sends and whenever the connection ends: an issued id is either pending or settled,
   * no id settles twice, none settles that was not issued, and a closed client has nothing pending.
   */
  lemma {:induction false} EveryRequestSettlesAtMostOnce(calls: seq<Call>)
    ensures var c := DoAll(calls);
      && Accounted(c)
      && (forall i, j :: 0 <= i < j < |c.settled| ==> c.settled[i].id != c.settled[j].id)
      && (forall e <- c.settled :: 1 <= e.id < c.nextId && e.id !in c.pending)
      && (forall id :: 1 <= id < c.nextId && id !in c.pending ==> exists e <- c.settled :: e.id == id)
      && (c.closed ==> c.pending == [])
  {
    var c := DoAll(calls);
    if calls != [] {
      EveryRequestSettlesAtMostOnce(calls[..|calls| - 1]);
      DoAccounts(DoAll(calls[..|calls| - 1]), calls[|calls| - 1]);
    }
    AccountedApart(c);
  }

  // ---- the server's side of one connection ----

  /** What arrives: text that is no JSON, JSON that is no request, one whose id has the wrong type, or a request. */
  datatype Raw = Broken | NoRequest | OddId | Request(id: Id, name: string, params: Params)

  /** What `initialize` looks at: whether `clientInfo` is valid, and whether the opt-out list can be iterated. */
  datatype Params = Params(clientOk: bool, optOutOk: bool)

  datatype Job = Job(k: nat, id: Id)

  /** A frame sent in answer to the `k`-th arrival. */
  datatype Answer = Answer(k: nat, frame: Frame)

  /** `worked` logs the arrivals that were worked on. */
  datatype Server =
    Server(initialized: bool, jobs: seq<Job>, arrived: seq<Raw>, answers: seq<Answer>, worked: set<nat>)

  const NewServer := Server(false, [], [], [], {})

  const PARSE_ERROR := -32700
  const INVALID_REQUEST := -32600
  const INVALID_PARAMS := -32602
  const INTERNAL_ERROR := -32603
  const BAD_LIFECYCLE := -32000

  function Answered(s: Server, k: nat, id: Id, o: Outcome): Server {
    s.(answers := s.answers + [Answer(k, Reply(id, o))])
  }

  /** What `handle` does with an arrival before its first wait: reply at once, or start the work. */
  datatype Verdict = ReplyNow(id: Id, o: Outcome) | Work(id: Id)

  function Judge(initialized: bool, raw: Raw): Verdict {
    match raw
    case Broken => ReplyNow(Null, Failure(PARSE_ERROR))
    case NoRequest => ReplyNow(Null, Failure(INVALID_REQUEST))
    case OddId => ReplyNow(Null, Failure(INVALID_REQUEST))
    case Request(id, name, params) =>
      if name == "initialize" then
        ReplyNow(id, if initialized then Failure(BAD_LIFECYCLE)
                     else if !params.clientOk then Failure(INVALID_PARAMS)
                     else if !params.optOutOk then Failure(INTERNAL_ERROR) else Result("initialized"))
      else if !initialized then ReplyNow(id, Failure(BAD_LIFECYCLE))
      else Work(id)
  }

  /** An `initialize` that marks the connection, which it does before it reads the opt-out list. */
  predicate Opens(raw: Raw) {
    raw.Request? && raw.name == "initialize" && raw.params.clientOk
  }

  function Receive(s: Server, raw: Raw): Server {
    var k := |s.arrived|;
    var t := s.(arrived := s.arrived + [raw], initialized := s.initialized || Opens(raw));
    match Judge(s.initialized, raw)
    case ReplyNow(id, o) => Answered(t, k, id, o)
    case Work(id) => t.(jobs := s.jobs + [Job(k, id)], worked := s.worked + {k})
  }

  /** The `i`-th running job ends, with a result or an error. */
  function Finish(s: Server, i: nat, o: Outcome): Server {
    if i < |s.jobs| then Answered(s.(jobs := Without(s.jobs, i)), s.jobs[i].k, s.jobs[i].id, o) else s
  }

  datatype Turn = Receives(raw: Raw) | Finishes(i: nat, o: Outcome)

  function Serve(s: Server, t: Turn): Server {
    match t
    case Receives(raw) => Receive(s, raw)
    case Finishes(i, o) => Finish(s, i, o)
  }

  function ServeAll(turns: seq<Turn>): Server {
    if turns == [] then NewServer else Serve(ServeAll(turns[..|turns| - 1]), turns[|turns| - 1])
  }

  /** The id a reply has to carry: the request's own, or null when none could be read. */
  function ReplyId(raw: Raw): Id {
    if raw.Request? then raw.id else Null
  }

  const JobIndex := (j: Job) => Some(j.k)
  const AnswerIndex := (a: Answer) => Some(a.k)

  function Handled(s: Server, k: nat): nat {
    Count(JobIndex, s.jobs, k) + Count(AnswerIndex, s.answers, k)
  }

  predicate HasJob(s: Server, k: nat) {
    exists i :: 0 <= i < |s.jobs| && s.jobs[i].k == k
  }

  predicate HasAnswer(s: Server, k: nat) {
    exists i :: 0 <= i < |s.answers| && s.answers[i].k == k
  }

  ghost predicate OwnIds(s: Server) {
    && (forall j <- s.jobs :: j.k < |s.arrived| && s.arrived[j.k].Request? && j.id == s.arrived[j.k].id)
    && (forall a <- s.answers :: a.k < |s.arrived| && a.frame.Reply? && a.frame.id == ReplyId(s.arrived[a.k]))
  }

  /** Every arrival has one job or one answer; jobs exist only after `initialize`. */
  ghost predicate Correlated(s: Server) {
    && OwnIds(s)
    && (forall k: nat :: Handled(s, k) == if k < |s.arrived| then 1 else 0)
    && (s.jobs != [] ==> s.initialized)
  }

  lemma HandledAfterAnswer(s: Server, k: nat, id: Id, o: Outcome, i: nat)
    ensures Handled(Answered(s, k, id, o), i) == Handled(s, i) + Has(Some(k), i)
  {
    CountAppend(AnswerIndex, s.answers, Answer(k, Reply(id, o)), i);
  }

  lemma ReceiveKeepsIds(s: Server, raw: Raw)
    requires OwnIds(s)
    ensures OwnIds(Receive(s, raw))
  {
    var t := Receive(s, raw);
    forall j | j in t.jobs ensures j.k < |t.arrived| && t.arrived[j.k].Request? && j.id == t.arrived[j.k].id {
      assert j in s.jobs || j == Job(|s.arrived|, raw.id);
    }
    forall a | a in t.answers ensures a.k < |t.arrived| && a.frame.Reply? && a.frame.id == ReplyId(t.arrived[a.k]) {
      assert a in s.answers || a == t.answers[|s.answers|];
    }
  }

  lemma ReceiveCorrelates(s: Server, raw: Raw)
    requires Correlated(s)
    ensures Correlated(Receive(s, raw))
  {
    ReceiveKeepsIds(s, raw);
    var n: nat := |s.arrived|;
    var t := Receive(s, raw);
    var v := Judge(s.initialized, raw);
    assert v.Work? ==> s.initialized;
    hide OwnIds, Count, Judge;
    forall k: nat ensures Handled(t, k) == Handled(s, k) + Has(Some(n), k) {
      match v
      case ReplyNow(id, o) => CountAppend(AnswerIndex, s.answers, Answer(n, Reply(id, o)), k);
      case Work(id) => CountAppend(JobIndex, s.jobs, Job(n, id), k);
    }
  }

  lemma FinishCorrelates(s: Server, i: nat, o: Outcome)
    requires Correlated(s)
    ensures Correlated(Finish(s, i, o))
  {
    if i < |s.jobs| {
      var d := s.(jobs := Without(s.jobs, i));
      forall k: nat ensures Handled(Finish(s, i, o), k) == Handled(s, k) {
        CountWithout(JobIndex, s.jobs, i, k);
        HandledAfterAnswer(d, s.jobs[i].k, s.jobs[i].id, o, k);
      }
      assert s.jobs[i] in s.jobs;
    }
    hide Count;
  }

  /**
   * Whatever arrives, in whatever order its jobs end: no arrival is answered twice, each answer carries its
   * request's id and null when no id could be read, and an arrival no job is left for has been answered.
   */
  lemma {:induction false} OneReplyPerRequest(turns: seq<Turn>)
    ensures var s := ServeAll(turns);
      && Correlated(s)
      && (forall i, j :: 0 <= i < j < |s.answers| ==> s.answers[i].k != s.answers[j].k)
      && (forall a <- s.answers :: a.k < |s.arrived| && a.frame.Reply? && a.frame.id == ReplyId(s.arrived[a.k]))
      && (forall k: nat :: k < |s.arrived| ==> (HasAnswer(s, k) <==> !HasJob(s, k)))
  {
    var s := ServeAll(turns);
    if turns != [] {
      var t, last := ServeAll(turns[..|turns| - 1]), turns[|turns| - 1];
      OneReplyPerRequest(turns[..|turns| - 1]);
      match last
      case Receives(raw) => ReceiveCorrelates(t, raw);
      case Finishes(i, o) => FinishCorrelates(t, i, o);
    }
    CorrelatedApart(s);
  }

  lemma CorrelatedApart(s: Server)
    requires Correlated(s)
    ensures forall i, j :: 0 <= i < j < |s.answers| ==> s.answers[i].k != s.answers[j].k
    ensures forall k: nat :: k < |s.arrived| ==> (HasAnswer(s, k) <==> !HasJob(s, k))
  {
    forall i, j | 0 <= i < j < |s.answers| ensures s.answers[i].k != s.answers[j].k {
      assert Handled(s, s.answers[i].k) <= 1;
      if s.answers[i].k == s.answers[j].k { CountHasBoth(AnswerIndex, s.answers, i, j, s.answers[i].k); }
    }
    forall k: nat | k < |s.arrived| ensures HasAnswer(s, k) <==> !HasJob(s, k) {
      assert Handled(s, k) == 1;
      if HasJob(s, k) {
        var i :| 0 <= i < |s.jobs| && s.jobs[i].k == k;
        CountHas(JobIndex, s.jobs, i, k);
        if HasAnswer(s, k) {
          var m :| 0 <= m < |s.answers| && s.answers[m].k == k;
          CountHas(AnswerIndex, s.answers, m, k);
        }
      } else if Count(JobIndex, s.jobs, k) >= 1 {
        var i := CountFinds(JobIndex, s.jobs, k);
      } else {
        var i := CountFinds(AnswerIndex, s.answers, k);
      }
    }
  }

  // ---- the lifecycle of a connection ----

  predicate OpenedBefore(arrived: seq<Raw>, k: nat)
    requires k <= |arrived|
  {
    exists i :: 0 <= i < k && Opens(arrived[i])
  }

  predicate FirstToOpen(arrived: seq<Raw>, k: nat)
    requires k < |arrived|
  {
    Opens(arrived[k]) && !OpenedBefore(arrived, k)
  }

  /** The `initialize` that is answered with a result. */
  predicate Succeeds(arrived: seq<Raw>, k: nat)
    requires k < |arrived|
  {
    FirstToOpen(arrived, k) && arrived[k].params.optOutOk
  }

  predicate SucceededBefore(arrived: seq<Raw>, k: nat)
    requires k <= |arrived|
  {
    exists i :: 0 <= i < k && Succeeds(arrived, i)
  }

  predicate IsWork(raw: Raw) {
    raw.Request? && raw.name != "initialize"
  }

  /** Exactly the requests after the first opening are worked on; of the others exactly one `initialize` succeeds. */
  ghost predicate Gated(s: Server) {
    && (s.initialized <==> OpenedBefore(s.arrived, |s.arrived|))
    && (forall k: nat :: k in s.worked <==> k < |s.arrived| && IsWork(s.arrived[k]) && OpenedBefore(s.arrived, k))
    && (forall j <- s.jobs :: j.k in s.worked)
    && (forall a <- s.answers :: a.k < |s.arrived| && a.frame.Reply?)
    && (forall a <- s.answers :: a.k !in s.worked ==> (a.frame.outcome.Result? <==> Succeeds(s.arrived, a.k)))
  }

  lemma OpenedStays(arrived: seq<Raw>, raw: Raw, k: nat)
    requires k <= |arrived|
    ensures OpenedBefore(arrived + [raw], k) <==> OpenedBefore(arrived, k)
  {
    assert forall i :: 0 <= i < k ==> (arrived + [raw])[i] == arrived[i];
  }

  lemma OpenedGrows(arrived: seq<Raw>, raw: Raw)
    ensures OpenedBefore(arrived + [raw], |arrived| + 1) <==> OpenedBefore(arrived, |arrived|) || Opens(raw)
  {
    OpenedStays(arrived, raw, |arrived|);
    assert (arrived + [raw])[|arrived|] == raw;
  }

  lemma ReceiveGates(s: Server, raw: Raw)
    requires Gated(s)
    ensures Gated(Receive(s, raw))
  {
    var t, n := Receive(s, raw), |s.arrived|;
    assert t.arrived == s.arrived + [raw] && t.arrived[n] == raw;
    OpenedGrows(s.arrived, raw);
    OpenedStays(s.arrived, raw, n);
    hide OpenedBefore;
    forall k: nat ensures k in t.worked <==> k < |t.arrived| && IsWork(t.arrived[k]) && OpenedBefore(t.arrived, k) {
      if k < n { OpenedStays(s.arrived, raw, k); }
    }
    forall a | a in t.answers ensures a.k < |t.arrived| && a.frame.Reply?
        && (a.k !in t.worked ==> (a.frame.outcome.Result? <==> Succeeds(t.arrived, a.k))) {
      if a in s.answers { OpenedStays(s.arrived, raw, a.k); }
    }
  }

  lemma FinishGates(s: Server, i: nat, o: Outcome)
    requires Gated(s)
    ensures Gated(Finish(s, i, o))
  {
    hide OpenedBefore, Succeeds;
    if i < |s.jobs| {
      assert s.jobs[i] in s.jobs;
      assert forall j <- Without(s.jobs, i) :: j in s.jobs;
    }
  }

  /**
   * Over every run the requests that are worked on are exactly those after the first `initialize` with a valid
   * client, and an `initialize` succeeds exactly if it is that one and its opt-out list can be read.
   */
  lemma {:induction false} WorkStartsExactlyAfterOpening(turns: seq<Turn>)
    ensures Gated(ServeAll(turns))
  {
    if turns != [] {
      var t, last := ServeAll(turns[..|turns| - 1]), turns[|turns| - 1];
      WorkStartsExactlyAfterOpening(turns[..|turns| - 1]);
      hide OpenedBefore;
      match last
      case Receives(raw) => ReceiveGates(t, raw);
      case Finishes(i, o) => FinishGates(t, i, o);
    }
  }

  /** An `initialize` that opens the connection and fails, with a request behind it. */
  predicate OpenedByFailure(arrived: seq<Raw>) {
    exists i, k :: 0 <= i < k < |arrived| && FirstToOpen(arrived, i) && !arrived[i].params.optOutOk && IsWork(arrived[k])
  }

  lemma {:induction false} FirstOpening(arrived: seq<Raw>, k: nat) returns (i: nat)
    requires k <= |arrived| && OpenedBefore(arrived, k)
    ensures i < k && FirstToOpen(arrived, i)
  {
    i :| i < k && Opens(arrived[i]);
    if OpenedBefore(arrived, i) { i := FirstOpening(arrived, i); }
  }

  /**
   * Work is done only after a successful `initialize` exactly when the one that opens the connection has an
   * opt-out list that can be read, or no request follows it.
   */
  lemma WorkFollowsSuccessExactly(turns: seq<Turn>)
    ensures var s := ServeAll(turns);
      && (forall k: nat :: k in s.worked ==> k < |s.arrived|)
      && ((forall k: nat :: k in s.worked ==> k < |s.arrived| && SucceededBefore(s.arrived, k))
          <==> !OpenedByFailure(s.arrived))
  {
    var s := ServeAll(turns);
    WorkStartsExactlyAfterOpening(turns);
    hide ServeAll;
    if OpenedByFailure(s.arrived) {
      var i, k :| 0 <= i < k < |s.arrived| && FirstToOpen(s.arrived, i) && !s.arrived[i].params.optOutOk
                  && IsWork(s.arrived[k]);
      FailureIsFinal(s.arrived, i, k);
      assert OpenedBefore(s.arrived, k);
      assert k in s.worked;
    } else {
      forall k: nat | k in s.worked ensures SucceededBefore(s.arrived, k) {
        var i := FirstOpening(s.arrived, k);
        assert Succeeds(s.arrived, i);
      }
    }
  }

  lemma FailureIsFinal(arrived: seq<Raw>, i: nat, k: nat)
    requires i < k < |arrived| && FirstToOpen(arrived, i) && !arrived[i].params.optOutOk
    ensures !SucceededBefore(arrived, k)
  {
    forall j | 0 <= j < k ensures !Succeeds(arrived, j) {}
  }

  /** An opt-out list that is no list: `initialize` is refused, and yet the next request is answered with a result. */
  lemma RefusedInitializeOpens(a: Id, b: Id, value: string)
    ensures var s := ServeAll([
        Receives(Request(a, "initialize", Params(true, false))),
        Receives(Request(b, "session/list", Params(true, true))),
        Finishes(0, Result(value))]);
      s.answers == [Answer(0, Reply(a, Failure(INTERNAL_ERROR))), Answer(1, Reply(b, Result(value)))]
  {
    var x := Receives(Request(a, "initialize", Params(true, false)));
    var y := Receives(Request(b, "session/list", Params(true, true)));
    var z := Finishes(0, Result(value));
    var turns := [x, y, z];
    assert turns[..2] == [x, y] && [x, y][..1] == [x] && [x][..0] == [];
    assert ServeAll([x]) == Serve(NewServer, x);
    assert ServeAll([x, y]) == Serve(ServeAll([x]), y);
    assert ServeAll(turns) == Serve(ServeAll([x, y]), z);
  }
}
