/**
 * Rendering one turn onto a chat platform (apps/gateway/src/render/chat-render.ts).
 * Sends are queued as operations on a promise chain and run one after another;
 * the timer, the appends and the running of queued operations interleave freely.
 */
module Renderer {
  import opened Basics
  import SplitLimits
  import SplitModel

  /** A text, the answer as a document, or any other media, by its name. */
  datatype Payload = TextMessage(text: string) | Document(text: string) | Media(name: string)

  /** What callers may send along: notices and artifacts, but not the answer's own document. */
  type Extra = p: Payload | !p.Document? witness TextMessage("")

  /** What has reached the platform; `live` is the index of the message that is edited in place. */
  datatype Channel = Channel(messages: seq<Payload>, live: Option<nat>)

  const NoMessages := Channel([], None)

  /** A queued side effect. `Preview` edits the live message, or sends it first. */
  datatype Op = Preview(text: string) | Post(texts: seq<string>) | Send(extra: Extra) | SendFile(text: string) | Signal

  function Exec(c: Channel, op: Op): Channel {
    match op
    case Preview(text) =>
      if c.live.Some? && c.live.value < |c.messages|
      then c.(messages := c.messages[c.live.value := TextMessage(text)])
      else Channel(c.messages + [TextMessage(text)], Some(|c.messages|))
    case Post(texts) => c.(messages := c.messages + seq(|texts|, i requires 0 <= i < |texts| => TextMessage(texts[i])))
    case Send(extra) => c.(messages := c.messages + [extra])
    case SendFile(text) => c.(messages := c.messages + [Document(text)])
    case Signal => c
  }

  /** The channel once everything queued has run. */
  function Settle(c: Channel, ops: seq<Op>): Channel {
    if ops == [] then c else Exec(Settle(c, ops[..|ops| - 1]), ops[|ops| - 1])
  }

  datatype Config = Config(streaming: bool, maxChars: nat, inlineLimit: nat)

  /** `lastPreview` is `lastChunks[0]`. `hung` is the turn inside a split that never returns: nothing happens any more. */
  datatype Turn = Turn(
    buffer: string,
    lastPreview: Option<string>,
    fileSent: bool,
    done: bool,
    hung: bool,
    queue: seq<Op>,
    channel: Channel)

  const NewTurn := Turn("", None, false, false, false, [], NoMessages)

  function Push(t: Turn, op: Op): Turn {
    t.(queue := t.queue + [op])
  }

  /** `splitForLimit` does not return for this text. */
  predicate Sticks(text: string, max: nat) {
    SplitModel.SplitForLimit(text, max).Stuck?
  }

  /** The first chunk of the answer, or the answer itself. */
  function FirstChunk(text: string, max: nat): string {
    var ps := SplitModel.SplitForLimit(text, max).pieces;
    if ps != [] then SplitModel.Render(ps[0]) else text
  }

  function ShowPreview(t: Turn, preview: string): Turn {
    if t.lastPreview == Some(preview) then t else Push(t.(lastPreview := Some(preview)), Preview(preview))
  }

  predicate Long(text: string, k: Config) {
    |text| > k.inlineLimit
  }

  function DeliverLong(t: Turn, text: string, k: Config): Turn {
    if t.fileSent || !Long(text, k) then t else Push(t.(fileSent := true), SendFile(text))
  }

  function Flush(t: Turn, final: bool, k: Config): Turn {
    var trimmed := TrimEnd(t.buffer);
    if trimmed == "" then t
    else if k.streaming then
      if Sticks(trimmed, k.maxChars) then t.(hung := true) else
      var shown := ShowPreview(t, FirstChunk(trimmed, k.maxChars));
      if final then DeliverLong(shown, trimmed, k) else shown
    else if !final then t
    else if Long(trimmed, k) then DeliverLong(t, trimmed, k)
    else if Sticks(trimmed, k.maxChars) then t.(hung := true)
    else Push(t, Post(SplitModel.Chunks(SplitModel.SplitForLimit(trimmed, k.maxChars).pieces)))
  }

  /**
   * What can happen to a turn: text arrives, the timer fires, a notice, an artifact or a status is queued,
   * one queued operation completes, the turn finishes or fails.
   */
  datatype Act = Append(text: string) | Tick | Deliver(extra: Extra) | Status | RunOne | Finish | Fail(message: string)

  /** Queue what follows a flush, if the flush has returned. */
  function Then(t: Turn, ops: seq<Op>): Turn {
    if t.hung then t else t.(queue := t.queue + ops)
  }

  /** What `fail` puts in front of its message. */
  const ERROR_PREFIX := "\U{26A0} \U{8FD0}\U{884C}\U{51FA}\U{9519}\U{FF1A}"

  function Ending(message: Option<string>): seq<Op> {
    (if message.Some? then [Post([ERROR_PREFIX + message.value])] else []) + [Signal]
  }

  function Apply(t: Turn, a: Act, k: Config): Turn {
    if t.hung then t
    else
      match a
      case Append(text) => if t.done then t else t.(buffer := t.buffer + text)
      case Tick => if t.done then t else Flush(Push(t, Signal), false, k)
      case Deliver(extra) => if t.done then t else Push(t, Send(extra))
      case Status => if t.done then t else Push(t, Signal)
      case RunOne => if t.queue == [] then t else t.(channel := Exec(t.channel, t.queue[0]), queue := t.queue[1..])
      case Finish => if t.done then t else Then(Flush(t.(done := true), true, k), Ending(None))
      case Fail(message) => if t.done then t else Then(Flush(t.(done := true), true, k), Ending(Some(message)))
  }

  /** What will have reached the platform: the rest of the queue runs, unless the turn hangs. */
  function Result(t: Turn): Channel {
    if t.hung then t.channel else Settle(t.channel, t.queue)
  }

  function Replay(acts: seq<Act>, k: Config): Turn {
    if acts == [] then NewTurn else Apply(Replay(acts[..|acts| - 1], k), acts[|acts| - 1], k)
  }

  // ---- what will have been delivered ----

  function Files(ms: seq<Payload>): seq<string> {
    if ms == [] then []
    else
      var n := |ms| - 1;
      Files(ms[..n]) + if ms[n].Document? then [ms[n].text] else []
  }

  lemma {:induction false} SettleRun(c: Channel, ops: seq<Op>)
    requires ops != []
    ensures Settle(Exec(c, ops[0]), ops[1..]) == Settle(c, ops)
    decreases |ops|
  {
    var n := |ops| - 1;
    if n == 0 {
      assert ops[..0] == [] && ops[1..] == [];
      assert Settle(c, ops[..0]) == c;
    } else {
      SettleRun(c, ops[..n]);
      assert ops[1..][..n - 1] == ops[..n][1..] && ops[..n][0] == ops[0];
    }
  }

  lemma SettlePush(t: Turn, op: Op)
    ensures Settle(t.channel, Push(t, op).queue) == Exec(Settle(t.channel, t.queue), op)
  {
    assert Push(t, op).queue[..|t.queue|] == t.queue;
  }

  /** The live message is one message. */
  ghost predicate LiveOk(c: Channel) {
    c.live.Some? ==> c.live.value < |c.messages| && c.messages[c.live.value].TextMessage?
  }

  /** What running everything queued will have shown and sent. */
  ghost predicate Promised(t: Turn) {
    var c := Settle(t.channel, t.queue);
    && LiveOk(c)
    && (t.lastPreview.None? <==> c.live.None?)
    && (t.lastPreview.Some? ==> c.live.Some? && c.messages[c.live.value] == TextMessage(t.lastPreview.value))
    && |Files(c.messages)| == (if t.fileSent then 1 else 0)
  }

  lemma {:induction false} FilesJoin(a: seq<Payload>, b: seq<Payload>)
    ensures Files(a + b) == Files(a) + Files(b)
    decreases |b|
  {
    if b == [] {
      assert a + b == a;
    } else {
      FilesJoin(a, b[..|b| - 1]);
      assert (a + b)[..|a + b| - 1] == a + b[..|b| - 1];
    }
  }

  lemma {:induction false} TextsAreNoFiles(ms: seq<Payload>)
    requires forall m <- ms :: m.TextMessage?
    ensures Files(ms) == []
  {
    if ms != [] {
      assert ms[|ms| - 1] in ms;
      TextsAreNoFiles(ms[..|ms| - 1]);
    }
  }

  lemma {:induction false} EditKeepsFiles(ms: seq<Payload>, i: nat, text: string)
    requires i < |ms| && ms[i].TextMessage?
    ensures Files(ms[i := TextMessage(text)]) == Files(ms)
    decreases |ms|
  {
    var n := |ms| - 1;
    var us := ms[i := TextMessage(text)];
    if i < n {
      EditKeepsFiles(ms[..n], i, text);
      assert us[..n] == ms[..n][i := TextMessage(text)];
    } else {
      assert us[..n] == ms[..n];
    }
  }

  /** What one operation adds to the files and does to the live message. */
  lemma ExecFiles(c: Channel, op: Op)
    requires LiveOk(c)
    ensures var d := Exec(c, op);
      && LiveOk(d)
      && Files(d.messages) == Files(c.messages) + (if op.SendFile? then [op.text] else [])
      && (if op.Preview? then d.live.Some? && d.messages[d.live.value] == TextMessage(op.text)
          else d.live == c.live && (c.live.Some? ==> d.messages[c.live.value] == c.messages[c.live.value]))
  {
    match op
    case Preview(text) =>
      if c.live.Some? {
        EditKeepsFiles(c.messages, c.live.value, text);
      } else {
        FilesJoin(c.messages, [TextMessage(text)]);
        TextsAreNoFiles([TextMessage(text)]);
      }
    case Post(texts) =>
      var ms := seq(|texts|, i requires 0 <= i < |texts| => TextMessage(texts[i]));
      FilesJoin(c.messages, ms);
      TextsAreNoFiles(ms);
    case Send(extra) =>
      FilesJoin(c.messages, [extra]);
      assert [extra][..0] == [];
    case SendFile(text) =>
      FilesJoin(c.messages, [Document(text)]);
      assert [Document(text)][..0] == [];
    case Signal =>
  }

  /** Queuing an operation that neither previews nor sends a file changes no promise. */
  lemma QuietPush(t: Turn, op: Op)
    requires Promised(t) && !op.Preview? && !op.SendFile?
    ensures Promised(Push(t, op))
    ensures Files(Settle(t.channel, Push(t, op).queue).messages) == Files(Settle(t.channel, t.queue).messages)
  {
    SettlePush(t, op);
    ExecFiles(Settle(t.channel, t.queue), op);
  }

  lemma PreviewKeeps(t: Turn, preview: string)
    requires Promised(t)
    ensures Promised(ShowPreview(t, preview)) && ShowPreview(t, preview).lastPreview == Some(preview)
    ensures Files(Settle(t.channel, ShowPreview(t, preview).queue).messages) == Files(Settle(t.channel, t.queue).messages)
  {
    if t.lastPreview != Some(preview) {
      SettlePush(t.(lastPreview := Some(preview)), Preview(preview));
      ExecFiles(Settle(t.channel, t.queue), Preview(preview));
    }
  }

  lemma DeliverLongKeeps(t: Turn, text: string, k: Config)
    requires Promised(t)
    ensures var u := DeliverLong(t, text, k);
      && Promised(u) && u.lastPreview == t.lastPreview
      && Files(Settle(u.channel, u.queue).messages)
         == Files(Settle(t.channel, t.queue).messages) + (if t.fileSent || !Long(text, k) then [] else [text])
  {
    if !t.fileSent && Long(text, k) {
      SettlePush(t.(fileSent := true), SendFile(text));
      ExecFiles(Settle(t.channel, t.queue), SendFile(text));
    }
  }

  /** Before the end no file has been promised; at every moment what was promised stays promised. */
  ghost predicate Sound(t: Turn) {
    Promised(t) && (!t.done ==> !t.fileSent)
  }

  lemma FlushKeeps(t: Turn, final: bool, k: Config)
    requires Promised(t)
    ensures var u := Flush(t, final, k); Promised(u) && (u.fileSent ==> t.fileSent || final) && u.done == t.done
  {
    var trimmed := TrimEnd(t.buffer);
    if trimmed != "" {
      if k.streaming {
        PreviewKeeps(t, FirstChunk(trimmed, k.maxChars));
        DeliverLongKeeps(ShowPreview(t, FirstChunk(trimmed, k.maxChars)), trimmed, k);
      } else if final {
        DeliverLongKeeps(t, trimmed, k);
        QuietPush(t, Post(SplitModel.Chunks(SplitModel.SplitForLimit(trimmed, k.maxChars).pieces)));
      }
    }
  }

  lemma ThenKeeps(t: Turn, message: Option<string>)
    requires Promised(t)
    ensures Promised(Then(t, Ending(message)))
  {
    hide Promised, Files, Settle;
    if !t.hung {
      QuietPush(t, Signal);
      if message.Some? {
        var u := Push(t, Post([ERROR_PREFIX + message.value]));
        QuietPush(t, Post([ERROR_PREFIX + message.value]));
        QuietPush(u, Signal);
        assert Push(u, Signal).queue == t.queue + Ending(message);
      } else {
        assert Ending(message) == [Signal];
      }
    }
  }

  lemma ActKeepsSound(t: Turn, a: Act, k: Config)
    requires Sound(t)
    ensures Sound(Apply(t, a, k))
  {
    if t.hung { return; }
    match a
    case Append(_) =>
    case Tick =>
      QuietPush(t, Signal);
      hide Promised, Flush;
      FlushKeeps(Push(t, Signal), false, k);
    case Deliver(extra) => QuietPush(t, Send(extra));
    case Status => QuietPush(t, Signal);
    case RunOne => if t.queue != [] { SettleRun(t.channel, t.queue); }
    case Finish => if !t.done { EndKeepsSound(t, None, k); }
    case Fail(message) => if !t.done { EndKeepsSound(t, Some(message), k); }
  }

  lemma EndKeepsSound(t: Turn, message: Option<string>, k: Config)
    requires Sound(t) && !t.done
    ensures Sound(Then(Flush(t.(done := true), true, k), Ending(message)))
  {
    assert Promised(t.(done := true));
    hide Flush, Promised;
    FlushKeeps(t.(done := true), true, k);
    ThenKeeps(Flush(t.(done := true), true, k), message);
  }

  lemma {:induction false} TurnsAreSound(acts: seq<Act>, k: Config)
    ensures Sound(Replay(acts, k))
  {
    if acts != [] {
      TurnsAreSound(acts[..|acts| - 1], k);
      ActKeepsSound(Replay(acts[..|acts| - 1], k), acts[|acts| - 1], k);
    }
  }

  // ---- when a turn hangs ----

  /** The text appended by these acts. */
  function Said(acts: seq<Act>): string {
    if acts == [] then ""
    else Said(acts[..|acts| - 1]) + if acts[|acts| - 1].Append? then acts[|acts| - 1].text else ""
  }

  predicate IsEnd(a: Act) {
    a.Finish? || a.Fail?
  }

  predicate Ended(acts: seq<Act>) {
    exists i :: 0 <= i < |acts| && IsEnd(acts[i])
  }

  /** The act flushes what has been said, before the end or as the end, and the splitter does not return. */
  predicate SticksAt(acts: seq<Act>, j: nat, k: Config)
    requires j < |acts|
  {
    (acts[j].Tick? || IsEnd(acts[j])) && !Ended(acts[..j]) && Sticks(TrimEnd(Said(acts[..j])), k.maxChars)
  }

  predicate SticksSomewhere(acts: seq<Act>, k: Config) {
    exists j :: 0 <= j < |acts| && SticksAt(acts, j, k)
  }

  lemma ShortTextsReturn(text: string, max: nat)
    ensures Sticks(text, max) ==> |text| > max && text != ""
  {}

  lemma FlushHangs(t: Turn, final: bool, k: Config)
    requires !t.hung && k.inlineLimit <= k.maxChars
    ensures var u := Flush(t, final, k);
      && u.buffer == t.buffer && u.done == t.done
      && (u.hung <==> k.streaming && Sticks(TrimEnd(t.buffer), k.maxChars))
  {
    ShortTextsReturn(TrimEnd(t.buffer), k.maxChars);
    hide Sticks, FirstChunk, TrimEnd;
  }

  lemma EndedGrows(acts: seq<Act>)
    requires acts != []
    ensures var n := |acts| - 1; Ended(acts) <==> Ended(acts[..n]) || IsEnd(acts[n])
  {
    var n := |acts| - 1;
    assert forall i :: 0 <= i < n ==> acts[..n][i] == acts[i];
  }

  lemma SticksInPrefix(acts: seq<Act>, n: nat, j: nat, k: Config)
    requires j < n <= |acts|
    ensures SticksAt(acts[..n], j, k) <==> SticksAt(acts, j, k)
  {
    hide Sticks, TrimEnd, Said, Ended;
    assert acts[..n][..j] == acts[..j] && acts[..n][j] == acts[j];
  }

  lemma SticksGrows(acts: seq<Act>, k: Config)
    requires acts != []
    ensures var n := |acts| - 1; SticksSomewhere(acts, k) <==> SticksSomewhere(acts[..n], k) || SticksAt(acts, n, k)
  {
    hide SticksAt;
    var n := |acts| - 1;
    forall j | 0 <= j < n ensures SticksAt(acts[..n], j, k) <==> SticksAt(acts, j, k) {
      SticksInPrefix(acts, n, j, k);
    }
  }

  /**
   * A turn hangs exactly when it streams and some tick or end before or at the end of the turn flushes a text
   * that the splitter never finishes.
   */
  lemma {:induction false} HangsExactly(acts: seq<Act>, k: Config)
    requires k.inlineLimit <= k.maxChars
    ensures var t := Replay(acts, k);
      && (t.hung <==> k.streaming && SticksSomewhere(acts, k))
      && (!t.hung ==> (t.done <==> Ended(acts)) && (!t.done ==> t.buffer == Said(acts)))
  {
    if acts != [] {
      var n := |acts| - 1;
      HangsExactly(acts[..n], k);
      EndedGrows(acts);
      SticksGrows(acts, k);
      var t, a := Replay(acts[..n], k), acts[n];
      ActHangs(t, a, k);
      hide Apply, Ended, SticksSomewhere, Sticks, TrimEnd;
    }
  }

  lemma ActHangs(t: Turn, a: Act, k: Config)
    requires k.inlineLimit <= k.maxChars
    ensures var u := Apply(t, a, k);
      && (u.hung <==> t.hung || (k.streaming && !t.done && (a.Tick? || IsEnd(a)) && Sticks(TrimEnd(t.buffer), k.maxChars)))
      && (!u.hung ==> (u.done <==> t.done || IsEnd(a)))
      && (!u.hung && !u.done ==> u.buffer == t.buffer + if a.Append? then a.text else "")
  {
    if !t.hung && !t.done {
      FlushHangs(Push(t, Signal), false, k);
      FlushHangs(t.(done := true), true, k);
    }
    hide Flush, Sticks, TrimEnd, Ending;
    assert t.buffer + "" == t.buffer;
  }

  lemma {:induction false} TrimmedPrefix(a: string, b: string)
    requires a <= b
    ensures TrimEnd(a) <= TrimEnd(b)
    decreases |b|
  {
    if b != "" && IsSpace(b[|b| - 1]) {
      var c := b[..|b| - 1];
      if a == b { TrimmedPrefix(c, c); } else { TrimmedPrefix(a, c); }
    }
  }

  lemma {:induction false} SaidGrows(acts: seq<Act>, j: nat)
    requires j <= |acts|
    ensures Said(acts[..j]) <= Said(acts)
  {
    if j < |acts| {
      SaidGrows(acts[..|acts| - 1], j);
      assert acts[..|acts| - 1][..j] == acts[..j];
    } else {
      assert acts[..j] == acts;
    }
  }

  /** It never hangs if no line with a fence marker in all that is said is longer than the limit less two. */
  lemma ShortLinesNeverHang(acts: seq<Act>, k: Config)
    requires k.inlineLimit <= k.maxChars && SplitLimits.ShortLines(TrimEnd(Said(acts)), k.maxChars - 2)
    ensures !Replay(acts, k).hung
  {
    HangsExactly(acts, k);
    var text := TrimEnd(Said(acts));
    SplitLimits.ShortFencesMeansShortLines(text, k.maxChars - 2);
    hide *;
    forall j | 0 <= j < |acts| ensures !Sticks(TrimEnd(Said(acts[..j])), k.maxChars) {
      var part := TrimEnd(Said(acts[..j]));
      SaidGrows(acts, j);
      TrimmedPrefix(Said(acts[..j]), Said(acts));
      PrefixReturns(text, part, k.maxChars);
    }
    assert !SticksSomewhere(acts, k) by { NoneSticks(acts, k); }
  }

  lemma PrefixReturns(text: string, part: string, max: nat)
    requires part <= text && SplitLimits.ShortFences(text, max - 2)
    ensures !Sticks(part, max)
  {
    hide SplitLimits.ShortFences, SplitLimits.ShortLines, SplitModel.SplitForLimit;
    assert part == text[0..|part|];
    SplitLimits.ShortFencesInside(text, max - 2, 0, |part|);
    SplitLimits.ShortFencesMeansShortLines(part, max - 2);
    SplitLimits.SplitTerminates(part, max);
  }

  lemma NoneSticks(acts: seq<Act>, k: Config)
    requires forall j :: 0 <= j < |acts| ==> !Sticks(TrimEnd(Said(acts[..j])), k.maxChars)
    ensures !SticksSomewhere(acts, k)
  {
    hide Sticks, Ended;
  }

  // ---- what is delivered ----

  /** The whole answer, as one message's content or as the one file. */
  ghost predicate Delivered(c: Channel, text: string, k: Config) {
    if Long(text, k) then Files(c.messages) == [text]
    else
      && Files(c.messages) == [] && TextMessage(text) in c.messages
      && (k.streaming ==> c.live.Some? && c.live.value < |c.messages| && c.messages[c.live.value] == TextMessage(text))
  }

  lemma ShortIsOneChunk(text: string, max: nat)
    requires text != "" && |text| <= max
    ensures FirstChunk(text, max) == text && !Sticks(text, max)
    ensures SplitModel.Chunks(SplitModel.SplitForLimit(text, max).pieces) == [text]
  {
  }

  /** Flushing for the last time promises the whole answer, if it returns. */
  lemma FinalFlushDelivers(t: Turn, k: Config)
    requires Promised(t) && !t.fileSent && !t.hung && k.inlineLimit <= k.maxChars
    requires LiveOk(Settle(t.channel, t.queue))
    ensures var u := Flush(t, true, k); var text := TrimEnd(t.buffer);
      text != "" && !u.hung ==> Promised(u) && Delivered(Settle(u.channel, u.queue), text, k)
  {
    var text := TrimEnd(t.buffer);
    if text != "" && !Flush(t, true, k).hung {
      FlushKeeps(t, true, k);
      if !Long(text, k) { ShortIsOneChunk(text, k.maxChars); }
      if k.streaming {
        var shown := ShowPreview(t, FirstChunk(text, k.maxChars));
        PreviewKeeps(t, FirstChunk(text, k.maxChars));
        DeliverLongKeeps(shown, text, k);
      } else if Long(text, k) {
        DeliverLongKeeps(t, text, k);
      } else {
        SettlePush(t, Post([text]));
        QuietPush(t, Post([text]));
        var c := Settle(t.channel, t.queue);
        assert Exec(c, Post([text])).messages[|c.messages|] == TextMessage(text);
      }
    }
  }

  /** Anything posted afterwards leaves the delivery in place. */
  lemma PostKeepsDelivered(t: Turn, op: Op, text: string, k: Config)
    requires Promised(t) && Delivered(Settle(t.channel, t.queue), text, k) && (op.Post? || op.Signal?)
    ensures Promised(Push(t, op)) && Delivered(Settle(t.channel, Push(t, op).queue), text, k)
  {
    SettlePush(t, op);
    QuietPush(t, op);
    var c := Settle(t.channel, t.queue);
    ExecFiles(c, op);
    if TextMessage(text) in c.messages {
      var i :| 0 <= i < |c.messages| && c.messages[i] == TextMessage(text);
      assert Exec(c, op).messages[i] == TextMessage(text);
    }
  }

  lemma EndingKeepsDelivered(t: Turn, message: Option<string>, text: string, k: Config)
    requires !t.hung && Promised(t) && Delivered(Settle(t.channel, t.queue), text, k)
    ensures Delivered(Settle(t.channel, Then(t, Ending(message)).queue), text, k)
  {
    hide Promised, Delivered, Settle;
    if message.Some? {
      var u := Push(t, Post([ERROR_PREFIX + message.value]));
      PostKeepsDelivered(t, Post([ERROR_PREFIX + message.value]), text, k);
      PostKeepsDelivered(u, Signal, text, k);
      assert Push(u, Signal).queue == t.queue + Ending(message);
    } else {
      PostKeepsDelivered(t, Signal, text, k);
      assert Ending(message) == [Signal];
    }
  }

  /** The channel never holds more files than it will hold once everything queued has run. */
  lemma {:induction false} FilesOnlyGrow(c: Channel, ops: seq<Op>)
    requires LiveOk(c)
    ensures LiveOk(Settle(c, ops)) && |Files(c.messages)| <= |Files(Settle(c, ops).messages)|
    decreases |ops|
  {
    if ops != [] {
      FilesOnlyGrow(c, ops[..|ops| - 1]);
      ExecFiles(Settle(c, ops[..|ops| - 1]), ops[|ops| - 1]);
    }
  }

  /** Where a turn hangs, its text is too long for one message and no file has gone out. */
  ghost predicate HangsEmpty(t: Turn, k: Config) {
    t.hung ==> |TrimEnd(t.buffer)| > k.maxChars && Files(t.channel.messages) == []
  }

  lemma FlushHangsEmpty(t: Turn, final: bool, k: Config)
    requires Promised(t) && LiveOk(t.channel) && !t.hung && !t.fileSent
    ensures HangsEmpty(Flush(t, final, k), k)
  {
    ShortTextsReturn(TrimEnd(t.buffer), k.maxChars);
    FilesOnlyGrow(t.channel, t.queue);
    FlushKeepsChannel(t, final, k);
    hide Sticks, FirstChunk, TrimEnd, Settle, Files;
  }

  lemma DoneIsPromised(t: Turn)
    requires Promised(t)
    ensures Promised(t.(done := true))
  {}

  lemma ActHangsEmpty(t: Turn, a: Act, k: Config)
    requires Sound(t) && LiveOk(t.channel) && HangsEmpty(t, k)
    ensures HangsEmpty(Apply(t, a, k), k)
  {
    hide Flush, Promised, LiveOk, Settle, Files, TrimEnd, Exec, Ending;
    if !t.hung && !t.done {
      QuietPush(t, Signal);
      DoneIsPromised(t);
      FlushHangsEmpty(Push(t, Signal), false, k);
      FlushHangsEmpty(t.(done := true), true, k);
    }
  }

  lemma {:induction false} HungTurnsDeliverNothing(acts: seq<Act>, k: Config)
    ensures HangsEmpty(Replay(acts, k), k)
  {
    if acts != [] {
      var n := |acts| - 1;
      HungTurnsDeliverNothing(acts[..n], k);
      TurnsAreSound(acts[..n], k);
      LiveStays(acts[..n], k);
      hide Apply, Sound, HangsEmpty, LiveOk;
      ActHangsEmpty(Replay(acts[..n], k), acts[n], k);
    }
  }

  /**
   * For every schedule: when a turn that was not over yet ends, the whole trimmed answer is delivered once
   * everything queued has run, as one message or, if it is longer than the inline limit, as exactly one file
   * with exactly that text. It is not exactly when the turn hangs in the splitter, then or before.
   */
  lemma EndingDelivers(acts: seq<Act>, end: Act, k: Config)
    requires k.inlineLimit <= k.maxChars && IsEnd(end)
    requires !Replay(acts, k).done
    ensures var t := Replay(acts, k); var u := Apply(t, end, k); var text := TrimEnd(t.buffer);
      && (!u.hung ==> u.done)
      && (text != "" ==> (Delivered(Result(u), text, k) <==> !u.hung))
  {
    var t := Replay(acts, k);
    var u := Apply(t, end, k);
    TurnsAreSound(acts, k);
    HungTurnsDeliverNothing(acts + [end], k);
    assert (acts + [end])[..|acts|] == acts;
    hide Replay;
    if !t.hung { EndDelivers(t, end, k); }
    if u.hung { assert Files(u.channel.messages) == []; }
    hide Apply, Files, Settle;
    assert u.hung ==> u.buffer == t.buffer by { HangKeepsBuffer(t, end, k); }
  }

  lemma HangKeepsBuffer(t: Turn, end: Act, k: Config)
    requires IsEnd(end)
    ensures Apply(t, end, k).buffer == t.buffer
  {
    hide TrimEnd, Sticks, FirstChunk, Long, SplitModel.SplitForLimit, SplitModel.Chunks;
  }

  lemma EndDelivers(t: Turn, end: Act, k: Config)
    requires Sound(t) && !t.done && !t.hung && IsEnd(end) && k.inlineLimit <= k.maxChars
    ensures var u := Apply(t, end, k); var text := TrimEnd(t.buffer);
      && (!u.hung ==> u.done)
      && (text != "" && !u.hung ==> Delivered(Settle(u.channel, u.queue), text, k))
  {
    var d := t.(done := true);
    assert Promised(d);
    FinalFlushDelivers(d, k);
    FlushKeeps(d, true, k);
    var f := Flush(d, true, k);
    var text := TrimEnd(t.buffer);
    if text != "" && !f.hung {
      EndingKeepsDelivered(f, if end.Finish? then None else Some(end.message), text, k);
    }
    hide Flush, Delivered, Promised, Settle;
  }

  /** After the end nothing is added: what follows only runs what is queued. */
  lemma {:induction false} NothingAfterTheEnd(t: Turn, acts: seq<Act>, k: Config)
    requires t.done
    ensures var u := Continue(t, acts, k); u.done && u.hung == t.hung && Result(u) == Result(t)
    decreases |acts|
  {
    if acts != [] {
      if acts[0].RunOne? && t.queue != [] { SettleRun(t.channel, t.queue); }
      NothingAfterTheEnd(Apply(t, acts[0], k), acts[1..], k);
    }
  }

  function Continue(t: Turn, acts: seq<Act>, k: Config): Turn
    decreases |acts|
  {
    if acts == [] then t else Continue(Apply(t, acts[0], k), acts[1..], k)
  }

  lemma FlushKeepsChannel(t: Turn, final: bool, k: Config)
    ensures Flush(t, final, k).channel == t.channel
  {}

  lemma LiveFixed(t: Turn, a: Act, k: Config)
    requires LiveOk(t.channel)
    ensures LiveOk(Apply(t, a, k).channel)
    ensures t.channel.live.Some? ==> Apply(t, a, k).channel.live == t.channel.live
  {
    if t.hung { return; }
    match a
    case Tick => FlushKeepsChannel(Push(t, Signal), false, k);
    case RunOne => if t.queue != [] { ExecFiles(t.channel, t.queue[0]); }
    case Finish => FlushKeepsChannel(t.(done := true), true, k);
    case Fail(_) => FlushKeepsChannel(t.(done := true), true, k);
    case _ =>
  }

  /** Over every schedule at most one answer file is ever sent, and the live message is created at most once. */
  lemma OneFileOneLiveMessage(acts: seq<Act>, a: Act, k: Config)
    ensures var t := Replay(acts, k);
      && |Files(t.channel.messages)| <= |Files(Result(t).messages)| <= 1
      && (t.channel.live.Some? ==> Apply(t, a, k).channel.live == t.channel.live)
  {
    var t := Replay(acts, k);
    TurnsAreSound(acts, k);
    LiveStays(acts, k);
    LiveFixed(t, a, k);
    hide Replay, Apply, Files;
    FilesOnlyGrow(t.channel, t.queue);
  }

  lemma {:induction false} LiveStays(acts: seq<Act>, k: Config)
    ensures LiveOk(Replay(acts, k).channel)
  {
    hide Apply;
    if acts != [] {
      LiveStays(acts[..|acts| - 1], k);
      LiveFixed(Replay(acts[..|acts| - 1], k), acts[|acts| - 1], k);
    }
  }

  /**
   * The hypothesis on fence lines is needed, for every limit of four or more: the answer is never delivered
   * and nothing at all reaches the platform.
   */
  lemma LongFenceLineHangs(max: nat)
    requires max >= 4
    ensures var k := Config(true, max, max); var text := SplitLimits.Fence(max - 1) + "\n" + "xx";
      var t := Replay([Append(text), Finish], k);
      t.hung && Result(t) == NoMessages
  {
    var k := Config(true, max, max);
    var text := SplitLimits.Fence(max - 1) + "\n" + "xx";
    SplitLimits.LongFenceLineSticks(max);
    hide *;
    assert Sticks(text, max) by { SticksIs(text, max); }
    assert TrimEnd(text) == text by { TrimmedAlready(text); }
    SaidAndFinished(text, k);
  }

  lemma SticksIs(text: string, max: nat)
    requires SplitModel.SplitForLimit(text, max).Stuck?
    ensures Sticks(text, max)
  {}

  lemma TrimmedAlready(text: string)
    requires text != "" && text[|text| - 1] == 'x'
    ensures TrimEnd(text) == text
  {}

  lemma SaidAndFinished(text: string, k: Config)
    requires k.streaming && Sticks(text, k.maxChars) && TrimEnd(text) == text && text != ""
    ensures var t := Replay([Append(text), Finish], k); t.hung && Result(t) == NoMessages
  {
    hide Sticks, TrimEnd, FirstChunk;
    var acts := [Append(text), Finish];
    assert acts[..1] == [Append(text)] && acts[..1][..0] == [];
    assert "" + text == text;
    assert Replay(acts[..1], k) == NewTurn.(buffer := text);
  }
}
