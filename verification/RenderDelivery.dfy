/**
 * What a turn on a chat platform delivers, read off the acts alone (apps/gateway/src/render/chat-render.ts): the
 * message that is edited in place, and all the others in order.
 */
module RenderDelivery {
  import opened Basics
  import opened Renderer
  import SplitModel

  /** All messages but the live one. */
  function Others(c: Channel): seq<Payload> {
    if c.live.Some? && c.live.value < |c.messages|
    then c.messages[..c.live.value] + c.messages[c.live.value + 1..]
    else c.messages
  }

  /** What the live message shows. */
  function Live(c: Channel): Option<Payload> {
    if c.live.Some? && c.live.value < |c.messages| then Some(c.messages[c.live.value]) else None
  }

  // ---- what the acts say ----

  function Texts(chunks: seq<string>): seq<Payload> {
    seq(|chunks|, i requires 0 <= i < |chunks| => TextMessage(chunks[i]))
  }

  /** The messages an answer ends up in, apart from the live one. */
  function Answer(text: string, k: Config): seq<Payload> {
    if text == "" then []
    else if |text| > k.inlineLimit then [Document(text)]
    else if k.streaming then []
    else Texts(SplitModel.Chunks(SplitModel.SplitForLimit(text, k.maxChars).pieces))
  }

  /** What an act during the turn adds, where `text` has been said so far. */
  function Brings(a: Act, text: string, k: Config): seq<Payload> {
    match a
    case Deliver(extra) => [extra]
    case Finish => Answer(text, k)
    case Fail(message) => Answer(text, k) + [TextMessage("\U{26A0} \U{8FD0}\U{884C}\U{51FA}\U{9519}\U{FF1A}" + message)]
    case _ => []
  }

  function Expected(acts: seq<Act>, k: Config): seq<Payload> {
    if acts == [] then []
    else
      var n := |acts| - 1;
      Expected(acts[..n], k) + if Ended(acts[..n]) then [] else Brings(acts[n], TrimEnd(Said(acts[..n])), k)
  }

  /** What had been said when the turn was last flushed, by the timer or by its end; blank text is not flushed. */
  function LastFlushed(acts: seq<Act>): string {
    if acts == [] then ""
    else
      var n := |acts| - 1;
      var text := TrimEnd(Said(acts[..n]));
      if (acts[n].Tick? || IsEnd(acts[n])) && !Ended(acts[..n]) && text != "" then text else LastFlushed(acts[..n])
  }

  // ---- one operation ----

  function Adds(op: Op): seq<Payload> {
    match op
    case Post(texts) => Texts(texts)
    case Send(extra) => [extra]
    case SendFile(text) => [Document(text)]
    case _ => []
  }

  lemma ExecAdds(c: Channel, op: Op)
    requires LiveOk(c)
    ensures var d := Exec(c, op);
      && LiveOk(d) && Others(d) == Others(c) + Adds(op)
      && Live(d) == if op.Preview? then Some(TextMessage(op.text)) else Live(c)
  {
    match op
    case Preview(text) => PreviewAdds(c, text);
    case Post(texts) => JoinAdds(c, Texts(texts));
    case Send(extra) => JoinAdds(c, [extra]);
    case SendFile(text) => JoinAdds(c, [Document(text)]);
    case Signal => JoinAdds(c, []);
    hide Others, Live;
  }

  lemma JoinAdds(c: Channel, ms: seq<Payload>)
    requires LiveOk(c)
    ensures var d := c.(messages := c.messages + ms);
      LiveOk(d) && Others(d) == Others(c) + ms && Live(d) == Live(c) && (ms == [] ==> d == c)
  {
    var d := c.(messages := c.messages + ms);
    if c.live.Some? {
      var i := c.live.value;
      assert d.messages[..i] == c.messages[..i] && d.messages[i + 1..] == c.messages[i + 1..] + ms;
    }
    assert c.messages + [] == c.messages;
  }

  lemma PreviewAdds(c: Channel, text: string)
    requires LiveOk(c)
    ensures var d := Exec(c, Preview(text));
      LiveOk(d) && Others(d) == Others(c) + [] && Live(d) == Some(TextMessage(text))
  {
    var d := Exec(c, Preview(text));
    if c.live.Some? {
      var i := c.live.value;
      assert d.messages[..i] == c.messages[..i] && d.messages[i + 1..] == c.messages[i + 1..];
    } else {
      assert d.messages[..|c.messages|] == c.messages && d.messages[|c.messages| + 1..] == [];
    }
  }

  lemma PushAdds(t: Turn, op: Op)
    requires LiveOk(Settle(t.channel, t.queue))
    ensures var c, d := Settle(t.channel, t.queue), Settle(t.channel, Push(t, op).queue);
      && LiveOk(d) && Others(d) == Others(c) + Adds(op)
      && Live(d) == if op.Preview? then Some(TextMessage(op.text)) else Live(c)
  {
    SettlePush(t, op);
    ExecAdds(Settle(t.channel, t.queue), op);
    hide Exec, Adds, Others, Live;
  }

  // ---- one act ----

  /** The flushed text's first chunk. */
  ghost predicate IsFirstChunk(shown: Payload, text: string, k: Config) {
    var o := SplitModel.SplitForLimit(text, k.maxChars);
    o.Done? && o.pieces != [] && shown == TextMessage(SplitModel.Render(o.pieces[0]))
  }

  lemma FirstChunkIs(text: string, k: Config)
    requires text != "" && !Sticks(text, k.maxChars)
    ensures IsFirstChunk(TextMessage(FirstChunk(text, k.maxChars)), text, k)
  {
    hide SplitModel.First, SplitModel.Render, SplitModel.DanglingFence, SplitModel.Cut;
  }

  /** What flushing adds to what will have been delivered. */
  lemma FlushAdds(t: Turn, final: bool, k: Config)
    requires Promised(t) && !t.fileSent && !Flush(t, final, k).hung
    ensures var u := Flush(t, final, k); var text := TrimEnd(t.buffer);
      var c, d := Settle(t.channel, t.queue), Settle(u.channel, u.queue);
      && Others(d) == Others(c) + (if final then Answer(text, k) else [])
      && (if k.streaming && text != "" then Live(d).Some? && IsFirstChunk(Live(d).value, text, k)
          else Live(d) == Live(c))
  {
    var text := TrimEnd(t.buffer);
    if text != "" {
      if k.streaming {
        StreamedAdds(t, text, final, k);
      } else if final {
        if Long(text, k) {
          PushAdds(t.(fileSent := true), SendFile(text));
        } else {
          PushAdds(t, Post(SplitModel.Chunks(SplitModel.SplitForLimit(text, k.maxChars).pieces)));
        }
      }
    }
    hide Settle, Others, Live, Promised, IsFirstChunk, SplitModel.SplitForLimit, FirstChunk, TrimEnd, SplitModel.Chunks;
  }

  lemma PreviewShows(t: Turn, preview: string)
    requires Promised(t)
    ensures var u := ShowPreview(t, preview); var c, d := Settle(t.channel, t.queue), Settle(u.channel, u.queue);
      && LiveOk(d) && u.fileSent == t.fileSent && Others(d) == Others(c) && Live(d) == Some(TextMessage(preview))
  {
    if t.lastPreview != Some(preview) {
      PushAdds(t.(lastPreview := Some(preview)), Preview(preview));
      hide Others;
      var c := Settle(t.channel, t.queue);
      assert Others(c) + [] == Others(c);
    }
  }

  lemma FileAdds(t: Turn, text: string, k: Config)
    requires LiveOk(Settle(t.channel, t.queue)) && !t.fileSent
    ensures var v := DeliverLong(t, text, k); var c, d := Settle(t.channel, t.queue), Settle(v.channel, v.queue);
      && Others(d) == Others(c) + (if Long(text, k) then [Document(text)] else []) && Live(d) == Live(c)
  {
    if Long(text, k) { PushAdds(t.(fileSent := true), SendFile(text)); }
    hide Others, Live;
    var c := Settle(t.channel, t.queue);
    assert Others(c) + [] == Others(c);
  }

  lemma StreamedAdds(t: Turn, text: string, final: bool, k: Config)
    requires Promised(t) && !t.fileSent && text != "" && !Sticks(text, k.maxChars) && k.streaming
    ensures var u := ShowPreview(t, FirstChunk(text, k.maxChars));
      var v := if final then DeliverLong(u, text, k) else u;
      var c, d := Settle(t.channel, t.queue), Settle(v.channel, v.queue);
      && Others(d) == Others(c) + (if final then Answer(text, k) else [])
      && Live(d).Some? && IsFirstChunk(Live(d).value, text, k)
  {
    hide Settle, Others, Live, LiveOk, IsFirstChunk, FirstChunk, ShowPreview, DeliverLong, SplitModel.SplitForLimit;
    var preview := FirstChunk(text, k.maxChars);
    FirstChunkIs(text, k);
    PreviewShows(t, preview);
    var u := ShowPreview(t, preview);
    if final { FileAdds(u, text, k); }
    var c := Settle(t.channel, t.queue);
    assert Others(c) + [] == Others(c);
  }

  /** What will have been delivered by a turn that does not hang. */
  function Settled(t: Turn): Channel {
    Settle(t.channel, t.queue)
  }

  lemma FlushFrame(t: Turn, final: bool, k: Config)
    ensures var u := Flush(t, final, k); u.buffer == t.buffer && u.done == t.done && (t.hung ==> u.hung)
  {
    hide Sticks, FirstChunk, TrimEnd, SplitModel.SplitForLimit;
  }

  /** What is said and whether the turn is over, as long as it does not hang. */
  lemma ActFollows(t: Turn, a: Act, k: Config)
    ensures var u := Apply(t, a, k);
      !u.hung ==>
        && !t.hung && (u.done <==> t.done || IsEnd(a))
        && (!u.done ==> u.buffer == t.buffer + if a.Append? then a.text else "")
  {
    FlushFrame(Push(t, Signal), false, k);
    FlushFrame(t.(done := true), true, k);
    hide Flush, Ending;
    assert t.buffer + "" == t.buffer;
  }

  lemma {:induction false} RunFollows(acts: seq<Act>, k: Config)
    ensures var t := Replay(acts, k);
      !t.hung ==> (t.done <==> Ended(acts)) && (!t.done ==> t.buffer == Said(acts))
  {
    if acts != [] {
      var n := |acts| - 1;
      RunFollows(acts[..n], k);
      EndedGrows(acts);
      ActFollows(Replay(acts[..n], k), acts[n], k);
      hide Apply, Ended;
    }
  }

  function Failure(message: Option<string>): seq<Payload> {
    if message.Some? then [TextMessage("\U{26A0} \U{8FD0}\U{884C}\U{51FA}\U{9519}\U{FF1A}" + message.value)] else []
  }

  lemma EndingAdds(t: Turn, message: Option<string>)
    requires Promised(t) && !t.hung
    ensures var u := Then(t, Ending(message));
      !u.hung && Others(Settled(u)) == Others(Settled(t)) + Failure(message) && Live(Settled(u)) == Live(Settled(t))
  {
    hide Settle, Others, Live, LiveOk;
    assert Others(Settled(t)) + [] == Others(Settled(t));
    if message.Some? {
      var v := Push(t, Post([ERROR_PREFIX + message.value]));
      PushAdds(t, Post([ERROR_PREFIX + message.value]));
      assert Others(Settled(v)) == Others(Settled(t)) + Failure(message);
      PushAdds(v, Signal);
      assert Others(Settled(v)) + [] == Others(Settled(v));
      assert Push(v, Signal).queue == t.queue + Ending(message);
    } else {
      PushAdds(t, Signal);
      assert Push(t, Signal).queue == t.queue + Ending(message);
    }
  }

  lemma EndAdds(t: Turn, message: Option<string>, k: Config)
    requires Promised(t) && !t.fileSent && !Flush(t, true, k).hung
    ensures var u := Then(Flush(t, true, k), Ending(message)); var text := TrimEnd(t.buffer);
      && !u.hung
      && Others(Settled(u)) == Others(Settled(t)) + Answer(text, k) + Failure(message)
      && (if k.streaming && text != "" then Live(Settled(u)).Some? && IsFirstChunk(Live(Settled(u)).value, text, k)
          else Live(Settled(u)) == Live(Settled(t)))
  {
    hide Flush, Promised, Then, Ending, Settle, Others, Live, LiveOk, IsFirstChunk, TrimEnd, Answer, Failure;
    FlushAdds(t, true, k);
    FlushKeeps(t, true, k);
    EndingAdds(Flush(t, true, k), message);
  }

  /** One act of a turn that is not over. */
  lemma ActAdds(t: Turn, a: Act, k: Config)
    requires Sound(t) && !t.done && !Apply(t, a, k).hung
    ensures var u := Apply(t, a, k); var text := TrimEnd(t.buffer);
      && Others(Settled(u)) == Others(Settled(t)) + Brings(a, text, k)
      && (if k.streaming && text != "" && (a.Tick? || IsEnd(a))
          then Live(Settled(u)).Some? && IsFirstChunk(Live(Settled(u)).value, text, k)
          else Live(Settled(u)) == Live(Settled(t)))
  {
    hide Settle, Others, Live, IsFirstChunk, TrimEnd, Answer, Flush, Ending;
    assert Others(Settled(t)) + [] == Others(Settled(t));
    match a
    case Append(_) =>
    case Tick =>
      PushAdds(t, Signal);
      QuietPush(t, Signal);
      FlushAdds(Push(t, Signal), false, k);
    case Deliver(extra) => PushAdds(t, Send(extra));
    case Status => PushAdds(t, Signal);
    case RunOne => if t.queue != [] { SettleRun(t.channel, t.queue); }
    case Finish =>
      var now := Others(Settled(t)) + Answer(TrimEnd(t.buffer), k);
      assert now + [] == now;
      EndAdds(t.(done := true), None, k);
    case Fail(message) =>
      EndAdds(t.(done := true), Some(message), k);
      assert Brings(a, TrimEnd(t.buffer), k) == Answer(TrimEnd(t.buffer), k) + Failure(Some(message));
  }

  lemma OverAdds(t: Turn, a: Act, k: Config)
    requires t.done && !t.hung
    ensures var u := Apply(t, a, k); !u.hung && Settled(u) == Settled(t)
  {
    if a.RunOne? && t.queue != [] { SettleRun(t.channel, t.queue); }
    hide Settle;
  }

  /**
   * For every schedule that does not hang, once everything queued has run: the messages besides the live one are
   * the extras handed in before the end, the answer unless it fits the live message, and the error, in that order.
   */
  lemma {:induction false} MessagesExactly(acts: seq<Act>, k: Config)
    requires !Replay(acts, k).hung
    ensures Others(Result(Replay(acts, k))) == Expected(acts, k)
  {
    if acts != [] {
      var n := |acts| - 1;
      var t := Replay(acts[..n], k);
      ActFollows(t, acts[n], k);
      RunFollows(acts[..n], k);
      TurnsAreSound(acts[..n], k);
      MessagesExactly(acts[..n], k);
      hide Apply, Settle, Others, Sound, Ended, Said, TrimEnd, Brings;
      if t.done {
        OverAdds(t, acts[n], k);
        assert Expected(acts, k) == Expected(acts[..n], k);
      } else {
        ActAdds(t, acts[n], k);
      }
    }
  }

  /**
   * There is a live message if and only if the platform edits messages and something has been flushed, and it
   * shows the first chunk of what was flushed last.
   */
  lemma {:induction false} LiveExactly(acts: seq<Act>, k: Config)
    requires !Replay(acts, k).hung
    ensures var live := Live(Result(Replay(acts, k))); var text := LastFlushed(acts);
      && (live.Some? <==> k.streaming && text != "")
      && (live.Some? ==> IsFirstChunk(live.value, text, k))
  {
    if acts != [] {
      var n := |acts| - 1;
      var t := Replay(acts[..n], k);
      ActFollows(t, acts[n], k);
      RunFollows(acts[..n], k);
      TurnsAreSound(acts[..n], k);
      LiveExactly(acts[..n], k);
      hide Apply, Settle, Live, Others, Sound, Ended, Said, TrimEnd, Brings, IsFirstChunk;
      if t.done {
        OverAdds(t, acts[n], k);
      } else {
        ActAdds(t, acts[n], k);
      }
    }
  }

  /** A tick of a streaming turn shows the first chunk of what has been said. */
  lemma TickShows(acts: seq<Act>, k: Config)
    requires k.streaming && !Ended(acts) && TrimEnd(Said(acts)) != ""
    requires !Replay(acts + [Tick], k).hung
    ensures var live := Live(Result(Replay(acts + [Tick], k)));
      live.Some? && IsFirstChunk(live.value, TrimEnd(Said(acts)), k)
  {
    LiveExactly(acts + [Tick], k);
    assert (acts + [Tick])[..|acts|] == acts;
    hide Replay, Result, Live, Ended, Said, TrimEnd, IsFirstChunk;
  }

  // ---- what has arrived ----

  /** A message that has arrived stays where it is, and only the live one is edited. */
  lemma ArrivedStays(t: Turn, a: Act, k: Config)
    ensures var c, d := t.channel, Apply(t, a, k).channel;
      && |c.messages| <= |d.messages|
      && forall i :: 0 <= i < |c.messages| && c.live != Some(i) ==> d.messages[i] == c.messages[i]
  {
    FlushKeepsChannel(Push(t, Signal), false, k);
    FlushKeepsChannel(t.(done := true), true, k);
    hide Flush, Ending;
  }

  /** What is queued runs one after another: as many steps as there are operations deliver all of it. */
  lemma {:induction false} EverythingRuns(t: Turn, k: Config)
    requires !t.hung
    ensures var u := Continue(t, seq(|t.queue|, _ => RunOne), k); u.queue == [] && u.channel == Result(t)
    decreases |t.queue|
  {
    var acts := seq(|t.queue|, _ => RunOne);
    if t.queue != [] {
      var u := Apply(t, RunOne, k);
      SettleRun(t.channel, t.queue);
      assert acts[0] == RunOne && acts[1..] == seq(|u.queue|, _ => RunOne);
      EverythingRuns(u, k);
      hide Exec, Settle;
    }
  }
}
