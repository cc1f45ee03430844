/** The renderer as the object it is (apps/gateway/src/render/chat-render.ts). */
module ChatRender {
  import opened Basics
  import Split
  import SplitModel
  import R = Renderer

  class ConversationRenderer {
    const config: R.Config
    var buffer: string
    var lastPreview: Option<string>
    var fileSent: bool
    var done: bool
    /** Inside a split that never returns. */
    var hung: bool
    var queue: seq<R.Op>
    var channel: R.Channel

    constructor (config: R.Config)
      ensures Value() == R.NewTurn && this.config == config
    {
      this.config := config;
      buffer, lastPreview, fileSent, done, hung := "", None, false, false, false;
      queue, channel := [], R.NoMessages;
    }

    function Value(): R.Turn
      reads this
    {
      R.Turn(buffer, lastPreview, fileSent, done, hung, queue, channel)
    }

    /** Put a side effect at the end of the send chain. */
    method Enqueue(op: R.Op)
      modifies this`queue
      ensures Value() == R.Push(old(Value()), op)
    {
      queue := queue + [op];
    }

    /** The head of the send chain completes. */
    method RunOne()
      modifies this`queue, this`channel
      ensures Value() == R.Apply(old(Value()), R.RunOne, config)
    {
      if hung || queue == [] { return; }
      channel := R.Exec(channel, queue[0]);
      queue := queue[1..];
    }

    method AppendText(text: string)
      modifies this`buffer
      ensures Value() == R.Apply(old(Value()), R.Append(text), config)
    {
      if hung || done { return; }
      buffer := buffer + text;
    }

    method DeliverLong(text: string)
      modifies this`fileSent, this`queue
      ensures Value() == R.DeliverLong(old(Value()), text, config)
    {
      if fileSent || |text| <= config.inlineLimit { return; }
      fileSent := true;
      Enqueue(R.SendFile(text));
    }

    method Flush(final: bool)
      modifies this`lastPreview, this`fileSent, this`queue, this`hung
      ensures Value() == R.Flush(old(Value()), final, config)
    {
      hide SplitModel.SplitForLimit, SplitModel.Render, TrimEnd;
      var trimmed := TrimEnd(buffer);
      if trimmed == "" { return; }
      if config.streaming {
        var chunks, stuck := Split.SplitForLimit(trimmed, config.maxChars);
        if stuck {
          hung := true;
          return;
        }
        var preview := if chunks != [] then chunks[0] else trimmed;
        if lastPreview != Some(preview) {
          lastPreview := Some(preview);
          Enqueue(R.Preview(preview));
        }
        if final { DeliverLong(trimmed); }
        return;
      }
      if !final { return; }
      if R.Long(trimmed, config) {
        DeliverLong(trimmed);
        return;
      }
      var chunks, stuck := Split.SplitForLimit(trimmed, config.maxChars);
      if stuck {
        hung := true;
        return;
      }
      Enqueue(R.Post(chunks));
    }

    /** The throttle timer fires. */
    method Tick()
      modifies this`lastPreview, this`fileSent, this`queue, this`hung
      ensures Value() == R.Apply(old(Value()), R.Tick, config)
    {
      if hung || done { return; }
      Enqueue(R.Signal);
      Flush(false);
    }

    /** A notice or an artifact. */
    method Deliver(extra: R.Extra)
      modifies this`queue
      ensures Value() == R.Apply(old(Value()), R.Deliver(extra), config)
    {
      if hung || done { return; }
      Enqueue(R.Send(extra));
    }

    /** What follows a flush that has returned. */
    method Close(message: Option<string>)
      modifies this`queue
      ensures Value() == R.Then(old(Value()), R.Ending(message))
    {
      if hung { return; }
      if message.Some? { Enqueue(R.Post([R.ERROR_PREFIX + message.value])); }
      Enqueue(R.Signal);
      assert queue == old(queue) + R.Ending(message);
    }

    method Finish()
      modifies this`done, this`lastPreview, this`fileSent, this`queue, this`hung
      ensures Value() == R.Apply(old(Value()), R.Finish, config)
    {
      if hung || done { return; }
      hide R.Flush;
      done := true;
      Flush(true);
      Close(None);
    }

    method Fail(message: string)
      modifies this`done, this`lastPreview, this`fileSent, this`queue, this`hung
      ensures Value() == R.Apply(old(Value()), R.Fail(message), config)
    {
      if hung || done { return; }
      done := true;
      // With nothing but white space to show, flushing does nothing anyway.
      if TrimEnd(buffer) != "" { Flush(true); }
      Close(Some(message));
    }
  }
}
