/** The client object (packages/agent-client/src/client.ts), proved against module Rpc. */
module AgentClient {
  import opened Basics
  import opened Rpc

  class AgentClient {
    var nextId: nat
    /** The keys of the `pending` Map in their order. */
    var pending: seq<nat>
    var closed: bool
    /** What the world sees: promises settled, notifications emitted. */
    var settled: seq<Settlement>
    var notes: seq<string>

    constructor ()
      ensures Value() == NewClient
    {
      nextId, pending, closed, settled, notes := 1, [], false, [], [];
    }

    function Value(): Client
      reads this
    {
      Client(nextId, pending, closed, settled, notes)
    }

    /** None when the client is closed: the promise is rejected without an id. */
    method Request() returns (id: Option<nat>)
      modifies this`nextId, this`pending
      ensures Value() == Ask(old(Value()))
      ensures id == if closed then None else Some(old(nextId))
    {
      if closed { return None; }
      id := Some(nextId);
      nextId := nextId + 1;
      pending := pending + [id.value];
    }

    method SettleOne(id: nat, o: Outcome)
      modifies this`pending, this`settled
      ensures Value() == Settle(old(Value()), id, o)
    {
      var i := IndexOf(pending, id);
      if i == |pending| { return; }
      pending := pending[..i] + pending[i + 1..];
      settled := settled + [Settlement(id, o)];
    }

    method Handle(f: Frame)
      modifies this`pending, this`settled, this`notes
      ensures Value() == Hear(old(Value()), f)
    {
      if f.Garbage? {
        notes := notes + ["client/error"];
      } else if f.Note? {
        notes := notes + [f.name];
      } else if f.Reply? && f.id.Num? {
        SettleOne(f.id.n, f.outcome);
      }
    }

    method RejectAllPending()
      modifies this`pending, this`settled
      ensures Value() == RejectAll(old(Value()))
    {
      while pending != []
        invariant nextId == old(nextId) && closed == old(closed) && notes == old(notes)
        invariant RejectAll(Value()) == RejectAll(old(Value()))
        decreases |pending|
      {
        settled := settled + [Settlement(pending[0], CutOff)];
        pending := pending[1..];
      }
    }

    /** `close` and `handleDisconnect` */
    method Shut()
      modifies this
      ensures Value() == End(old(Value())) && closed && (old(closed) ==> Value() == old(Value()))
    {
      if closed { return; }
      closed := true;
      RejectAllPending();
    }
  }
}
