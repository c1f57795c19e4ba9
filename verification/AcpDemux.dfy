/**
 The ACP client's demultiplexer (crates/acp-bridge/src/acp_client.rs): the state shared by
 the reader task and the requests, and what each of them does to it under a lock.
 */
module AcpDemux {
  import opened Common
  import opened Ids

  /** The `id` of a frame: a JSON string, or any other JSON value by its text. */
  datatype JsonId = Str(text: string) | Other(text: string)

  datatype Frame = Frame(id: Option<JsonId>, methodName: Option<string>, body: string)

  datatype Reply = Answer(frame: Frame) | ConnectionClosed

  /**
   `pending` maps the id text of a request to the request waiting on it. `replies` and `heard`
   are what has been sent into the one-shot and the subscriber channel of a request.
   */
  datatype Shared = Shared(pending: map<string, nat>, subscriber: Option<nat>, buffer: seq<Frame>,
                           replies: map<nat, Reply>, heard: map<nat, seq<Frame>>)

  function HeardBy(s: Shared, request: nat): seq<Frame> {
    if request in s.heard then s.heard[request] else []
  }

  /** A frame with an id goes to whoever waits on that id, or nowhere. */
  function Deliver(s: Shared, frame: Frame): Shared
    requires frame.id.Some?
  {
    var key := frame.id.value.text;
    if key !in s.pending then s
    else s.(pending := s.pending - {key}, replies := s.replies[s.pending[key] := Answer(frame)])
  }

  /** A frame without an id goes to the subscriber, if there is one. */
  function Forward(s: Shared, frame: Frame): Shared {
    match s.subscriber
    case Some(r) => s.(heard := s.heard[r := HeardBy(s, r) + [frame]])
    case None => s
  }

  /** At the end of the agent's output every waiting request gets an error. */
  function Close(s: Shared): Shared {
    s.(pending := map[], replies := s.replies + map r | r in s.pending.Values :: ConnectionClosed)
  }

  /** A request is registered under the text of its number. */
  function Register(s: Shared, id: nat): Shared {
    s.(pending := s.pending[Decimal(id) := id])
  }

  function Withdraw(s: Shared, id: nat): Shared {
    s.(pending := s.pending - {Decimal(id)})
  }

  /** Waking one request and then the rest is waking all of them. */
  lemma CloseOne(s: Shared, key: string)
    requires key in s.pending
    ensures |s.pending - {key}| < |s.pending|
    ensures Close(s.(pending := s.pending - {key}, replies := s.replies[s.pending[key] := ConnectionClosed]))
            == Close(s)
  {
    var waiting := s.pending[key];
    var rest := s.pending - {key};
    assert s.pending == rest[key := waiting];
    assert |rest[key := waiting]| == |rest| + 1;
    assert forall r :: r in s.pending.Values <==> r == waiting || r in rest.Values by {
      forall r | r in s.pending.Values
        ensures r == waiting || r in rest.Values
      {
        var k :| k in s.pending && s.pending[k] == r;
        assert k == key || (k in rest && rest[k] == r);
      }
      forall r | r in rest.Values
        ensures r in s.pending.Values
      {
        var k :| k in rest && rest[k] == r;
        assert k in s.pending && s.pending[k] == r;
      }
    }
    var left := s.replies[waiting := ConnectionClosed] + map r | r in rest.Values :: ConnectionClosed;
    var right := s.replies + map r | r in s.pending.Values :: ConnectionClosed;
    assert left.Keys == right.Keys;
    assert left == right;
  }

  lemma CloseNone(s: Shared)
    requires s.pending == map[]
    ensures Close(s) == s
  {
  }

  class Inner {
    var pending: map<string, nat>
    var subscriber: Option<nat>
    var buffer: seq<Frame>
    var replies: map<nat, Reply>
    var heard: map<nat, seq<Frame>>

    function State(): Shared
      reads this
    {
      Shared(pending, subscriber, buffer, replies, heard)
    }

    constructor ()
      ensures State() == Shared(map[], None, [], map[], map[])
    {
      pending, subscriber, buffer, replies, heard := map[], None, [], map[], map[];
    }

    /** The steps of `send_request_inner`, each under its own lock. */
    method RegisterRequest(id: nat)
      modifies this`pending
      ensures State() == Register(old(State()), id)
    {
      pending := pending[Decimal(id) := id];
    }

    method Subscribe(id: nat)
      modifies this`subscriber
      ensures subscriber == Some(id)
    {
      subscriber := Some(id);
    }

    method ClearStale()
      modifies this`buffer
      ensures buffer == []
    {
      buffer := [];
    }

    method WithdrawRequest(id: nat)
      modifies this`pending
      ensures State() == Withdraw(old(State()), id)
    {
      pending := pending - {Decimal(id)};
    }

    method Unsubscribe()
      modifies this`subscriber
      ensures subscriber == None
    {
      subscriber := None;
    }

    /** `dispatch` of a frame with an id. */
    method DispatchResponse(frame: Frame) returns (known: bool)
      requires frame.id.Some?
      modifies this
      ensures State() == Deliver(old(State()), frame)
      ensures known <==> frame.id.value.text in old(pending)
    {
      var key := frame.id.value.text;
      known := key in pending;
      if known {
        var waiting := pending[key];
        pending := pending - {key};
        replies := replies[waiting := Answer(frame)];
      }
    }

    /** `dispatch` of a notification, under the subscriber lock. */
    method ForwardNotification(frame: Frame)
      modifies this`heard
      ensures State() == Forward(old(State()), frame)
    {
      if subscriber.Some? {
        var r := subscriber.value;
        heard := heard[r := (if r in heard then heard[r] else []) + [frame]];
      }
    }

    /** `dispatch` of a notification, under the buffer lock. */
    method BufferNotification(frame: Frame)
      modifies this`buffer
      ensures buffer == old(buffer) + [frame]
    {
      buffer := buffer + [frame];
    }

    /** The end of `reader_task`, draining the table in any order. */
    method CloseAll()
      modifies this`pending, this`replies
      ensures State() == Close(old(State()))
    {
      while pending != map[]
        invariant Close(State()) == Close(old(State()))
        decreases |pending|
      {
        var key :| key in pending;
        CloseOne(State(), key);
        var waiting := pending[key];
        pending := pending - {key};
        replies := replies[waiting := ConnectionClosed];
      }
      CloseNone(State());
    }

    /** `take_pending_notifications` */
    method TakePending() returns (taken: seq<Frame>)
      modifies this`buffer
      ensures taken == old(buffer) && buffer == []
    {
      taken, buffer := buffer, [];
    }
  }
}
