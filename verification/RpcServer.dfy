/** The server side, mill-rpc/src/server.rs: reassembly per connection, dispatch, replies. */
module RpcServer {
  import opened Wrappers
  import opened Bytes
  import opened Frames
  import opened Streams

  datatype RpcError =
    | Unavailable
    | DeadlineExceeded
    | Internal(text: seq<byte>)
    | ServiceNotFound(service: nat)
    | Application(code: nat, message: seq<byte>)

  type Reply = Result<seq<byte>, RpcError>

  /** The registered services and the codec. A dispatcher sees the arguments and, in its context, the request id. */
  datatype Env = Env(services: map<nat, (nat, nat, nat, seq<byte>) -> Reply>, serialize: RpcError -> Option<seq<byte>>)

  /** The direct function call a request stands for. */
  function Serve(env: Env, rq: RequestPayload): Reply {
    if rq.service in env.services then env.services[rq.service](rq.id, rq.service, rq.method_, rq.args)
    else Err(ServiceNotFound(rq.service))
  }

  /** handle_request: the reply frame, if one is sent. */
  function HandleRequest(env: Env, f: Frame): Option<Frame> {
    match ParseRequestPayload(f.payload)
    case Err(_) => None
    case Ok(rq) =>
      if IsOneWay(f.header.flags) then None
      else match Serve(env, rq)
        case Ok(data) => Some(ResponseFrame(rq.id, data))
        case Err(e) =>
          match env.serialize(e)
          case Some(bytes) => Some(ErrorFrame(rq.id, bytes))
          case None => None
  }

  function HandleFrame(env: Env, f: Frame): Option<Frame> {
    match f.header.messageType
    case Request => HandleRequest(env, f)
    case Ping => Some(Plain(Pong, []))
    case _ => None
  }

  /**
   A ping is always answered, a request exactly when it is well formed, two-way and has a result or an error that
   serialises, anything else never; and the client reads from the reply the id of the request and what the registered
   service gave for its own id, service, method and arguments, whatever bytes the request held.
   */
  lemma AnsweredExactly(env: Env, f: Frame)
    ensures var reply := HandleFrame(env, f);
            match f.header.messageType
            case Ping => reply == Some(Plain(Pong, []))
            case Request =>
              if |f.payload| < 12 || f.header.flags % 4 >= 2 then reply == None
              else
                var rq := ParseRequestPayload(f.payload).value;
                var direct: Reply := if rq.service in env.services
                                     then env.services[rq.service](rq.id, rq.service, rq.method_, rq.args)
                                     else Err(ServiceNotFound(rq.service));
                (match direct
                 case Ok(data) => reply.Some? && Carries(reply.value, Response, rq.id, data)
                 case Err(e) =>
                   if env.serialize(e).Some?
                   then reply.Some? && Carries(reply.value, MessageType.Error, rq.id, env.serialize(e).value)
                   else reply == None)
            case _ => reply == None
  {
    if f.header.messageType.Request? && |f.payload| >= 12 {
      var rq := ParseRequestPayload(f.payload).value;
      RequestFields(f.payload);
      OneWayBit(f.header.flags);
      match Serve(env, rq) {
        case Ok(data) => ResponsePayloadRoundTrip(rq.id, data);
        case Err(e) =>
          if env.serialize(e).Some? {
            ResponsePayloadRoundTrip(rq.id, env.serialize(e).value);
          }
      }
    }
  }

  /** A frame of that type which the client reads as that id and those bytes. */
  predicate Carries(f: Frame, kind: MessageType, id: nat, data: seq<byte>) {
    f.header.messageType == kind && ParseResponsePayload(f.payload) == Ok(ResponsePayload(id, data))
  }

  /**
   `replies` answer those of the first `n` frames at the positions `at`: in order, each frame that has an answer, no
   other and none twice.
   */
  ghost predicate AnswersAt(env: Env, frames: seq<Frame>, n: nat, replies: seq<Frame>, at: seq<nat>)
    requires n <= |frames|
  {
    && |at| == |replies|
    && (forall j :: 0 <= j < |at| ==> at[j] < n && HandleFrame(env, frames[at[j]]) == Some(replies[j]))
    && (forall j, k :: 0 <= j < k < |at| ==> at[j] < at[k])
    && (forall i :: 0 <= i < n && HandleFrame(env, frames[i]).Some? ==> exists j :: 0 <= j < |at| && at[j] == i)
  }

  ghost predicate AnswersAll(env: Env, frames: seq<Frame>, replies: seq<Frame>) {
    exists at :: AnswersAt(env, frames, |frames|, replies, at)
  }

  /** The replies to a batch of frames, in order. */
  function Replies(env: Env, frames: seq<Frame>, k: nat): seq<Frame>
    requires k <= |frames|
  {
    if k == 0 then []
    else Replies(env, frames, k - 1) +
         match HandleFrame(env, frames[k - 1]) case Some(r) => [r] case None => []
  }

  lemma {:induction false} RepliesAnswer(env: Env, frames: seq<Frame>, k: nat) returns (at: seq<nat>)
    requires k <= |frames|
    ensures AnswersAt(env, frames, k, Replies(env, frames, k), at)
  {
    hide HandleFrame;
    if k == 0 {
      at := [];
    } else {
      var p := k - 1;
      var sofar := RepliesAnswer(env, frames, p);
      var reply := HandleFrame(env, frames[p]);
      if reply.Some? {
        at := sofar + [p];
        OneMoreAnswer(env, frames, p, k, Replies(env, frames, p), sofar, reply.value);
      } else {
        at := sofar;
        assert Replies(env, frames, k) == Replies(env, frames, p);
      }
    }
  }

  lemma OneMoreAnswer(env: Env, frames: seq<Frame>, p: nat, k: nat, replies: seq<Frame>, at: seq<nat>, reply: Frame)
    requires k == p + 1 && k <= |frames| && AnswersAt(env, frames, p, replies, at)
    requires HandleFrame(env, frames[p]) == Some(reply)
    ensures AnswersAt(env, frames, k, replies + [reply], at + [p])
  {
    hide HandleFrame;
    var more := at + [p];
    forall i | 0 <= i < k && HandleFrame(env, frames[i]).Some? ensures exists j :: 0 <= j < |more| && more[j] == i {
      if i < p {
        var j :| 0 <= j < |at| && at[j] == i;
        assert more[j] == i;
      } else {
        assert more[|at|] == i;
      }
    }
  }

  lemma RepliesAnswerAll(env: Env, frames: seq<Frame>)
    ensures AnswersAll(env, frames, Replies(env, frames, |frames|))
  {
    var at := RepliesAnswer(env, frames, |frames|);
  }

  lemma NoReplies(env: Env)
    ensures Replies(env, [], 0) == []
  {}

  /** What a connection's buffer holds; a connection not heard of yet has an empty one. */
  function BufferOf(buffers: map<nat, seq<byte>>, conn: nat): seq<byte> {
    if conn in buffers then buffers[conn] else []
  }

  // ---- Many connections --------------------------------------------------------------------------------------

  datatype NetEvent = Connected(conn: nat) | Received(conn: nat, data: seq<byte>) | Disconnected(conn: nat)

  function AfterEvent(buffers: map<nat, seq<byte>>, e: NetEvent): map<nat, seq<byte>> {
    match e
    case Connected(conn) => buffers[conn := []]
    case Received(conn, data) => buffers[conn := Feed(Receiver(BufferOf(buffers, conn), []), data).buf]
    case Disconnected(conn) => buffers - {conn}
  }

  function AfterEvents(buffers: map<nat, seq<byte>>, events: seq<NetEvent>): map<nat, seq<byte>>
    decreases events
  {
    if events == [] then buffers else AfterEvents(AfterEvent(buffers, events[0]), events[1..])
  }

  /** The frames handed on for one connection. */
  function FramesOn(buffers: map<nat, seq<byte>>, events: seq<NetEvent>, conn: nat): seq<Frame>
    decreases events
  {
    if events == [] then []
    else
      var now := if events[0].Received? && events[0].conn == conn
                 then Feed(Receiver(BufferOf(buffers, conn), []), events[0].data).frames else [];
      now + FramesOn(AfterEvent(buffers, events[0]), events[1..], conn)
  }

  function ChunksOn(events: seq<NetEvent>, conn: nat): seq<seq<byte>> {
    if events == [] then []
    else (if events[0].Received? && events[0].conn == conn then [events[0].data] else []) + ChunksOn(events[1..], conn)
  }

  ghost predicate StaysOpen(events: seq<NetEvent>, conn: nat) {
    forall i :: 0 <= i < |events| && events[i].conn == conn ==> events[i].Received?
  }

  lemma {:induction false} FeedAllAfter(buf: seq<byte>, frames: seq<Frame>, chunks: seq<seq<byte>>)
    ensures FeedAll(Receiver(buf, frames), chunks)
         == (var r := FeedAll(Receiver(buf, []), chunks); Receiver(r.buf, frames + r.frames))
    decreases chunks
  {
    if chunks == [] {
      assert frames + [] == frames;
    } else {
      var now := Feed(Receiver(buf, []), chunks[0]);
      assert Feed(Receiver(buf, frames), chunks[0]) == Receiver(now.buf, frames + now.frames) by {
        assert frames + [] == frames;
        assert forall fs: seq<Frame> :: [] + fs == fs;
      }
      FeedAllAfter(now.buf, frames + now.frames, chunks[1..]);
      FeedAllAfter(now.buf, now.frames, chunks[1..]);
      var rest := FeedAll(Receiver(now.buf, []), chunks[1..]);
      assert frames + (now.frames + rest.frames) == frames + now.frames + rest.frames;
    }
  }

  /** While a connection stays open, what other connections do leaves no trace in its frames and its buffer. */
  lemma {:induction false} OneConnection(buffers: map<nat, seq<byte>>, events: seq<NetEvent>, conn: nat)
    requires StaysOpen(events, conn)
    ensures FeedAll(Receiver(BufferOf(buffers, conn), []), ChunksOn(events, conn))
         == Receiver(BufferOf(AfterEvents(buffers, events), conn), FramesOn(buffers, events, conn))
    decreases events
  {
    if events != [] {
      var e, next := events[0], AfterEvent(buffers, events[0]);
      OneConnection(next, events[1..], conn);
      hide Feed;
      if e.conn == conn {
        var now := Feed(Receiver(BufferOf(buffers, conn), []), e.data);
        assert ChunksOn(events, conn)[1..] == ChunksOn(events[1..], conn);
        FeedAllAfter(now.buf, now.frames, ChunksOn(events[1..], conn));
      } else {
        assert BufferOf(next, conn) == BufferOf(buffers, conn);
        assert ChunksOn(events, conn) == ChunksOn(events[1..], conn);
        assert FramesOn(buffers, events, conn) == FramesOn(next, events[1..], conn);
      }
    }
  }

  /**
   Whatever came before, once a connection is opened or closed anew its frames and its buffer are those of a receiver
   fed its own chunks since then, broken headers or not: nothing of another connection, or of an earlier one under the
   same number, gets in. If its bytes parse, they are the parse of those bytes.
   */
  lemma ConnectionsDoNotMix(buffers: map<nat, seq<byte>>, first: NetEvent, events: seq<NetEvent>, conn: nat)
    requires !first.Received? && first.conn == conn && StaysOpen(events, conn)
    ensures var all := [first] + events;
            FeedAll(Receiver([], []), ChunksOn(events, conn))
            == Receiver(BufferOf(AfterEvents(buffers, all), conn), FramesOn(buffers, all, conn))
    ensures var own, all := Joined(ChunksOn(events, conn)), [first] + events;
            Parse(own).Frames? ==>
              && FramesOn(buffers, all, conn) == Parse(own).frames
              && BufferOf(AfterEvents(buffers, all), conn) == own[Parse(own).consumed..]
  {
    var chunks := ChunksOn(events, conn);
    var own, all := Joined(chunks), [first] + events;
    var next := AfterEvent(buffers, first);
    assert all[0] == first && all[1..] == events;
    OneConnection(next, events, conn);
    assert FramesOn(buffers, all, conn) == FramesOn(next, events, conn);
    if Parse(own).Frames? {
      assert [] + own == own && [] + Parse(own).frames == Parse(own).frames;
      ChunksDoNotMatter(Receiver([], []), chunks);
    }
  }

  class RpcServerHandler {
    const env: Env
    var connBuffers: map<nat, seq<byte>>

    constructor (env: Env)
      ensures this.env == env && connBuffers == map[]
    {
      this.env := env;
      connBuffers := map[];
    }

    method OnConnect(conn: nat)
      modifies this
      ensures connBuffers == AfterEvent(old(connBuffers), Connected(conn))
    {
      connBuffers := connBuffers[conn := []];
    }

    method OnDisconnect(conn: nat)
      modifies this
      ensures connBuffers == AfterEvent(old(connBuffers), Disconnected(conn))
    {
      connBuffers := connBuffers - {conn};
    }

    /** Appends a chunk, handles every frame it completes and returns the replies sent, in order. */
    method OnData(conn: nat, data: seq<byte>) returns (replies: seq<Frame>)
      modifies this
      ensures var r := Feed(Receiver(BufferOf(old(connBuffers), conn), []), data);
              && connBuffers == AfterEvent(old(connBuffers), Received(conn, data))
              && replies == Replies(env, r.frames, |r.frames|) && AnswersAll(env, r.frames, replies)
    {
      hide HandleFrame, Parse, Replies, AnswersAll;
      replies := [];
      var buf := BufferOf(connBuffers, conn) + data;
      var parsed := ParseFrames(buf);
      match parsed {
        case Bad(_) =>
          connBuffers := connBuffers[conn := []];
          assert Replies(env, [], 0) == [] by { NoReplies(env); }
          RepliesAnswerAll(env, []);
        case Frames(frames, consumed) =>
          connBuffers := connBuffers[conn := buf[consumed..]];
          assert [] + frames == frames;
          replies := HandleAll(frames);
          RepliesAnswerAll(env, frames);
      }
    }

    /** The loop over the complete frames, once the buffer is unlocked. */
    method HandleAll(frames: seq<Frame>) returns (replies: seq<Frame>)
      ensures replies == Replies(env, frames, |frames|)
    {
      hide HandleFrame;
      replies := [];
      var i := 0;
      while i < |frames|
        invariant i <= |frames| && replies == Replies(env, frames, i)
      {
        match HandleFrame(env, frames[i]) {
          case Some(reply) => replies := replies + [reply];
          case None =>
        }
        i := i + 1;
      }
    }
  }
}
