/** The client side, mill-rpc/src/client.rs: the table of pending requests and the receive path. */
module RpcClient {
  import opened Wrappers
  import opened Bytes
  import opened Frames
  import opened Streams
  import opened RpcServer

  datatype PendingRequest = PendingRequest(completed: bool, result: Option<Reply>)

  type Pending = map<nat, PendingRequest>

  /** What one look at the table tells a waiting call. */
  datatype Outcome = Done(reply: Reply) | Disappeared | StillWaiting

  /** The result a reply frame carries, with the id it is for. `decode` turns error bytes into an error. */
  function Carried(f: Frame, decode: seq<byte> -> RpcError): Option<(nat, Reply)> {
    if !f.header.messageType.Response? && !f.header.messageType.Error? then None
    else match ParseResponsePayload(f.payload)
      case Err(_) => None
      case Ok(p) =>
        Some((p.id, if f.header.messageType.Response? then Ok(p.data) else Err(decode(p.data))))
  }

  /** Which frames carry a result: those of type response or error with eight bytes or more, and what they carry. */
  lemma CarriedExactly(f: Frame, decode: seq<byte> -> RpcError)
    ensures match Carried(f, decode)
            case None =>
              |f.payload| < 8 || (f.header.messageType != Response && f.header.messageType != MessageType.Error)
            case Some((id, r)) =>
              && |f.payload| >= 8 && (forall i :: 0 <= i < 8 ==> f.payload[i] == id / Pow256(i) % 256)
              && (f.header.messageType == Response ==> r == Ok(f.payload[8..]))
              && (f.header.messageType == MessageType.Error ==> r == Err(decode(f.payload[8..])))
              && (f.header.messageType == Response || f.header.messageType == MessageType.Error)
  {
    ReplyFields(f.payload);
  }

  /** handle_frame: fills in the entry the frame is for, if there is one. */
  function Complete(pending: Pending, f: Frame, decode: seq<byte> -> RpcError): Pending {
    match Carried(f, decode)
    case None => pending
    case Some((id, reply)) =>
      if id in pending then pending[id := PendingRequest(true, Some(reply))] else pending
  }

  function CompleteAll(pending: Pending, frames: seq<Frame>, k: nat, decode: seq<byte> -> RpcError): Pending
    requires k <= |frames|
  {
    if k == 0 then pending
    else Complete(CompleteAll(pending, frames, k - 1, decode), frames[k - 1], decode)
  }

  /** Giving a call up changes nothing for the others, and no reply, however late, brings it back. */
  lemma {:induction false} GivingUpIsLocal(pending: Pending, id: nat, frames: seq<Frame>, k: nat,
                                           decode: seq<byte> -> RpcError)
    requires k <= |frames|
    ensures CompleteAll(pending - {id}, frames, k, decode) == CompleteAll(pending, frames, k, decode) - {id}
  {
    if k > 0 {
      GivingUpIsLocal(pending, id, frames, k - 1, decode);
      hide Carried;
    }
  }

  /** The frame carries a result for that id. */
  predicate Names(f: Frame, id: nat, decode: seq<byte> -> RpcError) {
    Carried(f, decode).Some? && Carried(f, decode).value.0 == id
  }

  /** Frame `i` is the last of the first `k` that names the id. */
  predicate LastFor(frames: seq<Frame>, k: nat, i: nat, id: nat, decode: seq<byte> -> RpcError) {
    i < k <= |frames| && Names(frames[i], id, decode) && forall j :: i < j < k ==> !Names(frames[j], id, decode)
  }

  /** What a batch of replies does: the last one for each waiting call is its result, the other entries stay. */
  ghost predicate TakesAll(pending: Pending, frames: seq<Frame>, k: nat, decode: seq<byte> -> RpcError, after: Pending)
    requires k <= |frames|
  {
    && after.Keys == pending.Keys
    && (forall id, i: nat :: id in pending && LastFor(frames, k, i, id, decode) ==>
          after[id] == PendingRequest(true, Some(Carried(frames[i], decode).value.1)))
    && (forall id :: id in pending && (forall i :: 0 <= i < k ==> !Names(frames[i], id, decode)) ==>
          after[id] == pending[id])
  }

  lemma {:induction false} CompleteAllTakesAll(pending: Pending, frames: seq<Frame>, k: nat,
                                               decode: seq<byte> -> RpcError)
    requires k <= |frames|
    ensures TakesAll(pending, frames, k, decode, CompleteAll(pending, frames, k, decode))
  {
    if k > 0 {
      var p := k - 1;
      CompleteAllTakesAll(pending, frames, p, decode);
      OneMoreTaken(pending, frames, p, k, decode, CompleteAll(pending, frames, p, decode));
    }
  }

  lemma OneMoreTaken(pending: Pending, frames: seq<Frame>, p: nat, k: nat, decode: seq<byte> -> RpcError,
                     sofar: Pending)
    requires k == p + 1 && k <= |frames| && TakesAll(pending, frames, p, decode, sofar)
    ensures TakesAll(pending, frames, k, decode, Complete(sofar, frames[p], decode))
  {
    hide Carried;
    var after := Complete(sofar, frames[p], decode);
    forall id, i: nat | id in pending && LastFor(frames, k, i, id, decode)
      ensures after[id] == PendingRequest(true, Some(Carried(frames[i], decode).value.1))
    {
      assert i < p ==> LastFor(frames, p, i, id, decode) && !Names(frames[p], id, decode);
    }
    forall id | id in pending && (forall i :: 0 <= i < k ==> !Names(frames[i], id, decode))
      ensures after[id] == pending[id]
    {
      assert !Names(frames[p], id, decode);
    }
  }

  predicate Settled(pending: Pending) {
    forall id :: id in pending && pending[id].completed ==> pending[id].result.Some?
  }

  function PollOutcome(pending: Pending, id: nat): Outcome {
    if id !in pending then Disappeared
    else if pending[id].completed && pending[id].result.Some? then Done(pending[id].result.value)
    else StillWaiting
  }

  class RpcClient {
    const decode: seq<byte> -> RpcError
    var pending: Pending
    var recvBuf: seq<byte>
    var nextRequestId: nat

    ghost predicate Valid()
      reads this
    {
      Settled(pending) && forall id :: id in pending ==> id < nextRequestId
    }

    constructor (decode: seq<byte> -> RpcError)
      ensures Valid() && pending == map[] && recvBuf == [] && nextRequestId == 1
    {
      this.decode := decode;
      pending := map[];
      recvBuf := [];
      nextRequestId := 1;
    }

    /** The start of call_raw: a fresh id, entered before anything is sent. */
    method Register() returns (id: nat)
      requires Valid()
      modifies this
      ensures Valid() && id !in old(pending)
      ensures id == old(nextRequestId) && nextRequestId == id + 1
      ensures pending == old(pending)[id := PendingRequest(false, None)] && recvBuf == old(recvBuf)
    {
      id := nextRequestId;
      nextRequestId := nextRequestId + 1;
      pending := pending[id := PendingRequest(false, None)];
    }

    /** One turn of the wait loop under the lock. The unwraps of the source never fail. */
    method Poll(id: nat) returns (outcome: Outcome)
      requires Valid()
      modifies `pending
      ensures Valid() && outcome == PollOutcome(old(pending), id)
      ensures pending == if outcome.Done? then old(pending) - {id} else old(pending)
    {
      if id in pending {
        var req := pending[id];
        if req.completed {
          pending := pending - {id};
          return Done(req.result.value);
        }
        return StillWaiting;
      }
      return Disappeared;
    }

    /** A failed send or an expired deadline: the entry goes, whatever it holds. */
    method Abandon(id: nat)
      requires Valid()
      modifies `pending
      ensures Valid() && pending == old(pending) - {id}
    {
      pending := pending - {id};
    }

    /** The receive path: append, parse, drain, then every complete frame in order. */
    method OnData(data: seq<byte>)
      requires Valid()
      modifies `pending, `recvBuf
      ensures Valid()
      ensures var r := Feed(Receiver(old(recvBuf), []), data);
              && recvBuf == r.buf && pending == CompleteAll(old(pending), r.frames, |r.frames|, decode)
              && TakesAll(old(pending), r.frames, |r.frames|, decode, pending)
    {
      var buf := recvBuf + data;
      var parsed := ParseFrames(buf);
      hide TakesAll;
      match parsed {
        case Bad(_) =>
          recvBuf := [];
          CompleteAllTakesAll(pending, [], 0, decode);
        case Frames(frames, consumed) =>
          recvBuf := buf[consumed..];
          var i := 0;
          while i < |frames|
            invariant i <= |frames| && Valid() && recvBuf == buf[consumed..]
            invariant pending == CompleteAll(old(pending), frames, i, decode)
          {
            pending := Complete(pending, frames[i], decode);
            i := i + 1;
          }
          assert [] + frames == frames;
          CompleteAllTakesAll(old(pending), frames, |frames|, decode);
      }
    }
  }
}
