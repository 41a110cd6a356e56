/** What the client is told, as long as every reply sent so far fits a frame. */
module RpcAnswers {
  import opened Wrappers
  import opened Bytes
  import opened Frames
  import opened Streams
  import opened RpcServer
  import opened RpcClient
  import opened RpcSystem

  // ---- Replies that fit --------------------------------------------------------------------------------------

  /** The reply to a request, if there is one, fits a frame. */
  predicate Outgoing(w: World, rq: RequestPayload) {
    match Serve(w.env, rq)
    case Ok(data) => |data| + 8 <= MAX_PAYLOAD_SIZE
    case Err(e) => match w.env.serialize(e) case Some(bytes) => |bytes| + 8 <= MAX_PAYLOAD_SIZE case None => true
  }

  /** Every reply sent so far fits a frame. Of services, and of calls not answered yet, nothing is asked. */
  ghost predicate RepliesFit(w: World, s: State) {
    forall id :: id in s.calls && id in s.served && id !in s.unanswered ==> Outgoing(w, CallRequest(id, s.calls[id]))
  }

  /** If they fit now they did before: a step sends at most one reply more, to a call not answered before. */
  lemma FitBefore(w: World, s: State, step: Step, s': State)
    requires Inv(s) && Do(w, s, step, s') && RepliesFit(w, s')
    ensures RepliesFit(w, s)
  {
    hide Outgoing, UpOk, OrderOk, RepliesFit;
    StepServesOn(w, s, step, s');
    hide Do, Inv;
    FitEarlier(w, s, s');
  }

  /** Calls and dispatches stay, and no call dispatched before is marked unanswered now. */
  ghost predicate ServesOn(s: State, s': State) {
    && CallsKept(s, s')
    && forall id :: id in s.served && id in s'.unanswered ==> id in s.unanswered
  }

  lemma StepServesOn(w: World, s: State, step: Step, s': State)
    requires Inv(s) && Do(w, s, step, s')
    ensures ServesOn(s, s')
  {
    if step.ServerHandles? {
      HandledIsNew(w, s, step.delivered, s');
      hide Inv, HandleFrame, ReplyBytes, IdOf;
    } else {
      assert s.nextId !in s.calls;
      hide Inv;
      OnlyDispatchServes(w, s, step, s');
      hide Do;
    }
  }

  lemma OnlyDispatchServes(w: World, s: State, step: Step, s': State)
    requires Do(w, s, step, s') && !step.ServerHandles?
    ensures s'.served == s.served && s'.unanswered == s.unanswered
    ensures s'.calls == if step.Start? then s.calls[s.nextId := step.call] else s.calls
  {
    hide Feed, Complete, Encode, RequestFrame, Fits, PollOutcome;
  }

  lemma FitEarlier(w: World, s: State, s': State)
    requires ServesOn(s, s') && RepliesFit(w, s')
    ensures RepliesFit(w, s)
  {
    hide Outgoing;
  }

  lemma HandledIsNew(w: World, s: State, delivered: bool, s': State)
    requires OrderOk(s) && Do(w, s, ServerHandles(delivered), s')
    ensures IdOf(s.serverInbox[0]) !in s.served
    ensures s'.unanswered <= s.unanswered + {IdOf(s.serverInbox[0])}
  {
    var f := s.serverInbox[0];
    assert UpFrames(s)[0] == f && IdsOf(UpFrames(s))[0] == IdOf(f);
    assert s.sent[|s.served|] == IdOf(f);
    hide WholeFrames, UpFrames, HandleFrame, ReplyBytes;
    forall i | 0 <= i < |s.served| ensures s.served[i] != IdOf(f) {
      assert s.sent[i] == s.served[i];
    }
  }

  // ---- What is on the way to the client ----------------------------------------------------------------------

  /** What the server answers call `id` with, as the client reads it; the call has been dispatched. */
  ghost predicate ReplyTo(w: World, s: State, id: nat, r: Reply) {
    && id in s.calls && id in s.served
    && var c := s.calls[id];
       if c.service in w.env.services
       then match w.env.services[c.service](id, c.service, c.method_, c.args)
            case Ok(data) => r == Ok(data)
            case Err(e) => w.env.serialize(e).Some? && r == Err(w.decode(w.env.serialize(e).value))
       else
         var e := ServiceNotFound(c.service);
         w.env.serialize(e).Some? && r == Err(w.decode(w.env.serialize(e).value))
  }

  ghost predicate ReplyOk(w: World, s: State, f: Frame) {
    && GoodFrame(f)
    && match Carried(f, w.decode)
       case Some((id, r)) => ReplyTo(w, s, id, r)
       case None => true
  }

  /**
   A call comes back with what its own request was answered, or with a local failure: unavailable if the request was
   never sent, deadline exceeded if it was.
   */
  ghost predicate ReturnOk(w: World, s: State, id: nat, r: Reply) {
    || (r == Err(Unavailable) && id !in s.sent) || (r == Err(DeadlineExceeded) && id in s.sent)
    || ReplyTo(w, s, id, r)
  }

  /** Stored and returned results are those of the call's own request. */
  ghost predicate ResultsOk(w: World, s: State) {
    && (forall id :: id in s.pending && s.pending[id].result.Some? ==> ReplyTo(w, s, id, s.pending[id].result.value))
    && (forall id :: id in s.returned ==> ReturnOk(w, s, id, s.returned[id]))
  }

  function DownFrames(s: State): seq<Frame>
    requires WholeFrames(s.clientBuf + s.downStream)
  {
    s.clientInbox + FramesOf(s.clientBuf + s.downStream)
  }

  ghost predicate DownOk(w: World, s: State) {
    WholeFrames(s.clientBuf + s.downStream) && forall i :: 0 <= i < |DownFrames(s)| ==> ReplyOk(w, s, DownFrames(s)[i])
  }

  ghost predicate AnswersOk(w: World, s: State) {
    ResultsOk(w, s) && DownOk(w, s)
  }

  lemma ReplyToKept(w: World, s: State, s': State, id: nat, r: Reply)
    requires CallsKept(s, s') && ReplyTo(w, s, id, r)
    ensures ReplyTo(w, s', id, r)
  {}

  lemma DownFrame(w: World, s: State, s': State, frames: seq<Frame>)
    requires CallsKept(s, s') && forall i :: 0 <= i < |frames| ==> ReplyOk(w, s, frames[i])
    ensures forall i :: 0 <= i < |frames| ==> ReplyOk(w, s', frames[i])
  {}

  lemma DownStays(w: World, s: State, s': State)
    requires DownOk(w, s) && CallsKept(s, s')
    requires s'.clientBuf == s.clientBuf && s'.downStream == s.downStream && s'.clientInbox == s.clientInbox
    ensures DownOk(w, s')
  {
    DownFrame(w, s, s', DownFrames(s));
  }

  /** A step that stores and returns nothing; new entries are empty. */
  lemma ResultsStay(w: World, s: State, s': State)
    requires ResultsOk(w, s) && CallsKept(s, s') && s'.returned == s.returned
    requires forall id :: id in s.returned ==> (id in s'.sent <==> id in s.sent)
    requires forall id :: id in s'.pending && s'.pending[id].result.Some? ==>
               id in s.pending && s'.pending[id] == s.pending[id]
    ensures ResultsOk(w, s')
  {
    hide CallsKept, ReplyTo;
    forall id | id in s'.pending && s'.pending[id].result.Some?
      ensures ReplyTo(w, s', id, s'.pending[id].result.value)
    {
      ReplyToKept(w, s, s', id, s.pending[id].result.value);
    }
    forall id | id in s'.returned ensures ReturnOk(w, s', id, s'.returned[id]) {
      if ReplyTo(w, s, id, s.returned[id]) {
        ReplyToKept(w, s, s', id, s.returned[id]);
      }
    }
  }

  lemma AnswersStay(w: World, s: State, s': State)
    requires AnswersOk(w, s) && CallsKept(s, s') && s'.returned == s.returned
    requires forall id :: id in s.returned ==> (id in s'.sent <==> id in s.sent)
    requires forall id :: id in s'.pending && s'.pending[id].result.Some? ==>
               id in s.pending && s'.pending[id] == s.pending[id]
    requires s'.clientBuf == s.clientBuf && s'.downStream == s.downStream && s'.clientInbox == s.clientInbox
    ensures AnswersOk(w, s')
  {
    ResultsStay(w, s, s');
    DownStays(w, s, s');
  }

  lemma AnswersOnReturn(w: World, s: State, id: nat, r: Reply)
    requires AnswersOk(w, s) && ReturnOk(w, s, id, r)
    ensures AnswersOk(w, Return(s, id, r))
  {
    var s' := Return(s, id, r);
    hide ReplyTo;
    assert CallsKept(s, s');
    DownStays(w, s, s');
    hide DownOk;
    assert forall k, reply :: ReplyTo(w, s, k, reply) ==> ReplyTo(w, s', k, reply) by {
      forall k, reply | ReplyTo(w, s, k, reply) ensures ReplyTo(w, s', k, reply) {
        ReplyToKept(w, s, s', k, reply);
      }
    }
  }

  lemma AnswersOnPoll(w: World, s: State, id: nat, s': State)
    requires Inv(s) && AnswersOk(w, s) && Do(w, s, Poll(id), s')
    ensures AnswersOk(w, s')
  {
    PollFinds(w, s, id);
    hide Inv, AnswersOk, ReturnOk, Return;
    if PollOutcome(s.pending, id).Done? {
      AnswersOnReturn(w, s, id, PollOutcome(s.pending, id).reply);
    }
  }

  /** A waiting call finds its entry, and what is stored there is its own answer. */
  lemma PollFinds(w: World, s: State, id: nat)
    requires TableOk(s) && ResultsOk(w, s) && id in s.phase
    ensures PollOutcome(s.pending, id) != Disappeared
    ensures PollOutcome(s.pending, id).Done? ==> ReturnOk(w, s, id, PollOutcome(s.pending, id).reply)
  {
    hide ReplyTo, Fits;
  }

  lemma AnswersOnDelivery(w: World, s: State, k: nat, s': State)
    requires AnswersOk(w, s) && Do(w, s, ClientReceives(k), s')
    ensures AnswersOk(w, s')
  {
    StreamDeliver(s.clientBuf, s.downStream, k, s.clientInbox);
    assert DownFrames(s') == DownFrames(s);
    hide Feed, ReplyOk, ResultsOk, WholeFrames, DownFrames;
    DownFrame(w, s, s', DownFrames(s));
    hide DownOk;
    ResultsStay(w, s, s');
  }

  /** The reply to a request that was made, if it fits, is a good frame carrying that request's answer. */
  lemma RepliesAreOk(w: World, s: State, f: Frame)
    requires TableOk(s) && RequestOk(s, f) && IdOf(f) in s.served
    requires IdOf(f) in s.calls ==> Outgoing(w, CallRequest(IdOf(f), s.calls[IdOf(f)]))
    ensures HandleFrame(w.env, f).Some? ==> ReplyOk(w, s, HandleFrame(w.env, f).value)
  {
    var rq := ParseRequestPayload(f.payload).value;
    if !IsOneWay(f.header.flags) {
      match Serve(w.env, rq) {
        case Ok(data) => ResponsePayloadRoundTrip(rq.id, data);
        case Err(e) =>
          if w.env.serialize(e).Some? {
            ResponsePayloadRoundTrip(rq.id, w.env.serialize(e).value);
          }
      }
    }
  }

  lemma DownGrows(w: World, s: State, s': State, f: Frame)
    requires DownOk(w, s) && CallsKept(s, s') && ReplyOk(w, s', f)
    requires s'.clientBuf == s.clientBuf && s'.clientInbox == s.clientInbox && s'.downStream == s.downStream + Encode(f)
    ensures DownOk(w, s')
  {
    StreamAppend(s.clientBuf + s.downStream, f);
    assert GoodFrame(f);
    hide WholeFrames, Encode, ReplyOk, FramesOf, GoodFrame;
    assert s'.clientBuf + s'.downStream == s.clientBuf + s.downStream + Encode(f);
    var sofar, now := DownFrames(s), DownFrames(s');
    assert now == sofar + [f];
    DownFrame(w, s, s', sofar);
    hide DownFrames, CallsKept;
    forall i | 0 <= i < |now| ensures ReplyOk(w, s', now[i]) {
      assert now[i] == if i < |sofar| then sofar[i] else f;
    }
  }

  lemma DownAfterReply(w: World, s: State, f: Frame, delivered: bool, s': State)
    requires DownOk(w, s) && CallsKept(s, s')
    requires delivered && HandleFrame(w.env, f).Some? ==> ReplyOk(w, s', HandleFrame(w.env, f).value)
    requires s'.clientBuf == s.clientBuf && s'.clientInbox == s.clientInbox
    requires s'.downStream == s.downStream + ReplyBytes(w, f, delivered)
    ensures DownOk(w, s')
  {
    hide HandleFrame, WholeFrames, DownOk, Encode, ReplyOk;
    if HandleFrame(w.env, f).Some? && delivered {
      DownGrows(w, s, s', HandleFrame(w.env, f).value);
    } else {
      assert s.downStream + [] == s.downStream;
      DownStays(w, s, s');
    }
  }

  /** A reply that is sent fits. */
  lemma SentReplyFits(w: World, s: State, delivered: bool, s': State)
    requires Inv(s) && Do(w, s, ServerHandles(delivered), s') && RepliesFit(w, s')
    requires delivered && HandleFrame(w.env, s.serverInbox[0]).Some?
    ensures var id := IdOf(s.serverInbox[0]); id in s'.calls ==> Outgoing(w, CallRequest(id, s'.calls[id]))
  {
    HandledIsNew(w, s, delivered, s');
    hide Outgoing, HandleFrame, UpOk, ReplyBytes;
    assert IdOf(s.serverInbox[0]) !in s.unanswered;
  }

  lemma AnswersOnDispatch(w: World, s: State, delivered: bool, s': State)
    requires Inv(s) && Inv(s') && AnswersOk(w, s) && Do(w, s, ServerHandles(delivered), s') && RepliesFit(w, s')
    ensures AnswersOk(w, s')
  {
    hide HandleFrame, WholeFrames, ReplyBytes, ReplyOk, DownOk, ReplyTo, ReturnOk, Outgoing, UpFrames;
    var f := s.serverInbox[0];
    assert CallsKept(s, s');
    ResultsStay(w, s, s');
    UpMoves(s, s');
    hide ResultsOk, OrderOk, UpOk, TableOk;
    UpFrame(s, s', [f]);
    assert RequestOk(s', [f][0]);
    hide RequestOk, Outgoing;
    if delivered && HandleFrame(w.env, f).Some? {
      SentReplyFits(w, s, delivered, s');
      RepliesAreOk(w, s', f);
    }
    hide RepliesFit;
    DownAfterReply(w, s, f, delivered, s');
  }

  /** A reply fills in the entry of its own call and no other; a late or unknown one changes nothing. */
  lemma ResultsAfterReply(w: World, s: State, f: Frame, s': State)
    requires ResultsOk(w, s) && ReplyOk(w, s, f) && s' == s.(clientInbox := s'.clientInbox, pending := s'.pending)
    requires s'.pending == Complete(s.pending, f, w.decode)
    ensures ResultsOk(w, s')
  {
    CompleteMeaning(s.pending, f, w.decode);
    hide Complete, Carried, Serve, GoodFrame;
    forall id | id in s'.pending && s'.pending[id].result.Some?
      ensures ReplyTo(w, s', id, s'.pending[id].result.value)
    {
      assert id in s.pending;
    }
  }

  lemma AnswersOnReply(w: World, s: State, s': State)
    requires AnswersOk(w, s) && Do(w, s, ClientHandles, s')
    ensures AnswersOk(w, s')
  {
    hide WholeFrames, ReplyOk, Complete, ResultsOk;
    var f := s.clientInbox[0];
    assert DownFrames(s)[0] == f;
    assert DownFrames(s') == DownFrames(s)[1..];
    DownFrame(w, s, s', DownFrames(s));
    hide DownFrames;
    ResultsAfterReply(w, s, f, s');
  }

  lemma NotSentYet(s: State, id: nat)
    requires OrderOk(s) && id in s.phase
    ensures s.phase[id] == Waiting <==> id in s.sent
  {
    hide WholeFrames, UpFrames, Distinct;
    if id in s.sent {
      var i :| 0 <= i < |s.sent| && s.sent[i] == id;
    }
  }

  /** Streams to the client and results, as long as what is sent fits. */
  lemma StepKeepsAnswers(w: World, s: State, step: Step, s': State)
    requires Inv(s) && AnswersOk(w, s) && Do(w, s, step, s') && RepliesFit(w, s')
    ensures AnswersOk(w, s')
  {
    StepKeepsInv(w, s, step, s');
    hide AnswersOk, TableOk, UpOk, OrderOk, RepliesFit;
    match step
    case SendFails(id) =>
      NotSentYet(s, id);
      AnswersOnReturn(w, s, id, Err(Unavailable));
    case TimesOut(id) =>
      NotSentYet(s, id);
      AnswersOnReturn(w, s, id, Err(DeadlineExceeded));
    case Poll(id) => AnswersOnPoll(w, s, id, s');
    case ClientReceives(k) => AnswersOnDelivery(w, s, k, s');
    case ClientHandles => AnswersOnReply(w, s, s');
    case ServerHandles(delivered) => AnswersOnDispatch(w, s, delivered, s');
    case _ => AnswersOnOther(w, s, step, s');
  }

  lemma AnswersOnOther(w: World, s: State, step: Step, s': State)
    requires Inv(s) && AnswersOk(w, s) && Do(w, s, step, s')
    requires step.Start? || step.Send? || step.OneWayCall? || step.ServerReceives?
    ensures AnswersOk(w, s')
  {
    assert s.nextId !in s.calls && forall id :: id in s.returned ==> id in s.calls && id !in s.phase;
    hide AnswersOk, Inv, Feed, Encode, RequestFrame, Fits;
    AnswersStay(w, s, s');
  }

  // ---- Worlds whose replies always fit -----------------------------------------------------------------------

  /** Every call that fits is answered with a reply that fits. */
  ghost predicate Bounded(w: World) {
    forall id: nat, c: Call :: Fits(c) ==> Outgoing(w, CallRequest(id, c))
  }

  /** There no run ever breaks the condition. */
  lemma BoundedRepliesFit(w: World, s: State)
    requires Bounded(w) && TableOk(s)
    ensures RepliesFit(w, s)
  {
    hide Outgoing, Fits;
  }

  /** One service that returns its arguments, whatever the codec. */
  function EchoWorld(serialize: RpcError -> Option<seq<byte>>, decode: seq<byte> -> RpcError): World {
    World(Env(map[0 := (id, service, method_, args) => Ok(args)], serialize), decode)
  }

  /** Its replies grow with its arguments and always fit, if the codec can say in a frame that a service is missing. */
  lemma EchoIsBounded(serialize: RpcError -> Option<seq<byte>>, decode: seq<byte> -> RpcError)
    requires forall n :: 0 < n < U16 && serialize(ServiceNotFound(n)).Some? ==>
               |serialize(ServiceNotFound(n)).value| + 8 <= MAX_PAYLOAD_SIZE
    ensures Bounded(EchoWorld(serialize, decode))
  {
    var w := EchoWorld(serialize, decode);
    forall id: nat, c: Call | Fits(c) ensures Outgoing(w, CallRequest(id, c)) {
      assert Serve(w.env, CallRequest(id, c)) == if c.service == 0 then Ok(c.args) else Err(ServiceNotFound(c.service));
    }
  }
}
