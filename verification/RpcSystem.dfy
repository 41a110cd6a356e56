/**
 Client, server and the two byte streams between them, as one step machine. Any number of calls are under way at
 once; each stream is delivered in order, in chunks cut anywhere; frames are handled one at a time; a reply may be
 delayed for ever or lost on sending; a call may time out at any moment.
 */
module RpcSystem {
  import opened Wrappers
  import opened Bytes
  import opened Frames
  import opened Streams
  import opened RpcServer
  import opened RpcClient

  datatype Call = Call(service: nat, method_: nat, args: seq<byte>)

  datatype Phase = Registered | Waiting

  /**
   `calls` and `returned` record every two-way call made and what it returned; `sent` and `served` the request ids in
   the order they were put on the stream and dispatched; `unanswered` those dispatched with no reply sent.
   */
  datatype State = State(
    nextId: nat, calls: map<nat, Call>, phase: map<nat, Phase>, pending: Pending, returned: map<nat, Reply>,
    upStream: seq<byte>, serverBuf: seq<byte>, serverInbox: seq<Frame>,
    downStream: seq<byte>, clientBuf: seq<byte>, clientInbox: seq<Frame>,
    sent: seq<nat>, served: seq<nat>, unanswered: set<nat>)

  /** The services and the two codec halves. */
  datatype World = World(env: Env, decode: seq<byte> -> RpcError)

  datatype Step =
    | Start(call: Call)
    | Send(id: nat)
    | SendFails(id: nat)
    | OneWayCall(call: Call)
    | ServerReceives(k: nat)
    | ServerHandles(delivered: bool)
    | ClientReceives(k: nat)
    | ClientHandles
    | Poll(id: nat)
    | TimesOut(id: nat)

  predicate Fits(c: Call) {
    c.service < U16 && c.method_ < U16 && |c.args| + 12 <= MAX_PAYLOAD_SIZE
  }

  ghost predicate Init(s: State) {
    s == State(1, map[], map[], map[], map[], [], [], [], [], [], [], [], [], {})
  }

  function RequestOf(id: nat, c: Call, oneWay: bool): Frame {
    RequestFrame(id, c.service, c.method_, c.args, oneWay)
  }

  /** The call leaves the table with `r`. */
  function Return(s: State, id: nat, r: Reply): State {
    s.(phase := s.phase - {id}, pending := s.pending - {id}, returned := s.returned[id := r])
  }

  function IdOf(f: Frame): nat {
    match ParseRequestPayload(f.payload)
    case Ok(rq) => rq.id
    case Err(_) => 0
  }

  /** The bytes the server sends for a frame; nothing when there is no reply or sending fails. */
  function ReplyBytes(w: World, f: Frame, delivered: bool): seq<byte> {
    match HandleFrame(w.env, f)
    case Some(r) => if delivered then Encode(r) else []
    case None => []
  }

  ghost predicate Do(w: World, s: State, step: Step, s': State) {
    match step
    case Start(c) =>
      && Fits(c) && s.nextId < U64
      && s' == s.(nextId := s.nextId + 1, calls := s.calls[s.nextId := c], phase := s.phase[s.nextId := Registered],
                  pending := s.pending[s.nextId := PendingRequest(false, None)])
    case Send(id) =>
      && id in s.phase && id in s.calls && s.phase[id] == Registered
      && s' == s.(phase := s.phase[id := Waiting], sent := s.sent + [id],
                  upStream := s.upStream + Encode(RequestOf(id, s.calls[id], false)))
    case SendFails(id) =>
      && id in s.phase && s.phase[id] == Registered && s' == Return(s, id, Err(Unavailable))
    case OneWayCall(c) =>
      && Fits(c) && s.nextId < U64
      && s' == s.(nextId := s.nextId + 1, sent := s.sent + [s.nextId],
                  upStream := s.upStream + Encode(RequestOf(s.nextId, c, true)))
    case ServerReceives(k) =>
      && k <= |s.upStream|
      && var r := Feed(Receiver(s.serverBuf, s.serverInbox), s.upStream[..k]);
         s' == s.(upStream := s.upStream[k..], serverBuf := r.buf, serverInbox := r.frames)
    case ServerHandles(delivered) =>
      && s.serverInbox != []
      && var f := s.serverInbox[0];
         s' == s.(serverInbox := s.serverInbox[1..], served := s.served + [IdOf(f)],
                  unanswered := if delivered && HandleFrame(w.env, f).Some? then s.unanswered
                                else s.unanswered + {IdOf(f)},
                  downStream := s.downStream + ReplyBytes(w, f, delivered))
    case ClientReceives(k) =>
      && k <= |s.downStream|
      && var r := Feed(Receiver(s.clientBuf, s.clientInbox), s.downStream[..k]);
         s' == s.(downStream := s.downStream[k..], clientBuf := r.buf, clientInbox := r.frames)
    case ClientHandles =>
      && s.clientInbox != []
      && s' == s.(clientInbox := s.clientInbox[1..], pending := Complete(s.pending, s.clientInbox[0], w.decode))
    case Poll(id) =>
      && id in s.phase && s.phase[id] == Waiting
      && s' == (match PollOutcome(s.pending, id)
                case Done(r) => Return(s, id, r)
                case Disappeared => Return(s, id, Err(Internal([])))
                case StillWaiting => s)
    case TimesOut(id) =>
      id in s.phase && s.phase[id] == Waiting && s' == Return(s, id, Err(DeadlineExceeded))
  }

  ghost predicate Next(w: World, s: State, s': State) {
    exists step :: Do(w, s, step, s')
  }

  ghost predicate StepAt(w: World, run: seq<State>, i: nat) {
    0 < i < |run| && Next(w, run[i - 1], run[i])
  }

  ghost predicate Steps(w: World, run: seq<State>) {
    && |run| > 0 && Init(run[0])
    && forall i :: 0 < i < |run| ==> StepAt(w, run, i)
  }

  // ---- What is on the streams --------------------------------------------------------------------------------

  function CallRequest(id: nat, c: Call): RequestPayload {
    RequestPayload(id, c.service, c.method_, c.args)
  }

  /** A request frame of a call that was made: one-way, or two-way with this id. */
  ghost predicate RequestOk(s: State, f: Frame) {
    && GoodFrame(f) && f.header.messageType == MessageType.Request
    && ParseRequestPayload(f.payload).Ok?
    && var rq := ParseRequestPayload(f.payload).value;
       !IsOneWay(f.header.flags) ==> rq.id in s.calls && rq == CallRequest(rq.id, s.calls[rq.id])
  }

  /** Bytes that parse completely. */
  predicate WholeFrames(bytes: seq<byte>) {
    Parse(bytes).Frames? && Parse(bytes).consumed == |bytes|
  }

  function FramesOf(bytes: seq<byte>): seq<Frame>
    requires WholeFrames(bytes)
  {
    Parse(bytes).frames
  }

  /** A frame appended to a stream of whole frames is one more frame. */
  lemma StreamAppend(bytes: seq<byte>, f: Frame)
    requires WholeFrames(bytes) && GoodFrame(f)
    ensures WholeFrames(bytes + Encode(f)) && FramesOf(bytes + Encode(f)) == FramesOf(bytes) + [f]
  {
    ParseLonger(bytes, Encode(f));
    assert bytes[|bytes|..] + Encode(f) == Encode(f) + [];
    HeadOfPrinted(f, []);
    assert Parse([]) == Frames([], 0);
  }

  /** Delivering a chunk moves frames from the stream to the inbox and loses none. */
  lemma StreamDeliver(buf: seq<byte>, stream: seq<byte>, k: nat, inbox: seq<Frame>)
    requires k <= |stream| && WholeFrames(buf + stream)
    ensures var r := Feed(Receiver(buf, inbox), stream[..k]);
            && WholeFrames(r.buf + stream[k..])
            && r.frames + FramesOf(r.buf + stream[k..]) == inbox + FramesOf(buf + stream)
  {
    hide Parse;
    var chunk, rest := stream[..k], stream[k..];
    var sofar := buf + chunk;
    assert buf + stream == sofar + rest;
    ParseLonger(sofar, rest);
    var n, fs := Parse(sofar).consumed, Parse(sofar).frames;
    var more := sofar[n..] + rest;
    assert Parse(sofar + rest) == After(fs, n, Parse(more));
    assert inbox + (fs + Parse(more).frames) == inbox + fs + Parse(more).frames;
  }

  // ---- What holds whatever the services reply ----------------------------------------------------------------

  /** Pending entries are exactly those of calls registered and not yet returned. */
  ghost predicate TableOk(s: State) {
    && s.pending.Keys == s.phase.Keys
    && s.calls.Keys == s.phase.Keys + s.returned.Keys && s.phase.Keys !! s.returned.Keys
    && Settled(s.pending)
    && (forall id :: id in s.calls ==> id < s.nextId && Fits(s.calls[id]))
    && s.nextId <= U64
  }

  /** The request frames not handled yet, oldest first. */
  function UpFrames(s: State): seq<Frame>
    requires WholeFrames(s.serverBuf + s.upStream)
  {
    s.serverInbox + FramesOf(s.serverBuf + s.upStream)
  }

  ghost predicate UpOk(s: State) {
    WholeFrames(s.serverBuf + s.upStream) && forall i :: 0 <= i < |UpFrames(s)| ==> RequestOk(s, UpFrames(s)[i])
  }

  function IdsOf(frames: seq<Frame>): seq<nat> {
    seq(|frames|, i requires 0 <= i < |frames| => IdOf(frames[i]))
  }

  ghost predicate Distinct(ids: seq<nat>) {
    forall i, j :: 0 <= i < j < |ids| ==> ids[i] != ids[j]
  }

  /** Requests are dispatched in the order sent, none twice. */
  ghost predicate OrderOk(s: State) {
    && WholeFrames(s.serverBuf + s.upStream)
    && s.sent == s.served + IdsOf(UpFrames(s))
    && Distinct(s.sent) && (forall id :: id in s.unanswered ==> id in s.served)
    && (forall id :: id in s.phase && s.phase[id] == Waiting ==> id in s.sent)
    && forall i :: 0 <= i < |s.sent| ==>
         s.sent[i] < s.nextId && (s.sent[i] in s.phase ==> s.phase[s.sent[i]] == Waiting)
  }

  /** Calls and dispatches are only ever added, so what is on the streams stays in order. */
  ghost predicate CallsKept(s: State, s': State) {
    && (forall id :: id in s.calls ==> id in s'.calls && s'.calls[id] == s.calls[id])
    && (forall id :: id in s.served ==> id in s'.served)
  }

  lemma UpFrame(s: State, s': State, frames: seq<Frame>)
    requires CallsKept(s, s') && forall i :: 0 <= i < |frames| ==> RequestOk(s, frames[i])
    ensures forall i :: 0 <= i < |frames| ==> RequestOk(s', frames[i])
  {}

  /** A step that leaves the up-stream alone. */
  lemma UpStays(s: State, s': State)
    requires UpOk(s) && CallsKept(s, s')
    requires s'.serverBuf == s.serverBuf && s'.upStream == s.upStream && s'.serverInbox == s.serverInbox
    ensures UpOk(s') && UpFrames(s') == UpFrames(s)
  {
    UpFrame(s, s', UpFrames(s));
  }

  ghost predicate UpFramesSame(s: State, s': State) {
    WholeFrames(s.serverBuf + s.upStream) && WholeFrames(s'.serverBuf + s'.upStream) && UpFrames(s') == UpFrames(s)
  }

  lemma RequestIsOk(s: State, id: nat, c: Call, oneWay: bool)
    requires Fits(c) && id < U64
    requires !oneWay ==> id in s.calls && s.calls[id] == c
    ensures RequestOk(s, RequestOf(id, c, oneWay)) && IdOf(RequestOf(id, c, oneWay)) == id
    ensures GoodFrame(RequestOf(id, c, oneWay))
  {
    RequestPayloadRoundTrip(id, c.service, c.method_, c.args, oneWay);
  }

  lemma SentRequest(s: State, s': State, id: nat, c: Call, oneWay: bool)
    requires UpOk(s) && CallsKept(s, s') && Fits(c) && id < U64
    requires !oneWay ==> id in s'.calls && s'.calls[id] == c
    requires s'.serverBuf == s.serverBuf && s'.serverInbox == s.serverInbox
    requires s'.upStream == s.upStream + Encode(RequestOf(id, c, oneWay))
    ensures UpOk(s') && UpFrames(s') == UpFrames(s) + [RequestOf(id, c, oneWay)]
    ensures IdOf(RequestOf(id, c, oneWay)) == id
  {
    var f := RequestOf(id, c, oneWay);
    RequestIsOk(s', id, c, oneWay);
    hide RequestOk, RequestFrame, Encode, WholeFrames, FramesOf;
    StreamAppend(s.serverBuf + s.upStream, f);
    assert s'.serverBuf + s'.upStream == s.serverBuf + s.upStream + Encode(f);
    var sofar, now := UpFrames(s), UpFrames(s');
    assert now == sofar + [f];
    UpFrame(s, s', sofar);
    hide UpFrames, RequestOf, GoodFrame, CallsKept;
    forall i | 0 <= i < |now| ensures RequestOk(s', now[i]) {
      assert now[i] == if i < |sofar| then sofar[i] else f;
    }
  }

  lemma OrderGrows(s: State, s': State, f: Frame)
    requires OrderOk(s) && WholeFrames(s'.serverBuf + s'.upStream) && UpFrames(s') == UpFrames(s) + [f]
    requires s'.served == s.served && s'.sent == s.sent + [IdOf(f)] && s.nextId <= s'.nextId && IdOf(f) < s'.nextId
    requires s'.unanswered == s.unanswered && IdOf(f) !in s.sent
    requires IdOf(f) in s'.phase ==> s'.phase[IdOf(f)] == Waiting
    requires forall id :: id in s'.phase && id != IdOf(f) ==> id in s.phase && s'.phase[id] == s.phase[id]
    ensures OrderOk(s')
  {
    assert IdsOf(UpFrames(s')) == IdsOf(UpFrames(s)) + [IdOf(f)];
  }

  lemma UpMoves(s: State, s': State)
    requires UpOk(s) && CallsKept(s, s') && s.serverInbox != []
    requires s'.serverBuf == s.serverBuf && s'.upStream == s.upStream && s'.serverInbox == s.serverInbox[1..]
    ensures UpOk(s') && RequestOk(s, s.serverInbox[0])
  {
    hide WholeFrames;
    assert UpFrames(s)[0] == s.serverInbox[0];
    assert UpFrames(s') == UpFrames(s)[1..];
    UpFrame(s, s', UpFrames(s));
  }

  ghost predicate Inv(s: State) {
    TableOk(s) && UpOk(s) && OrderOk(s)
  }

  /** A step that sends and dispatches nothing keeps the order; ids only leave the table or enter it unsent. */
  lemma OrderStays(s: State, s': State)
    requires OrderOk(s) && UpFramesSame(s, s') && s'.sent == s.sent && s'.served == s.served
    requires s.nextId <= s'.nextId && s'.unanswered == s.unanswered
    requires forall id :: id in s'.phase && id < s.nextId ==> id in s.phase && s'.phase[id] == s.phase[id]
    requires forall id :: id in s'.phase && s'.phase[id] == Waiting ==> id in s.phase && s.phase[id] == Waiting
    ensures OrderOk(s')
  {}

  lemma OrderMoves(s: State, s': State)
    requires OrderOk(s) && s.serverInbox != []
    requires s'.serverBuf == s.serverBuf && s'.upStream == s.upStream && s'.serverInbox == s.serverInbox[1..]
    requires s'.sent == s.sent && s'.served == s.served + [IdOf(s.serverInbox[0])]
    requires s'.unanswered <= s.unanswered + {IdOf(s.serverInbox[0])}
    requires s'.nextId == s.nextId && s'.phase == s.phase
    ensures OrderOk(s')
  {
    assert UpFrames(s) == [s.serverInbox[0]] + UpFrames(s');
    assert IdsOf(UpFrames(s)) == [IdOf(s.serverInbox[0])] + IdsOf(UpFrames(s'));
  }

  lemma TableAfterStart(w: World, s: State, c: Call, s': State)
    requires TableOk(s) && Do(w, s, Start(c), s')
    ensures TableOk(s') && CallsKept(s, s') && s.nextId !in s.calls
  {
    hide Fits;
  }

  lemma TableAfterReturn(s: State, id: nat, r: Reply)
    requires TableOk(s) && id in s.phase
    ensures TableOk(Return(s, id, r))
  {
    hide Fits;
    var s' := Return(s, id, r);
    assert s'.phase.Keys == s.phase.Keys - {id} && s'.returned.Keys == s.returned.Keys + {id};
  }

  lemma TableAfterSend(w: World, s: State, step: Step, s': State)
    requires TableOk(s) && Do(w, s, step, s') && (step.Send? || step.OneWayCall?)
    ensures TableOk(s') && CallsKept(s, s')
  {
    hide Fits, Encode, RequestFrame;
  }

  /** A step that changes no key of the table and no call. */
  lemma TableStays(s: State, s': State)
    requires TableOk(s) && s'.pending.Keys == s.pending.Keys && Settled(s'.pending)
    requires s'.phase == s.phase && s'.calls == s.calls && s'.returned == s.returned
    requires s'.nextId == s.nextId && forall id :: id in s.served ==> id in s'.served
    ensures TableOk(s') && CallsKept(s, s')
  {
    hide Fits, Settled;
  }

  lemma KeepStart(w: World, s: State, c: Call, s': State)
    requires Inv(s) && Do(w, s, Start(c), s')
    ensures Inv(s')
  {
    TableAfterStart(w, s, c, s');
    UpStays(s, s');
    hide TableOk, UpOk, OrderOk;
    OrderStays(s, s');
  }

  lemma KeepReturn(s: State, id: nat, r: Reply)
    requires Inv(s) && id in s.phase
    ensures Inv(Return(s, id, r))
  {
    var s' := Return(s, id, r);
    TableAfterReturn(s, id, r);
    UpStays(s, s');
    hide TableOk, UpOk, OrderOk;
    OrderStays(s, s');
  }

  /** The "Pending request disappeared" branch is never taken: a waiting call always finds its entry. */
  lemma KeepPoll(w: World, s: State, id: nat, s': State)
    requires Inv(s) && Do(w, s, Poll(id), s')
    ensures Inv(s') && PollOutcome(s.pending, id) != Disappeared
  {
    var outcome := PollOutcome(s.pending, id);
    if outcome.Done? {
      KeepReturn(s, id, outcome.reply);
    }
  }

  lemma KeepSend(w: World, s: State, id: nat, s': State)
    requires Inv(s) && Do(w, s, Send(id), s')
    ensures Inv(s')
  {
    TableAfterSend(w, s, Send(id), s');
    SentRequest(s, s', id, s.calls[id], false);
    assert id !in s.sent;
    OrderGrows(s, s', RequestOf(id, s.calls[id], false));
    hide TableOk, UpOk, OrderOk;
  }

  lemma KeepOneWay(w: World, s: State, c: Call, s': State)
    requires Inv(s) && Do(w, s, OneWayCall(c), s')
    ensures Inv(s')
  {
    TableAfterSend(w, s, OneWayCall(c), s');
    SentRequest(s, s', s.nextId, c, true);
    assert s.nextId !in s.sent && s.nextId !in s.phase;
    OrderGrows(s, s', RequestOf(s.nextId, c, true));
    hide TableOk, UpOk, OrderOk;
  }

  lemma KeepServerReceives(w: World, s: State, k: nat, s': State)
    requires Inv(s) && Do(w, s, ServerReceives(k), s')
    ensures Inv(s')
  {
    TableStays(s, s');
    StreamDeliver(s.serverBuf, s.upStream, k, s.serverInbox);
    hide TableOk, Feed;
    assert UpFrames(s') == UpFrames(s);
    UpFrame(s, s', UpFrames(s));
    OrderStays(s, s');
  }

  lemma KeepServerHandles(w: World, s: State, delivered: bool, s': State)
    requires Inv(s) && Do(w, s, ServerHandles(delivered), s')
    ensures Inv(s')
  {
    TableStays(s, s');
    hide TableOk, HandleFrame, WholeFrames, ReplyBytes;
    UpMoves(s, s');
    hide UpOk, OrderOk;
    OrderMoves(s, s');
  }

  lemma CompleteMeaning(pending: Pending, f: Frame, decode: seq<byte> -> RpcError)
    ensures var done, c := Complete(pending, f, decode), Carried(f, decode);
            && done.Keys == pending.Keys
            && (Settled(pending) ==> Settled(done))
            && forall id :: id in pending ==>
                 done[id] == if c.Some? && c.value.0 == id then PendingRequest(true, Some(c.value.1)) else pending[id]
  {
    hide Carried;
  }

  /** Whatever bytes the client is sent, they touch neither the keys of its table nor the way to the server. */
  lemma KeepClient(w: World, s: State, step: Step, s': State)
    requires Inv(s) && Do(w, s, step, s') && (step.ClientReceives? || step.ClientHandles?)
    ensures Inv(s')
  {
    if step.ClientHandles? {
      CompleteMeaning(s.pending, s.clientInbox[0], w.decode);
    }
    hide Complete, Feed;
    TableStays(s, s');
    UpStays(s, s');
    hide TableOk, UpOk, OrderOk;
    OrderStays(s, s');
  }

  /** Table, requests under way and order of dispatch, in every run of any services. */
  lemma StepKeepsInv(w: World, s: State, step: Step, s': State)
    requires Inv(s) && Do(w, s, step, s')
    ensures Inv(s')
  {
    hide Inv;
    match step
    case Start(c) => KeepStart(w, s, c, s');
    case Send(id) => KeepSend(w, s, id, s');
    case SendFails(id) => KeepReturn(s, id, Err(Unavailable));
    case OneWayCall(c) => KeepOneWay(w, s, c, s');
    case ServerReceives(k) => KeepServerReceives(w, s, k, s');
    case ServerHandles(delivered) => KeepServerHandles(w, s, delivered, s');
    case Poll(id) => KeepPoll(w, s, id, s');
    case TimesOut(id) => KeepReturn(s, id, Err(DeadlineExceeded));
    case _ => KeepClient(w, s, step, s');
  }
}
