/** What every run of client, server and streams keeps: each call gets its own answer. */
module RpcTheorems {
  import opened Wrappers
  import opened Bytes
  import opened Frames
  import opened Streams
  import opened RpcServer
  import opened RpcClient
  import opened RpcSystem
  import opened RpcAnswers

  lemma {:induction false} RunKeepsInv(w: World, run: seq<State>, i: nat)
    requires Steps(w, run) && i < |run|
    ensures Inv(run[i])
  {
    hide Inv, Do;
    if i == 0 {
      InitHasInv(w, run[0]);
    } else {
      var p := i - 1;
      RunKeepsInv(w, run, p);
      var step := StepOf(w, run, p, i);
      StepKeepsInv(w, run[p], step, run[i]);
    }
  }

  /** Only the replies sent by then have to fit. */
  lemma {:induction false} RunKeepsAnswers(w: World, run: seq<State>, i: nat)
    requires Steps(w, run) && i < |run| && RepliesFit(w, run[i])
    ensures AnswersOk(w, run[i])
  {
    hide Inv, Do, RepliesFit, AnswersOk;
    if i == 0 {
      InitHasInv(w, run[0]);
    } else {
      var p := i - 1;
      RunKeepsInv(w, run, p);
      var step := StepOf(w, run, p, i);
      FitBefore(w, run[p], step, run[i]);
      RunKeepsAnswers(w, run, p);
      StepKeepsAnswers(w, run[p], step, run[i]);
    }
  }

  lemma StepOf(w: World, run: seq<State>, p: nat, i: nat) returns (step: Step)
    requires Steps(w, run) && i < |run| && i == p + 1
    ensures Do(w, run[p], step, run[i])
  {
    hide Do;
    assert StepAt(w, run, i);
    step :| Do(w, run[p], step, run[i]);
  }

  lemma InitHasInv(w: World, s: State)
    requires Init(s)
    ensures Inv(s) && AnswersOk(w, s)
  {
    assert Parse([]) == Parsed.Frames([], 0);
    var empty: seq<byte> := [];
    assert empty + empty == empty;
  }

  /** What a step may not change: calls made, what they returned, the order of sends and dispatches so far. */
  ghost predicate Extends(s: State, s': State) {
    && (forall id :: id in s.calls ==> id in s'.calls && s'.calls[id] == s.calls[id])
    && (forall id :: id in s.returned ==> id in s'.returned && s'.returned[id] == s.returned[id])
    && s.sent <= s'.sent && s.served <= s'.served
  }

  lemma ReturnExtends(s: State, id: nat, r: Reply)
    requires id !in s.returned
    ensures Extends(s, Return(s, id, r))
  {}

  lemma StepExtends(w: World, s: State, step: Step, s': State)
    requires TableOk(s) && Do(w, s, step, s')
    ensures Extends(s, s')
  {
    hide Feed, HandleFrame, Complete, Encode, Fits, Settled, RequestFrame;
    match step
    case SendFails(id) => ReturnExtends(s, id, Err(Unavailable));
    case TimesOut(id) => ReturnExtends(s, id, Err(DeadlineExceeded));
    case Poll(id) =>
      if PollOutcome(s.pending, id).Done? {
        ReturnExtends(s, id, PollOutcome(s.pending, id).reply);
      }
    case _ => hide Return, PollOutcome;
  }

  lemma {:induction false} RunExtends(w: World, run: seq<State>, i: nat, j: nat)
    requires Steps(w, run) && i <= j < |run|
    ensures Extends(run[i], run[j])
    decreases j
  {
    hide Do, TableOk, UpOk, OrderOk;
    if i < j {
      hide Extends;
      var p := j - 1;
      RunExtends(w, run, i, p);
      RunKeepsInv(w, run, p);
      var step := StepOf(w, run, p, j);
      StepExtends(w, run[p], step, run[j]);
      ExtendsTwice(run[i], run[p], run[j]);
    }
  }

  lemma ExtendsTwice(a: State, b: State, c: State)
    requires Extends(a, b) && Extends(b, c)
    ensures Extends(a, c)
  {}

  /**
   The client stub is the direct function call, or a failure that says so: unavailable when the request was never sent,
   deadline exceeded when it was. A call that comes back with a value, or with
   an error other than the two local ones, was dispatched exactly once, with its own id, service, method and arguments,
   and gets what that dispatch gave; the arguments are those of the call for ever after. Asked of the replies sent by
   then, and of nothing else: that they fit a frame.
   */
  lemma EveryCallGetsItsOwnAnswer(w: World, run: seq<State>, i: nat, id: nat)
    requires Steps(w, run) && i < |run| && RepliesFit(w, run[i]) && id in run[i].returned
    ensures id in run[i].calls
    ensures var c, services := run[i].calls[id], w.env.services;
            match run[i].returned[id]
            case Ok(v) =>
              && c.service in services && services[c.service](id, c.service, c.method_, c.args) == Ok(v)
              && DispatchedOnce(run[i], id)
            case Err(e) =>
              || (e == Unavailable && id !in run[i].sent) || (e == DeadlineExceeded && id in run[i].sent)
              || (&& DispatchedOnce(run[i], id)
                  && if c.service in services
                     then services[c.service](id, c.service, c.method_, c.args).Err?
                          && ReadsAs(w, services[c.service](id, c.service, c.method_, c.args).error, e)
                     else ReadsAs(w, ServiceNotFound(c.service), e))
  {
    RunKeepsInv(w, run, i);
    RunKeepsAnswers(w, run, i);
    assert TableOk(run[i]) && OrderOk(run[i]) && ResultsOk(w, run[i]);
    hide Inv, AnswersOk, RepliesFit, Steps;
    ServedOnce(run[i]);
    hide OrderOk, DispatchedOnce;
    assert ReturnOk(w, run[i], id, run[i].returned[id]);
  }

  /** The client reads the server's error `e` as `e'`. */
  predicate ReadsAs(w: World, e: RpcError, e': RpcError) {
    w.env.serialize(e).Some? && e' == w.decode(w.env.serialize(e).value)
  }

  ghost predicate DispatchedOnce(s: State, id: nat) {
    && id in s.served
    && forall j, k :: 0 <= j < |s.served| && 0 <= k < |s.served| && s.served[j] == id && s.served[k] == id ==> j == k
  }

  lemma ServedOnce(s: State)
    requires OrderOk(s)
    ensures s.served <= s.sent && Distinct(s.served)
    ensures forall id :: id in s.served ==> DispatchedOnce(s, id)
  {
    hide WholeFrames;
    forall i, j | 0 <= i < j < |s.served| ensures s.served[i] != s.served[j] {
      assert s.sent[i] == s.served[i] && s.sent[j] == s.served[j];
    }
  }

  /** When decoding undoes encoding, the server's own error comes back too. */
  lemma ErrorsComeBackWhole(w: World, run: seq<State>, i: nat, id: nat)
    requires Steps(w, run) && i < |run| && RepliesFit(w, run[i]) && id in run[i].returned
    requires forall e :: w.env.serialize(e).Some? ==> w.decode(w.env.serialize(e).value) == e
    ensures id in run[i].calls
    ensures var r := run[i].returned[id];
            || r == Err(Unavailable) || r == Err(DeadlineExceeded)
            || var c := run[i].calls[id];
               r == if c.service in w.env.services then w.env.services[c.service](id, c.service, c.method_, c.args)
                    else Err(ServiceNotFound(c.service))
  {
    EveryCallGetsItsOwnAnswer(w, run, i, id);
  }

  /** A call returns once: what it made and got never changes, and it is out of the table for good. */
  lemma AnswersAreFinal(w: World, run: seq<State>, i: nat, j: nat, id: nat)
    requires Steps(w, run) && i <= j < |run| && id in run[i].returned
    ensures id in run[j].returned && run[j].returned[id] == run[i].returned[id] && id !in run[j].pending
    ensures id in run[i].calls && id in run[j].calls && run[j].calls[id] == run[i].calls[id]
  {
    RunExtends(w, run, i, j);
    RunKeepsInv(w, run, i);
    RunKeepsInv(w, run, j);
    assert TableOk(run[i]) && TableOk(run[j]);
    hide Settled, Fits;
  }

  /** Requests are dispatched in the order they were put on the stream, none twice and none that was not sent. */
  lemma DispatchIsFifo(w: World, run: seq<State>, i: nat)
    requires Steps(w, run) && i < |run|
    ensures run[i].served <= run[i].sent && Distinct(run[i].sent)
  {
    RunKeepsInv(w, run, i);
    assert OrderOk(run[i]);
    ServedOnce(run[i]);
  }

  /** The table holds exactly the calls made and not returned; a completed entry has its result. */
  lemma TableIsExact(w: World, run: seq<State>, i: nat)
    requires Steps(w, run) && i < |run|
    ensures run[i].pending.Keys == run[i].calls.Keys - run[i].returned.Keys
    ensures forall id :: id in run[i].pending && run[i].pending[id].completed ==> run[i].pending[id].result.Some?
  {
    RunKeepsInv(w, run, i);
    assert TableOk(run[i]);
    hide Fits;
  }

  /** A waiting call always finds its entry, so a look at the table either waits or returns the stored reply. */
  lemma NothingDisappears(w: World, run: seq<State>, i: nat, id: nat)
    requires Steps(w, run) && 0 < i < |run| && Do(w, run[i - 1], Poll(id), run[i])
    ensures var p := run[i - 1].pending;
            && id in p
            && (p[id].completed ==>
                  p[id].result.Some? && run[i] == Return(run[i - 1], id, p[id].result.value))
            && (!p[id].completed ==> run[i] == run[i - 1])
  {
    var k := i - 1;
    RunKeepsInv(w, run, k);
    assert TableOk(run[k]);
    hide Fits;
  }

  /** A reply changes at most the entry of the call it names; one that comes late, or names no call, changes nothing. */
  lemma LateRepliesAreIgnored(w: World, s: State, s': State, id: nat)
    requires Do(w, s, ClientHandles, s')
    ensures s'.pending.Keys == s.pending.Keys && s'.returned == s.returned
    ensures var c := Carried(s.clientInbox[0], w.decode);
            && (c.Some? && c.value.0 !in s.pending ==> s'.pending == s.pending)
            && (id in s.pending && s'.pending[id] != s.pending[id] ==> c.Some? && c.value.0 == id)
  {
    CompleteMeaning(s.pending, s.clientInbox[0], w.decode);
    hide Carried;
  }

  // ---- A call can succeed ------------------------------------------------------------------------------------

  lemma Lengthen(w: World, run: seq<State>, step: Step, s': State) returns (more: seq<State>)
    requires |run| > 0 && Steps(w, run) && Do(w, run[|run| - 1], step, s')
    ensures |more| > 0 && Steps(w, more) && more[|more| - 1] == s'
  {
    hide Do, Init;
    more := run + [s'];
    forall i | 0 < i < |more| ensures StepAt(w, more, i) {
      if i < |run| {
        assert StepAt(w, run, i);
      }
    }
  }

  /** A whole frame that arrives in one chunk. */
  lemma ArrivesWhole(f: Frame)
    requires GoodFrame(f)
    ensures Feed(Receiver([], []), Encode(f)) == Receiver([], [f])
  {
    var nothing: seq<byte> := [];
    assert Parse(nothing) == Parsed.Frames([], 0);
    StreamAppend(nothing, f);
    assert nothing + Encode(f) == Encode(f);
    assert FramesOf(Encode(f)) == [f];
  }

  lemma RequestGoesOut(w: World, c: Call) returns (run: seq<State>)
    requires Fits(c)
    ensures |run| > 0 && Steps(w, run)
    ensures run[|run| - 1] == State(2, map[1 := c], map[1 := Waiting], map[1 := PendingRequest(false, None)], map[],
                                    Encode(RequestOf(1, c, false)), [], [], [], [], [], [1], [], {})
  {
    var f := RequestOf(1, c, false);
    var s0 := State(1, map[], map[], map[], map[], [], [], [], [], [], [], [], [], {});
    var s1 := s0.(nextId := 2, calls := map[1 := c], phase := map[1 := Registered],
                  pending := map[1 := PendingRequest(false, None)]);
    var s2 := s1.(phase := map[1 := Waiting], sent := [1], upStream := Encode(f));
    assert Steps(w, [s0]);
    hide RequestFrame, Encode, Fits;
    run := Lengthen(w, [s0], Start(c), s1);
    assert [] + Encode(f) == Encode(f);
    run := Lengthen(w, run, Send(1), s2);
  }

  lemma RequestArrives(w: World, c: Call) returns (run: seq<State>)
    requires Fits(c)
    ensures |run| > 0 && Steps(w, run)
    ensures run[|run| - 1] == State(2, map[1 := c], map[1 := Waiting], map[1 := PendingRequest(false, None)], map[],
                                    [], [], [RequestOf(1, c, false)], [], [], [], [1], [], {})
  {
    run := RequestGoesOut(w, c);
    var f := RequestOf(1, c, false);
    var s2 := run[|run| - 1];
    var s3 := s2.(upStream := [], serverInbox := [f]);
    RequestIsOk(s2, 1, c, false);
    ArrivesWhole(f);
    hide RequestFrame, Encode, Feed, RequestOk, Fits, GoodFrame;
    assert s2.upStream[..|Encode(f)|] == Encode(f);
    run := Lengthen(w, run, ServerReceives(|Encode(f)|), s3);
  }

  /** What the server sends back for the request. */
  lemma AnswerIs(w: World, c: Call, v: seq<byte>)
    requires Fits(c) && |v| + 8 <= MAX_PAYLOAD_SIZE && c.service in w.env.services
    requires w.env.services[c.service](1, c.service, c.method_, c.args) == Ok(v)
    ensures IdOf(RequestOf(1, c, false)) == 1 && HandleFrame(w.env, RequestOf(1, c, false)) == Some(ResponseFrame(1, v))
    ensures GoodFrame(ResponseFrame(1, v)) && Carried(ResponseFrame(1, v), w.decode) == Some((1, Ok(v)))
  {
    RequestPayloadRoundTrip(1, c.service, c.method_, c.args, false);
    ResponsePayloadRoundTrip(1, v);
  }

  lemma AnswerArrives(w: World, c: Call, v: seq<byte>) returns (run: seq<State>)
    requires Fits(c) && |v| + 8 <= MAX_PAYLOAD_SIZE && c.service in w.env.services
    requires w.env.services[c.service](1, c.service, c.method_, c.args) == Ok(v)
    ensures |run| > 0 && Steps(w, run)
    ensures run[|run| - 1] == State(2, map[1 := c], map[1 := Waiting], map[1 := PendingRequest(false, None)], map[],
                                    [], [], [], [], [], [ResponseFrame(1, v)], [1], [1], {})
  {
    run := RequestArrives(w, c);
    var g := ResponseFrame(1, v);
    var s3 := run[|run| - 1];
    var s4 := s3.(serverInbox := [], served := [1], downStream := Encode(g));
    var s5 := s4.(downStream := [], clientInbox := [g]);
    AnswerIs(w, c, v);
    ArrivesWhole(g);
    hide RequestFrame, ResponseFrame, Encode, Feed, HandleFrame, Fits, GoodFrame, Serve, IdOf, Carried;
    assert [] + Encode(g) == Encode(g);
    run := Lengthen(w, run, ServerHandles(true), s4);
    assert s4.downStream[..|Encode(g)|] == Encode(g);
    run := Lengthen(w, run, ClientReceives(|Encode(g)|), s5);
  }

  /** The client takes a reply that carries `reply` for a call in its table. */
  lemma ReplyIsTaken(w: World, s: State, g: Frame, id: nat, reply: Reply)
    requires s.clientInbox == [g] && Carried(g, w.decode) == Some((id, reply)) && id in s.pending
    ensures var pending := s.pending[id := PendingRequest(true, Some(reply))];
            Do(w, s, ClientHandles, s.(clientInbox := [], pending := pending))
  {
    hide Carried;
  }

  lemma PollReturns(w: World, s: State, id: nat, reply: Reply)
    requires id in s.phase && s.phase[id] == Waiting
    requires id in s.pending && s.pending[id] == PendingRequest(true, Some(reply))
    ensures Do(w, s, Poll(id), Return(s, id, reply))
  {
    hide Return;
  }

  /** The last two steps of a call whose reply is in the inbox. */
  lemma TakeAndReturn(w: World, run: seq<State>, g: Frame, id: nat, reply: Reply) returns (more: seq<State>)
    requires |run| > 0 && Steps(w, run)
    requires var s := run[|run| - 1];
             && s.clientInbox == [g] && Carried(g, w.decode) == Some((id, reply))
             && id in s.pending && id in s.phase && s.phase[id] == Waiting
    ensures |more| > 0 && Steps(w, more)
    ensures var s, s' := run[|run| - 1], more[|more| - 1];
            s'.calls == s.calls && s'.returned == s.returned[id := reply]
  {
    var s := run[|run| - 1];
    var s' := s.(clientInbox := [], pending := s.pending[id := PendingRequest(true, Some(reply))]);
    ReplyIsTaken(w, s, g, id, reply);
    PollReturns(w, s', id, reply);
    hide Steps, Do, Carried;
    more := Lengthen(w, run, ClientHandles, s');
    more := Lengthen(w, more, Poll(id), Return(s', id, reply));
  }

  /** Nothing in the model keeps a call from succeeding: a lone call whose service returns `v` can return `v`. */
  lemma CallsCanSucceed(w: World, c: Call, v: seq<byte>) returns (run: seq<State>)
    requires Fits(c) && |v| + 8 <= MAX_PAYLOAD_SIZE && c.service in w.env.services
    requires w.env.services[c.service](1, c.service, c.method_, c.args) == Ok(v)
    ensures |run| > 0 && Steps(w, run)
    ensures var last := run[|run| - 1];
            last.calls == map[1 := c] && last.returned == map[1 := Ok(v)] && RepliesFit(w, last)
  {
    assert Outgoing(w, CallRequest(1, c));
    hide Outgoing, RequestFrame, ResponseFrame, HandleFrame, Carried, Fits, GoodFrame, Serve, IdOf, Steps;
    run := AnswerArrives(w, c, v);
    AnswerIs(w, c, v);
    run := TakeAndReturn(w, run, ResponseFrame(1, v), 1, Ok(v));
  }
}
