/** No reply is lost on the way: where the answer to a waiting call is, as long as every reply sent fits a frame. */
module RpcReplies {
  import opened Wrappers
  import opened Frames
  import opened Streams
  import opened RpcServer
  import opened RpcClient
  import opened RpcSystem
  import opened RpcAnswers
  import opened RpcTheorems

  predicate Waits(s: State, id: nat) {
    id in s.phase && s.phase[id] == Waiting
  }

  /** The request is on its way or in the server's inbox. */
  predicate RequestUnderWay(s: State, id: nat) {
    WholeFrames(s.serverBuf + s.upStream) && id in IdsOf(UpFrames(s))
  }

  predicate Answers(w: World, f: Frame, id: nat) {
    Carried(f, w.decode).Some? && Carried(f, w.decode).value.0 == id
  }

  /** A reply to the call is on its way or in the client's inbox. */
  ghost predicate ReplyUnderWay(w: World, s: State, id: nat) {
    WholeFrames(s.clientBuf + s.downStream) && HasAnswer(w, DownFrames(s), id)
  }

  ghost predicate HasAnswer(w: World, frames: seq<Frame>, id: nat) {
    exists i :: 0 <= i < |frames| && Answers(w, frames[i], id)
  }

  predicate Completed(s: State, id: nat) {
    id in s.pending && s.pending[id].completed
  }

  ghost predicate Located(w: World, s: State, id: nat) {
    id in s.sent
    && (RequestUnderWay(s, id) || id in s.unanswered || ReplyUnderWay(w, s, id) || Completed(s, id))
  }

  ghost predicate Kept(w: World, s: State) {
    forall id :: Waits(s, id) ==> Located(w, s, id)
  }

  /** What a step must keep of each call that was waiting and still is. */
  lemma KeptStays(w: World, s: State, s': State)
    requires Kept(w, s)
    requires forall id :: Waits(s', id) ==>
               && Waits(s, id) && (id in s.sent ==> id in s'.sent) && (id in s.unanswered ==> id in s'.unanswered)
               && (RequestUnderWay(s, id) ==> RequestUnderWay(s', id))
               && (ReplyUnderWay(w, s, id) ==> ReplyUnderWay(w, s', id))
               && (Completed(s, id) ==> Completed(s', id))
    ensures Kept(w, s')
  {}

  /** Steps that only touch the table. */
  lemma KeptOnReturn(w: World, s: State, id: nat, r: Reply)
    requires Kept(w, s)
    ensures Kept(w, Return(s, id, r))
  {
    hide WholeFrames, FramesOf, IdsOf, HasAnswer;
    KeptStays(w, s, Return(s, id, r));
  }

  lemma KeptOnStart(w: World, s: State, c: Call, s': State)
    requires TableOk(s) && Do(w, s, Start(c), s') && Kept(w, s)
    ensures Kept(w, s')
  {
    TableBounds(s);
    hide TableOk, WholeFrames, FramesOf, IdsOf, HasAnswer, Fits;
    KeptStays(w, s, s');
  }

  /** Steps that only touch the table. */
  lemma KeptInTable(w: World, s: State, step: Step, s': State)
    requires Inv(s) && Do(w, s, step, s') && Kept(w, s)
    requires step.Start? || step.SendFails? || step.Poll? || step.TimesOut?
    ensures Kept(w, s')
  {
    hide Kept, Return, TableOk, UpOk, OrderOk;
    assert step.Start? ==> TableOk(s);
    match step
    case Start(c) => KeptOnStart(w, s, c, s');
    case SendFails(id) => KeptOnReturn(w, s, id, Err(Unavailable));
    case TimesOut(id) => KeptOnReturn(w, s, id, Err(DeadlineExceeded));
    case Poll(id) =>
      match PollOutcome(s.pending, id)
      case Done(r) => KeptOnReturn(w, s, id, r);
      case Disappeared => KeptOnReturn(w, s, id, Err(Internal([])));
      case StillWaiting =>
  }

  lemma RequestSent(s: State, s': State, f: Frame)
    requires WholeFrames(s.serverBuf + s.upStream) && WholeFrames(s'.serverBuf + s'.upStream)
    requires UpFrames(s') == UpFrames(s) + [f]
    ensures forall id :: RequestUnderWay(s, id) || id == IdOf(f) ==> RequestUnderWay(s', id)
  {
    assert IdsOf(UpFrames(s')) == IdsOf(UpFrames(s)) + [IdOf(f)];
    hide WholeFrames, UpFrames, IdsOf, IdOf;
  }

  lemma KeptOnSend(w: World, s: State, step: Step, s': State)
    requires Inv(s) && Do(w, s, step, s') && Kept(w, s) && (step.Send? || step.OneWayCall?)
    ensures Kept(w, s')
  {
    hide Kept, OrderOk, WholeFrames, HasAnswer, Encode, RequestFrame, Fits, IdsOf, IdOf;
    TableBounds(s);
    TableAfterSend(w, s, step, s');
    var id := if step.Send? then step.id else s.nextId;
    var c := if step.Send? then s.calls[id] else step.call;
    assert id < U64 && Fits(c);
    hide TableOk;
    SentRequest(s, s', id, c, step.OneWayCall?);
    RequestSent(s, s', RequestOf(id, c, step.OneWayCall?));
    assert s'.clientBuf == s.clientBuf && s'.downStream == s.downStream && s'.clientInbox == s.clientInbox;
    assert s'.pending == s.pending && s'.unanswered == s.unanswered && s'.sent == s.sent + [id];
    assert forall k :: Waits(s', k) && k != id ==> Waits(s, k);
    hide Do, Inv, CallsKept, UpOk, UpFrames;
    KeptWithRequest(w, s, s', id);
  }

  lemma KeptWithRequest(w: World, s: State, s': State, id: nat)
    requires Kept(w, s) && s'.pending == s.pending && s'.unanswered == s.unanswered && s'.sent == s.sent + [id]
    requires s'.clientBuf == s.clientBuf && s'.downStream == s.downStream && s'.clientInbox == s.clientInbox
    requires forall k :: Waits(s', k) && k != id ==> Waits(s, k)
    requires forall k :: RequestUnderWay(s, k) || k == id ==> RequestUnderWay(s', k)
    ensures Kept(w, s')
  {
    hide WholeFrames, HasAnswer, RequestUnderWay, Waits;
    forall k | Waits(s', k) ensures Located(w, s', k) {
      if k != id {
        assert Located(w, s, k);
      }
    }
  }

  lemma TableBounds(s: State)
    requires TableOk(s)
    ensures s.nextId !in s.phase
  {}

  lemma KeptOnReceive(w: World, s: State, step: Step, s': State)
    requires Inv(s) && Do(w, s, step, s') && Kept(w, s) && (step.ServerReceives? || step.ClientReceives?)
    requires DownOk(w, s)
    ensures Kept(w, s')
  {
    if step.ServerReceives? {
      StreamDeliver(s.serverBuf, s.upStream, step.k, s.serverInbox);
      assert UpFrames(s') == UpFrames(s);
    } else {
      StreamDeliver(s.clientBuf, s.downStream, step.k, s.clientInbox);
      assert DownFrames(s') == DownFrames(s);
    }
    hide Inv, DownOk, Feed, WholeFrames, UpFrames, DownFrames, IdsOf, HasAnswer;
    KeptStays(w, s, s');
  }

  /** The reply to the frame at the head of the inbox answers the call that frame came from. */
  lemma ReplyAnswers(w: World, s: State, f: Frame)
    requires RequestOk(s, f) && HandleFrame(w.env, f).Some?
    ensures Answers(w, HandleFrame(w.env, f).value, IdOf(f))
  {
    AnsweredExactly(w.env, f);
    OneWayBit(f.header.flags);
  }

  lemma RequestTaken(w: World, s: State, delivered: bool, s': State)
    requires UpOk(s) && UpOk(s') && Do(w, s, ServerHandles(delivered), s')
    ensures forall id :: RequestUnderWay(s, id) ==> RequestUnderWay(s', id) || id == IdOf(s.serverInbox[0])
  {
    hide WholeFrames, IdsOf, IdOf, HandleFrame, ReplyBytes, RequestOk;
    var f := s.serverInbox[0];
    assert s'.serverBuf == s.serverBuf && s'.upStream == s.upStream && s'.serverInbox == s.serverInbox[1..];
    hide Do;
    assert UpFrames(s) == [f] + UpFrames(s');
    hide UpFrames, UpOk;
    IdsOfOneMore(f, UpFrames(s'));
  }

  lemma IdsOfOneMore(f: Frame, frames: seq<Frame>)
    ensures forall id :: id in IdsOf([f] + frames) ==> id in IdsOf(frames) || id == IdOf(f)
  {
    hide IdOf;
    assert IdsOf([f] + frames) == [IdOf(f)] + IdsOf(frames);
  }

  lemma ReplySent(w: World, s: State, s': State, reply: Frame)
    requires WholeFrames(s.clientBuf + s.downStream) && GoodFrame(reply)
    requires s'.clientBuf == s.clientBuf && s'.clientInbox == s.clientInbox
    requires s'.downStream == s.downStream + Encode(reply)
    ensures forall id :: ReplyUnderWay(w, s, id) || Answers(w, reply, id) ==> ReplyUnderWay(w, s', id)
  {
    StreamAppend(s.clientBuf + s.downStream, reply);
    assert s'.clientBuf + s'.downStream == s.clientBuf + s.downStream + Encode(reply);
    assert DownFrames(s') == DownFrames(s) + [reply];
    AnswerAdded(w, DownFrames(s), reply);
    hide WholeFrames, DownFrames, HasAnswer, Answers, GoodFrame, Encode;
  }

  /** What sending does: the replies under way stay so, and the call handled is answered or marked unanswered. */
  lemma HandledIsAnswered(w: World, s: State, delivered: bool, s': State)
    requires s.serverInbox != [] && Do(w, s, ServerHandles(delivered), s')
    requires Inv(s) && Inv(s') && RepliesFit(w, s') && DownOk(w, s) && CallsKept(s, s')
    ensures forall id :: ReplyUnderWay(w, s, id) ==> ReplyUnderWay(w, s', id)
    ensures IdOf(s.serverInbox[0]) in s'.unanswered || ReplyUnderWay(w, s', IdOf(s.serverInbox[0]))
  {
    hide IdOf, WholeFrames, IdsOf, HasAnswer, DownFrames, RepliesFit, Outgoing, HandleFrame, Carried, ReplyOk;
    var f := s.serverInbox[0];
    var reply := HandleFrame(w.env, f);
    assert s'.clientBuf == s.clientBuf && s'.clientInbox == s.clientInbox;
    if reply.Some? && delivered {
      ReplyIsGood(w, s, delivered, s');
      assert s'.downStream == s.downStream + Encode(reply.value);
      assert WholeFrames(s.clientBuf + s.downStream);
      hide Do, Inv, DownOk, CallsKept;
      ReplySent(w, s, s', reply.value);
    } else {
      assert s'.downStream == s.downStream + [] == s.downStream;
      hide Do, Inv, CallsKept;
      SameDown(w, s, s');
    }
  }

  lemma SameDown(w: World, s: State, s': State)
    requires s'.clientBuf == s.clientBuf && s'.clientInbox == s.clientInbox && s'.downStream == s.downStream
    ensures forall id :: ReplyUnderWay(w, s, id) ==> ReplyUnderWay(w, s', id)
  {
    hide WholeFrames, HasAnswer;
  }

  lemma ReplyIsGood(w: World, s: State, delivered: bool, s': State)
    requires s.serverInbox != [] && Do(w, s, ServerHandles(delivered), s') && Inv(s) && Inv(s')
    requires RepliesFit(w, s') && CallsKept(s, s') && delivered && HandleFrame(w.env, s.serverInbox[0]).Some?
    ensures var reply := HandleFrame(w.env, s.serverInbox[0]).value;
            GoodFrame(reply) && Answers(w, reply, IdOf(s.serverInbox[0]))
  {
    hide WholeFrames, IdsOf, RepliesFit, Outgoing, HandleFrame, Carried, IdOf;
    var f := s.serverInbox[0];
    UpMoves(s, s');
    hide UpOk;
    ReplyAnswers(w, s, f);
    UpFrame(s, s', [f]);
    assert RequestOk(s', [f][0]);
    SentReplyFits(w, s, delivered, s');
    hide RequestOk;
    RepliesAreOk(w, s', f);
  }

  lemma KeptOnServerHandles(w: World, s: State, delivered: bool, s': State)
    requires Inv(s) && Inv(s') && RepliesFit(w, s') && DownOk(w, s)
    requires Do(w, s, ServerHandles(delivered), s') && Kept(w, s)
    ensures Kept(w, s')
  {
    assert CallsKept(s, s');
    hide TableOk, UpOk, DownOk, OrderOk, RequestUnderWay, ReplyUnderWay, HandleFrame, ReplyBytes, IdOf, RepliesFit;
    hide CallsKept;
    RequestTaken(w, s, delivered, s');
    HandledIsAnswered(w, s, delivered, s');
    forall id | Waits(s', id) ensures Located(w, s', id) {
      assert Located(w, s, id);
    }
  }

  lemma AnswerAdded(w: World, frames: seq<Frame>, f: Frame)
    ensures forall id :: HasAnswer(w, frames + [f], id) <==> HasAnswer(w, frames, id) || Answers(w, f, id)
  {
    hide Answers;
    var more := frames + [f];
    forall id ensures HasAnswer(w, more, id) <==> HasAnswer(w, frames, id) || Answers(w, f, id) {
      if HasAnswer(w, frames, id) {
        var i :| 0 <= i < |frames| && Answers(w, frames[i], id);
        assert more[i] == frames[i];
      }
      assert more[|frames|] == f;
    }
  }

  lemma AnswerTaken(w: World, frames: seq<Frame>)
    requires frames != []
    ensures forall id :: HasAnswer(w, frames, id) ==> HasAnswer(w, frames[1..], id) || Answers(w, frames[0], id)
  {
    hide Answers;
    forall id | HasAnswer(w, frames, id) ensures HasAnswer(w, frames[1..], id) || Answers(w, frames[0], id) {
      var i :| 0 <= i < |frames| && Answers(w, frames[i], id);
      if i > 0 {
        assert frames[1..][i - 1] == frames[i];
      }
    }
  }

  lemma KeptOnClientHandles(w: World, s: State, s': State)
    requires Inv(s) && DownOk(w, s) && Do(w, s, ClientHandles, s') && Kept(w, s)
    ensures Kept(w, s')
  {
    var f := s.clientInbox[0];
    assert WholeFrames(s.clientBuf + s.downStream) && s.pending.Keys == s.phase.Keys;
    assert DownFrames(s)[0] == f && DownFrames(s') == DownFrames(s)[1..];
    AnswerTaken(w, DownFrames(s));
    CompleteMeaning(s.pending, f, w.decode);
    hide Inv, DownOk, WholeFrames, UpFrames, DownFrames, HasAnswer, Carried, Complete, IdsOf, Settled;
    forall id | Waits(s', id) ensures Located(w, s', id) {
      assert Located(w, s, id);
      assert id in s.pending;
    }
  }

  lemma StepKeepsKept(w: World, s: State, step: Step, s': State)
    requires Inv(s) && AnswersOk(w, s) && Do(w, s, step, s') && RepliesFit(w, s') && Kept(w, s)
    ensures Kept(w, s')
  {
    assert DownOk(w, s);
    hide Inv, Do, Kept, AnswersOk, DownOk, RepliesFit;
    StepKeepsInv(w, s, step, s');
    match step
    case Send(_) => KeptOnSend(w, s, step, s');
    case OneWayCall(_) => KeptOnSend(w, s, step, s');
    case ServerReceives(_) => KeptOnReceive(w, s, step, s');
    case ClientReceives(_) => KeptOnReceive(w, s, step, s');
    case ServerHandles(delivered) => KeptOnServerHandles(w, s, delivered, s');
    case ClientHandles => KeptOnClientHandles(w, s, s');
    case _ => KeptInTable(w, s, step, s');
  }

  lemma {:induction false} RunKeepsKept(w: World, run: seq<State>, i: nat)
    requires Steps(w, run) && i < |run| && RepliesFit(w, run[i])
    ensures Kept(w, run[i])
  {
    hide Inv, Do, RepliesFit, AnswersOk;
    if i > 0 {
      hide Kept, Init;
      var p := i - 1;
      RunKeepsInv(w, run, p);
      var step := StepOf(w, run, p, i);
      FitBefore(w, run[p], step, run[i]);
      RunKeepsAnswers(w, run, p);
      RunKeepsKept(w, run, p);
      StepKeepsKept(w, run[p], step, run[i]);
    }
  }

  /**
   Conservation of replies: the request of every waiting call is still under way, or it was dispatched, and then its
   reply is under way or in the table, unless none was sent.
   */
  lemma NoReplyIsLost(w: World, run: seq<State>, i: nat, id: nat)
    requires Steps(w, run) && i < |run| && RepliesFit(w, run[i]) && Waits(run[i], id)
    ensures id in run[i].sent
    ensures || RequestUnderWay(run[i], id)
            || (id in run[i].served
                && (id in run[i].unanswered || ReplyUnderWay(w, run[i], id) || Completed(run[i], id)))
  {
    RunKeepsKept(w, run, i);
    RunKeepsInv(w, run, i);
    assert Located(w, run[i], id);
    assert OrderOk(run[i]);
    hide Inv, WholeFrames, HasAnswer, UpFrames, IdsOf;
  }

  /** Once everything on the streams has been handled, every waiting call that was answered has its reply. */
  lemma QuietMeansAnswered(w: World, run: seq<State>, i: nat, id: nat)
    requires Steps(w, run) && i < |run| && RepliesFit(w, run[i]) && Waits(run[i], id) && id !in run[i].unanswered
    requires var s := run[i]; s.serverBuf + s.upStream == [] && s.clientBuf + s.downStream == []
    requires run[i].serverInbox == [] && run[i].clientInbox == []
    ensures PollOutcome(run[i].pending, id).Done?
  {
    NoReplyIsLost(w, run, i, id);
    RunKeepsInv(w, run, i);
    assert Settled(run[i].pending);
    assert Parse([]) == Parsed.Frames([], 0);
    assert UpFrames(run[i]) == [] && DownFrames(run[i]) == [];
  }
}
