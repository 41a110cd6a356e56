/**
 Why replies have to fit a frame: the server sends a reply of any size (mill-rpc/src/server.rs:242-256), and the client
 then reads the inside of the payload as frames.
 */
module RpcLimits {
  import opened Wrappers
  import opened Bytes
  import opened Frames
  import opened Streams
  import opened RpcServer
  import opened RpcClient
  import opened RpcSystem
  import opened RpcTheorems

  /** A reply nobody gave. */
  function Forged(): Frame {
    ResponseFrame(1, [7])
  }

  /** A result one byte too long for a frame, which begins with the bytes of the forged one. */
  function LongResult(): seq<byte> {
    Encode(Forged()) + seq(MAX_PAYLOAD_SIZE, _ => 0)
  }

  function LongWorld(): World {
    World(Env(map[0 := (id, service, method_, args) => Ok(LongResult())], e => None), bytes => Unavailable)
  }

  lemma TooLongToDecode(h: FrameHeader)
    requires h.version == VERSION && MAX_PAYLOAD_SIZE < h.payloadLen < 0x1_0000_0000
    ensures Decode(HeaderBytes(h)) == Err(PayloadTooLarge(h.payloadLen))
  {
    Widths();
    FromLeOfLe(h.payloadLen, 4);
    assert HeaderBytes(h)[5..9] == Le(h.payloadLen, 4);
  }

  /** The long reply on the wire: seventeen bytes the client throws away, then the forged frame, then the rest. */
  lemma LongReply()
    ensures var bytes, forged := Encode(ResponseFrame(1, LongResult())), Encode(Forged());
            && |forged| == 18 && |bytes| >= 35
            && Feed(Receiver([], []), bytes[..17]) == Receiver([], [])
            && bytes[17..][..18] == forged
  {
    var long := LongResult();
    var f := ResponseFrame(1, long);
    var bytes, forged := Encode(f), Encode(Forged());
    var head := HeaderBytes(f.header);
    assert |long| == 18 + MAX_PAYLOAD_SIZE && |f.payload| == 26 + MAX_PAYLOAD_SIZE;
    TooLongToDecode(f.header);
    assert bytes == head + Le(1, 8) + long;
    assert bytes[..17] == head + Le(1, 8);
    assert bytes[..17][..HEADER_SIZE] == head;
    assert [] + bytes[..17] == bytes[..17];
    assert HeadOf(bytes[..17]).Broken?;
    assert bytes[17..] == long && long[..18] == forged;
  }

  lemma LongIsSent()
    ensures var f := RequestOf(1, Call(0, 0, []), false);
            IdOf(f) == 1 && HandleFrame(LongWorld().env, f) == Some(ResponseFrame(1, LongResult()))
  {
    RequestPayloadRoundTrip(1, 0, 0, [], false);
    hide LongResult;
  }

  lemma LongReplyArrives() returns (run: seq<State>)
    ensures |run| > 0 && Steps(LongWorld(), run)
    ensures var last := run[|run| - 1];
            && last.calls == map[1 := Call(0, 0, [])] && last.phase == map[1 := Waiting] && last.returned == map[]
            && last.pending == map[1 := PendingRequest(false, None)]
            && last.clientBuf == [] && last.clientInbox == []
            && last.downStream == Encode(ResponseFrame(1, LongResult()))
  {
    hide RequestFrame, ResponseFrame, Encode, HandleFrame, IdOf, LongResult, LongWorld, Steps;
    var w, c := LongWorld(), Call(0, 0, []);
    run := RequestArrives(w, c);
    var s := run[|run| - 1];
    var f, g := RequestOf(1, c, false), ResponseFrame(1, LongResult());
    LongIsSent();
    var s' := s.(serverInbox := [], served := [1], downStream := Encode(g));
    assert [] + Encode(g) == Encode(g);
    assert Do(w, s, ServerHandles(true), s');
    hide Do;
    run := Lengthen(w, run, ServerHandles(true), s');
  }

  lemma ForgedArrives() returns (run: seq<State>)
    ensures |run| > 0 && Steps(LongWorld(), run)
    ensures var last := run[|run| - 1];
            && last.calls == map[1 := Call(0, 0, [])] && last.phase == map[1 := Waiting] && last.returned == map[]
            && last.pending == map[1 := PendingRequest(false, None)] && last.clientInbox == [Forged()]
  {
    hide Feed, Encode, ResponseFrame, LongResult, LongWorld, Forged, GoodFrame, ParseResponsePayload, Steps;
    var w, g := LongWorld(), Forged();
    run := LongReplyArrives();
    var s := run[|run| - 1];
    var bytes := s.downStream;
    LongReply();
    ForgedIsGood();
    ArrivesWhole(g);
    var s1 := s.(downStream := bytes[17..]);
    assert Do(w, s, ClientReceives(17), s1);
    var s2 := s1.(downStream := bytes[17..][18..], clientInbox := [g]);
    assert Do(w, s1, ClientReceives(18), s2);
    hide Do;
    run := Lengthen(w, run, ClientReceives(17), s1);
    run := Lengthen(w, run, ClientReceives(18), s2);
  }

  lemma ForgedIsGood()
    ensures GoodFrame(Forged())
  {
    ResponsePayloadRoundTrip(1, [7]);
  }

  lemma ForgedIsAnswer(w: World)
    ensures Carried(Forged(), w.decode) == Some((1, Ok([7])))
  {
    ResponsePayloadRoundTrip(1, [7]);
  }

  lemma LongIsServed()
    ensures 0 in LongWorld().env.services && LongWorld().env.services[0](1, 0, 0, []) == Ok(LongResult())
    ensures |LongResult()| > 1
  {}

  /** A call returns a value that its dispatch never gave: without the bound on replies the main theorem is false. */
  lemma OversizeReplyForgesAnswer() returns (run: seq<State>)
    ensures |run| > 0 && Steps(LongWorld(), run)
    ensures var last := run[|run| - 1];
            && last.calls == map[1 := Call(0, 0, [])] && last.returned == map[1 := Ok([7])]
            && 0 in LongWorld().env.services && LongWorld().env.services[0](1, 0, 0, []) != Ok([7])
  {
    var w, g := LongWorld(), Forged();
    run := ForgedArrives();
    ForgedIsAnswer(w);
    LongIsServed();
    hide Carried, LongResult, LongWorld, Forged, Steps;
    run := TakeAndReturn(w, run, g, 1, Ok([7]));
  }

  // ---- Which long replies can forge an answer ----------------------------------------------------------------

  /** Some way of cutting the bytes makes a client with an empty buffer take a frame that carries `r` for call `id`. */
  ghost predicate CanForge(w: World, bytes: seq<byte>, id: nat, r: Reply) {
    exists f :: CanHandOn(bytes, f) && Carried(f, w.decode) == Some((id, r))
  }

  /**
   A reply too long for a frame can give a waiting call an answer if and only if the bytes of a whole frame that carries
   it lie in the reply, at any offset after its header.
   */
  lemma LongReplyForgesIff(w: World, sent: nat, data: seq<byte>, id: nat, r: Reply)
    requires MAX_PAYLOAD_SIZE < |data| + 8 < 0x1_0000_0000
    ensures var bytes := Encode(ResponseFrame(sent, data));
            CanForge(w, bytes, id, r) <==> exists f :: Embedded(bytes, f) && Carried(f, w.decode) == Some((id, r))
  {
    var bytes := Encode(ResponseFrame(sent, data));
    LongIsBroken(sent, data);
    hide ResponseFrame, Encode, Carried, HeadOf, Embedded, CanHandOn;
    forall f ensures CanHandOn(bytes, f) <==> Embedded(bytes, f) {
      BrokenLetsInIff(bytes, f);
    }
  }

  lemma LongIsBroken(sent: nat, data: seq<byte>)
    requires MAX_PAYLOAD_SIZE < |data| + 8 < 0x1_0000_0000
    ensures HeadOf(Encode(ResponseFrame(sent, data))).Broken?
  {
    var f := ResponseFrame(sent, data);
    TooLongToDecode(f.header);
    assert Encode(f)[..HEADER_SIZE] == HeaderBytes(f.header);
  }
}
