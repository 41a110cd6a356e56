/** One call of on_data is, in the system, the delivery of its chunk and then one step for each frame it completes. */
module RpcBatches {
  import opened Bytes
  import opened Frames
  import opened RpcServer
  import opened RpcClient
  import opened RpcSystem

  lemma {:induction false} EncodeAllAppend(frames: seq<Frame>, f: Frame)
    ensures EncodeAll(frames + [f]) == EncodeAll(frames) + Encode(f)
  {
    hide Encode;
    if frames == [] {
      assert frames + [f] == [f] && [f][1..] == [];
      assert EncodeAll([f]) == Encode(f) + EncodeAll([]);
    } else {
      assert (frames + [f])[1..] == frames[1..] + [f] && (frames + [f])[0] == frames[0];
      EncodeAllAppend(frames[1..], f);
      assert Encode(frames[0]) + (EncodeAll(frames[1..]) + Encode(f)) == EncodeAll(frames) + Encode(f);
    }
  }

  function AllIds(frames: seq<Frame>, n: nat): seq<nat>
    requires n <= |frames|
  {
    if n == 0 then [] else AllIds(frames, n - 1) + [IdOf(frames[n - 1])]
  }

  function NotAnswered(w: World, frames: seq<Frame>, n: nat): set<nat>
    requires n <= |frames|
  {
    if n == 0 then {}
    else NotAnswered(w, frames, n - 1)
         + if HandleFrame(w.env, frames[n - 1]).Some? then {} else {IdOf(frames[n - 1])}
  }

  /** The server has handled the first `n` frames of its inbox and sent every reply. */
  function Handled(w: World, s: State, n: nat): State
    requires n <= |s.serverInbox|
  {
    s.(serverInbox := s.serverInbox[n..], served := s.served + AllIds(s.serverInbox, n),
       unanswered := s.unanswered + NotAnswered(w, s.serverInbox, n),
       downStream := s.downStream + EncodeAll(Replies(w.env, s.serverInbox, n)))
  }

  lemma BatchStarts(w: World, s: State)
    ensures Handled(w, s, 0) == s
  {
    assert s.downStream + EncodeAll([]) == s.downStream && s.served + [] == s.served;
  }

  lemma BatchSends(w: World, frames: seq<Frame>, n: nat, next: nat, down: seq<byte>)
    requires next == n + 1 && next <= |frames|
    ensures down + EncodeAll(Replies(w.env, frames, next))
         == down + EncodeAll(Replies(w.env, frames, n)) + ReplyBytes(w, frames[n], true)
  {
    hide HandleFrame, Encode, EncodeAll;
    var reply, sofar := HandleFrame(w.env, frames[n]), Replies(w.env, frames, n);
    if reply.Some? {
      EncodeAllAppend(sofar, reply.value);
    } else {
      assert sofar + [] == sofar;
    }
  }

  /**
   The server's on_data: step for step, what it sends for a batch is what handling the frames one by one puts on the
   stream.
   */
  lemma ServerBatch(w: World, s: State, n: nat, next: nat)
    requires next == n + 1 && next <= |s.serverInbox|
    ensures Handled(w, s, 0) == s && Do(w, Handled(w, s, n), ServerHandles(true), Handled(w, s, next))
  {
    hide HandleFrame, ReplyBytes, Encode, EncodeAll, Replies, IdOf;
    BatchStarts(w, s);
    BatchSends(w, s.serverInbox, n, next, s.downStream);
    var before, after, f := Handled(w, s, n), Handled(w, s, next), s.serverInbox[n];
    assert before.serverInbox[0] == f && before.serverInbox[1..] == after.serverInbox;
    assert after.downStream == before.downStream + ReplyBytes(w, f, true);
    assert after.served == before.served + [IdOf(f)];
    assert after.unanswered == if HandleFrame(w.env, f).Some? then before.unanswered else before.unanswered + {IdOf(f)};
    hide AllIds, NotAnswered;
  }

  /** The client has taken the first `n` frames of its inbox. */
  function Taken(w: World, s: State, n: nat): State
    requires n <= |s.clientInbox|
  {
    s.(clientInbox := s.clientInbox[n..], pending := CompleteAll(s.pending, s.clientInbox, n, w.decode))
  }

  /** The client's on_data, likewise. */
  lemma ClientBatch(w: World, s: State, n: nat)
    requires n < |s.clientInbox|
    ensures Taken(w, s, 0) == s && Do(w, Taken(w, s, n), ClientHandles, Taken(w, s, n + 1))
  {
    var before, after := Taken(w, s, n), Taken(w, s, n + 1);
    assert before.clientInbox[0] == s.clientInbox[n] && before.clientInbox[1..] == after.clientInbox;
    hide Complete;
  }
}
