/**
 The parser and the printer undo each other, and a receiver that appends, parses and drains sees the same frames
 however the byte stream is cut into chunks.
 */
module Streams {
  import opened Bytes
  import opened Frames

  // ---- Parsing what was printed ------------------------------------------------------------------------------

  /** `tail` does not yet hold a whole frame: a short header, or a good header with too little payload. */
  predicate Incomplete(tail: seq<byte>) {
    HeadOf(tail).Partial?
  }

  lemma HeadOfPrinted(f: Frame, rest: seq<byte>)
    requires GoodFrame(f)
    ensures HeadOf(Encode(f) + rest) == Whole(f)
    ensures (Encode(f) + rest)[HEADER_SIZE + |f.payload|..] == rest
  {
    var buf := Encode(f) + rest;
    DecodeOfEncode(f.header);
    assert buf[..HEADER_SIZE] == HeaderBytes(f.header);
    assert buf[HEADER_SIZE..HEADER_SIZE + |f.payload|] == f.payload;
  }

  /** Printed frames followed by anything parse to those frames and then whatever the rest parses to. */
  lemma {:induction false} ParseAfterPrinted(frames: seq<Frame>, rest: seq<byte>)
    requires GoodFrames(frames)
    ensures Parse(EncodeAll(frames) + rest) == After(frames, |EncodeAll(frames)|, Parse(rest))
  {
    if frames == [] {
      assert EncodeAll(frames) + rest == rest;
      AfterNothing(Parse(rest));
    } else {
      var f, more := frames[0], frames[1..];
      var size, m := HEADER_SIZE + |f.payload|, |EncodeAll(more)|;
      var buf := Encode(f) + (EncodeAll(more) + rest);
      assert EncodeAll(frames) + rest == buf;
      assert |EncodeAll(frames)| == size + m && frames == [f] + more;
      HeadOfPrinted(f, EncodeAll(more) + rest);
      ParseAfterPrinted(more, rest);
      hide HeadOf, Encode, EncodeAll, After, GoodFrames;
      AfterTwice([f], size, more, m, Parse(rest));
    }
  }

  /** Parse after print: any list of good frames and any incomplete tail come back exactly. */
  lemma ParseOfPrint(frames: seq<Frame>, tail: seq<byte>)
    requires GoodFrames(frames) && Incomplete(tail)
    ensures Parse(EncodeAll(frames) + tail) == Frames(frames, |EncodeAll(frames)|)
  {
    ParseAfterPrinted(frames, tail);
    assert frames + [] == frames;
  }

  /** The framing is uniquely decodable: equal byte streams carry equal frames and equal tails. */
  lemma PrintIsInjective(a: seq<Frame>, tailA: seq<byte>, b: seq<Frame>, tailB: seq<byte>)
    requires GoodFrames(a) && Incomplete(tailA) && GoodFrames(b) && Incomplete(tailB)
    requires EncodeAll(a) + tailA == EncodeAll(b) + tailB
    ensures a == b && tailA == tailB
  {
    ParseOfPrint(a, tailA);
    ParseOfPrint(b, tailB);
    assert tailA == (EncodeAll(a) + tailA)[|EncodeAll(a)|..];
    assert tailB == (EncodeAll(b) + tailB)[|EncodeAll(b)|..];
  }

  // ---- Printing what was parsed ------------------------------------------------------------------------------

  lemma HeadPrints(buf: seq<byte>)
    requires HeadOf(buf).Whole?
    ensures var f := HeadOf(buf).frame; GoodFrame(f) && buf == Encode(f) + buf[HEADER_SIZE + |f.payload|..]
  {
    EncodeOfDecode(buf[..HEADER_SIZE]);
    var f := HeadOf(buf).frame;
    assert buf == buf[..HEADER_SIZE] + buf[HEADER_SIZE..HEADER_SIZE + |f.payload|] + buf[HEADER_SIZE + |f.payload|..];
  }

  /**
   Print after parse: a successful parse consumed exactly the printed form of its frames and stopped for lack of
   bytes only, so less than one maximal frame is ever retained.
   */
  lemma {:induction false} PrintOfParse(buf: seq<byte>)
    requires Parse(buf).Frames?
    ensures var (frames, n) := (Parse(buf).frames, Parse(buf).consumed);
            && n <= |buf| && GoodFrames(frames)
            && EncodeAll(frames) == buf[..n]
            && Incomplete(buf[n..])
            && |buf| - n < HEADER_SIZE + MAX_PAYLOAD_SIZE
    decreases |buf|
  {
    if HeadOf(buf).Whole? {
      var f := HeadOf(buf).frame;
      var size := HEADER_SIZE + |f.payload|;
      HeadPrints(buf);
      PrintOfParse(buf[size..]);
      hide HeadOf, Encode, GoodFrame;
      var more, m := Parse(buf[size..]).frames, Parse(buf[size..]).consumed;
      assert ([f] + more)[1..] == more;
      assert buf[..size + m] == buf[..size] + buf[size..][..m];
      assert buf[..size] == Encode(f);
      assert buf[size..][m..] == buf[size + m..];
    } else {
      assert buf[0..] == buf;
      PartialIsShort(buf);
    }
  }

  lemma PartialIsShort(buf: seq<byte>)
    requires HeadOf(buf).Partial?
    ensures |buf| < HEADER_SIZE + MAX_PAYLOAD_SIZE
  {
    if |buf| >= HEADER_SIZE {
      EncodeOfDecode(buf[..HEADER_SIZE]);
    }
  }

  // ---- Prefixes ----------------------------------------------------------------------------------------------

  lemma HeadOfLonger(a: seq<byte>, b: seq<byte>)
    requires !HeadOf(a).Partial?
    ensures HeadOf(a + b) == HeadOf(a)
    ensures HeadOf(a).Whole? ==>
              var size := HEADER_SIZE + |HeadOf(a).frame.payload|; (a + b)[size..] == a[size..] + b
  {
    assert (a + b)[..HEADER_SIZE] == a[..HEADER_SIZE];
    if HeadOf(a).Whole? {
      var size := HEADER_SIZE + |HeadOf(a).frame.payload|;
      assert (a + b)[HEADER_SIZE..size] == a[HEADER_SIZE..size];
    }
  }

  /** More bytes never change what was already parsed, and never repair what was already broken. */
  lemma {:induction false} ParseLonger(a: seq<byte>, b: seq<byte>)
    ensures Parse(a).Bad? ==> Parse(a + b) == Parse(a)
    ensures Parse(a).Frames? ==>
              Parse(a + b) == After(Parse(a).frames, Parse(a).consumed, Parse(a[Parse(a).consumed..] + b))
    decreases |a|
  {
    match HeadOf(a)
    case Partial =>
      assert a[0..] == a;
      AfterNothing(Parse(a + b));
    case Broken(_) =>
      HeadOfLonger(a, b);
    case Whole(f) =>
      var size := HEADER_SIZE + |f.payload|;
      HeadOfLonger(a, b);
      ParseLonger(a[size..], b);
      WholeLonger(f, size, a, Parse(a[size..]), b);
  }

  lemma WholeLonger(f: Frame, size: nat, a: seq<byte>, rest: Parsed, b: seq<byte>)
    requires size <= |a| && (rest.Frames? ==> rest.consumed <= |a| - size)
    ensures rest.Frames? ==>
              var p := After([f], size, rest);
              var q := Parse(a[size..][rest.consumed..] + b);
              p.consumed <= |a| && a[p.consumed..] == a[size..][rest.consumed..]
              && After([f], size, After(rest.frames, rest.consumed, q)) == After(p.frames, p.consumed, q)
  {
    if rest.Frames? {
      AfterTwice([f], size, rest.frames, rest.consumed, Parse(a[size..][rest.consumed..] + b));
    }
  }

  // ---- Chunks ------------------------------------------------------------------------------------------------

  /** A receiver: what is buffered and every frame handed on so far. */
  datatype Receiver = Receiver(buf: seq<byte>, frames: seq<Frame>)

  /** Both on_data handlers: append, parse, drain; a parse error clears the buffer and hands on nothing. */
  function Feed(r: Receiver, chunk: seq<byte>): Receiver {
    var buf := r.buf + chunk;
    match Parse(buf)
    case Bad(_) => Receiver([], r.frames)
    case Frames(frames, n) => Receiver(buf[n..], r.frames + frames)
  }

  function FeedAll(r: Receiver, chunks: seq<seq<byte>>): Receiver
    decreases chunks
  {
    if chunks == [] then r else FeedAll(Feed(r, chunks[0]), chunks[1..])
  }

  function Joined(chunks: seq<seq<byte>>): seq<byte> {
    if chunks == [] then [] else chunks[0] + Joined(chunks[1..])
  }

  /** What a prefix leaves in the buffer is incomplete, and the stream still parses from there. */
  lemma FeedFirst(r: Receiver, a: seq<byte>, b: seq<byte>)
    requires Parse(r.buf + a + b).Frames?
    ensures Incomplete(Feed(r, a).buf) && Parse(Feed(r, a).buf + b).Frames?
  {
    ParseLonger(r.buf + a, b);
    PrintOfParse(r.buf + a);
  }

  /** Feeding two chunks of a stream that parses is feeding their concatenation. */
  lemma FeedTwo(r: Receiver, a: seq<byte>, b: seq<byte>)
    requires Parse(r.buf + a + b).Frames?
    ensures Feed(Feed(r, a), b) == Feed(r, a + b)
  {
    var buf := r.buf + a;
    ParseLonger(buf, b);
    var n, fs := Parse(buf).consumed, Parse(buf).frames;
    var rest := buf[n..];
    var m, gs := Parse(rest + b).consumed, Parse(rest + b).frames;
    FeedParsed(r, a, fs, n, rest);
    FeedParsed(Receiver(rest, r.frames + fs), b, gs, m, (rest + b)[m..]);
    FeedWhole(r, a, b, buf, n, m, n + m, fs, gs, rest);
  }

  lemma FeedWhole(r: Receiver, a: seq<byte>, b: seq<byte>, buf: seq<byte>, n: nat, m: nat, k: nat, fs: seq<Frame>,
                  gs: seq<Frame>, rest: seq<byte>)
    requires buf == r.buf + a && n <= |buf| && rest == buf[n..] && m <= |rest + b| && k == n + m
    requires Parse(buf + b) == Frames(fs + gs, k)
    ensures Feed(r, a + b) == Receiver((rest + b)[m..], r.frames + fs + gs)
  {
    hide Parse, Feed;
    var chunk, end, all := a + b, (rest + b)[m..], fs + gs;
    Assoc(r.buf, a, b);
    Assoc(r.frames, fs, gs);
    DropTwice(buf, b, n, m, k);
    FeedParsed(r, chunk, all, k, end);
  }

  lemma Assoc<T>(x: seq<T>, y: seq<T>, z: seq<T>)
    ensures x + (y + z) == x + y + z
  {}

  lemma DropTwice(x: seq<byte>, y: seq<byte>, n: nat, m: nat, k: nat)
    requires n <= |x| && m <= |x[n..] + y| && k == n + m
    ensures (x + y)[k..] == (x[n..] + y)[m..]
  {
    assert x[n..] + y == (x + y)[n..];
  }

  lemma FeedParsed(r: Receiver, chunk: seq<byte>, frames: seq<Frame>, n: nat, rest: seq<byte>)
    requires Parse(r.buf + chunk) == Frames(frames, n) && rest == (r.buf + chunk)[n..]
    ensures Feed(r, chunk) == Receiver(rest, r.frames + frames)
  {}

  /** A stream that parses may be cut anywhere: the frames and the leftover are those of the whole. */
  lemma {:induction false} ChunksDoNotMatter(r: Receiver, chunks: seq<seq<byte>>)
    requires Incomplete(r.buf) && Parse(r.buf + Joined(chunks)).Frames?
    ensures FeedAll(r, chunks) == Feed(r, Joined(chunks))
    decreases chunks
  {
    if chunks == [] {
      assert r.buf + [] == r.buf && r.buf[0..] == r.buf && r.frames + [] == r.frames;
    } else {
      assert r.buf + chunks[0] + Joined(chunks[1..]) == r.buf + Joined(chunks);
      FeedFirst(r, chunks[0], Joined(chunks[1..]));
      FeedTwo(r, chunks[0], Joined(chunks[1..]));
      ChunksDoNotMatter(Feed(r, chunks[0]), chunks[1..]);
    }
  }

  // ---- Exactly which streams may be cut anywhere -------------------------------------------------------------

  ghost predicate CutAnywhere(stream: seq<byte>) {
    forall chunks :: Joined(chunks) == stream ==> FeedAll(Receiver([], []), chunks) == Feed(Receiver([], []), stream)
  }

  /** A header that does not decode, cut anywhere, is thrown away once complete. */
  lemma {:induction false} BrokenHeaderCut(r: Receiver, chunks: seq<seq<byte>>)
    requires |r.buf + Joined(chunks)| == HEADER_SIZE && |r.buf| < HEADER_SIZE
    requires HeadOf(r.buf + Joined(chunks)).Broken?
    ensures FeedAll(r, chunks) == Receiver([], r.frames)
    decreases chunks
  {
    var first, more := chunks[0], Joined(chunks[1..]);
    var buf := r.buf + first;
    assert r.buf + Joined(chunks) == buf + more;
    if more == [] {
      assert buf + more == buf;
      NothingMore(Feed(r, first), chunks[1..]);
    } else {
      assert buf[0..] == buf && r.frames + [] == r.frames;
      BrokenHeaderCut(Feed(r, first), chunks[1..]);
    }
  }

  lemma {:induction false} NothingMore(r: Receiver, chunks: seq<seq<byte>>)
    requires r.buf == [] && Joined(chunks) == []
    ensures FeedAll(r, chunks) == r
    decreases chunks
  {
    if chunks == [] {
    } else {
      assert chunks[0] == [] && r.buf + [] == [] && r.buf[0..] == [] && r.frames + [] == r.frames;
      NothingMore(r, chunks[1..]);
    }
  }

  /** Good frames in front of whatever breaks the stream. */
  lemma {:induction false} BreaksAt(buf: seq<byte>) returns (p: nat)
    requires Parse(buf).Bad?
    ensures p <= |buf| && HeadOf(buf[p..]).Broken? && |buf| - p >= HEADER_SIZE
    ensures Parse(buf[..p]).Frames? && Parse(buf[..p]).consumed == p
    ensures p > 0 ==> Parse(buf[..p]).frames != []
    decreases |buf|
  {
    if HeadOf(buf).Broken? {
      p := 0;
      assert buf[0..] == buf;
    } else {
      var f := HeadOf(buf).frame;
      var size := HEADER_SIZE + |f.payload|;
      var q := BreaksAt(buf[size..]);
      p := size + q;
      HeadPrints(buf);
      assert buf[size..][q..] == buf[p..] && buf[..p] == Encode(f) + buf[size..][..q];
      HeadOfPrinted(f, buf[size..][..q]);
    }
  }

  lemma TwoChunks(r: Receiver, a: seq<byte>, b: seq<byte>)
    ensures Joined([a, b]) == a + b && FeedAll(r, [a, b]) == Feed(Feed(r, a), b)
  {
    assert [a, b][1..] == [b] && [b][1..] == [];
    assert Joined([b]) == b + Joined([]) == b;
    var x := Feed(r, a);
    assert FeedAll(x, [b]) == FeedAll(Feed(x, b), []);
  }

  /**
   Chunk independence, exactly: a byte stream yields the same frames and the same leftover however it is cut if and
   only if all its headers decode, or it is one broken header and nothing else.
   */
  lemma CutAnywhereIff(stream: seq<byte>)
    ensures CutAnywhere(stream) <==> Parse(stream).Frames? || |stream| == HEADER_SIZE
  {
    var r := Receiver([], []);
    assert r.buf + stream == stream;
    if Parse(stream).Frames? {
      forall chunks | Joined(chunks) == stream
        ensures FeedAll(r, chunks) == Feed(r, stream)
      {
        ChunksDoNotMatter(r, chunks);
      }
    } else {
      var p := BreaksAt(stream);
      if |stream| == HEADER_SIZE {
        assert stream[0..] == stream;
        forall chunks | Joined(chunks) == stream
          ensures FeedAll(r, chunks) == Feed(r, stream)
        {
          BrokenHeaderCut(r, chunks);
        }
      } else {
        BadCut(stream, p);
      }
    }
  }

  /** Any other broken stream has a cut that shows: keep the good frames, or leave one byte behind. */
  lemma BadCut(stream: seq<byte>, p: nat)
    requires Parse(stream).Bad? && |stream| != HEADER_SIZE
    requires p <= |stream| && HeadOf(stream[p..]).Broken? && |stream| - p >= HEADER_SIZE
    requires Parse(stream[..p]).Frames? && Parse(stream[..p]).consumed == p
    requires p > 0 ==> Parse(stream[..p]).frames != []
    ensures !CutAnywhere(stream)
  {
    var r := Receiver([], []);
    var cut := if p > 0 then p else |stream| - 1;
    var a, b := stream[..cut], stream[cut..];
    TwoChunks(r, a, b);
    assert a + b == stream && r.buf + stream == stream && r.buf + a == a;
    assert Feed(r, stream) == r;
    if p > 0 {
      KeepsFrames(Feed(r, a), b);
      assert r.frames + Parse(a).frames == Parse(a).frames;
    } else {
      assert stream[p..] == stream;
      LeavesLastByte(r, stream, a, b);
    }
    hide Feed, Parse, HeadOf;
    assert FeedAll(r, [a, b]) != Feed(r, stream);
  }

  lemma KeepsFrames(r: Receiver, chunk: seq<byte>)
    ensures r.frames <= Feed(r, chunk).frames
  {}

  lemma LeavesLastByte(r: Receiver, stream: seq<byte>, a: seq<byte>, b: seq<byte>)
    requires r.buf == [] && stream == a + b && |b| == 1 && |stream| > HEADER_SIZE && HeadOf(stream).Broken?
    ensures Feed(Feed(r, a), b).buf == b
  {
    assert r.buf + a == a && a[..HEADER_SIZE] == stream[..HEADER_SIZE];
    assert HeadOf(a).Broken?;
    assert Feed(r, a) == r;
    assert r.buf + b == b && HeadOf(b).Partial? && b[0..] == b;
  }

  /** Ten zero bytes in one chunk leave nothing behind; as nine and one, the last byte stays in the buffer. */
  lemma CutThatShows()
    ensures var stream: seq<byte> := seq(10, _ => 0);
            Feed(Receiver([], []), stream) == Receiver([], [])
            && FeedAll(Receiver([], []), [stream[..9], stream[9..]]) == Receiver([0], [])
            && !CutAnywhere(stream)
  {
    var r: Receiver, stream: seq<byte> := Receiver([], []), seq(10, _ => 0);
    var a, b := stream[..9], stream[9..];
    assert r.buf + stream == stream && r.buf + a == a && r.buf + b == b && b == [0] && b[0..] == b;
    assert HeadOf(stream).Broken? && HeadOf(a).Broken? && HeadOf(b).Partial?;
    assert Feed(r, stream) == r && Feed(r, a) == r;
    assert r.frames + [] == r.frames;
    TwoChunks(r, a, b);
    CutAnywhereIff(stream);
  }

  // ---- What a broken header lets in --------------------------------------------------------------------------

  /** The printed form of `f` lies in the stream at `a`, after the first header. */
  predicate EmbeddedAt(stream: seq<byte>, f: Frame, a: nat) {
    HEADER_SIZE <= a && a + |Encode(f)| <= |stream| && stream[a..a + |Encode(f)|] == Encode(f)
  }

  ghost predicate Embedded(stream: seq<byte>, f: Frame) {
    GoodFrame(f) && exists a :: EmbeddedAt(stream, f, a)
  }

  /**
   A receiver that was fed the first `p` bytes: it holds the last of them, all of them only while the first header is
   incomplete, and has handed on nothing but frames that lie in the stream.
   */
  ghost predicate FedSoFar(stream: seq<byte>, r: Receiver, p: nat, start: nat) {
    && start <= p <= |stream| && r.buf == stream[start..p]
    && (if start == 0 then p < HEADER_SIZE else HEADER_SIZE <= start)
    && forall i :: 0 <= i < |r.frames| ==> Embedded(stream, r.frames[i])
  }

  lemma {:induction false} PrintedAreEmbedded(stream: seq<byte>, frames: seq<Frame>, start: nat)
    requires GoodFrames(frames) && HEADER_SIZE <= start && start + |EncodeAll(frames)| <= |stream|
    requires stream[start..start + |EncodeAll(frames)|] == EncodeAll(frames)
    ensures forall i :: 0 <= i < |frames| ==> Embedded(stream, frames[i])
    decreases frames
  {
    if frames != [] {
      var f, more := frames[0], frames[1..];
      var n, m := |Encode(f)|, |EncodeAll(more)|;
      var all, next := EncodeAll(frames), start + n;
      assert all[..n] == Encode(f) && all[n..] == EncodeAll(more);
      assert stream[start..next] == all[..n];
      assert stream[next..next + m] == all[n..];
      assert EmbeddedAt(stream, f, start);
      PrintedAreEmbedded(stream, more, next);
      hide Embedded, GoodFrame;
      assert forall i :: 0 < i < |frames| ==> frames[i] == more[i - 1];
    }
  }

  /** One more chunk of a stream that begins with a broken header, while that header is incomplete. */
  lemma FedFirst(stream: seq<byte>, r: Receiver, p: nat, q: nat) returns (start: nat)
    requires HeadOf(stream).Broken? && FedSoFar(stream, r, p, 0) && p <= q <= |stream|
    ensures FedSoFar(stream, Feed(r, stream[p..q]), q, start)
  {
    var buf := r.buf + stream[p..q];
    assert buf == stream[0..q];
    if q < HEADER_SIZE {
      start := 0;
      assert buf[0..] == buf && r.frames + [] == r.frames;
    } else {
      start := q;
      assert buf[..HEADER_SIZE] == stream[..HEADER_SIZE];
    }
    hide Embedded;
  }

  /** And after it. */
  lemma FedOn(stream: seq<byte>, r: Receiver, p: nat, start: nat, q: nat) returns (start': nat)
    requires start > 0 && FedSoFar(stream, r, p, start) && p <= q <= |stream|
    ensures FedSoFar(stream, Feed(r, stream[p..q]), q, start')
  {
    hide Embedded, Parse, EncodeAll, GoodFrames;
    var chunk := stream[p..q];
    var buf := r.buf + chunk;
    assert buf == stream[start..q];
    if Parse(buf).Bad? {
      start' := q;
    } else {
      var n, frames := Parse(buf).consumed, Parse(buf).frames;
      PrintOfParse(buf);
      start' := start + n;
      assert stream[start..start + |EncodeAll(frames)|] == buf[..n];
      PrintedAreEmbedded(stream, frames, start);
      assert buf[n..] == stream[start'..q];
      FeedParsed(r, chunk, frames, n, buf[n..]);
      hide Feed, Incomplete;
    }
  }

  lemma FedMore(stream: seq<byte>, r: Receiver, p: nat, start: nat, q: nat) returns (start': nat)
    requires HeadOf(stream).Broken? && FedSoFar(stream, r, p, start) && p <= q <= |stream|
    ensures FedSoFar(stream, Feed(r, stream[p..q]), q, start')
  {
    hide FedSoFar, Feed;
    if start == 0 {
      start' := FedFirst(stream, r, p, q);
    } else {
      start' := FedOn(stream, r, p, start, q);
    }
  }

  lemma {:induction false} FedAll(stream: seq<byte>, r: Receiver, p: nat, start: nat, chunks: seq<seq<byte>>)
    requires HeadOf(stream).Broken? && FedSoFar(stream, r, p, start) && Joined(chunks) == stream[p..]
    ensures forall i :: 0 <= i < |FeedAll(r, chunks).frames| ==> Embedded(stream, FeedAll(r, chunks).frames[i])
    decreases chunks
  {
    if chunks != [] {
      var q, more := p + |chunks[0]|, Joined(chunks[1..]);
      assert stream[p..] == chunks[0] + more;
      assert stream[p..q] == stream[p..][..|chunks[0]|] == chunks[0];
      assert stream[q..] == stream[p..][|chunks[0]|..] == more;
      var next := FedMore(stream, r, p, start, q);
      FedAll(stream, Feed(r, chunks[0]), q, next, chunks[1..]);
    }
  }

  /** A printed frame that arrives in one chunk is handed on. */
  lemma FeedPrinted(frames: seq<Frame>, f: Frame)
    requires GoodFrame(f)
    ensures Feed(Receiver([], frames), Encode(f)) == Receiver([], frames + [f])
  {
    HeadOfPrinted(f, []);
    assert [] + Encode(f) == Encode(f) && Encode(f) + [] == Encode(f);
    assert Parse([]) == Parsed.Frames([], 0);
  }

  lemma ThreeChunks(r: Receiver, a: seq<byte>, b: seq<byte>, c: seq<byte>)
    ensures Joined([a, b, c]) == a + b + c && FeedAll(r, [a, b, c]) == Feed(Feed(Feed(r, a), b), c)
  {
    assert [a, b, c][1..] == [b, c];
    TwoChunks(Feed(r, a), b, c);
    assert a + (b + c) == a + b + c;
  }

  /** The frame can be cut out: the broken header goes, the frame comes whole, the rest does not take it back. */
  lemma CutOut(stream: seq<byte>, f: Frame, a: nat) returns (chunks: seq<seq<byte>>)
    requires HeadOf(stream).Broken? && GoodFrame(f) && EmbeddedAt(stream, f, a)
    ensures Joined(chunks) == stream && f in FeedAll(Receiver([], []), chunks).frames
  {
    var r, b := Receiver([], []), a + |Encode(f)|;
    var head, tail := stream[..a], stream[b..];
    chunks := [head, Encode(f), tail];
    ThreeChunks(r, head, Encode(f), tail);
    assert head + Encode(f) + tail == stream;
    assert r.buf + head == head && head[..HEADER_SIZE] == stream[..HEADER_SIZE];
    assert HeadOf(head).Broken?;
    assert Feed(r, head) == r;
    FeedPrinted([], f);
    assert [] + [f] == [f];
    var last := Feed(Receiver([], [f]), tail);
    KeepsFrames(Receiver([], [f]), tail);
    assert last.frames[0] == f;
  }

  /** Some way of cutting the stream makes a receiver hand on the frame. */
  ghost predicate CanHandOn(stream: seq<byte>, f: Frame) {
    exists chunks :: Joined(chunks) == stream && f in FeedAll(Receiver([], []), chunks).frames
  }

  /**
   From a stream that begins with a broken header a receiver can be made to hand on a frame, by some way of cutting the
   stream, if and only if the frame's printed form lies in the stream somewhere after that header.
   */
  lemma BrokenLetsInIff(stream: seq<byte>, f: Frame)
    requires HeadOf(stream).Broken?
    ensures CanHandOn(stream, f) <==> Embedded(stream, f)
  {
    var r := Receiver([], []);
    forall chunks | Joined(chunks) == stream && f in FeedAll(r, chunks).frames ensures Embedded(stream, f) {
      assert stream[0..] == stream && r.buf == stream[0..0];
      FedAll(stream, r, 0, 0, chunks);
    }
    if Embedded(stream, f) {
      var a :| EmbeddedAt(stream, f, a);
      var chunks := CutOut(stream, f, a);
    }
  }
}
