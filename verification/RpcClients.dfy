/**
 Many clients of one server. Every client counts its request ids from 1; the server tells them apart by connection. Each
 connection has its own two streams; the receive buffers are the server's one map.
 */
module RpcClients {
  import opened Wrappers
  import opened Bytes
  import opened Frames
  import opened Streams
  import opened RpcServer
  import opened RpcClient
  import opened RpcSystem
  import opened RpcAnswers
  import opened RpcTheorems

  /** A connection: both ends but for the server's buffer, which is in the map while the connection is open. */
  datatype Peer = Peer(local: State, open: bool)

  datatype Net = Net(buffers: map<nat, seq<byte>>, peers: map<nat, Peer>)

  /** Connection numbers are not used twice. */
  datatype NetStep = Connect(conn: nat) | Close(conn: nat) | Within(conn: nat, step: Step)

  function FirstState(): State {
    State(1, map[], map[], map[], map[], [], [], [], [], [], [], [], [], {})
  }

  /** One connection as the two ends see it. */
  function View(m: Net, conn: nat): State
    requires conn in m.peers
  {
    var p := m.peers[conn];
    if p.open then p.local.(serverBuf := BufferOf(m.buffers, conn)) else p.local
  }

  /** The server's on_data for one connection, on the shared map. */
  ghost predicate Receives(m: Net, conn: nat, k: nat, m': Net)
    requires conn in m.peers
  {
    var local := m.peers[conn].local;
    && m.peers[conn].open && k <= |local.upStream|
    && var chunk := local.upStream[..k];
       var frames := Feed(Receiver(BufferOf(m.buffers, conn), []), chunk).frames;
       && m'.buffers == AfterEvent(m.buffers, Received(conn, chunk))
       && m'.peers == m.peers[conn := Peer(local.(upStream := local.upStream[k..],
                                                  serverInbox := local.serverInbox + frames), true)]
  }

  ghost predicate DoNet(w: World, m: Net, step: NetStep, m': Net) {
    match step
    case Connect(conn) =>
      conn !in m.peers && m' == Net(AfterEvent(m.buffers, Connected(conn)), m.peers[conn := Peer(FirstState(), true)])
    case Close(conn) =>
      && conn in m.peers && m.peers[conn].open
      && m' == Net(AfterEvent(m.buffers, Disconnected(conn)), m.peers[conn := Peer(View(m, conn), false)])
    case Within(conn, inner) =>
      && conn in m.peers
      && if inner.ServerReceives? then Receives(m, conn, inner.k, m') else Elsewhere(w, m, conn, inner, m')
  }

  /** Any other step leaves the map alone. */
  ghost predicate Elsewhere(w: World, m: Net, conn: nat, inner: Step, m': Net)
    requires conn in m.peers
  {
    && m'.buffers == m.buffers && conn in m'.peers
    && m'.peers == m.peers[conn := m'.peers[conn]] && m'.peers[conn].open == m.peers[conn].open
    && Do(w, m.peers[conn].local, inner, m'.peers[conn].local)
  }

  ghost predicate NextNet(w: World, m: Net, m': Net) {
    exists step :: DoNet(w, m, step, m')
  }

  ghost predicate NetStepAt(w: World, run: seq<Net>, i: nat) {
    0 < i < |run| && NextNet(w, run[i - 1], run[i])
  }

  ghost predicate NetRun(w: World, run: seq<Net>) {
    && |run| > 0 && run[0] == Net(map[], map[])
    && forall i :: 0 < i < |run| ==> NetStepAt(w, run, i)
  }

  /** The state is reached by some run of one client. */
  ghost predicate Reached(w: World, s: State) {
    exists run :: |run| > 0 && Steps(w, run) && run[|run| - 1] == s
  }

  // ---- One connection does not see the others ----------------------------------------------------------------

  /** What the server's buffer holds matters to no step but the server's receiving. */
  lemma BufferIsApart(w: World, s: State, step: Step, s': State, buf: seq<byte>)
    requires Do(w, s, step, s') && !step.ServerReceives?
    ensures Do(w, s.(serverBuf := buf), step, s'.(serverBuf := buf))
  {
    hide Feed, HandleFrame, Complete, Encode, RequestFrame, Fits, ReplyBytes, PollOutcome;
  }

  lemma FeedHandsOn(buf: seq<byte>, inbox: seq<Frame>, chunk: seq<byte>)
    ensures var r := Feed(Receiver(buf, []), chunk);
            Feed(Receiver(buf, inbox), chunk) == Receiver(r.buf, inbox + r.frames)
  {
    hide Parse;
    if Parse(buf + chunk).Frames? {
      assert [] + Parse(buf + chunk).frames == Parse(buf + chunk).frames;
    } else {
      assert inbox + [] == inbox;
    }
  }

  lemma ViewReceives(w: World, m: Net, conn: nat, k: nat, m': Net)
    requires conn in m.peers && Receives(m, conn, k, m')
    ensures conn in m'.peers && Do(w, View(m, conn), ServerReceives(k), View(m', conn))
  {
    var s := View(m, conn);
    FeedHandsOn(s.serverBuf, s.serverInbox, s.upStream[..k]);
    hide Feed;
  }

  lemma ViewElsewhere(w: World, m: Net, conn: nat, inner: Step, m': Net)
    requires conn in m.peers && !inner.ServerReceives? && Elsewhere(w, m, conn, inner, m')
    ensures conn in m'.peers && Do(w, View(m, conn), inner, View(m', conn))
  {
    if m.peers[conn].open {
      BufferIsApart(w, m.peers[conn].local, inner, m'.peers[conn].local, BufferOf(m.buffers, conn));
    }
    hide Do;
  }

  /** Whatever happens on one connection, every other stays as it is. */
  lemma OthersStay(w: World, m: Net, step: NetStep, m': Net, conn: nat)
    requires DoNet(w, m, step, m') && conn in m.peers && conn != step.conn
    ensures conn in m'.peers && View(m', conn) == View(m, conn)
  {
    hide Do, Feed;
  }

  /** A step of the net is for each connection a step of its own, or its opening, or nothing. */
  lemma ViewSteps(w: World, m: Net, step: NetStep, m': Net, conn: nat)
    requires DoNet(w, m, step, m') && conn in m'.peers
    ensures if conn !in m.peers then View(m', conn) == FirstState()
            else View(m', conn) == View(m, conn) || Next(w, View(m, conn), View(m', conn))
  {
    hide Do, Feed;
    if conn in m.peers && conn != step.conn {
      OthersStay(w, m, step, m', conn);
    } else if step.Within? {
      if step.step.ServerReceives? {
        ViewReceives(w, m, conn, step.step.k, m');
      } else {
        ViewElsewhere(w, m, conn, step.step, m');
      }
    }
  }

  lemma ReachedFirst(w: World)
    ensures Reached(w, FirstState())
  {
    var run := [FirstState()];
    assert Steps(w, run) && run[|run| - 1] == FirstState();
  }

  lemma ReachedNext(w: World, s: State, s': State)
    requires Reached(w, s) && Next(w, s, s')
    ensures Reached(w, s')
  {
    hide Do, Steps;
    var run :| |run| > 0 && Steps(w, run) && run[|run| - 1] == s;
    var step :| Do(w, s, step, s');
    var more := Lengthen(w, run, step, s');
  }

  /** At every moment every connection is in a state that a lone client and server reach. */
  lemma {:induction false} EveryViewIsReached(w: World, run: seq<Net>, i: nat, conn: nat)
    requires NetRun(w, run) && i < |run| && conn in run[i].peers
    ensures Reached(w, View(run[i], conn))
  {
    hide DoNet, Reached, View, Next;
    if i > 0 {
      var p := i - 1;
      assert NetStepAt(w, run, i);
      var step :| DoNet(w, run[p], step, run[i]);
      ViewSteps(w, run[p], step, run[i], conn);
      if conn in run[p].peers {
        EveryViewIsReached(w, run, p, conn);
        if View(run[i], conn) != View(run[p], conn) {
          ReachedNext(w, View(run[p], conn), View(run[i], conn));
        }
      } else {
        ReachedFirst(w);
      }
    }
  }

  /**
   End to end for many clients: whatever the others do, a call on a connection returns what the dispatch of its own
   service, method and arguments gave, or a failure that says so. Asked: that the replies sent on that connection fit.
   */
  lemma EveryClientGetsItsOwnAnswers(w: World, run: seq<Net>, i: nat, conn: nat, id: nat)
    requires NetRun(w, run) && i < |run| && conn in run[i].peers
    requires var s := View(run[i], conn); RepliesFit(w, s) && id in s.returned
    ensures var s := View(run[i], conn);
            && id in s.calls
            && var c, services := s.calls[id], w.env.services;
               match s.returned[id]
               case Ok(v) =>
                 && c.service in services && services[c.service](id, c.service, c.method_, c.args) == Ok(v)
                 && DispatchedOnce(s, id)
               case Err(e) =>
                 || (e == Unavailable && id !in s.sent) || (e == DeadlineExceeded && id in s.sent)
                 || (&& DispatchedOnce(s, id)
                     && if c.service in services
                        then services[c.service](id, c.service, c.method_, c.args).Err?
                             && ReadsAs(w, services[c.service](id, c.service, c.method_, c.args).error, e)
                        else ReadsAs(w, ServiceNotFound(c.service), e))
  {
    hide RepliesFit, ReadsAs, DispatchedOnce, Steps, View;
    EveryViewIsReached(w, run, i, conn);
    var s := View(run[i], conn);
    var lone :| |lone| > 0 && Steps(w, lone) && lone[|lone| - 1] == s;
    EveryCallGetsItsOwnAnswer(w, lone, |lone| - 1, id);
  }
}
