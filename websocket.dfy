/** One websocket session of pkg/easyhttp/websocket.go: its closed and
    done flags, its bounded inbound queue, and the sequential effect of
    its reader, its heartbeat, Send and Close. */
module WebSocket {
  import opened Types
  import opened Primitives

  /** What one ReadMessage call returns: a message, or an error (which
      includes the remote end closing). */
  datatype ReadOutcome = Got(message: Message) | ReadError

  // ---------------------------------------------------------------------
  // Specification of the reader
  // ---------------------------------------------------------------------

  /** The messages read before the first read error. */
  function FramesBeforeError(inbound: seq<ReadOutcome>): seq<Message>
  {
    if inbound == [] || inbound[0].ReadError? then []
    else [inbound[0].message] + FramesBeforeError(inbound[1..])
  }

  predicate AllFrames(inbound: seq<ReadOutcome>) {
    forall j :: 0 <= j < |inbound| ==> inbound[j].Got?
  }

  lemma {:induction false} FramesBeforeErrorAppend(inbound: seq<ReadOutcome>, r: ReadOutcome)
    requires AllFrames(inbound) && r.Got?
    ensures FramesBeforeError(inbound + [r]) == FramesBeforeError(inbound) + [r.message]
    decreases |inbound|
  {
    if inbound == [] {
      assert FramesBeforeError([r]) == [r.message] + FramesBeforeError([]);
    } else {
      var rest := inbound[1..];
      assert (inbound + [r])[0] == inbound[0] && inbound[0].Got?;
      assert (inbound + [r])[1..] == rest + [r];
      assert AllFrames(rest) by {
        forall j | 0 <= j < |rest| ensures rest[j].Got? {
          assert rest[j] == inbound[j + 1];
        }
      }
      FramesBeforeErrorAppend(rest, r);
    }
  }

  /** A read error after a run of frames ends the reader: what follows it
      is never read. */
  lemma {:induction false} FramesBeforeErrorStops(inbound: seq<ReadOutcome>, i: nat)
    requires i < |inbound| && AllFrames(inbound[..i]) && inbound[i].ReadError?
    ensures FramesBeforeError(inbound) == FramesBeforeError(inbound[..i])
    decreases i
  {
    if i > 0 {
      assert inbound[..i][0] == inbound[0];
      assert inbound[..i][1..] == inbound[1..][..i - 1];
      FramesBeforeErrorStops(inbound[1..], i - 1);
    }
  }

  function Min(a: int, b: int): int { if a < b then a else b }

  /** The queue after the reader offers each incoming message in turn: a
      message is appended when the queue has room and dropped otherwise. */
  function Delivered(queue: seq<Message>, incoming: seq<Message>, capacity: nat): seq<Message>
  {
    if incoming == [] then queue
    else
      var q := Delivered(queue, incoming[..|incoming| - 1], capacity);
      if |q| < capacity then q + [incoming[|incoming| - 1]] else q
  }

  /** Delivery is FIFO and drops the newest: the queue keeps what it held
      and gains the first messages that fit, in arrival order; later ones
      are dropped, and the queue never exceeds its capacity. */
  lemma {:induction false} DeliveredFillsThenDrops(queue: seq<Message>, incoming: seq<Message>, capacity: nat)
    requires |queue| <= capacity
    ensures Delivered(queue, incoming, capacity) == queue + incoming[..Min(capacity - |queue|, |incoming|)]
    ensures |Delivered(queue, incoming, capacity)| <= capacity
    decreases |incoming|
  {
    if incoming != [] {
      var init := incoming[..|incoming| - 1];
      DeliveredFillsThenDrops(queue, init, capacity);
      var n := Min(capacity - |queue|, |init|);
      assert init[..n] == incoming[..n];
      if |queue| + n < capacity {
        assert n == |init|;
        assert incoming[..n + 1] == init + [incoming[|incoming| - 1]];
      }
    }
  }

  /** The number of pings the heartbeat writes for the given write
      results: one per tick up to and including the first failed write. */
  function PingsSent(outcomes: seq<Option<Error>>): nat
  {
    if outcomes == [] then 0
    else if outcomes[0].Some? then 1
    else 1 + PingsSent(outcomes[1..])
  }

  function Pings(n: nat): seq<Frame> {
    seq(n, _ => Ping)
  }

  // ---------------------------------------------------------------------
  // The session
  // ---------------------------------------------------------------------

  class WebSocketClient {
    const conn: Conn
    /** The inbound channel; nil once the session is closed. */
    var messages: MessageQueue?
    /** The done channel has been closed. */
    var done: bool
    var closed: bool
    /** The channel made when the session was created; consumers that
        obtained it keep it after `messages` is set to nil. */
    ghost const queue: MessageQueue

    /** Open: the channel is the live queue and the connection is open.
        Closed: done is signalled, the channel is closed and dropped, and
        the connection was closed exactly once. */
    ghost predicate Valid()
      reads this, conn, queue
    {
      && queue.Valid()
      && done == closed
      && conn.open == !closed
      && conn.closes == (if closed then 1 else 0)
      && (!closed ==> messages == queue && !queue.isClosed)
      && (closed ==> messages == null && queue.isClosed)
    }

    /** The session newWebSocket builds around a fresh connection. */
    constructor (conn: Conn, bufferSize: nat)
      requires conn.open && conn.closes == 0
      ensures Valid() && this.conn == conn && fresh(queue)
      ensures !closed && queue.capacity == bufferSize && queue.buf == []
    {
      this.conn := conn;
      var q := new MessageQueue(bufferSize);
      messages := q;
      queue := q;
      done := false;
      closed := false;
    }

    /** The receive-only channel handed to consumers: the live queue while
        the session is open, nil once it is closed (a receive on a nil
        channel blocks forever). */
    function Messages(): (m: MessageQueue?)
      requires Valid()
      reads this, conn, queue
      ensures m == if closed then null else queue
    {
      messages
    }

    /** Writes a message as JSON, unless the session is closed. */
    method Send(msg: Payload, writeOutcome: Option<Error>) returns (err: Option<Error>)
      requires Valid()
      modifies conn
      ensures Valid()
      ensures closed ==> err == Some(ConnectionClosed) && conn.written == old(conn.written)
      ensures !closed ==> err == writeOutcome && conn.written == old(conn.written) + [Json(msg)]
    {
      if closed {
        return Some(ConnectionClosed);
      }
      err := conn.Write(Json(msg), writeOutcome);
    }

    /** The first call flips closed and done, closes and drops the inbound
        channel, and closes the connection; every later call returns nil
        and changes nothing. */
    method Close(connCloseOutcome: Option<Error>) returns (err: Option<Error>)
      requires Valid()
      modifies this, conn, queue
      ensures Valid() && closed && done && messages == null
      ensures old(closed) ==> err == None && unchanged(this, conn, queue)
      ensures !old(closed) ==> err == connCloseOutcome && conn.closes == 1
      ensures conn.written == old(conn.written) && queue.buf == old(queue.buf)
    {
      if closed {
        return None;
      }
      closed := true;
      done := true;
      // Both background loops have returned here (wg.Wait).
      if messages != null {
        messages.Close();
        messages := null;
      }
      err := conn.Close(connCloseOutcome);
    }

    /** The reader: until the done signal or a read error, each message read
        is offered to the inbound queue without blocking. `inbound` are the
        results of successive ReadMessage calls; when they run out without
        an error the reader is still waiting for the next one (`running`).
        On exit the deferred Close runs, its error discarded. */
    method ReadLoop(inbound: seq<ReadOutcome>, closeOutcome: Option<Error>) returns (running: bool)
      requires Valid()
      modifies this, conn, queue
      ensures Valid() && conn.written == old(conn.written)
      ensures old(closed) ==> !running && unchanged(this, conn, queue)
      ensures !old(closed) ==> queue.buf == Delivered(old(queue.buf), FramesBeforeError(inbound), queue.capacity)
      ensures !old(closed) ==> (running <==> AllFrames(inbound))
      ensures closed == !running
    {
      running := true;
      var i := 0;
      while running && (done || i < |inbound|)
        invariant 0 <= i <= |inbound|
        invariant Valid() && closed == old(closed) && unchanged(conn)
        invariant old(closed) ==> unchanged(this, queue)
        invariant !old(closed) ==> AllFrames(inbound[..i])
        invariant !old(closed) ==> queue.buf == Delivered(old(queue.buf), FramesBeforeError(inbound[..i]), queue.capacity)
        invariant !running ==> (old(closed) || (i < |inbound| && inbound[i].ReadError?))
        decreases |inbound| - i, running
      {
        if done {
          running := false;
        } else {
          match inbound[i]
          case ReadError =>
            running := false;
          case Got(m) =>
            var _ := messages.TrySend(m);
            assert inbound[..i + 1] == inbound[..i] + [inbound[i]];
            FramesBeforeErrorAppend(inbound[..i], inbound[i]);
            i := i + 1;
        }
      }
      if !old(closed) {
        if running {
          assert inbound[..i] == inbound;
        } else {
          FramesBeforeErrorStops(inbound, i);
        }
      }
      if !running {
        var _ := Close(closeOutcome);
      }
    }

    /** The heartbeat: on each tick, a closed session ends it without a
        write; otherwise a ping is written and a failed write ends it.
        `outcomes` are the results of successive ping writes. */
    method PingLoop(outcomes: seq<Option<Error>>) returns (running: bool)
      requires Valid()
      modifies conn
      ensures Valid()
      ensures closed ==> !running && conn.written == old(conn.written)
      ensures !closed ==> conn.written == old(conn.written) + Pings(PingsSent(outcomes))
      ensures !closed ==> (running <==> forall j :: 0 <= j < |outcomes| ==> outcomes[j] == None)
    {
      running := true;
      var i := 0;
      while running && (closed || i < |outcomes|)
        invariant 0 <= i <= |outcomes|
        invariant Valid()
        invariant closed ==> i == 0 && conn.written == old(conn.written)
        invariant !closed ==> conn.written == old(conn.written) + Pings(i)
        invariant !closed && running ==> PingsSent(outcomes) == i + PingsSent(outcomes[i..])
        invariant !closed && running ==> forall j :: 0 <= j < i ==> outcomes[j] == None
        invariant !closed && !running ==> PingsSent(outcomes) == i && 0 < i && outcomes[i - 1].Some?
        decreases |outcomes| - i, running
      {
        if closed {
          running := false;
        } else {
          assert outcomes[i..][1..] == outcomes[i + 1..];
          var err := conn.Write(Ping, outcomes[i]);
          assert Pings(i + 1) == Pings(i) + [Ping];
          i := i + 1;
          if err.Some? {
            running := false;
          }
        }
      }
      if !closed && running {
        assert outcomes[i..] == [];
      }
    }
  }
}
