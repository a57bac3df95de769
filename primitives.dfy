/** Stand-ins for the objects the core uses but does not implement: the
    weighted semaphore (golang.org/x/sync/semaphore), the HTTP engine
    (imroc/req), the websocket connection (gorilla/websocket) and a Go
    buffered channel. Each keeps only the state the core's effects can be
    stated over; every answer of the outside world is a parameter. */
module Primitives {
  import opened Types
  import opened Gateway

  /** A counting semaphore used one permit at a time. The ghost counters
      record how many permits were ever taken and given back. */
  class Semaphore {
    const size: int
    var cur: nat
    ghost var acquires: nat
    ghost var releases: nat

    ghost predicate Valid()
      reads this
    {
      && cur == acquires - releases
      && (cur == 0 || cur <= size)
    }

    constructor (n: int)
      ensures Valid() && size == n
      ensures cur == 0 && acquires == 0 && releases == 0
    {
      size := n;
      cur := 0;
      acquires := 0;
      releases := 0;
    }

    /** Acquire(ctx, 1). `granted` says whether a permit became free before
        the context ended; a permit is granted only while one is free. */
    method Acquire(granted: bool) returns (err: Option<Error>)
      requires Valid()
      requires granted ==> cur < size
      modifies this
      ensures Valid() && releases == old(releases)
      ensures granted ==> err == None && cur == old(cur) + 1 && acquires == old(acquires) + 1
      ensures !granted ==> err == Some(ContextDone) && cur == old(cur) && acquires == old(acquires)
    {
      if granted {
        cur := cur + 1;
        acquires := acquires + 1;
        err := None;
      } else {
        err := Some(ContextDone);
      }
    }

    /** Release(1); releasing a permit that is not held panics. */
    method Release()
      requires Valid() && cur >= 1
      modifies this
      ensures Valid() && acquires == old(acquires)
      ensures cur == old(cur) - 1 && releases == old(releases) + 1
    {
      cur := cur - 1;
      releases := releases + 1;
    }
  }

  /** The configured HTTP engine; `sent` lists the requests issued to it.
      `gate` is the semaphore that guards it and `held` records, for each
      issued request, how many of its permits were taken at that moment. */
  class Engine {
    const profile: Profile
    const proxy: Option<string>
    ghost const gate: Semaphore
    var sent: seq<HttpRequest>
    ghost var held: seq<nat>

    constructor (profile: Profile, proxy: Option<string>, ghost gate: Semaphore)
      ensures this.profile == profile && this.proxy == proxy && this.gate == gate
      ensures sent == [] && held == []
    {
      this.profile := profile;
      this.proxy := proxy;
      this.gate := gate;
      sent := [];
      held := [];
    }

    method Issue(request: HttpRequest)
      modifies this
      ensures sent == old(sent) + [request]
      ensures held == old(held) + [gate.cur]
    {
      sent := sent + [request];
      held := held + [gate.cur];
    }
  }

  newtype byte = b: int | 0 <= b < 256

  type Message = seq<byte>

  /** A frame written to a websocket connection. */
  datatype Frame = Ping | Json(body: Payload)

  /** A dialed websocket connection: what it was dialed with, whether it is
      open, every frame written to it, and how often it was closed. */
  class Conn {
    const url: string
    const header: map<string, seq<string>>
    const compression: bool
    const proxy: Option<string>
    var open: bool
    var written: seq<Frame>
    var closes: nat

    constructor Dial(url: string, header: map<string, seq<string>>, compression: bool, proxy: Option<string>)
      ensures this.url == url && this.header == header
      ensures this.compression == compression && this.proxy == proxy
      ensures open && written == [] && closes == 0
    {
      this.url := url;
      this.header := header;
      this.compression := compression;
      this.proxy := proxy;
      open := true;
      written := [];
      closes := 0;
    }

    /** Writes one frame; `outcome` is the error the network reports. */
    method Write(f: Frame, outcome: Option<Error>) returns (err: Option<Error>)
      modifies this
      ensures written == old(written) + [f] && err == outcome
      ensures open == old(open) && closes == old(closes)
    {
      written := written + [f];
      err := outcome;
    }

    /** Closes the connection; `outcome` is the error the network reports. */
    method Close(outcome: Option<Error>) returns (err: Option<Error>)
      modifies this
      ensures !open && closes == old(closes) + 1
      ensures written == old(written) && err == outcome
    {
      open := false;
      closes := closes + 1;
      err := outcome;
    }
  }

  /** What a receive from a channel yields. */
  datatype Received = Item(message: Message) | EndOfStream | WouldBlock

  /** A Go channel of messages with a fixed buffer capacity. */
  class MessageQueue {
    const capacity: nat
    var buf: seq<Message>
    var isClosed: bool

    ghost predicate Valid()
      reads this
    {
      |buf| <= capacity
    }

    constructor (capacity: nat)
      ensures Valid() && this.capacity == capacity && buf == [] && !isClosed
    {
      this.capacity := capacity;
      buf := [];
      isClosed := false;
    }

    /** A send inside a select with a default case: it never blocks, and a
        full buffer leaves the message out. Sending on a closed channel
        panics, so the channel must be open. */
    method TrySend(m: Message) returns (sent: bool)
      requires Valid() && !isClosed
      modifies this
      ensures Valid() && isClosed == old(isClosed)
      ensures sent <==> |old(buf)| < capacity
      ensures buf == if sent then old(buf) + [m] else old(buf)
    {
      sent := |buf| < capacity;
      if sent {
        buf := buf + [m];
      }
    }

    /** close(ch); closing a closed channel panics. Buffered messages stay
        receivable. */
    method Close()
      requires !isClosed
      modifies this
      ensures isClosed && buf == old(buf)
    {
      isClosed := true;
    }

    /** A receive: the oldest buffered message first; once the buffer is
        empty, end of stream on a closed channel and a wait on an open one. */
    method Receive() returns (r: Received)
      requires Valid()
      modifies this
      ensures Valid() && isClosed == old(isClosed)
      ensures old(buf) != [] ==> r == Item(old(buf)[0]) && buf == old(buf)[1..]
      ensures old(buf) == [] ==> buf == [] && r == (if isClosed then EndOfStream else WouldBlock)
    {
      if buf != [] {
        r := Item(buf[0]);
        buf := buf[1..];
      } else if isClosed {
        r := EndOfStream;
      } else {
        r := WouldBlock;
      }
    }
  }
}
