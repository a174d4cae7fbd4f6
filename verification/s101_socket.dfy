/**
 * The S101 socket session: one connection, its status, its keepalive timer
 * and the events it emits.
 *
 * The socket, the S101 codec, the BER tree decoder and the timers are
 * modelled abstractly. The socket is a `Peer` value (its address, its port
 * and whether its `write` throws); what the session asks of it is the log
 * `socketCalls`. The codec is a value holding `encodeBER` as an opaque
 * function and the two fixed keepalive frames. Timers are handles: the
 * keepalive interval is armed while its handle is in `runningIntervals`.
 * Emitted events are appended to `events`.
 */
module S101Session {
  import opened Wrappers

  type Byte = bv8
  type Bytes = seq<Byte>

  /** The session status. The source keeps it as the string 'connected' or 'disconnected'. */
  datatype Status = Connected | Disconnected

  /** An error object carried by an 'error' event or a rejection. */
  datatype Error = Error(message: string)

  /** The events the session can emit. 'connecting' and 'connected' are declared but never emitted. */
  datatype Event<T> =
    | EmberPacket(packet: Bytes)
    | EmberTree(root: T)
    | ErrorEvent(error: Error)
    | ConnectingEvent
    | ConnectedEvent
    | DisconnectedEvent

  /** A call made on the socket. */
  datatype SocketCall = Write(frame: Bytes) | End

  /** The connected socket: its remote address and port, and whether its `write` throws. */
  datatype Peer = Peer(remoteAddress: string, remotePort: nat, writeThrows: bool)

  /** The outcome of `codec.encodeBER`: the frames to write, or an exception. */
  datatype Encoded = Frames(frames: seq<Bytes>) | EncodeThrows(error: Error)

  /** The outcome of `berDecode`: a root (null/undefined when absent), or an exception. */
  datatype Decoded<T> = Root(root: Option<T>) | DecodeThrows(error: Error)

  /** The S101 codec as the session uses it. */
  datatype Codec = Codec(encodeBER: Bytes -> Encoded, keepAliveRequest: Bytes, keepAliveResponse: Bytes)

  /** An entry of `pendingRequests`; nothing in the session creates one. */
  datatype Request = Request(payload: Bytes)

  /** The `timeout` argument of `disconnect`: left out (default 2), `null`, `NaN`, or a number of seconds. */
  datatype TimeoutArg = Omitted | Null | NotANumber | Seconds(value: real)

  /** How a promise settled. */
  datatype Settlement = Resolved | Rejected(error: Error)

  /**
   * Whether `disconnect` arms its guard timer: `timeout != null && !isNaN(timeout) && timeout > 0`.
   * An omitted timeout takes the default of 2 seconds and so arms it.
   */
  predicate ArmsTimer(timeout: TimeoutArg)
  {
    match timeout
    case Omitted => 2.0 > 0.0
    case Null => false
    case NotANumber => false
    case Seconds(x) => x > 0.0
  }

  /** The socket calls that write `frames`, in order. */
  function Writes(frames: seq<Bytes>): seq<SocketCall>
  {
    seq(|frames|, i requires 0 <= i < |frames| => Write(frames[i]))
  }

  /** Writing two lists of frames one after the other is writing their concatenation. */
  lemma WritesConcat(a: seq<Bytes>, b: seq<Bytes>)
    ensures Writes(a + b) == Writes(a) + Writes(b)
  {
    var l, r := Writes(a + b), Writes(a) + Writes(b);
    assert |l| == |r|;
    forall i | 0 <= i < |l| ensures l[i] == r[i] {
      if i < |a| {
        assert (a + b)[i] == a[i];
      } else {
        assert (a + b)[i] == b[i - |a|];
      }
    }
  }

  /** The running intervals once `clearInterval(timer)` has run (nothing when `timer` is unset). */
  function Cleared(running: set<nat>, timer: Option<nat>): set<nat>
  {
    if timer.Some? then running - {timer.value} else running
  }

  // ---------------------------------------------------------------------
  // Rendering a port number

  function DigitChar(d: nat): (c: char)
    requires d < 10
  {
    ('0' as int + d) as char
  }

  predicate IsDigit(c: char) { '0' <= c <= '9' }

  /** The decimal text of `n`, as a template string renders a number: no leading zero. */
  function Decimal(n: nat): (s: string)
    ensures |s| >= 1
    ensures forall i :: 0 <= i < |s| ==> IsDigit(s[i])
    ensures n >= 10 ==> s[0] != '0'
    decreases n
  {
    if n < 10 then [DigitChar(n)] else Decimal(n / 10) + [DigitChar(n % 10)]
  }

  /** The number a string of decimal digits denotes. */
  function DigitsValue(s: string): nat
    requires forall i :: 0 <= i < |s| ==> IsDigit(s[i])
  {
    if s == [] then 0
    else
      assert IsDigit(s[|s| - 1]);
      DigitsValue(s[..|s| - 1]) * 10 + (s[|s| - 1] as int - '0' as int)
  }

  /** The decimal text reads back as the number. */
  lemma {:induction false} DecimalRoundTrip(n: nat)
    ensures DigitsValue(Decimal(n)) == n
    decreases n
  {
    if n >= 10 {
      DecimalRoundTrip(n / 10);
      var s := Decimal(n);
      assert s[..|s| - 1] == Decimal(n / 10);
    }
  }

  // ---------------------------------------------------------------------
  // The promise returned by disconnect

  /**
   * The promise `disconnect` returns, with the state of its executor: the
   * `done` guard, the guard timer and how the promise settled. `completions`
   * counts the runs of the callback that got past the guard.
   */
  class DisconnectPromise {
    /** False for the promise returned without touching the socket. */
    const endRequested: bool
    var done: bool
    var timerArmed: bool
    var settled: Option<Settlement>
    var completions: nat

    ghost predicate Valid()
      reads this
    {
      && completions <= 1
      && (done <==> completions == 1)
      && (timerArmed ==> !done)
      && (endRequested ==> (done <==> settled.Some?))
      && (!endRequested ==> settled == Some(Resolved) && !done && !timerArmed)
    }

    /** `Promise.resolve()` */
    constructor AlreadyResolved()
      ensures Valid()
      ensures !endRequested && settled == Some(Resolved) && !timerArmed && completions == 0
    {
      endRequested := false;
      done := false;
      timerArmed := false;
      settled := Some(Resolved);
      completions := 0;
    }

    /** The executor after `socket.end(cb)`: nothing has completed yet. */
    constructor AwaitingEnd(armTimer: bool)
      ensures Valid()
      ensures endRequested && !done && settled == None && timerArmed == armTimer && completions == 0
    {
      endRequested := true;
      done := false;
      timerArmed := armTimer;
      settled := None;
      completions := 0;
    }

    /** The callback `cb(_data, error)`: past the `done` guard only once; it clears the timer and settles. */
    method Complete(data: Option<Error>, error: Option<Error>)
      requires Valid() && endRequested
      modifies this
      ensures Valid()
      ensures old(done) ==> done && timerArmed == old(timerArmed) && settled == old(settled) && completions == old(completions)
      ensures !old(done) ==> done && !timerArmed && completions == 1
      ensures !old(done) ==> settled == Some(if error.None? then Resolved else Rejected(error.value))
    {
      if done {
        return;
      }
      done := true;
      completions := completions + 1;
      if timerArmed {
        timerArmed := false;
      }
      if error.None? {
        settled := Some(Resolved);
      } else {
        settled := Some(Rejected(error.value));
      }
    }

    /**
     * `socket.end(cb)` finishing: the socket passes at most an error as the
     * FIRST argument, which `cb` takes as `_data`, so the promise resolves.
     */
    method EndFinished(endError: Option<Error>)
      requires Valid() && endRequested
      modifies this
      ensures Valid() && done && completions == 1 && !timerArmed
      ensures settled == if old(done) then old(settled) else Some(Resolved)
    {
      Complete(endError, None);
    }

    /** The guard timer firing: `setTimeout(cb, ...)` calls `cb()` with no arguments, so the promise resolves. */
    method TimerFires()
      requires Valid() && timerArmed
      modifies this
      ensures Valid() && done && completions == 1 && !timerArmed
      ensures settled == Some(Resolved)
    {
      Complete(None, None);
    }
  }

  // ---------------------------------------------------------------------
  // The session

  /** `S101Socket` */
  class S101Socket<T> {
    var socket: Option<Peer>
    /** The socket given to the constructor: `_initSocket` bound the close, error and data handlers to it. */
    const boundSocket: Option<Peer>
    var status: Status
    var keepaliveInterval: nat
    var keepaliveIntervalTimer: Option<nat>
    var runningIntervals: set<nat>
    var nextTimerHandle: nat
    var pendingRequests: seq<Request>
    var activeRequest: Option<Request>
    var events: seq<Event<T>>
    var socketCalls: seq<SocketCall>
    const codec: Codec
    const berDecode: Bytes -> Decoded<T>

    ghost predicate Valid()
      reads this
    {
      && (status == Connected ==> socket.Some?)
      && (socket.Some? ==> socket == boundSocket)
      && (forall h :: h in runningIntervals ==> h < nextTimerHandle)
      && (keepaliveIntervalTimer.Some? ==> keepaliveIntervalTimer.value < nextTimerHandle)
      && (forall i :: 0 <= i < |events| ==> !events[i].ConnectingEvent? && !events[i].ConnectedEvent?)
      && pendingRequests == [] && activeRequest == None
    }

    /** What `handleClose` leaves behind, relative to the state before it. */
    twostate predicate HandledClose()
      reads this
    {
      && socket == None
      && status == Disconnected
      && events == old(events) + [DisconnectedEvent]
      && keepaliveIntervalTimer == old(keepaliveIntervalTimer)
      && runningIntervals == Cleared(old(runningIntervals), old(keepaliveIntervalTimer))
      && nextTimerHandle == old(nextTimerHandle)
      && socketCalls == old(socketCalls)
      && keepaliveInterval == old(keepaliveInterval)
      && pendingRequests == old(pendingRequests) && activeRequest == old(activeRequest)
    }

    /** The effect of writes that succeed: `calls` are sent on the socket and nothing else changes. */
    twostate predicate OnlyWrote(calls: seq<SocketCall>)
      reads this
    {
      && socketCalls == old(socketCalls) + calls
      && socket == old(socket) && status == old(status) && events == old(events)
      && keepaliveIntervalTimer == old(keepaliveIntervalTimer)
      && runningIntervals == old(runningIntervals) && nextTimerHandle == old(nextTimerHandle)
      && keepaliveInterval == old(keepaliveInterval)
      && pendingRequests == old(pendingRequests) && activeRequest == old(activeRequest)
    }

    constructor (socket: Option<Peer>, codec: Codec, berDecode: Bytes -> Decoded<T>)
      ensures Valid()
      ensures this.socket == socket && boundSocket == socket
      ensures status == if socket.Some? then Connected else Disconnected
      ensures pendingRequests == [] && activeRequest == None
      ensures keepaliveIntervalTimer == None && runningIntervals == {} && keepaliveInterval == 10
      ensures events == [] && socketCalls == []
      ensures this.codec == codec && this.berDecode == berDecode
    {
      this.socket := socket;
      boundSocket := socket;
      keepaliveInterval := 10;
      keepaliveIntervalTimer := None;
      runningIntervals := {};
      nextTimerHandle := 0;
      pendingRequests := [];
      activeRequest := None;
      events := [];
      socketCalls := [];
      this.codec := codec;
      this.berDecode := berDecode;
      status := if socket.Some? then Connected else Disconnected;
    }

    /** `isConnected`: a socket is attached. A connected status implies it. */
    function IsConnected(): (r: bool)
      requires Valid()
      reads this
      ensures status == Connected ==> r
    {
      socket.Some?
    }

    /** `remoteAddress`: "host:port", or "not connected" exactly when no socket is attached. */
    function RemoteAddress(): (r: string)
      reads this
      ensures r == "not connected" <==> socket.None?
      ensures socket.Some? ==>
        var host := socket.value.remoteAddress;
        |r| > |host| && r[..|host|] == host && r[|host|] == ':'
        && (forall i :: |host| < i < |r| ==> IsDigit(r[i]))
        && DigitsValue(r[|host| + 1..]) == socket.value.remotePort
    {
      if socket.None? then "not connected"
      else
        var host, port := socket.value.remoteAddress, Decimal(socket.value.remotePort);
        var r := host + ":" + port;
        assert r[|host|] == ':' && r[|host| + 1..] == port;
        assert "not connected"[3] == ' ';
        DecimalRoundTrip(socket.value.remotePort);
        assert r != "not connected" by {
          if |r| == |"not connected"| {
            assert |host| + 1 + |port| == 13;
            assert forall i :: 0 <= i < 13 ==> "not connected"[i] != ':';
          }
        }
        r
    }

    /** The socket's 'close' handler: emits 'disconnected', then marks the session disconnected and drops the socket. */
    method OnSocketClose()
      requires Valid() && boundSocket.Some?
      modifies this
      ensures Valid()
      ensures events == old(events) + [DisconnectedEvent]
      ensures status == Disconnected && socket == None
      ensures keepaliveIntervalTimer == old(keepaliveIntervalTimer) && runningIntervals == old(runningIntervals)
      ensures nextTimerHandle == old(nextTimerHandle) && socketCalls == old(socketCalls)
      ensures keepaliveInterval == old(keepaliveInterval)
      ensures pendingRequests == old(pendingRequests) && activeRequest == old(activeRequest)
    {
      events := events + [DisconnectedEvent];
      status := Disconnected;
      socket := None;
    }

    /** The socket's 'error' handler: re-emits the error and changes nothing else. */
    method OnSocketError(e: Error)
      requires Valid() && boundSocket.Some?
      modifies this
      ensures Valid()
      ensures events == old(events) + [ErrorEvent(e)]
      ensures socket == old(socket) && status == old(status)
      ensures keepaliveIntervalTimer == old(keepaliveIntervalTimer) && runningIntervals == old(runningIntervals)
      ensures nextTimerHandle == old(nextTimerHandle) && socketCalls == old(socketCalls)
      ensures keepaliveInterval == old(keepaliveInterval)
      ensures pendingRequests == old(pendingRequests) && activeRequest == old(activeRequest)
    {
      events := events + [ErrorEvent(e)];
    }

    /**
     * `handleClose`: drops the socket, stops the keepalive interval (the
     * handle stays in `keepaliveIntervalTimer`), marks the session
     * disconnected and emits 'disconnected' once.
     */
    method HandleClose()
      requires Valid()
      modifies this
      ensures Valid() && HandledClose()
    {
      socket := None;
      if keepaliveIntervalTimer.Some? {
        runningIntervals := runningIntervals - {keepaliveIntervalTimer.value};
      }
      status := Disconnected;
      events := events + [DisconnectedEvent];
    }

    /**
     * `disconnect`: without a socket, an already resolved promise and no
     * change. Otherwise it stops and forgets the keepalive interval, arms
     * the guard timer when the timeout is a positive number, asks the socket
     * to end and marks the session disconnected; the socket stays attached
     * until its 'close' event.
     */
    method Disconnect(timeout: TimeoutArg) returns (p: DisconnectPromise)
      requires Valid()
      modifies this
      ensures Valid() && fresh(p) && p.Valid()
      ensures old(socket).None? ==>
        unchanged(this) && !p.endRequested && p.settled == Some(Resolved)
      ensures old(socket).Some? ==>
        && socket == old(socket)
        && status == Disconnected
        && keepaliveIntervalTimer == None
        && runningIntervals == Cleared(old(runningIntervals), old(keepaliveIntervalTimer))
        && socketCalls == old(socketCalls) + [End]
        && events == old(events)
        && nextTimerHandle == old(nextTimerHandle) && keepaliveInterval == old(keepaliveInterval)
        && pendingRequests == old(pendingRequests) && activeRequest == old(activeRequest)
        && p.endRequested && !p.done && p.settled == None && p.completions == 0
        && p.timerArmed == ArmsTimer(timeout)
    {
      if !IsConnected() || socket.None? {
        p := new DisconnectPromise.AlreadyResolved();
        return;
      }
      if keepaliveIntervalTimer.Some? {
        runningIntervals := runningIntervals - {keepaliveIntervalTimer.value};
        keepaliveIntervalTimer := None;
      }
      p := new DisconnectPromise.AwaitingEnd(ArmsTimer(timeout));
      socketCalls := socketCalls + [End];
      status := Disconnected;
    }

    /**
     * `sendBER`: false without a socket. Otherwise the frames of
     * `encodeBER(data)` are written in order and the result is true; if the
     * encoding or a write throws, `handleClose` runs and the result is false.
     */
    method SendBER(data: Bytes) returns (ok: bool)
      requires Valid()
      modifies this
      ensures Valid()
      ensures old(socket).None? ==> !ok && unchanged(this)
      ensures old(socket).Some? ==>
        var encoded := codec.encodeBER(data);
        && (ok <==> encoded.Frames? && (encoded.frames == [] || !old(socket).value.writeThrows))
        && (ok ==> OnlyWrote(Writes(encoded.frames)))
        && (!ok ==> HandledClose())
    {
      if !IsConnected() {
        return false;
      }
      var encoded := codec.encodeBER(data);
      if encoded.EncodeThrows? {
        HandleClose();
        return false;
      }
      var frames := encoded.frames;
      var peer := socket.value;
      var i := 0;
      while i < |frames|
        invariant 0 <= i <= |frames|
        invariant i > 0 ==> !peer.writeThrows
        invariant socketCalls == old(socketCalls) + Writes(frames[..i])
        invariant socket == old(socket) && status == old(status) && events == old(events)
        invariant keepaliveIntervalTimer == old(keepaliveIntervalTimer)
        invariant runningIntervals == old(runningIntervals) && nextTimerHandle == old(nextTimerHandle)
        invariant keepaliveInterval == old(keepaliveInterval)
        invariant pendingRequests == old(pendingRequests) && activeRequest == old(activeRequest)
      {
        if peer.writeThrows {
          HandleClose();
          return false;
        }
        socketCalls := socketCalls + [Write(frames[i])];
        assert frames[..i + 1] == frames[..i] + [frames[i]];
        WritesConcat(frames[..i], [frames[i]]);
        i := i + 1;
      }
      assert frames[..i] == frames;
      return true;
    }

    /** `sendKeepaliveRequest`: without a socket nothing; else one keepalive-request frame, or `handleClose` if the write throws. */
    method SendKeepaliveRequest()
      requires Valid()
      modifies this
      ensures Valid()
      ensures old(socket).None? ==> unchanged(this)
      ensures old(socket).Some? && !old(socket).value.writeThrows ==>
        OnlyWrote([Write(codec.keepAliveRequest)])
      ensures old(socket).Some? && old(socket).value.writeThrows ==> HandledClose()
    {
      if IsConnected() {
        if socket.value.writeThrows {
          HandleClose();
        } else {
          socketCalls := socketCalls + [Write(codec.keepAliveRequest)];
        }
      }
    }

    /** `sendKeepaliveResponse`: without a socket nothing; else one keepalive-response frame, or `handleClose` if the write throws. */
    method SendKeepaliveResponse()
      requires Valid()
      modifies this
      ensures Valid()
      ensures old(socket).None? ==> unchanged(this)
      ensures old(socket).Some? && !old(socket).value.writeThrows ==>
        OnlyWrote([Write(codec.keepAliveResponse)])
      ensures old(socket).Some? && old(socket).value.writeThrows ==> HandledClose()
    {
      if IsConnected() {
        if socket.value.writeThrows {
          HandleClose();
        } else {
          socketCalls := socketCalls + [Write(codec.keepAliveResponse)];
        }
      }
    }

    /**
     * `startKeepAlive`: arms a new interval and keeps its handle. An interval
     * armed by an earlier call keeps running and is no longer reachable.
     */
    method StartKeepAlive()
      requires Valid()
      modifies this
      ensures Valid()
      ensures keepaliveIntervalTimer == Some(old(nextTimerHandle))
      ensures runningIntervals == old(runningIntervals) + {old(nextTimerHandle)}
      ensures old(nextTimerHandle) !in old(runningIntervals)
      ensures nextTimerHandle == old(nextTimerHandle) + 1
      ensures socket == old(socket) && status == old(status) && events == old(events)
      ensures socketCalls == old(socketCalls) && keepaliveInterval == old(keepaliveInterval)
      ensures pendingRequests == old(pendingRequests) && activeRequest == old(activeRequest)
    {
      keepaliveIntervalTimer := Some(nextTimerHandle);
      runningIntervals := runningIntervals + {nextTimerHandle};
      nextTimerHandle := nextTimerHandle + 1;
    }

    /** One tick of a running keepalive interval: `sendKeepaliveRequest`, which handles its own failures. */
    method KeepaliveTick(handle: nat)
      requires Valid() && handle in runningIntervals
      modifies this
      ensures Valid()
      ensures old(socket).None? ==> unchanged(this)
      ensures old(socket).Some? && !old(socket).value.writeThrows ==>
        OnlyWrote([Write(codec.keepAliveRequest)])
      ensures old(socket).Some? && old(socket).value.writeThrows ==> HandledClose()
    {
      SendKeepaliveRequest();
    }

    /** The codec's 'keepaliveReq' handler: exactly one `sendKeepaliveResponse`. */
    method OnKeepaliveReq()
      requires Valid()
      modifies this
      ensures Valid()
      ensures old(socket).None? ==> unchanged(this)
      ensures old(socket).Some? && !old(socket).value.writeThrows ==>
        OnlyWrote([Write(codec.keepAliveResponse)])
      ensures old(socket).Some? && old(socket).value.writeThrows ==> HandledClose()
    {
      SendKeepaliveResponse();
    }

    /**
     * The codec's 'emberPacket' handler: re-emits the packet, then emits the
     * decoded tree when there is one, or an 'error' when decoding throws.
     * Nothing else changes.
     */
    method OnEmberPacket(packet: Bytes)
      requires Valid()
      modifies this
      ensures Valid()
      ensures events == old(events) + [EmberPacket(packet)] +
        match berDecode(packet)
        case Root(Some(root)) => [EmberTree(root)]
        case Root(None) => []
        case DecodeThrows(e) => [ErrorEvent(e)]
      ensures socket == old(socket) && status == old(status) && socketCalls == old(socketCalls)
      ensures keepaliveIntervalTimer == old(keepaliveIntervalTimer) && runningIntervals == old(runningIntervals)
      ensures nextTimerHandle == old(nextTimerHandle) && keepaliveInterval == old(keepaliveInterval)
      ensures pendingRequests == old(pendingRequests) && activeRequest == old(activeRequest)
    {
      events := events + [EmberPacket(packet)];
      var decoded := berDecode(packet);
      match decoded {
        case Root(root) =>
          if root.Some? {
            events := events + [EmberTree(root.value)];
          }
        case DecodeThrows(e) =>
          events := events + [ErrorEvent(e)];
      }
    }
  }

  // ---------------------------------------------------------------------
  // Sequences of events

  /** A codec that frames every payload as one frame and uses fixed keepalive frames. */
  function OneFrameCodec(): Codec
  {
    Codec(data => Frames([data]), [0xFE, 0x00, 0x0E, 0x01], [0xFE, 0x00, 0x0E, 0x02])
  }

  /**
   * A write that throws runs `handleClose`, and the socket's own 'close'
   * event later emits 'disconnected' a second time.
   */
  method FailedWriteThenClose(peer: Peer, data: Bytes) returns (ok: bool, events: seq<Event<int>>, status: Status)
    requires peer.writeThrows
    ensures !ok
    ensures events == [DisconnectedEvent, DisconnectedEvent]
    ensures status == Disconnected
  {
    var session := new S101Socket<int>(Some(peer), OneFrameCodec(), data => Root(None));
    ok := session.SendBER(data);
    session.OnSocketClose();
    events, status := session.events, session.status;
  }

  /**
   * `disconnect` marks the session disconnected but keeps the socket, so a
   * second `disconnect` before the 'close' event asks the socket to end
   * again; the 'close' event then drops the socket and emits 'disconnected' once.
   */
  method DisconnectTwiceThenClose(peer: Peer) returns (calls: seq<SocketCall>, events: seq<Event<int>>, attached: bool, address: string)
    ensures calls == [End, End]
    ensures events == [DisconnectedEvent]
    ensures attached
    ensures address == "not connected"
  {
    var session := new S101Socket<int>(Some(peer), OneFrameCodec(), data => Root(None));
    var first := session.Disconnect(Omitted);
    assert session.status == Disconnected && session.socket == Some(peer);
    var second := session.Disconnect(Null);
    attached := session.IsConnected();
    session.OnSocketClose();
    calls, events, address := session.socketCalls, session.events, session.RemoteAddress();
  }

  /**
   * The keepalive interval keeps running after a successful tick, so on a
   * socket whose writes succeed it sends one keepalive request per tick.
   */
  method KeepaliveTicksTwice(peer: Peer) returns (calls: seq<SocketCall>, running: bool)
    requires !peer.writeThrows
    ensures calls == [Write(OneFrameCodec().keepAliveRequest), Write(OneFrameCodec().keepAliveRequest)]
    ensures running
  {
    var session := new S101Socket<int>(Some(peer), OneFrameCodec(), data => Root(None));
    session.StartKeepAlive();
    var handle := session.keepaliveIntervalTimer.value;
    session.KeepaliveTick(handle);
    session.KeepaliveTick(handle);
    calls, running := session.socketCalls, handle in session.runningIntervals;
  }

  /** The promise of `disconnect` completes once, resolved, whichever of the end callback and the timer comes first. */
  method DisconnectCompletesOnce(peer: Peer) returns (settled: Option<Settlement>, completions: nat)
    ensures settled == Some(Resolved)
    ensures completions == 1
  {
    var session := new S101Socket<int>(Some(peer), OneFrameCodec(), data => Root(None));
    var p := session.Disconnect(Seconds(2.0));
    p.TimerFires();
    p.EndFinished(Some(Error("socket closed")));
    settled, completions := p.settled, p.completions;
  }
}
