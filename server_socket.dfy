/**
 * `src/server_socket.rs`: the socket options and the address text built from
 * them, the channel a connection sends envelopes on, and the receive path that
 * turns frames into envelopes (one frame at a time, and one pass over a finite
 * sequence of frames).
 */
module ServerSocket {
  import opened Wrappers
  import opened Proto
  import opened Decimal

  // ---------------------------------------------------------------- options

  /** Where the server listens. */
  datatype SocketOptions = SocketOptions(bindAddress: string, port: u16)
  {
    /** `SocketOptions::new`: both values stored as given. */
    static function New(bindAddress: string, port: u16): (o: SocketOptions)
      ensures o.bindAddress == bindAddress && o.port == port
    {
      SocketOptions(bindAddress, port)
    }

    /** `SocketOptions::with_port`: the loopback address and the given port. */
    static function WithPort(port: u16): (o: SocketOptions)
      ensures o.bindAddress == "127.0.0.1" && o.port == port
    {
      SocketOptions("127.0.0.1", port)
    }

    /**
     * `get_socket_address` up to the call of the standard address parser:
     * the text it builds by appending to a copy of the bind address.
     */
    method GetSocketAddress() returns (addr: string)
      ensures addr == AddressText(this)
    {
      addr := bindAddress;
      addr := addr + [':'];
      addr := addr + DecimalString(port);
    }
  }

  /** The address text of `o`: bind address, a colon, the port in decimal. */
  function AddressText(o: SocketOptions): string
  {
    o.bindAddress + ":" + DecimalString(o.port)
  }

  /** The index of the last ':' in `s`, or -1 when there is none. */
  function LastColon(s: string): (k: int)
    ensures -1 <= k < |s|
    ensures 0 <= k ==> s[k] == ':'
    ensures forall j :: k < j < |s| ==> s[j] != ':'
  {
    if s == [] then -1
    else if s[|s| - 1] == ':' then |s| - 1
    else LastColon(s[..|s| - 1])
  }

  /**
   * Splitting the address text at its last ':' gives back the bind address
   * (even one that holds colons itself) and the decimal text of the port.
   */
  lemma AddressTextSplits(o: SocketOptions)
    ensures var s := AddressText(o);
            var k := LastColon(s);
            && k == |o.bindAddress|
            && s[..k] == o.bindAddress
            && s[k + 1..] == DecimalString(o.port)
            && ParseDecimal(s[k + 1..]) == o.port
  {
    var s := AddressText(o);
    var b := |o.bindAddress|;
    var d := DecimalString(o.port);
    U16DecimalString(o.port);
    assert s[b] == ':';
    assert s[b + 1..] == d;
    forall j | b < j < |s| ensures s[j] != ':' {
      assert s[j] == d[j - b - 1];
    }
    ParseDecimalString(o.port);
  }

  /** Different options never build the same address text. */
  lemma AddressTextInjective(o1: SocketOptions, o2: SocketOptions)
    requires AddressText(o1) == AddressText(o2)
    ensures o1 == o2
  {
    AddressTextSplits(o1);
    AddressTextSplits(o2);
  }

  // ---------------------------------------------------------------- sending

  /**
   * `ChannelContext`: the sending side of one connection. `outbox` is the
   * sequence of envelopes the connection has been asked to send, in order.
   */
  class ChannelContext {
    ghost var outbox: seq<MessageTransport>

    /** Every envelope the server sends carries a payload. */
    ghost predicate Valid()
      reads this
    {
      forall i :: 0 <= i < |outbox| ==> outbox[i].payload.Some?
    }

    constructor ()
      ensures Valid() && outbox == []
    {
      outbox := [];
    }

    /** `send_message`: a send without an acknowledgement id. */
    method SendMessage(msg: Any) returns (r: Result<(), string>)
      requires Valid()
      modifies this
      ensures Valid() && r.Ok?
      ensures outbox == old(outbox) + [MessageTransport(Some(msg), None)]
    {
      r := SendMessageAck(msg, None);
    }

    /**
     * `send_message_ack`: a default envelope whose payload is set to `msg`
     * and whose acknowledgement id is set to `acknowledgementId`, queued for
     * sending; it always reports success.
     */
    method SendMessageAck(msg: Any, acknowledgementId: Option<string>) returns (r: Result<(), string>)
      requires Valid()
      modifies this
      ensures Valid() && r.Ok?
      ensures outbox == old(outbox) + [MessageTransport(Some(msg), acknowledgementId)]
    {
      var transportMsg := DefaultTransport();
      transportMsg := transportMsg.(payload := Some(msg));
      transportMsg := transportMsg.(acknowledgementId := acknowledgementId);
      outbox := outbox + [transportMsg];
      r := Ok(());
    }
  }

  // ---------------------------------------------------------------- receiving

  /** What `process_frame` does with one frame. */
  datatype FrameOutcome =
    | Processed                     // returned Ok(())
    | Failed(error: DecodeError)    // returned the decoder's error
    | Panicked                      // `unwrap` on an absent payload

  /** `process_frame`: decode, insist on a payload, report success. */
  function ProcessFrame(frame: seq<byte>, decode: seq<byte> -> Result<MessageTransport, DecodeError>): (r: FrameOutcome)
    ensures r.Failed? <==> decode(frame).Err?
    ensures r.Failed? ==> r.error == decode(frame).error
    ensures r.Panicked? <==> decode(frame).Ok? && decode(frame).value.payload.None?
    ensures r.Processed? <==> decode(frame).Ok? && decode(frame).value.payload.Some?
  {
    match decode(frame)
    case Err(e) => Failed(e)
    case Ok(transportMsg) =>
      if transportMsg.payload.None? then Panicked else Processed
  }

  /** A frame that the connection's encoder produced from an envelope with a payload is processed. */
  lemma EncodedFrameIsProcessed(c: Codec, t: MessageTransport)
    requires RoundTrip(c)
    requires t.payload.Some?
    ensures ProcessFrame(c.encode(t), c.decode) == Processed
  {
    assert c.decode(c.encode(t)) == Ok(t);
  }

  /** The error the length-delimited framing layer reports; only its text is observable. */
  datatype FramingError = FramingError(description: string)

  type FrameResult = Result<seq<byte>, FramingError>

  /** The line `process_stream` writes to standard error for a framing error. */
  function FramingLine(e: FramingError): (line: string)
    ensures |line| == 34 + |e.description|
    ensures line[..34] == "Error while framing input stream; " && line[34..] == e.description
  {
    "Error while framing input stream; " + e.description
  }

  /** The line `process_stream` writes to standard error when `process_frame` fails. */
  function ProcessingLine(e: DecodeError): (line: string)
    ensures |line| == 31 + |e.description|
    ensures line[..31] == "Error while processing packet; " && line[31..] == e.description
  {
    "Error while processing packet; " + e.description
  }

  /**
   * The observable effect of reading frames: the lines written to standard
   * error, the frames handed to `process_frame`, and whether the task ended in
   * a panic.
   */
  datatype StreamRun = StreamRun(log: seq<string>, handled: seq<seq<byte>>, panicked: bool)

  /** `a` followed by `b`; a run that panicked has nothing after it. */
  function Then(a: StreamRun, b: StreamRun): StreamRun
  {
    if a.panicked then a else StreamRun(a.log + b.log, a.handled + b.handled, b.panicked)
  }

  /** The effect of one frame result on the receive loop. */
  function Step(f: FrameResult, decode: seq<byte> -> Result<MessageTransport, DecodeError>): (r: StreamRun)
    ensures r.panicked <==> PanicsOn(f, decode)
    ensures r.handled == (if f.Ok? then [f.value] else [])
    ensures r.log == ErrorLines([f], decode)
  {
    match f
    case Err(e) => StreamRun([FramingLine(e)], [], false)
    case Ok(data) =>
      match ProcessFrame(data, decode)
      case Processed => StreamRun([], [data], false)
      case Failed(e) => StreamRun([ProcessingLine(e)], [data], false)
      case Panicked => StreamRun([], [data], true)
  }

  /** One pass of the receive loop over `frames`, frame by frame. */
  function Run(frames: seq<FrameResult>, decode: seq<byte> -> Result<MessageTransport, DecodeError>): (r: StreamRun)
    ensures |r.handled| + CountFramingErrors(frames) <= |frames|
  {
    if frames == [] then StreamRun([], [], false)
    else Then(Step(frames[0], decode), Run(frames[1..], decode))
  }

  lemma ThenAssociative(a: StreamRun, b: StreamRun, c: StreamRun)
    ensures Then(Then(a, b), c) == Then(a, Then(b, c))
  {
  }

  /** A frame result on which `process_frame` panics. */
  predicate PanicsOn(f: FrameResult, decode: seq<byte> -> Result<MessageTransport, DecodeError>)
  {
    f.Ok? && ProcessFrame(f.value, decode).Panicked?
  }

  /** The frames that framing delivered, in order: the ones `process_frame` is called on. */
  function OkFrames(frames: seq<FrameResult>): seq<seq<byte>>
  {
    if frames == [] then []
    else (if frames[0].Ok? then [frames[0].value] else []) + OkFrames(frames[1..])
  }

  function CountFramingErrors(frames: seq<FrameResult>): nat
  {
    if frames == [] then 0
    else (if frames[0].Err? then 1 else 0) + CountFramingErrors(frames[1..])
  }

  function CountDecodeFailures(frames: seq<FrameResult>, decode: seq<byte> -> Result<MessageTransport, DecodeError>): nat
  {
    if frames == [] then 0
    else (if frames[0].Ok? && decode(frames[0].value).Err? then 1 else 0) + CountDecodeFailures(frames[1..], decode)
  }

  /** The line each error writes, in frame order: framing errors and frames that fail to decode. */
  function ErrorLines(frames: seq<FrameResult>, decode: seq<byte> -> Result<MessageTransport, DecodeError>): seq<string>
  {
    if frames == [] then []
    else
      var line :=
        match frames[0]
        case Err(e) => [FramingLine(e)]
        case Ok(data) => if decode(data).Err? then [ProcessingLine(decode(data).error)] else [];
      line + ErrorLines(frames[1..], decode)
  }

  /** Reading `a` and then `b` is reading `a + b`: nothing but a panic ends the loop early. */
  lemma {:induction false} RunAppend(a: seq<FrameResult>, b: seq<FrameResult>, decode: seq<byte> -> Result<MessageTransport, DecodeError>)
    ensures Run(a + b, decode) == Then(Run(a, decode), Run(b, decode))
  {
    if a == [] {
      assert a + b == b;
    } else {
      assert (a + b)[1..] == a[1..] + b;
      RunAppend(a[1..], b, decode);
      ThenAssociative(Step(a[0], decode), Run(a[1..], decode), Run(b, decode));
    }
  }

  /** The task ends in a panic exactly when some frame decodes to an envelope without payload. */
  lemma {:induction false} RunPanicsIff(frames: seq<FrameResult>, decode: seq<byte> -> Result<MessageTransport, DecodeError>)
    ensures Run(frames, decode).panicked <==> exists i :: 0 <= i < |frames| && PanicsOn(frames[i], decode)
  {
    if frames != [] {
      RunPanicsIff(frames[1..], decode);
      if PanicsOn(frames[0], decode) {
        assert PanicsOn(frames[0], decode);
      } else if exists i :: 0 <= i < |frames[1..]| && PanicsOn(frames[1..][i], decode) {
        var i :| 0 <= i < |frames[1..]| && PanicsOn(frames[1..][i], decode);
        assert PanicsOn(frames[i + 1], decode);
      } else {
        forall i | 0 <= i < |frames| ensures !PanicsOn(frames[i], decode) {
          if i > 0 { assert frames[i] == frames[1..][i - 1]; }
        }
      }
    }
  }

  /**
   * Without a panic the loop visits every frame in order: each frame that
   * framing delivered is passed to `process_frame`, and the log holds, in
   * frame order, the framing line of each framing error and the processing
   * line of each frame that failed to decode.
   */
  lemma {:induction false} RunWithoutPanic(frames: seq<FrameResult>, decode: seq<byte> -> Result<MessageTransport, DecodeError>)
    requires forall i :: 0 <= i < |frames| ==> !PanicsOn(frames[i], decode)
    ensures !Run(frames, decode).panicked
    ensures Run(frames, decode).handled == OkFrames(frames)
    ensures Run(frames, decode).log == ErrorLines(frames, decode)
    ensures |Run(frames, decode).log| == CountFramingErrors(frames) + CountDecodeFailures(frames, decode)
    ensures |Run(frames, decode).handled| + CountFramingErrors(frames) == |frames|
  {
    if frames != [] {
      assert !PanicsOn(frames[0], decode);
      forall i | 0 <= i < |frames[1..]| ensures !PanicsOn(frames[1..][i], decode) {
        assert frames[1..][i] == frames[i + 1];
      }
      RunWithoutPanic(frames[1..], decode);
    }
  }

  /**
   * At the first frame that panics the task ends: what was logged and handled
   * is what the frames before it produced, plus that frame itself handed to
   * `process_frame`.
   */
  lemma RunStopsAtPanic(frames: seq<FrameResult>, k: nat, decode: seq<byte> -> Result<MessageTransport, DecodeError>)
    requires k < |frames| && PanicsOn(frames[k], decode)
    requires forall j :: 0 <= j < k ==> !PanicsOn(frames[j], decode)
    ensures Run(frames, decode).panicked
    ensures Run(frames, decode).log == Run(frames[..k], decode).log
    ensures Run(frames, decode).handled == OkFrames(frames[..k]) + [frames[k].value]
  {
    assert frames == frames[..k] + frames[k..];
    RunAppend(frames[..k], frames[k..], decode);
    RunWithoutPanic(frames[..k], decode);
  }

  /** The frames a peer's encoder makes of `ts`. */
  function EncodeAll(c: Codec, ts: seq<MessageTransport>): (frames: seq<FrameResult>)
    ensures |frames| == |ts|
  {
    if ts == [] then [] else [Ok(c.encode(ts[0]))] + EncodeAll(c, ts[1..])
  }

  /**
   * Under the codec round-trip assumption, receiving the encodings of
   * envelopes that all carry a payload (as every envelope this server sends
   * does) logs nothing, never panics, and hands every frame to `process_frame`.
   */
  lemma {:induction false} EncodedStreamRunsClean(c: Codec, ts: seq<MessageTransport>)
    requires RoundTrip(c)
    requires forall i :: 0 <= i < |ts| ==> ts[i].payload.Some?
    ensures Run(EncodeAll(c, ts), c.decode) == StreamRun([], OkFrames(EncodeAll(c, ts)), false)
  {
    if ts != [] {
      EncodedFrameIsProcessed(c, ts[0]);
      assert EncodeAll(c, ts)[1..] == EncodeAll(c, ts[1..]);
      EncodedStreamRunsClean(c, ts[1..]);
    }
  }

  /** A peer that receives everything a channel was asked to send reads it without a log line or a panic. */
  lemma OutboxRunsClean(ch: ChannelContext, c: Codec)
    requires ch.Valid() && RoundTrip(c)
    ensures !Run(EncodeAll(c, ch.outbox), c.decode).panicked
    ensures Run(EncodeAll(c, ch.outbox), c.decode).log == []
  {
    EncodedStreamRunsClean(c, ch.outbox);
  }

  /**
   * The `while let` loop of `process_stream` over a finite sequence of frame
   * results: framing and processing errors are logged and the loop goes on;
   * a panic in `process_frame` ends the connection's task.
   */
  method ProcessStream(frames: seq<FrameResult>, decode: seq<byte> -> Result<MessageTransport, DecodeError>)
    returns (r: StreamRun)
    ensures r == Run(frames, decode)
  {
    var log: seq<string> := [];
    var handled: seq<seq<byte>> := [];
    var i := 0;
    while i < |frames|
      invariant 0 <= i <= |frames|
      invariant Then(StreamRun(log, handled, false), Run(frames[i..], decode)) == Run(frames, decode)
    {
      assert frames[i..][1..] == frames[i + 1..];
      ghost var before := StreamRun(log, handled, false);
      match frames[i] {
        case Ok(data) =>
          var result := ProcessFrame(data, decode);
          match result {
            case Processed =>
              handled := handled + [data];
            case Failed(e) =>
              handled := handled + [data];
              log := log + [ProcessingLine(e)];
            case Panicked =>
              return StreamRun(log, handled + [data], true);
          }
        case Err(e) =>
          log := log + [FramingLine(e)];
      }
      assert StreamRun(log, handled, false) == Then(before, Step(frames[i], decode));
      ThenAssociative(before, Step(frames[i], decode), Run(frames[i + 1..], decode));
      i := i + 1;
    }
    assert frames[i..] == [];
    r := StreamRun(log, handled, false);
  }
}
