/** The desktop back end's device-connection registry: a map from connection
    id (the caller's address string) to an open transport, the commands that
    open, close, write to and list connections, and the background reader
    loops that forward incoming lines as events.

    The operating system's serial and TCP handles, the event sink and the
    clock are oracles: each operation receives the outcome of the calls it
    makes into them. */
module Connections {
  import opened Wrappers
  import opened Strings

  newtype u32 = x: int | 0 <= x < 0x1_0000_0000
  newtype u64 = x: int | 0 <= x < 0x1_0000_0000_0000_0000

  const DefaultBaud: u32 := 115200

  datatype ConnectionType = Serial | Tcp | WebSocket

  datatype ConnectionInfo = ConnectionInfo(
    connectionId: string,
    connectionType: ConnectionType,
    address: string,
    baudRate: Option<u32>,
    isConnected: bool)

  datatype SerialConnectionInfo = SerialConnectionInfo(portName: string, baudRate: u32, isConnected: bool)

  datatype ConnectionMessage = ConnectionMessage(connectionId: string, data: string, timestamp: u64, isError: bool)

  /** The outcome of one call into the operating system. */
  datatype IoResult = IoOk | IoErr(msg: string)

  /** What the operating system answers to the calls `connect_device` makes:
      opening and cloning the serial port, or connecting the TCP stream and
      setting its read timeout. Only the calls the chosen branch makes are
      consulted. */
  datatype OpenEnv = OpenEnv(open: IoResult, clone: IoResult, tcpConnect: IoResult, tcpTimeout: IoResult)

  datatype Link = SerialLink(port: string, baud: u32) | TcpLink(address: string)

  /** An open transport and everything written and flushed on it so far. */
  datatype Transport = Transport(link: Link, written: seq<string>, flushes: nat)

  /** A background reader thread the registry started. */
  datatype Reader = Reader(connectionId: string, kind: ConnectionType)

  /** What one write through a transport leaves behind. */
  datatype WriteStep = WriteStep(transport: Transport, result: Result<(), string>)

  datatype ConnectStep = ConnectStep(conns: map<string, Transport>, readers: seq<Reader>, result: Result<ConnectionInfo, string>)

  /** The bytes a write puts on the wire: the data and one newline, whether or
      not the data already ends in one. */
  function Frame(data: string): (f: string)
    ensures |f| == |data| + 1 && f[..|data|] == data && f[|data|] == '\n'
  {
    data + "\n"
  }

  lemma FrameDoublesTrailingNewline(data: string)
    requires |data| > 0 && data[|data| - 1] == '\n'
    ensures Frame(data)[|data| - 1..] == "\n\n"
  {
  }

  /** `write_data` of both transports: write the framed data, then flush;
      each failure is tagged with the step and the transport. */
  function WriteData(t: Transport, data: string, write: IoResult, flush: IoResult): (w: WriteStep)
    ensures w.transport.link == t.link
    ensures w.transport.written == if write.IoOk? then t.written + [Frame(data)] else t.written
    ensures w.result.Ok? <==> write.IoOk? && flush.IoOk?
    ensures write.IoErr? ==> w.result == Err(WriteErrorPrefix(t.link) + write.msg) && w.transport.flushes == t.flushes
    ensures write.IoOk? && flush.IoErr? ==> w.result == Err(FlushErrorPrefix(t.link) + flush.msg)
  {
    if write.IoErr? then WriteStep(t, Err(WriteErrorPrefix(t.link) + write.msg))
    else
      var t' := t.(written := t.written + [Frame(data)]);
      if flush.IoErr? then WriteStep(t', Err(FlushErrorPrefix(t.link) + flush.msg))
      else WriteStep(t'.(flushes := t.flushes + 1), Ok(()))
  }

  function WriteErrorPrefix(l: Link): string
  {
    if l.SerialLink? then "Failed to write to serial port: " else "Failed to write to TCP: "
  }

  function FlushErrorPrefix(l: Link): string
  {
    if l.SerialLink? then "Failed to flush serial port: " else "Failed to flush TCP: "
  }

  /** One outcome of `read_line` on a transport. A `Line` is a non-empty read
      (EOF is `Eof`). A `TimedOut` read may already have appended the first
      bytes of a line to the buffer: `partial`. */
  datatype ReadOutcome = Line(text: string) | TimedOut(partial: string) | Eof | ReadErr(msg: string)

  /** `SerialConnection::read_data`: the serial side reads on its own thread. */
  function SerialReadData(): (r: Result<Option<string>, string>)
    ensures r == Ok(None)
  {
    Ok(None)
  }

  /** `TcpConnection::read_data`: EOF and a timeout both read as no line. */
  function TcpReadData(o: ReadOutcome): (r: Result<Option<string>, string>)
    ensures r.Ok? && r.value.None? <==> o.Eof? || o.TimedOut?
    ensures r.Ok? && r.value.Some? <==> o.Line?
    ensures o.Line? ==> r.value.value == RustTrimEnd(o.text)
    ensures o.ReadErr? ==> r == Err("TCP read error: " + o.msg)
  {
    match o
    case Eof => Ok(None)
    case Line(s) => Ok(Some(RustTrimEnd(s)))
    case TimedOut(_) => Ok(None)
    case ReadErr(e) => Err("TCP read error: " + e)
  }

  /** `TcpConnection::new`. */
  function OpenTcp(address: string, env: OpenEnv): (r: Result<Transport, string>)
    ensures r.Ok? <==> env.tcpConnect.IoOk? && env.tcpTimeout.IoOk?
    ensures r.Ok? ==> r.value == Transport(TcpLink(address), [], 0)
    ensures env.tcpConnect.IoErr? ==> r == Err("Failed to connect to TCP " + address + ": " + env.tcpConnect.msg)
  {
    if env.tcpConnect.IoErr? then Err("Failed to connect to TCP " + address + ": " + env.tcpConnect.msg)
    else if env.tcpTimeout.IoErr? then Err("Failed to set TCP read timeout: " + env.tcpTimeout.msg)
    else Ok(Transport(TcpLink(address), [], 0))
  }

  /** The reply `connect_device` gives on success and for an id already open:
      the caller's own type, address and baud rate, not those of the stored
      transport. */
  function Connected(ct: ConnectionType, address: string, baud: Option<u32>): ConnectionInfo
  {
    ConnectionInfo(address, ct, address, baud, true)
  }

  /** `connect_device` as a transition of the registry and the set of reader
      threads. */
  function Connect(conns: map<string, Transport>, readers: seq<Reader>, ct: ConnectionType,
                   address: string, baud: Option<u32>, env: OpenEnv): (s: ConnectStep)
    // an id already open: the reply echoes the request, nothing changes
    ensures address in conns ==> s == ConnectStep(conns, readers, Ok(Connected(ct, address, baud)))
    // WebSocket is never implemented
    ensures address !in conns && ct == WebSocket ==> s.result == Err("WebSocket connections not yet implemented")
    // every failure leaves the registry and the threads as they were
    ensures s.result.Err? ==> s.conns == conns && s.readers == readers
    // a success registers the id and starts exactly one reader for it
    ensures s.result.Ok? ==> s.result.value == Connected(ct, address, baud) && address in s.conns
    ensures s.result.Ok? && address !in conns ==>
              s.conns == conns[address := s.conns[address]] && s.readers == readers + [Reader(address, ct)]
    // a serial port opened without a baud rate runs at 115200
    ensures s.result.Ok? && address !in conns && ct == Serial ==>
              s.conns[address].link == SerialLink(address, baud.UnwrapOr(DefaultBaud))
    ensures s.result.Ok? && address !in conns ==> ct != WebSocket
  {
    if address in conns then ConnectStep(conns, readers, Ok(Connected(ct, address, baud)))
    else
      match ct
      case Serial =>
        if env.open.IoErr? then
          ConnectStep(conns, readers, Err("Failed to open serial port " + address + ": " + env.open.msg))
        else if env.clone.IoErr? then
          ConnectStep(conns, readers, Err("Failed to clone serial port: " + env.clone.msg))
        else
          ConnectStep(conns[address := Transport(SerialLink(address, baud.UnwrapOr(DefaultBaud)), [], 0)],
                      readers + [Reader(address, Serial)], Ok(Connected(ct, address, baud)))
      case Tcp =>
        (match OpenTcp(address, env)
         case Err(e) => ConnectStep(conns, readers, Err(e))
         case Ok(t) => ConnectStep(conns[address := t], readers + [Reader(address, Tcp)], Ok(Connected(ct, address, baud))))
      case WebSocket => ConnectStep(conns, readers, Err("WebSocket connections not yet implemented"))
  }

  /** The entry `get_device_connections` reports for a registered id: the only
      metadata kept is the id, so the rest are fixed defaults. */
  function DefaultInfo(id: string): ConnectionInfo
  {
    ConnectionInfo(id, Serial, id, Some(DefaultBaud), true)
  }

  /** The legacy status of one listed connection, if it is a serial one. */
  function SerialStatusOf(c: ConnectionInfo): Option<SerialConnectionInfo>
  {
    if c.connectionType == Serial then Some(SerialConnectionInfo(c.address, c.baudRate.UnwrapOr(DefaultBaud), c.isConnected))
    else None
  }

  /** `get_connection_status` over a listing: the serial entries, in order. */
  function SerialStatus(cs: seq<ConnectionInfo>): (r: seq<SerialConnectionInfo>)
    ensures |r| <= |cs|
  {
    if cs == [] then []
    else
      var last := SerialStatusOf(cs[|cs| - 1]);
      SerialStatus(cs[..|cs| - 1]) + (if last.Some? then [last.value] else [])
  }

  /** Since every listed entry claims to be serial, the legacy status lists every
      registered id at the default baud rate. */
  lemma {:induction false} SerialStatusOfDefaults(ids: seq<string>, cs: seq<ConnectionInfo>)
    requires |cs| == |ids| && forall i :: 0 <= i < |cs| ==> cs[i] == DefaultInfo(ids[i])
    ensures SerialStatus(cs) == seq(|ids|, i requires 0 <= i < |ids| => SerialConnectionInfo(ids[i], DefaultBaud, true))
  {
    if cs != [] {
      SerialStatusOfDefaults(ids[..|ids| - 1], cs[..|cs| - 1]);
    }
  }

  function Ids(cs: seq<ConnectionInfo>): (ids: seq<string>)
    ensures |ids| == |cs| && forall i :: 0 <= i < |cs| ==> ids[i] == cs[i].connectionId
  {
    seq(|cs|, i requires 0 <= i < |cs| => cs[i].connectionId)
  }

  /** The shared registry. Its lock is not modelled: each method runs to
      completion on its own (see README). */
  class Registry {
    var conns: map<string, Transport>
    var readers: seq<Reader>

    constructor ()
      ensures conns == map[] && readers == []
    {
      conns := map[];
      readers := [];
    }

    /** `connect_device`. */
    method ConnectDevice(ct: ConnectionType, address: string, baud: Option<u32>, env: OpenEnv)
      returns (r: Result<ConnectionInfo, string>)
      modifies this
      ensures var s := Connect(old(conns), old(readers), ct, address, baud, env);
              conns == s.conns && readers == s.readers && r == s.result
    {
      var id := address;
      if id in conns {
        return Ok(ConnectionInfo(id, ct, address, baud, true));
      }
      var t: Transport;
      match ct {
        case Serial =>
          var rate := baud.UnwrapOr(DefaultBaud);
          if env.open.IoErr? {
            return Err("Failed to open serial port " + address + ": " + env.open.msg);
          }
          if env.clone.IoErr? {
            return Err("Failed to clone serial port: " + env.clone.msg);
          }
          readers := readers + [Reader(id, Serial)];
          t := Transport(SerialLink(address, rate), [], 0);
        case Tcp =>
          var tcp := OpenTcp(address, env);
          if tcp.Err? {
            return Err(tcp.error);
          }
          readers := readers + [Reader(id, Tcp)];
          t := tcp.value;
        case WebSocket =>
          return Err("WebSocket connections not yet implemented");
      }
      conns := conns[id := t];
      r := Ok(ConnectionInfo(id, ct, address, baud, true));
    }

    /** `disconnect_device`: removing an absent id is not an error. */
    method DisconnectDevice(id: string) returns (r: Result<(), string>)
      modifies this
      ensures conns == old(conns) - {id} && readers == old(readers)
      ensures r == Ok(())
    {
      conns := conns - {id};
      r := Ok(());
    }

    /** `write_device_data`. */
    method WriteDeviceData(id: string, data: string, write: IoResult, flush: IoResult)
      returns (r: Result<(), string>)
      modifies this
      ensures readers == old(readers)
      ensures id !in old(conns) ==> conns == old(conns) && r == Err("Connection " + id + " not found")
      ensures id in old(conns) ==>
                var w := WriteData(old(conns)[id], data, write, flush);
                conns == old(conns)[id := w.transport] && r == w.result
    {
      if id in conns {
        var w := WriteData(conns[id], data, write, flush);
        conns := conns[id := w.transport];
        r := w.result;
      } else {
        r := Err("Connection " + id + " not found");
      }
    }

    /** `get_device_connections`: one default entry per registered id, in the
        map's iteration order, which is left unspecified. */
    method GetDeviceConnections() returns (status: seq<ConnectionInfo>)
      ensures |status| == |conns|
      ensures forall i :: 0 <= i < |status| ==> status[i] == DefaultInfo(status[i].connectionId)
      ensures forall id :: id in conns <==> id in Ids(status)
      ensures forall i, j :: 0 <= i < j < |status| ==> status[i].connectionId != status[j].connectionId
    {
      status := [];
      var remaining := conns.Keys;
      while remaining != {}
        invariant remaining <= conns.Keys
        invariant |status| + |remaining| == |conns|
        invariant forall i :: 0 <= i < |status| ==> status[i] == DefaultInfo(status[i].connectionId)
        invariant forall id :: id in conns.Keys - remaining <==> id in Ids(status)
        invariant forall i, j :: 0 <= i < j < |status| ==> status[i].connectionId != status[j].connectionId
        decreases |remaining|
      {
        var id :| id in remaining;
        assert id !in Ids(status);
        assert Ids(status + [DefaultInfo(id)]) == Ids(status) + [id];
        status := status + [DefaultInfo(id)];
        remaining := remaining - {id};
      }
    }

    /** `connect_serial_port`: `connect_device` for a serial port with an
        explicit baud rate. */
    method ConnectSerialPort(portName: string, baud: u32, env: OpenEnv)
      returns (r: Result<SerialConnectionInfo, string>)
      modifies this
      ensures var s := Connect(old(conns), old(readers), Serial, portName, Some(baud), env);
              conns == s.conns && readers == s.readers &&
              r == if s.result.Ok? then Ok(SerialConnectionInfo(portName, baud, true)) else Err(s.result.error)
    {
      var c := ConnectDevice(Serial, portName, Some(baud), env);
      if c.Err? {
        return Err(c.error);
      }
      r := Ok(SerialConnectionInfo(portName, baud, c.value.isConnected));
    }

    /** `disconnect_serial_port`. */
    method DisconnectSerialPort(portName: string) returns (r: Result<(), string>)
      modifies this
      ensures conns == old(conns) - {portName} && readers == old(readers) && r == Ok(())
    {
      r := DisconnectDevice(portName);
    }

    /** `write_serial_data`. */
    method WriteSerialData(portName: string, data: string, write: IoResult, flush: IoResult)
      returns (r: Result<(), string>)
      modifies this
      ensures readers == old(readers)
      ensures portName !in old(conns) ==> conns == old(conns) && r == Err("Connection " + portName + " not found")
      ensures portName in old(conns) ==>
                var w := WriteData(old(conns)[portName], data, write, flush);
                conns == old(conns)[portName := w.transport] && r == w.result
    {
      r := WriteDeviceData(portName, data, write, flush);
    }

    /** `get_connection_status`: the serial entries of the listing; as every
        listed entry says serial, every registered id at 115200. */
    method GetConnectionStatus() returns (status: seq<SerialConnectionInfo>)
      ensures |status| == |conns|
      ensures forall i :: 0 <= i < |status| ==> status[i].portName in conns
      ensures forall i :: 0 <= i < |status| ==> status[i].baudRate == DefaultBaud && status[i].isConnected
      ensures forall id :: id in conns ==> exists i :: 0 <= i < |status| && status[i].portName == id
    {
      var cs := GetDeviceConnections();
      status := [];
      var k := 0;
      while k < |cs|
        invariant 0 <= k <= |cs|
        invariant status == SerialStatus(cs[..k])
      {
        assert cs[..k + 1][..k] == cs[..k];
        var c := cs[k];
        if c.connectionType == Serial {
          status := status + [SerialConnectionInfo(c.address, c.baudRate.UnwrapOr(DefaultBaud), c.isConnected)];
        }
        k := k + 1;
      }
      assert cs[..|cs|] == cs;
      SerialStatusOfDefaults(Ids(cs), cs);
      forall id | id in conns ensures exists i :: 0 <= i < |status| && status[i].portName == id {
        var i :| 0 <= i < |cs| && Ids(cs)[i] == id;
        assert status[i].portName == id;
      }
    }
  }

  // -----------------------------------------------------------------------
  // The reader threads

  /** Milliseconds since the epoch, cast with `as u64` (truncating). */
  function Millis(t: nat): u64
  {
    (t % 0x1_0000_0000_0000_0000) as u64
  }

  /** The messages a reader loop delivers from the read at index `i` on, when
      `attempts` emits were tried before it. `emitOk(k)` says whether the k-th
      emit succeeds and `clock(i)` is the time of the i-th read. A failed emit
      of a line ends the loop; a read error is reported (the emit's own result
      is ignored) and ends the loop; running out of outcomes stands for a loop
      still waiting. A timeout goes round the loop again, and the loop clears
      the buffer first, so the bytes a timed-out read had taken are dropped. */
  function ReaderFrom(id: string, errPrefix: string, outcomes: seq<ReadOutcome>, emitOk: nat -> bool,
                      clock: nat -> nat, i: nat, attempts: nat): seq<ConnectionMessage>
    decreases |outcomes| - i
  {
    if i >= |outcomes| then []
    else match outcomes[i]
      case Eof => []
      case TimedOut(_) => ReaderFrom(id, errPrefix, outcomes, emitOk, clock, i + 1, attempts)
      case Line(s) =>
        if emitOk(attempts) then
          [ConnectionMessage(id, RustTrimEnd(s), Millis(clock(i)), false)]
            + ReaderFrom(id, errPrefix, outcomes, emitOk, clock, i + 1, attempts + 1)
        else []
      case ReadErr(e) =>
        if emitOk(attempts) then [ConnectionMessage(id, errPrefix + e, Millis(clock(i)), true)] else []
  }

  /** The loop shared by both reader threads. */
  method ReadLoop(id: string, errPrefix: string, outcomes: seq<ReadOutcome>, emitOk: nat -> bool,
                  clock: nat -> nat, attempts0: nat)
    returns (emitted: seq<ConnectionMessage>)
    ensures emitted == ReaderFrom(id, errPrefix, outcomes, emitOk, clock, 0, attempts0)
  {
    emitted := [];
    var i := 0;
    var attempts := attempts0;
    while i < |outcomes|
      invariant 0 <= i <= |outcomes|
      invariant emitted + ReaderFrom(id, errPrefix, outcomes, emitOk, clock, i, attempts)
                == ReaderFrom(id, errPrefix, outcomes, emitOk, clock, 0, attempts0)
      decreases |outcomes| - i
    {
      match outcomes[i] {
        case Eof =>
          return;
        case TimedOut(_) =>
        case Line(s) =>
          var message := ConnectionMessage(id, RustTrimEnd(s), Millis(clock(i)), false);
          var delivered := emitOk(attempts);
          attempts := attempts + 1;
          if !delivered {
            return;
          }
          emitted := emitted + [message];
        case ReadErr(e) =>
          var message := ConnectionMessage(id, errPrefix + e, Millis(clock(i)), true);
          if emitOk(attempts) {
            emitted := emitted + [message];
          }
          return;
      }
      i := i + 1;
    }
  }

  /** The serial reader thread started by `connect_device`. */
  method SerialReader(id: string, outcomes: seq<ReadOutcome>, emitOk: nat -> bool, clock: nat -> nat)
    returns (emitted: seq<ConnectionMessage>)
    ensures emitted == ReaderFrom(id, SerialReadErrorPrefix, outcomes, emitOk, clock, 0, 0)
  {
    emitted := ReadLoop(id, SerialReadErrorPrefix, outcomes, emitOk, clock, 0);
  }

  const SerialReadErrorPrefix: string := "Read error: "
  const TcpReadErrorPrefix: string := "TCP read error: "

  /** The TCP reader thread: it opens a stream of its own first, and a failure
      to connect is reported once (`connectTime` is the clock then). Failing to
      set the read timeout is ignored. */
  method TcpReader(id: string, connect: IoResult, connectTime: nat, outcomes: seq<ReadOutcome>,
                   emitOk: nat -> bool, clock: nat -> nat)
    returns (emitted: seq<ConnectionMessage>)
    ensures connect.IoErr? ==>
              emitted == (if emitOk(0) then [ConnectionMessage(id, "Failed to connect: " + connect.msg, Millis(connectTime), true)] else [])
    ensures connect.IoOk? ==> emitted == ReaderFrom(id, TcpReadErrorPrefix, outcomes, emitOk, clock, 0, 0)
  {
    if connect.IoErr? {
      var message := ConnectionMessage(id, "Failed to connect: " + connect.msg, Millis(connectTime), true);
      emitted := if emitOk(0) then [message] else [];
      return;
    }
    emitted := ReadLoop(id, TcpReadErrorPrefix, outcomes, emitOk, clock, 0);
  }

  /** The texts of the `Line` outcomes before the first EOF or error. What a
      timed-out read had taken is not among them. */
  function LinesBeforeEnd(outcomes: seq<ReadOutcome>): seq<string>
  {
    if outcomes == [] then []
    else match outcomes[0]
      case Line(s) => [s] + LinesBeforeEnd(outcomes[1..])
      case TimedOut(_) => LinesBeforeEnd(outcomes[1..])
      case _ => []
  }

  /** A delivered message without its timestamp. */
  datatype Delivered = Delivered(connectionId: string, data: string, isError: bool)

  function Undated(ms: seq<ConnectionMessage>): (r: seq<Delivered>)
    ensures |r| == |ms|
  {
    if ms == [] then [] else [Delivered(ms[0].connectionId, ms[0].data, ms[0].isError)] + Undated(ms[1..])
  }

  /** The non-error messages for `lines`, each without trailing whitespace. */
  function LineMessages(id: string, lines: seq<string>): (r: seq<Delivered>)
    ensures |r| == |lines|
  {
    if lines == [] then [] else [Delivered(id, RustTrimEnd(lines[0]), false)] + LineMessages(id, lines[1..])
  }

  /** The OS error of the first end marker, when that marker is a read error
      rather than EOF (None also when the outcomes run out first). */
  function ErrorAtEnd(outcomes: seq<ReadOutcome>): Option<string>
  {
    if outcomes == [] then None
    else match outcomes[0]
      case Line(_) => ErrorAtEnd(outcomes[1..])
      case TimedOut(_) => ErrorAtEnd(outcomes[1..])
      case Eof => None
      case ReadErr(e) => Some(e)
  }

  /** The error message a reader ends with, if any. */
  function ErrorMessages(id: string, errPrefix: string, e: Option<string>): seq<Delivered>
  {
    if e.Some? then [Delivered(id, errPrefix + e.value, true)] else []
  }

  /** With every emit succeeding, a reader delivers exactly the lines read
      before the first EOF or read error, in order, as non-error messages
      without trailing whitespace (timeouts deliver nothing, not even the
      bytes they had read), followed by one
      error message when that first end is a read error, and nothing else. */
  lemma {:induction false} ReaderDeliversLines(id: string, errPrefix: string, outcomes: seq<ReadOutcome>,
                                               emitOk: nat -> bool, clock: nat -> nat, i: nat, attempts: nat)
    requires i <= |outcomes|
    requires forall k :: emitOk(k)
    ensures Undated(ReaderFrom(id, errPrefix, outcomes, emitOk, clock, i, attempts))
            == LineMessages(id, LinesBeforeEnd(outcomes[i..]))
               + ErrorMessages(id, errPrefix, ErrorAtEnd(outcomes[i..]))
    decreases |outcomes| - i
  {
    if i < |outcomes| {
      var rest := outcomes[i..];
      assert rest[0] == outcomes[i];
      assert rest[1..] == outcomes[i + 1..];
      match outcomes[i]
      case Eof =>
      case ReadErr(e) =>
      case TimedOut(_) =>
        ReaderDeliversLines(id, errPrefix, outcomes, emitOk, clock, i + 1, attempts);
      case Line(s) =>
        ReaderDeliversLines(id, errPrefix, outcomes, emitOk, clock, i + 1, attempts + 1);
        var m := ConnectionMessage(id, RustTrimEnd(s), Millis(clock(i)), false);
        var tail := ReaderFrom(id, errPrefix, outcomes, emitOk, clock, i + 1, attempts + 1);
        assert ([m] + tail)[1..] == tail;
        var lines := LinesBeforeEnd(outcomes[i + 1..]);
        assert ([s] + lines)[1..] == lines;
        var errs := ErrorMessages(id, errPrefix, ErrorAtEnd(outcomes[i + 1..]));
        var d := Delivered(id, RustTrimEnd(s), false);
        assert [d] + LineMessages(id, lines) + errs == [d] + (LineMessages(id, lines) + errs);
    } else {
      assert outcomes[i..] == [];
    }
  }

  /** A line that arrives in two parts, the first before a read timeout,
      is delivered without its first part: the loop clears the buffer after
      the timeout, and the next read returns only the rest. */
  lemma PartialLineLost(id: string, errPrefix: string, head: string, rest: string,
                        emitOk: nat -> bool, clock: nat -> nat)
    requires head != "" && forall k :: emitOk(k)
    ensures Undated(ReaderFrom(id, errPrefix, [TimedOut(head), Line(rest)], emitOk, clock, 0, 0))
            == [Delivered(id, RustTrimEnd(rest), false)]
    ensures RustTrimEnd(rest) != RustTrimEnd(head + rest) || rest == "" || IsRustWhitespace(rest[|rest| - 1])
  {
    var outcomes := [TimedOut(head), Line(rest)];
    ReaderDeliversLines(id, errPrefix, outcomes, emitOk, clock, 0, 0);
    assert outcomes[0..] == outcomes && outcomes[1..] == [Line(rest)] && outcomes[1..][1..] == [];
    assert LinesBeforeEnd([Line(rest)]) == [rest] + LinesBeforeEnd([]);
    assert LinesBeforeEnd(outcomes) == LinesBeforeEnd([Line(rest)]);
    assert ErrorAtEnd([Line(rest)]) == ErrorAtEnd([]);
    assert ErrorAtEnd(outcomes) == ErrorAtEnd([Line(rest)]);
    assert LineMessages(id, [rest]) == [Delivered(id, RustTrimEnd(rest), false)] + LineMessages(id, []);
    if rest != "" && !IsRustWhitespace(rest[|rest| - 1]) {
      var whole := head + rest;
      assert whole[|whole| - 1] == rest[|rest| - 1];
      assert RustTrimEnd(rest) == rest && RustTrimEnd(whole) == whole;
      assert |whole| > |rest|;
    }
  }

  predicate ErrorLastOnly(ms: seq<ConnectionMessage>, id: string, errPrefix: string)
  {
    (forall k :: 0 <= k < |ms| ==> ms[k].connectionId == id) &&
    (forall k :: 0 <= k < |ms| - 1 ==> !ms[k].isError) &&
    (forall k :: 0 <= k < |ms| && ms[k].isError ==> StartsWith(ms[k].data, errPrefix))
  }

  /** Only the last message of a reader can be an error, every message carries
      the connection id, and an error message is the prefix and the OS error. */
  lemma {:induction false} ReaderErrorIsLast(id: string, errPrefix: string, outcomes: seq<ReadOutcome>,
                                             emitOk: nat -> bool, clock: nat -> nat, i: nat, attempts: nat)
    ensures ErrorLastOnly(ReaderFrom(id, errPrefix, outcomes, emitOk, clock, i, attempts), id, errPrefix)
    decreases |outcomes| - i
  {
    if i < |outcomes| {
      match outcomes[i]
      case Eof =>
      case TimedOut(_) =>
        assert ReaderFrom(id, errPrefix, outcomes, emitOk, clock, i, attempts)
            == ReaderFrom(id, errPrefix, outcomes, emitOk, clock, i + 1, attempts);
        ReaderErrorIsLast(id, errPrefix, outcomes, emitOk, clock, i + 1, attempts);
      case Line(s) =>
        ReaderErrorIsLast(id, errPrefix, outcomes, emitOk, clock, i + 1, attempts + 1);
        var rest := ReaderFrom(id, errPrefix, outcomes, emitOk, clock, i + 1, attempts + 1);
        if emitOk(attempts) {
          var m := ConnectionMessage(id, RustTrimEnd(s), Millis(clock(i)), false);
          var ms := [m] + rest;
          assert ReaderFrom(id, errPrefix, outcomes, emitOk, clock, i, attempts) == ms;
          forall k | 1 <= k < |ms| ensures ms[k] == rest[k - 1] { }
          assert ErrorLastOnly(ms, id, errPrefix);
        }
      case ReadErr(e) =>
        assert (errPrefix + e)[..|errPrefix|] == errPrefix;
    }
  }

  /** A reader delivers at most one message per outcome. */
  lemma {:induction false} ReaderBounded(id: string, errPrefix: string, outcomes: seq<ReadOutcome>,
                                         emitOk: nat -> bool, clock: nat -> nat, i: nat, attempts: nat)
    requires i <= |outcomes|
    ensures |ReaderFrom(id, errPrefix, outcomes, emitOk, clock, i, attempts)| <= |outcomes| - i
    decreases |outcomes| - i
  {
    if i < |outcomes| {
      match outcomes[i]
      case Eof =>
      case TimedOut(_) =>
        assert ReaderFrom(id, errPrefix, outcomes, emitOk, clock, i, attempts)
            == ReaderFrom(id, errPrefix, outcomes, emitOk, clock, i + 1, attempts);
        ReaderBounded(id, errPrefix, outcomes, emitOk, clock, i + 1, attempts);
      case Line(s) =>
        ReaderBounded(id, errPrefix, outcomes, emitOk, clock, i + 1, attempts + 1);
      case ReadErr(e) =>
    }
  }

  /** The first EOF or read error ends the reader: whatever is read after it
      changes nothing, whether or not the emits succeed. */
  lemma {:induction false} ReaderStopsAtError(id: string, errPrefix: string, outcomes: seq<ReadOutcome>,
                                              emitOk: nat -> bool, clock: nat -> nat, i: nat, j: nat, attempts: nat)
    requires i <= j < |outcomes| && (outcomes[j].Eof? || outcomes[j].ReadErr?)
    ensures ReaderFrom(id, errPrefix, outcomes, emitOk, clock, i, attempts)
            == ReaderFrom(id, errPrefix, outcomes[..j + 1], emitOk, clock, i, attempts)
    decreases j - i
  {
    assert outcomes[..j + 1][i] == outcomes[i];
    if i < j {
      match outcomes[i]
      case Eof =>
      case ReadErr(_) =>
      case TimedOut(_) =>
        ReaderStopsAtError(id, errPrefix, outcomes, emitOk, clock, i + 1, j, attempts);
      case Line(_) =>
        ReaderStopsAtError(id, errPrefix, outcomes, emitOk, clock, i + 1, j, attempts + 1);
    }
  }
}
