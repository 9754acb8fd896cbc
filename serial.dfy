/** The host's serial session (`src-tauri/src/serial.rs`): the connected port,
    the link settings, the line transcript, the commands the front end calls,
    and one pass of the background monitor loop.

    The operating system's answers (the list of ports, opening a port, a
    write, a read) are parameters of the commands that use them, so each
    command is specified for every answer the system may give. */
module Serial {
  import opened Common
  import opened Settings
  import Lines

  /** An open port. The model records the path and the baud rate it was opened
      with; `name` is what the driver reports for it, possibly nothing. */
  datatype Connection = Connection(path: string, baudRate: u32, name: Option<string>)

  /** What the driver answers to an attempt to open a port. */
  datatype OpenOutcome = Opened(name: Option<string>) | OpenFailed(reason: string)

  /** What the driver answers to a write. */
  /** What the port's `write` does with the bytes handed to it: takes them
      all, takes only the first `count` of them, or fails. */
  datatype WriteOutcome = Written | ShortWrite(count: nat) | WriteFailed(reason: string)

  /** The kinds of read error the monitor tells apart. */
  datatype IoErrorKind = BrokenPipe | TimedOut | OtherIoError

  /** What the driver answers to a read: the decoded chunk, or an error. */
  datatype ReadOutcome = ReadOk(message: string) | ReadFailed(kind: IoErrorKind)

  /** The kinds of port the driver enumerates; only USB ports are offered. */
  datatype PortType = UsbPort | PciPort | BluetoothPort | UnknownPort
  datatype PortInfo = PortInfo(portName: string, portType: PortType)

  /** Events the monitor emits to the front end. */
  datatype Event = SerialMessageReceived(line: string) | SerialDisconnected

  /** The monitor splits on every character whose low byte is a line feed
      (the `b as u8 == b'\n'` test truncates the code point to 8 bits). */
  predicate IsLineBreak(c: char)
  {
    (c as int) % 256 == 10
  }

  const ConnectPrefix := "Failed to connect to "

  /** The error text of a failed open: it names the port that was requested. */
  function ConnectFailure(port: string, reason: string): (msg: string)
    ensures |msg| > |ConnectPrefix| + |port|
    ensures msg[..|ConnectPrefix| + |port|] == ConnectPrefix + port
  {
    var msg := ConnectPrefix + port + "\n" + reason;
    assert msg[..|ConnectPrefix| + |port|] == ConnectPrefix + port;
    msg
  }

  /** The name a successful open reports, with the fallback the commands use. */
  function ReportedName(name: Option<string>): string
  {
    if name.Some? then name.value else "Unknown"
  }

  /** The names of the USB ports among `ports`, in enumeration order. */
  function UsbPortNames(ports: seq<PortInfo>): (names: seq<string>)
    ensures |names| <= |ports|
    decreases |ports|
  {
    if |ports| == 0 then []
    else
      var last := ports[|ports| - 1];
      UsbPortNames(ports[..|ports| - 1]) + (if last.portType == UsbPort then [last.portName] else [])
  }

  /** A name is offered exactly when some USB port carries it. */
  lemma {:induction false} UsbPortNamesExact(ports: seq<PortInfo>, name: string)
    ensures name in UsbPortNames(ports) <==>
            exists i :: 0 <= i < |ports| && ports[i].portType == UsbPort && ports[i].portName == name
    decreases |ports|
  {
    if |ports| > 0 {
      var init := ports[..|ports| - 1];
      UsbPortNamesExact(init, name);
      assert forall i :: 0 <= i < |init| ==> init[i] == ports[i];
    }
  }

  /** The names keep the enumeration order and each USB port contributes its
      name once: a lone port gives its name exactly when it is a USB port,
      and the names of a concatenation are the names of its parts, in order. */
  lemma {:induction false} UsbPortNamesInOrder(a: seq<PortInfo>, b: seq<PortInfo>)
    ensures |a| == 1 ==> UsbPortNames(a) == (if a[0].portType == UsbPort then [a[0].portName] else [])
    ensures UsbPortNames(a + b) == UsbPortNames(a) + UsbPortNames(b)
    decreases |b|
  {
    if |a| == 1 {
      assert a[..0] == [];
    }
    if |b| == 0 {
      assert a + b == a;
    } else {
      var init := b[..|b| - 1];
      UsbPortNamesInOrder(a, init);
      assert (a + b)[..|a + b| - 1] == a + init;
    }
  }

  /** `get_ports`: the USB ports' names in order, or an error when the
      system cannot enumerate ports. */
  method GetPorts(available: Result<seq<PortInfo>, string>) returns (r: Result<seq<string>, string>)
    ensures available.Err? ==> r == Err("Error reading ports")
    ensures available.Ok? ==> r == Ok(UsbPortNames(available.value))
  {
    if available.Err? {
      return Err("Error reading ports");
    }
    var ports := available.value;
    var portNames: seq<string> := [];
    for i := 0 to |ports|
      invariant portNames == UsbPortNames(ports[..i])
    {
      assert ports[..i + 1][..i] == ports[..i];
      if ports[i].portType == UsbPort {
        portNames := portNames + [ports[i].portName];
      }
    }
    assert ports[..|ports|] == ports;
    r := Ok(portNames);
  }

  /** The serial part of the application state, `SerialData`. */
  class SerialData {
    var settings: SerialSettings
    var content: seq<string>
    var connectedPort: Option<Connection>

    /** `SerialData::default()`: baud rate 0, empty transcript, no port. */
    constructor ()
      ensures settings.baudRate == 0 && content == [] && connectedPort == None
    {
      settings := DefaultSerialSettings;
      content := [];
      connectedPort := None;
    }

    /** `set_port`: the old connection is dropped first; then the requested
        port is opened at the stored baud rate. On failure no port is left
        connected and the error names the requested port. */
    method SetPort(port: string, outcome: OpenOutcome) returns (r: Result<string, string>)
      modifies this
      ensures settings == old(settings) && content == old(content)
      ensures outcome.Opened? ==>
                connectedPort == Some(Connection(port, settings.baudRate, outcome.name))
                && r == Ok(ReportedName(outcome.name))
      ensures outcome.OpenFailed? ==>
                connectedPort == None && r == Err(ConnectFailure(port, outcome.reason))
    {
      connectedPort := None;
      match outcome
      case Opened(name) =>
        connectedPort := Some(Connection(port, settings.baudRate, name));
        r := Ok(ReportedName(name));
      case OpenFailed(reason) =>
        r := Err(ConnectFailure(port, reason));
    }

    /** `set_baud_rate`: the new rate is always stored. A connected port that
        reports its name is reopened under that name at the new rate (the
        outcome is the driver's answer to that reopening); without a port, or
        when the port reports no name, the command succeeds with "" and the
        connection is left as it was. */
    method SetBaudRate(baudRate: u32, outcome: OpenOutcome) returns (r: Result<string, string>)
      modifies this
      ensures settings == SerialSettings(baudRate) && content == old(content)
      ensures old(connectedPort).None? ==> connectedPort == None && r == Ok("")
      ensures old(connectedPort).Some? && old(connectedPort).value.name.None? ==>
                connectedPort == old(connectedPort) && r == Ok("")
      ensures old(connectedPort).Some? && old(connectedPort).value.name.Some? ==>
                var reopened := old(connectedPort).value.name.value;
                (outcome.Opened? ==>
                   connectedPort == Some(Connection(reopened, baudRate, outcome.name))
                   && r == Ok(ReportedName(outcome.name)))
                && (outcome.OpenFailed? ==>
                   connectedPort == None && r == Err(ConnectFailure(reopened, outcome.reason)))
    {
      settings := settings.(baudRate := baudRate);
      var port: string;
      match connectedPort {
        case None => return Ok("");
        case Some(p) =>
          match p.name {
            case None => return Ok("");
            case Some(name) => port := name;
          }
      }
      connectedPort := None;
      match outcome
      case Opened(name) =>
        connectedPort := Some(Connection(port, settings.baudRate, name));
        r := Ok(ReportedName(name));
      case OpenFailed(reason) =>
        r := Err(ConnectFailure(port, reason));
    }

    /** `get_active_port`: never fails and changes nothing; the connected
        port's reported name, or "" when there is none or it reports none. */
    method GetActivePort() returns (r: Result<string, string>)
      ensures r.Ok?
      ensures connectedPort.Some? && connectedPort.value.name.Some? ==> r.value == connectedPort.value.name.value
      ensures connectedPort.None? || connectedPort.value.name.None? ==> r.value == ""
    {
      if connectedPort.Some? {
        var name := if connectedPort.value.name.Some? then connectedPort.value.name.value else "";
        return Ok(name);
      }
      return Ok("");
    }

    /** `send_serial_message`: with a port connected, hands the message with
        one line feed appended (`sent`) to the port's `write`; otherwise fails
        without writing. A write that takes only part of the line is still
        answered with success, since the count it returns is ignored. It only
        reads the state, so the transcript is never touched. */
    method SendSerialMessage(message: string, outcome: WriteOutcome)
      returns (r: Result<string, string>, sent: Option<string>)
      ensures connectedPort.None? ==> r == Err("No port connected") && sent == None
      ensures connectedPort.Some? ==> sent == Some(message + "\n")
      ensures connectedPort.Some? && (outcome.Written? || outcome.ShortWrite?) ==> r == Ok("")
      ensures connectedPort.Some? && outcome.WriteFailed? ==>
                r == Err("Serial port error while trying to send message: " + message + "\n"
                         + "\n" + outcome.reason)
    {
      if connectedPort.Some? {
        var line := message + "\n";
        sent := Some(line);
        match outcome
        case Written =>
          return Ok(""), sent;
        case ShortWrite(_) =>
          return Ok(""), sent;
        case WriteFailed(reason) =>
          assert "Serial port error while trying to send message: " + line + "\n" + reason
              == "Serial port error while trying to send message: " + message + "\n" + "\n" + reason;
          return Err("Serial port error while trying to send message: " + line + "\n" + reason), sent;
      } else {
        return Err("No port connected"), None;
      }
    }

    /** `get_serial_content`: always succeeds with a copy of the transcript. */
    method GetSerialContent() returns (r: Result<seq<string>, string>)
      ensures r.Ok? && r.value == content
    {
      r := Ok(content);
    }

    /** `clear_serial_content`: the transcript becomes one empty line (not
        the empty sequence); nothing else changes. */
    method ClearSerialContent() returns (r: Result<(), string>)
      modifies this
      ensures content == [""] && r == Ok(())
      ensures settings == old(settings) && connectedPort == old(connectedPort)
    {
      content := [""];
      r := Ok(());
    }

    /** The body of the monitor's `for_each`: every piece of `message`
        between line breaks is pushed onto the transcript, in order. */
    method PushLines(message: string) returns (pushed: seq<string>)
      modifies this`content
      ensures pushed == Lines.Split(message, IsLineBreak)
      ensures content == old(content) + pushed
    {
      var current := "";
      pushed := [];
      for i := 0 to |message|
        invariant Lines.Split(message[..i], IsLineBreak) == pushed + [current]
        invariant content == old(content) + pushed
      {
        Lines.SplitSnoc(message[..i], message[i], IsLineBreak);
        Lines.ExtendLast(pushed, current, message[i], IsLineBreak);
        assert message[..i + 1] == message[..i] + [message[i]];
        if IsLineBreak(message[i]) {
          pushed := pushed + [current];
          content := content + [current];
          current := "";
        } else {
          current := current + [message[i]];
        }
      }
      assert message[..|message|] == message;
      pushed := pushed + [current];
      content := content + [current];
    }

    /** One pass of `serial_monitor`, given the read's outcome. While a port
        is connected, a chunk is split at line breaks and every piece, empty
        ones included, is pushed onto the transcript in order and emitted; a
        broken pipe drops the port; a timeout or any other error changes
        nothing. Without a port the pass does nothing. */
    method MonitorStep(read: ReadOutcome) returns (events: seq<Event>)
      modifies this
      ensures settings == old(settings)
      ensures old(connectedPort).None? ==> content == old(content) && connectedPort == None && events == []
      ensures old(connectedPort).Some? && read.ReadOk? ==>
                var lines := Lines.Split(read.message, IsLineBreak);
                content == old(content) + lines && connectedPort == old(connectedPort)
                && |events| == |lines|
                && forall i :: 0 <= i < |lines| ==> events[i] == SerialMessageReceived(lines[i])
      ensures old(connectedPort).Some? && read.ReadFailed? ==>
                content == old(content)
                && connectedPort == (if read.kind == BrokenPipe then None else old(connectedPort))
                && events == (if read.kind == BrokenPipe then [SerialDisconnected] else [])
    {
      events := [];
      if connectedPort.None? {
        return;
      }
      match read
      case ReadOk(message) =>
        var lines := PushLines(message);
        events := seq(|lines|, i requires 0 <= i < |lines| => SerialMessageReceived(lines[i]));
      case ReadFailed(kind) =>
        if kind == BrokenPipe {
          connectedPort := None;
          events := [SerialDisconnected];
        }
    }
  }
}
