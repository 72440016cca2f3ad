/** The WebSocket ingress of hooks/use-serial-data.ts: the connection status,
    the latest sample, the bounded raw-message log, the socket reference and
    the mock-data generator, driven by the user's actions (`connect`,
    `disconnect`, `toggleMockData`, `sendCommand`) and by the socket's
    callbacks (`onopen`, `onmessage`, `onerror`, `onclose`), each of which is
    one method call here.  Sockets are named by the order in which they were
    created, so that a callback of an old socket can be told apart from one of
    the current socket. */
module SerialData {
  import opened JsBuiltins

  datatype Accelerometer = Accelerometer(x: real, y: real, z: real)

  /** x² + y² + z², the square of the acceleration magnitude. */
  function SquaredMagnitude(a: Accelerometer): (r: real)
    ensures r >= 0.0
  {
    a.x * a.x + a.y * a.y + a.z * a.z
  }

  /** `SerialData`: one reading of the glove. */
  datatype Sample = Sample(
    heartRate: int,
    fsrIndex: int,
    fsrMiddle: int,
    fsrImpact: int,
    accelerometer: Accelerometer,
    punchCount: int)

  datatype ConnectionStatus = Disconnected | Connecting | Connected | Error

  datatype RawKind = DataEntry | StatusEntry | ErrorEntry

  /** What a raw-log entry holds (`content: any` in the source). */
  datatype RawContent =
    | Text(text: string)
    | Payload(sample: Sample)
    | StatusPayload(connected: bool, message: string)
    | CommandPayload(command: string, params: string)

  /** A raw-log entry; its receipt time is not modelled. */
  datatype RawMessage = RawMessage(kind: RawKind, content: RawContent)

  /** A WebSocket message after `JSON.parse`: either the parse (or reading a
      field of the result) threw, or it is a data, status or other message. */
  datatype Incoming =
    | Unparseable(reason: string)
    | DataMessage(data: Sample)
    | StatusMessage(connected: bool, message: string)
    | OtherMessage

  /** The `readyState` of a browser WebSocket. */
  datatype ReadyState = CONNECTING | OPEN | CLOSING | CLOSED {
    /** Not yet closing: the socket may still open or deliver messages. */
    predicate Live() {
      CONNECTING? || OPEN?
    }
  }

  const LogCapacity: nat := 100

  /** `ws.close()`: a connecting or open socket starts closing; closing it
      again does nothing. */
  function CloseSocket(sockets: seq<ReadyState>, id: nat): (r: seq<ReadyState>)
    requires id < |sockets|
    ensures |r| == |sockets| && !r[id].Live()
    ensures forall i :: 0 <= i < |r| && i != id ==> r[i] == sockets[i]
    ensures !sockets[id].Live() ==> r == sockets
  {
    if sockets[id].Live() then sockets[id := CLOSING] else sockets
  }

  /** The status a `status` message leaves behind. */
  function StatusFromMessage(connected: bool): (s: ConnectionStatus)
    ensures s == Connected <==> connected
    ensures s in {Connected, Disconnected}
  {
    if connected then Connected else Disconnected
  }

  // ------------------------------------------------------------ mock data

  /** The seven `Math.random()` draws of one mock sample. */
  datatype MockDraws = MockDraws(heart: real, index: real, middle: real, impact: real, x: real, y: real, z: real)

  predicate IsRandom(r: real)
  {
    0.0 <= r < 1.0
  }

  predicate ValidDraws(d: MockDraws)
  {
    IsRandom(d.heart) && IsRandom(d.index) && IsRandom(d.middle) && IsRandom(d.impact)
    && IsRandom(d.x) && IsRandom(d.y) && IsRandom(d.z)
  }

  /** `Math.floor(r * 200 - 100) / 10`: an axis reading in tenths. */
  function MockAxis(r: real): (a: real)
    requires IsRandom(r)
    ensures -10.0 <= a <= 9.9
  {
    (r * 200.0 - 100.0).Floor as real / 10.0
  }

  /** `Math.floor(r * 1024)`: a raw FSR reading. */
  function MockForce(r: real): (f: int)
    requires IsRandom(r)
    ensures 0 <= f <= 1023
  {
    (r * 1024.0).Floor
  }

  /** The sample the mock generator builds from its random draws; the
      punch count it carries is passed in. */
  function MockSample(d: MockDraws, punchCount: int): (s: Sample)
    requires ValidDraws(d)
    ensures 60 <= s.heartRate <= 159
    ensures 0 <= s.fsrIndex <= 1023 && 0 <= s.fsrMiddle <= 1023 && 0 <= s.fsrImpact <= 1023
    ensures -10.0 <= s.accelerometer.x <= 9.9 && -10.0 <= s.accelerometer.y <= 9.9
    ensures -10.0 <= s.accelerometer.z <= 9.9
    ensures s.punchCount == punchCount
  {
    Sample(
      (60.0 + d.heart * 100.0).Floor,
      MockForce(d.index), MockForce(d.middle), MockForce(d.impact),
      Accelerometer(MockAxis(d.x), MockAxis(d.y), MockAxis(d.z)),
      punchCount)
  }

  // ----------------------------------------------------------- the hook

  class Connection {
    var data: Option<Sample>
    var rawMessages: seq<RawMessage>
    var connectionStatus: ConnectionStatus
    var error: Option<string>
    var isMockActive: bool
    /** `wsRef.current`: the socket the hook refers to, if any. */
    var ws: Option<nat>
    /** The ready state of every socket created so far, by creation order. */
    var sockets: seq<ReadyState>
    /** `mockIntervalRef.current != null`: the generator is scheduled. */
    var mockRunning: bool

    /** The log is bounded, the reference names a created socket, and the
        `isMockActive` flag mirrors the generator. */
    ghost predicate Valid()
      reads this
    {
      |rawMessages| <= LogCapacity
      && (ws.Some? ==> ws.value < |sockets|)
      && isMockActive == mockRunning
    }

    /** Every socket that is still connecting or open is the one referred to,
        so it can be closed and used: none is orphaned. */
    ghost predicate NoOrphanSocket()
      reads this
    {
      forall i :: 0 <= i < |sockets| && sockets[i].Live() ==> ws == Some(i)
    }

    constructor ()
      ensures Valid() && NoOrphanSocket()
      ensures data == None && rawMessages == [] && connectionStatus == Disconnected
      ensures error == None && !isMockActive && ws == None && sockets == [] && !mockRunning
    {
      data := None;
      rawMessages := [];
      connectionStatus := Disconnected;
      error := None;
      isMockActive := false;
      ws := None;
      sockets := [];
      mockRunning := false;
    }

    /** `addRawMessage`: append, then keep the newest 100. */
    method AddRawMessage(kind: RawKind, content: RawContent)
      requires Valid()
      modifies this`rawMessages
      ensures Valid()
      ensures rawMessages == LastN(old(rawMessages) + [RawMessage(kind, content)], LogCapacity)
    {
      var appended := rawMessages + [RawMessage(kind, content)];
      if |appended| > LogCapacity {
        appended := appended[|appended| - LogCapacity..];
      }
      rawMessages := appended;
    }

    /** `connect`: status "connecting" with the error cleared, the current
        socket (if any) closed, then a new socket created and referred to.
        `failure` is the message of an exception thrown while creating it. */
    method Connect(failure: Option<string>)
      requires Valid()
      modifies this
      ensures Valid()
      ensures old(NoOrphanSocket()) ==> NoOrphanSocket()
      ensures data == old(data) && isMockActive == old(isMockActive) && mockRunning == old(mockRunning)
      ensures var closed := if old(ws).Some? then CloseSocket(old(sockets), old(ws).value) else old(sockets);
        match failure
        case None =>
          && connectionStatus == Connecting && error == None
          && sockets == closed + [CONNECTING] && ws == Some(|closed|)
          && rawMessages == old(rawMessages)
        case Some(msg) =>
          && connectionStatus == Error && error == Some("Connection failed: " + msg)
          && sockets == closed && ws == old(ws)
          && rawMessages == LastN(old(rawMessages) + [RawMessage(ErrorEntry, Text("Connection failed: " + msg))], LogCapacity)
    {
      connectionStatus := Connecting;
      error := None;
      if ws.Some? {
        sockets := CloseSocket(sockets, ws.value);
      }
      if failure.Some? {
        connectionStatus := Error;
        error := Some("Connection failed: " + failure.value);
        AddRawMessage(ErrorEntry, Text("Connection failed: " + failure.value));
      } else {
        sockets := sockets + [CONNECTING];
        ws := Some(|sockets| - 1);
      }
    }

    /** `ws.onopen` of socket `id`. */
    method OnOpen(id: nat)
      requires Valid() && id < |sockets| && sockets[id] == CONNECTING
      modifies this
      ensures Valid()
      ensures old(NoOrphanSocket()) ==> NoOrphanSocket()
      ensures sockets == old(sockets)[id := OPEN] && connectionStatus == Connected
      ensures rawMessages == LastN(old(rawMessages) + [RawMessage(StatusEntry, Text("WebSocket connected"))], LogCapacity)
      ensures data == old(data) && error == old(error) && ws == old(ws)
      ensures isMockActive == old(isMockActive) && mockRunning == old(mockRunning)
    {
      sockets := sockets[id := OPEN];
      connectionStatus := Connected;
      AddRawMessage(StatusEntry, Text("WebSocket connected"));
    }

    /** `ws.onmessage` of an open socket. */
    method OnMessage(id: nat, message: Incoming)
      requires Valid() && id < |sockets| && sockets[id] == OPEN
      modifies this
      ensures Valid()
      ensures sockets == old(sockets) && ws == old(ws) && error == old(error)
      ensures isMockActive == old(isMockActive) && mockRunning == old(mockRunning)
      ensures NoOrphanSocket() == old(NoOrphanSocket())
      ensures match message
        case Unparseable(reason) =>
          && data == old(data) && connectionStatus == old(connectionStatus)
          && rawMessages == LastN(old(rawMessages) + [RawMessage(ErrorEntry, Text("Parse error: " + reason))], LogCapacity)
        case DataMessage(d) =>
          && data == Some(d) && connectionStatus == old(connectionStatus)
          && rawMessages == LastN(old(rawMessages) + [RawMessage(DataEntry, Payload(d))], LogCapacity)
        case StatusMessage(connected, text) =>
          && data == old(data) && connectionStatus == StatusFromMessage(connected)
          && rawMessages == LastN(old(rawMessages) + [RawMessage(StatusEntry, StatusPayload(connected, text))], LogCapacity)
        case OtherMessage =>
          && data == old(data) && connectionStatus == old(connectionStatus)
          && rawMessages == old(rawMessages)
    {
      match message
      case Unparseable(reason) =>
        AddRawMessage(ErrorEntry, Text("Parse error: " + reason));
      case DataMessage(d) =>
        data := Some(d);
        AddRawMessage(DataEntry, Payload(d));
      case StatusMessage(connected, text) =>
        AddRawMessage(StatusEntry, StatusPayload(connected, text));
        connectionStatus := StatusFromMessage(connected);
      case OtherMessage =>
    }

    /** `ws.onerror` of a socket that has not closed yet. */
    method OnError(id: nat)
      requires Valid() && id < |sockets| && sockets[id] != CLOSED
      modifies this
      ensures Valid()
      ensures connectionStatus == Error && error == Some("WebSocket connection error")
      ensures rawMessages == LastN(old(rawMessages) + [RawMessage(ErrorEntry, Text("WebSocket error"))], LogCapacity)
      ensures sockets == old(sockets) && ws == old(ws) && data == old(data)
      ensures isMockActive == old(isMockActive) && mockRunning == old(mockRunning)
      ensures old(NoOrphanSocket()) ==> NoOrphanSocket()
    {
      connectionStatus := Error;
      error := Some("WebSocket connection error");
      AddRawMessage(ErrorEntry, Text("WebSocket error"));
    }

    /** `ws.onclose` exactly as written: whichever socket closed, the status
        becomes "disconnected" and the reference is cleared. */
    method OnCloseAsWritten(id: nat)
      requires Valid() && id < |sockets| && sockets[id] != CLOSED
      modifies this
      ensures Valid()
      ensures sockets == old(sockets)[id := CLOSED] && ws == None
      ensures connectionStatus == Disconnected
      ensures rawMessages == LastN(old(rawMessages) + [RawMessage(StatusEntry, Text("WebSocket closed"))], LogCapacity)
      ensures data == old(data) && error == old(error)
      ensures isMockActive == old(isMockActive) && mockRunning == old(mockRunning)
    {
      sockets := sockets[id := CLOSED];
      connectionStatus := Disconnected;
      AddRawMessage(StatusEntry, Text("WebSocket closed"));
      ws := None;
    }

    /** `ws.onclose` as intended: the close is logged, but only the close of
        the current socket changes the status and clears the reference; the
        late close of a socket that `Connect` already replaced leaves the new
        connection alone. */
    method OnClose(id: nat)
      requires Valid() && id < |sockets| && sockets[id] != CLOSED
      modifies this
      ensures Valid()
      ensures old(NoOrphanSocket()) ==> NoOrphanSocket()
      ensures sockets == old(sockets)[id := CLOSED]
      ensures rawMessages == LastN(old(rawMessages) + [RawMessage(StatusEntry, Text("WebSocket closed"))], LogCapacity)
      ensures old(ws) == Some(id) ==> ws == None && connectionStatus == Disconnected
      ensures old(ws) != Some(id) ==> ws == old(ws) && connectionStatus == old(connectionStatus)
      ensures data == old(data) && error == old(error)
      ensures isMockActive == old(isMockActive) && mockRunning == old(mockRunning)
    {
      sockets := sockets[id := CLOSED];
      AddRawMessage(StatusEntry, Text("WebSocket closed"));
      if ws == Some(id) {
        connectionStatus := Disconnected;
        ws := None;
      }
    }

    /** `disconnect`: close and forget the socket (status "disconnected"),
        and stop the mock generator; with no socket the status is kept. */
    method Disconnect()
      requires Valid()
      modifies this
      ensures Valid()
      ensures old(NoOrphanSocket()) ==> NoOrphanSocket()
      ensures ws == None && !mockRunning && !isMockActive
      ensures data == old(data) && error == old(error)
      ensures old(ws).Some? ==>
        && sockets == CloseSocket(old(sockets), old(ws).value)
        && connectionStatus == Disconnected
        && rawMessages == LastN(old(rawMessages) + [RawMessage(StatusEntry, Text("Disconnected by user"))], LogCapacity)
      ensures old(ws).None? ==>
        sockets == old(sockets) && connectionStatus == old(connectionStatus) && rawMessages == old(rawMessages)
    {
      if ws.Some? {
        sockets := CloseSocket(sockets, ws.value);
        ws := None;
        connectionStatus := Disconnected;
        AddRawMessage(StatusEntry, Text("Disconnected by user"));
      }
      if mockRunning {
        mockRunning := false;
        isMockActive := false;
      }
    }

    /** `toggleMockData`: stop a running generator (status "disconnected"),
        or start one (status "connected"); a second generator is never
        started while one runs. */
    method ToggleMockData()
      requires Valid()
      modifies this
      ensures Valid()
      ensures NoOrphanSocket() == old(NoOrphanSocket())
      ensures mockRunning == !old(mockRunning) && isMockActive == !old(isMockActive)
      ensures connectionStatus == if mockRunning then Connected else Disconnected
      ensures rawMessages == LastN(old(rawMessages)
        + [RawMessage(StatusEntry, Text(if mockRunning then "Mock data started" else "Mock data stopped"))], LogCapacity)
      ensures data == old(data) && error == old(error) && ws == old(ws) && sockets == old(sockets)
    {
      if mockRunning {
        mockRunning := false;
        isMockActive := false;
        connectionStatus := Disconnected;
        AddRawMessage(StatusEntry, Text("Mock data stopped"));
      } else {
        connectionStatus := Connected;
        isMockActive := true;
        mockRunning := true;
        AddRawMessage(StatusEntry, Text("Mock data started"));
      }
    }

    /** One tick of the mock generator's one-second interval. */
    method MockTick(draws: MockDraws, punchCount: int)
      requires Valid() && mockRunning && ValidDraws(draws)
      modifies this
      ensures Valid()
      ensures data == Some(MockSample(draws, punchCount))
      ensures rawMessages == LastN(old(rawMessages) + [RawMessage(DataEntry, Payload(MockSample(draws, punchCount)))], LogCapacity)
      ensures connectionStatus == old(connectionStatus) && error == old(error)
      ensures ws == old(ws) && sockets == old(sockets)
      ensures isMockActive == old(isMockActive) && mockRunning == old(mockRunning)
    {
      var sample := MockSample(draws, punchCount);
      data := Some(sample);
      AddRawMessage(DataEntry, Payload(sample));
    }

    /** `sendCommand`: only through an open current socket, and then the
        command is logged. */
    method SendCommand(command: string, params: string) returns (sent: bool)
      requires Valid()
      modifies this`rawMessages
      ensures Valid()
      ensures sent <==> ws.Some? && sockets[ws.value] == OPEN
      ensures sent ==> rawMessages == LastN(old(rawMessages) + [RawMessage(StatusEntry, CommandPayload(command, params))], LogCapacity)
      ensures !sent ==> rawMessages == old(rawMessages)
    {
      if ws.Some? && sockets[ws.value] == OPEN {
        AddRawMessage(StatusEntry, CommandPayload(command, params));
        sent := true;
      } else {
        sent := false;
      }
    }
  }

  /** Reconnecting while connected, then receiving the old socket's late
      close event, as the source handles it: the new socket is open but no
      longer referred to, so commands cannot be sent through it and
      `disconnect` cannot close it. */
  method StaleCloseAsWritten() returns (c: Connection, sent: bool)
    ensures c.Valid() && !c.NoOrphanSocket()
    ensures c.ws == None && c.sockets == [CLOSED, OPEN]
    ensures !sent
  {
    c := new Connection();
    c.Connect(None);
    c.OnOpen(0);
    c.Connect(None);
    c.OnOpen(1);
    c.OnCloseAsWritten(0);
    sent := c.SendCommand("reconnect", "");
  }

  /** The same events with the intended close handling: the new socket
      stays referred to, the connection stays "connected", commands go
      through. */
  method StaleCloseCorrected() returns (c: Connection, sent: bool)
    ensures c.Valid() && c.NoOrphanSocket()
    ensures c.ws == Some(1) && c.sockets == [CLOSED, OPEN] && c.connectionStatus == Connected
    ensures sent
  {
    c := new Connection();
    c.Connect(None);
    c.OnOpen(0);
    c.Connect(None);
    c.OnOpen(1);
    c.OnClose(0);
    sent := c.SendCommand("reconnect", "");
  }
}
