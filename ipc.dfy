/** The local IPC transport of ipc/ipc.go: the published descriptor, the
    server's bind strategy and the client's dial choice. Binding and dialling
    themselves are outcomes supplied by the caller. */
module Ipc {
  import opened Errors
  import opened Ints

  const SocketPath: string := "/tmp/hourtab.sock"
  /** `PortRange`: the scan starts at the first and stops before the second. */
  const PortLow: u16 := 49152
  const PortHigh: u16 := 65535

  const UnixSocketFailed: string := "Failed to make a Unix socket"
  const NoOpenPorts: string := "Can't find open ports from 49152 to 65535"
  const ConnectFailed: string := "Failed to connect"

  /** `NilArgument`, the placeholder argument and reply; `Nil` is its only value. */
  datatype NilArgument = Nil

  /** `IPCStatus`: where clients find the running daemon. */
  datatype IPCStatus = IPCStatus(socketPath: string, port: u16) {
    predicate IsUnixSocket() { socketPath != "" }
    predicate IsTCP() { port > 0 }
  }

  /** An address a listener is bound to or a client dials. */
  datatype Endpoint = UnixAt(path: string) | TcpAt(port: u16)

  /** What `NewServer` produces: the published status, and the endpoint of the
      listener the RPC server accepts connections on. */
  datatype Server = Server(status: IPCStatus, listener: Endpoint)

  /** A client; `conn` is the connection it was built on, if any. */
  datatype Client = Client(conn: Option<Endpoint>)

  /** The `runtime.GOOS` values for which a Unix socket is used. */
  predicate UsesUnixSocket(goos: string) {
    goos == "linux" || goos == "darwin" || goos == "bsd"
  }

  /** The ports the TCP scan hands to the listener, in order, from `lo` up to
      but not including `hi`. */
  function ScanRange(lo: u16, hi: u16): (ps: seq<u16>)
    ensures |ps| == if lo <= hi then hi - lo else 0
    ensures forall k :: 0 <= k < |ps| ==> lo <= ps[k] < hi
    ensures forall k, l :: 0 <= k < l < |ps| ==> ps[k] < ps[l]
    decreases hi
  {
    if hi <= lo then [] else ScanRange(lo, hi - 1) + [hi - 1]
  }

  /** The scan tries 49152 first and 65534 last, 16383 ports in all, and never 65535. */
  lemma {:induction false} ScanRangeBounds()
    ensures |ScanRange(PortLow, PortHigh)| == 16383
    ensures ScanRange(PortLow, PortHigh)[0] == 49152
    ensures ScanRange(PortLow, PortHigh)[16382] == 65534
    ensures 65535 !in ScanRange(PortLow, PortHigh)
  {
    ScanRangeEnds(PortLow, PortHigh);
  }

  lemma {:induction false} ScanRangeEnds(lo: u16, hi: u16)
    requires lo < hi
    ensures ScanRange(lo, hi)[0] == lo
    ensures ScanRange(lo, hi)[hi - lo - 1] == hi - 1
    decreases hi
  {
    if lo < hi - 1 {
      ScanRangeEnds(lo, hi - 1);
    }
  }

  /** The transport a client dials for a descriptor: the Unix socket whenever
      a socket path is recorded, even when a port is recorded too; TCP only
      when there is no socket path and the port is positive; nothing when
      neither is set. */
  function DialTarget(s: IPCStatus): (t: Option<Endpoint>)
    ensures s.socketPath != "" ==> t == Some(UnixAt(s.socketPath))
    ensures s.socketPath == "" && s.port > 0 ==> t == Some(TcpAt(s.port))
    ensures t.None? <==> s.socketPath == "" && s.port == 0
  {
    if s.IsUnixSocket() then Some(UnixAt(s.socketPath))
    else if s.IsTCP() then Some(TcpAt(s.port))
    else None
  }

  /** A client given `s` reaches the listener at `e`. */
  predicate Describes(s: IPCStatus, e: Endpoint) {
    DialTarget(s) == Some(e)
  }

  /** `NewServer` as written. `listenUnix` is the outcome of listening on the
      socket path, `listenTcp(p)` whether listening on port `p` succeeds;
      `attempts` are the TCP ports tried, in order. The scan does not stop at
      a successful bind: it always runs to the end of the range, keeps the
      listener of the last attempt and records the port the loop exits with. */
  method NewServer(goos: string, listenUnix: Outcome, listenTcp: u16 -> bool)
    returns (r: Result<Server>, attempts: seq<u16>)
    ensures UsesUnixSocket(goos) ==> attempts == []
    ensures UsesUnixSocket(goos) ==>
      r == if listenUnix.Ok? then Success(Server(IPCStatus(SocketPath, 0), UnixAt(SocketPath)))
           else Failure(Wrapped(UnixSocketFailed, listenUnix.error))
    ensures !UsesUnixSocket(goos) ==> attempts == ScanRange(PortLow, PortHigh)
    ensures !UsesUnixSocket(goos) ==>
      r == if listenTcp(PortHigh - 1) then Success(Server(IPCStatus("", PortHigh), TcpAt(PortHigh - 1)))
           else Failure(Message(NoOpenPorts))
    ensures r.Success? ==> r.value.status.IsUnixSocket() != r.value.status.IsTCP()
    // the discrepancy: on a TCP platform the descriptor never leads to the listener
    ensures !UsesUnixSocket(goos) && r.Success? ==> !Describes(r.value.status, r.value.listener)
  {
    attempts := [];
    var status := IPCStatus("", 0);
    if UsesUnixSocket(goos) {
      status := status.(socketPath := SocketPath);
      if listenUnix.Fail? {
        r := Failure(Wrapped(UnixSocketFailed, listenUnix.error));
        return;
      }
      r := Success(Server(status, UnixAt(SocketPath)));
    } else {
      var port := PortLow;
      var listener: Option<Endpoint> := None;
      var failed := false;
      while port < PortHigh
        invariant PortLow <= port <= PortHigh
        invariant attempts == ScanRange(PortLow, port)
        invariant port > PortLow ==> failed == !listenTcp(port - 1)
        invariant port > PortLow ==> listener == if failed then None else Some(TcpAt(port - 1))
      {
        attempts := attempts + [port];
        if listenTcp(port) {
          listener, failed := Some(TcpAt(port)), false;
        } else {
          listener, failed := None, true;
        }
        port := port + 1;
      }
      status := status.(port := port);
      if failed {
        r := Failure(Message(NoOpenPorts));
        return;
      }
      r := Success(Server(status, listener.value));
    }
  }

  /** The scan as evidently intended: stop at the first port that binds and
      record that port, failing only when no port of the range binds. */
  method NewServerFirstFree(goos: string, listenUnix: Outcome, listenTcp: u16 -> bool)
    returns (r: Result<Server>, attempts: seq<u16>)
    ensures UsesUnixSocket(goos) ==> attempts == []
    ensures UsesUnixSocket(goos) ==>
      r == if listenUnix.Ok? then Success(Server(IPCStatus(SocketPath, 0), UnixAt(SocketPath)))
           else Failure(Wrapped(UnixSocketFailed, listenUnix.error))
    ensures !UsesUnixSocket(goos) ==>
      (r.Success? <==> exists p: u16 :: PortLow <= p < PortHigh && listenTcp(p))
    ensures !UsesUnixSocket(goos) && r.Success? ==>
      && PortLow <= r.value.status.port < PortHigh
      && r.value == Server(IPCStatus("", r.value.status.port), TcpAt(r.value.status.port))
      && listenTcp(r.value.status.port)
      && (forall q: u16 :: PortLow <= q < r.value.status.port ==> !listenTcp(q))
      && attempts == ScanRange(PortLow, r.value.status.port + 1)
    ensures !UsesUnixSocket(goos) && r.Failure? ==>
      attempts == ScanRange(PortLow, PortHigh) && r.error == Message(NoOpenPorts)
    ensures r.Success? ==> r.value.status.IsUnixSocket() != r.value.status.IsTCP()
    ensures r.Success? ==> Describes(r.value.status, r.value.listener)
  {
    attempts := [];
    if UsesUnixSocket(goos) {
      if listenUnix.Fail? {
        r := Failure(Wrapped(UnixSocketFailed, listenUnix.error));
        return;
      }
      r := Success(Server(IPCStatus(SocketPath, 0), UnixAt(SocketPath)));
    } else {
      var port := PortLow;
      while port < PortHigh
        invariant PortLow <= port <= PortHigh
        invariant attempts == ScanRange(PortLow, port)
        invariant forall q: u16 :: PortLow <= q < port ==> !listenTcp(q)
      {
        attempts := attempts + [port];
        if listenTcp(port) {
          r := Success(Server(IPCStatus("", port), TcpAt(port)));
          return;
        }
        port := port + 1;
      }
      r := Failure(Message(NoOpenPorts));
    }
  }

  /** `NewClient`, given the outcome of dialling the chosen target. */
  method NewClient(s: IPCStatus, dial: Outcome) returns (r: Result<Client>)
    ensures DialTarget(s).None? ==> r == Success(Client(None))
    ensures DialTarget(s).Some? && dial.Fail? ==> r == Failure(Wrapped(ConnectFailed, dial.error))
    ensures DialTarget(s).Some? && dial.Ok? ==> r == Success(Client(DialTarget(s)))
  {
    var conn: Option<Endpoint> := None;
    var err: Option<Error> := None;
    if s.IsUnixSocket() {
      conn := Some(UnixAt(s.socketPath));
      if dial.Fail? { conn, err := None, Some(dial.error); }
    } else if s.IsTCP() {
      conn := Some(TcpAt(s.port));
      if dial.Fail? { conn, err := None, Some(dial.error); }
    }
    if err.Some? {
      r := Failure(Wrapped(ConnectFailed, err.value));
      return;
    }
    r := Success(Client(conn));
  }
}
