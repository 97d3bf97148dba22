/** The connection handler `handle_connection` (fastproxy.c:63-111): read the
    request header from the client, open and connect a socket to the local SSH
    daemon, reply with one of two fixed HTTP status lines, relay both directions
    until each ends, and close the descriptors.

    The world outside the process is a set of parameters: the octets the client
    sends for the header read and whether it then closes (`input`, `closed`),
    the descriptor `socket` returns (`socketFd`), whether `connect` succeeds
    (`connectOk`), what the `send` of the reply returns (`replyRet`), and one
    `recv`/`send` script per relay direction. The two `pipe_data` threads run one
    after the other here; each touches its own half of each socket's log (one
    reads the client and writes the backend, the other the reverse), so the
    final logs do not depend on how the threads interleave.

    The header read takes from `input` only up to the header end; what the client
    sends after it is what the upstream relay's `recv` calls return, so it belongs
    in the upstream script. Octets left in `input` past the header end are
    neither consumed nor relayed. */
module Handler {
  import opened Bytes
  import opened CString
  import opened Sockets
  import opened HeaderSniffer
  import opened Response
  import opened Relay

  /** `connection_t`: the client descriptor from `accept` and the backend
      descriptor, `null` standing for `ssh_fd == -1` as `main` sets it and for a
      negative result of `socket`. */
  class Connection {
    const client: Socket
    var ssh: Socket?

    constructor (client: Socket)
      ensures this.client == client && ssh == null
    {
      this.client := client;
      ssh := null;
    }
  }

  /** What the calls of one relay direction return. */
  datatype Script = Script(recvs: seq<RecvResult>, sends: seq<int>)

  predicate WellFormedScript(s: Script) {
    WellFormed(s.recvs)
  }

  /** How a connection ends. */
  datatype Outcome =
    | HeaderPending   // the client has sent no complete header and keeps the connection open: `recv` blocks
    | HeaderAborted   // a `recv` of the header returned <= 0
    | SocketFailed    // `socket` returned a negative descriptor
    | ConnectFailed   // `connect` returned < 0
    | Tunnelled(reply: seq<byte>, up: Transfer, down: Transfer)  // the reply went out and both directions ran

  /** The octets a `send` of `data` that returned `ret` put on the wire: none
      when it failed, at most what it was asked to write. */
  function SendPrefix(data: seq<byte>, ret: int): (w: seq<byte>)
    ensures w <= data
    ensures ret <= 0 ==> w == []
    ensures ret >= |data| ==> w == data
    ensures 0 <= ret <= |data| ==> |w| == ret
  {
    if ret <= 0 then [] else if ret >= |data| then data else data[..ret]
  }

  /** The outcome of `handle_connection` for the given environment. */
  function Expected(input: seq<byte>, closed: bool, socketFd: int, connectOk: bool, up: Script, down: Script): (o: Outcome)
    requires WellFormedScript(up) && WellFormedScript(down)
    ensures o.HeaderPending? <==> Sniff(input, closed).Pending?
    ensures o.HeaderAborted? <==> Sniff(input, closed).Aborted?
    ensures o.SocketFailed? <==> Sniff(input, closed).Header? && socketFd < 0
    ensures o.ConnectFailed? <==> Sniff(input, closed).Header? && socketFd >= 0 && !connectOk
  {
    match Sniff(input, closed)
    case Pending => HeaderPending
    case Aborted => HeaderAborted
    case Header(_) => Dialled(Captured(input, closed), socketFd, connectOk, up, down)
  }

  /** The outcome once the header octets `header` are captured. */
  function Dialled(header: seq<byte>, socketFd: int, connectOk: bool, up: Script, down: Script): (o: Outcome)
    requires WellFormedScript(up) && WellFormedScript(down)
    ensures o.SocketFailed? <==> socketFd < 0
    ensures o.ConnectFailed? <==> socketFd >= 0 && !connectOk
    ensures o.Tunnelled? <==> socketFd >= 0 && connectOk
  {
    if socketFd < 0 then SocketFailed
    else if !connectOk then ConnectFailed
    else Tunnelled(SelectResponse(header), Run(up.recvs, up.sends), Run(down.recvs, down.sends))
  }

  /** The backend is contacted and a reply is sent only once the header is
      complete: the captured octets end with the blank line "\r\n\r\n", or they
      fill the 16383 octets the buffer leaves before its last one. A header whose
      C string mentions "websocket" or "Upgrade" gets the 101 reply, any other the
      200 reply, and every octet delivered in either direction was read on the
      other side, in order. */
  lemma TunnelOnlyAfterHeader(input: seq<byte>, closed: bool, socketFd: int, connectOk: bool, up: Script, down: Script)
    requires WellFormedScript(up) && WellFormedScript(down)
    ensures var o := Expected(input, closed, socketFd, connectOk, up, down);
      o.Tunnelled? <==> Sniff(input, closed).Header? && socketFd >= 0 && connectOk
    ensures var o := Expected(input, closed, socketFd, connectOk, up, down);
      o.Tunnelled? ==>
        var h := Captured(input, closed);
        h <= input && 4 <= |h| <= MaxHeaderLen &&
        (|h| == MaxHeaderLen || h[|h| - 4..] == Terminator) &&
        (o.reply == SwitchingProtocols <==> Mentions(CStr(h), WebsocketToken) || Mentions(CStr(h), UpgradeToken)) &&
        (o.reply == ConnectionEstablished <==> !Mentions(CStr(h), WebsocketToken) && !Mentions(CStr(h), UpgradeToken)) &&
        o.up.delivered <= o.up.read <= StreamFrom(up.recvs, 0) &&
        o.down.delivered <= o.down.read <= StreamFrom(down.recvs, 0)
  {
    SniffSpec(input, closed);
    RunDeliversPrefix(up.recvs, up.sends);
    RunDeliversPrefix(down.recvs, down.sends);
  }

  /** The `cleanup:` label: close the client, and the backend when its
      descriptor is positive (so descriptor 0 is never closed here). */
  method Cleanup(conn: Connection)
    requires conn.ssh != conn.client
    modifies conn.client, conn.ssh
    ensures conn.client.log == old(conn.client.log).(closes := old(conn.client.log.closes) + 1)
    ensures conn.ssh != null ==>
      conn.ssh.log == old(conn.ssh.log).(closes := old(conn.ssh.log.closes) + if conn.ssh.fd > 0 then 1 else 0)
  {
    conn.client.Close();
    if conn.ssh != null && conn.ssh.fd > 0 {
      conn.ssh.Close();
    }
  }

  /** A failed `connect` as written: `close(conn->ssh_fd)` and then the cleanup,
      which closes the same positive descriptor a second time. */
  method AbortDialAsWritten(conn: Connection)
    requires conn.ssh != null && conn.ssh != conn.client
    modifies conn.client, conn.ssh
    ensures conn.client.log == old(conn.client.log).(closes := old(conn.client.log.closes) + 1)
    ensures conn.ssh.log == old(conn.ssh.log).(closes := old(conn.ssh.log.closes) + if conn.ssh.fd > 0 then 2 else 1)
  {
    conn.ssh.Close();
    Cleanup(conn);
  }

  /** A failed `connect` with the descriptor forgotten once it is closed
      (`ssh_fd = -1` before the cleanup): the backend is closed exactly once. */
  method AbortDial(conn: Connection)
    requires conn.ssh != null && conn.ssh != conn.client
    modifies conn, conn.client, conn.ssh
    ensures conn.ssh == null
    ensures conn.client.log == old(conn.client.log).(closes := old(conn.client.log.closes) + 1)
    ensures old(conn.ssh).log == old(conn.ssh.log).(closes := old(conn.ssh.log.closes) + 1)
  {
    conn.ssh.Close();
    conn.ssh := null;
    Cleanup(conn);
  }

  /** The part of `handle_connection` after a successful `connect`: send the
      reply, whose result is not checked, run both relay directions, clean up. */
  method Tunnel(conn: Connection, reply: seq<byte>, replyRet: int, up: Script, down: Script)
    requires conn.ssh != null && conn.ssh != conn.client
    requires WellFormedScript(up) && WellFormedScript(down)
    modifies conn.client, conn.ssh
    ensures conn.client.log == SocketLog(
      old(conn.client.log.written) + SendPrefix(reply, replyRet) + Run(down.recvs, down.sends).delivered,
      old(conn.client.log.consumed) + Run(up.recvs, up.sends).read,
      old(conn.client.log.readShutdowns) + 1,
      old(conn.client.log.writeShutdowns) + 1,
      old(conn.client.log.closes) + 1)
    ensures conn.ssh.log == SocketLog(
      old(conn.ssh.log.written) + Run(up.recvs, up.sends).delivered,
      old(conn.ssh.log.consumed) + Run(down.recvs, down.sends).read,
      old(conn.ssh.log.readShutdowns) + 1,
      old(conn.ssh.log.writeShutdowns) + 1,
      old(conn.ssh.log.closes) + if conn.ssh.fd > 0 then 1 else 0)
  {
    var client, backend := conn.client, conn.ssh;
    // send(conn->client_fd, response, strlen(response), 0)
    client.log := client.log.(written := client.log.written + SendPrefix(reply, replyRet));
    PipeData(client, backend, up.recvs, up.sends);
    PipeData(backend, client, down.recvs, down.sends);
    Cleanup(conn);
  }

  /** `handle_connection` from `socket` on, once the header octets `header` are
      captured: open the backend socket, connect it, and tunnel or clean up. On
      a failed `connect` the code as written closes a positive backend
      descriptor twice. */
  method Dial(conn: Connection, header: seq<byte>, socketFd: int, connectOk: bool, replyRet: int, up: Script, down: Script)
    returns (outcome: Outcome, backend: Socket?)
    requires conn.ssh == null
    requires WellFormedScript(up) && WellFormedScript(down)
    modifies conn, conn.client
    ensures outcome == Dialled(header, socketFd, connectOk, up, down)
    ensures conn.ssh == backend
    ensures !outcome.Tunnelled? ==> conn.client.log == old(conn.client.log).(closes := old(conn.client.log.closes) + 1)
    ensures outcome.Tunnelled? ==> conn.client.log == SocketLog(
      old(conn.client.log.written) + SendPrefix(outcome.reply, replyRet) + outcome.down.delivered,
      old(conn.client.log.consumed) + outcome.up.read,
      old(conn.client.log.readShutdowns) + 1,
      old(conn.client.log.writeShutdowns) + 1,
      old(conn.client.log.closes) + 1)
    ensures backend != null <==> socketFd >= 0
    ensures backend != null ==> fresh(backend) && backend.fd == socketFd
    ensures outcome.ConnectFailed? ==> backend.log == SocketLog([], [], 0, 0, if socketFd > 0 then 2 else 1)
    ensures outcome.Tunnelled? ==> backend.log == SocketLog(
      outcome.up.delivered, outcome.down.read, 1, 1, if socketFd > 0 then 1 else 0)
  {
    // conn->ssh_fd = socket(AF_INET, SOCK_STREAM, 0)
    if socketFd < 0 {
      Cleanup(conn);
      return SocketFailed, null;
    }
    backend := new Socket(socketFd);
    conn.ssh := backend;
    if !connectOk {
      // close(conn->ssh_fd); goto cleanup;
      AbortDialAsWritten(conn);
      return ConnectFailed, backend;
    }
    var reply := SelectResponse(header);
    Tunnel(conn, reply, replyRet, up, down);
    outcome := Tunnelled(reply, Run(up.recvs, up.sends), Run(down.recvs, down.sends));
  }

  /** `handle_connection` on a fresh connection, as written. `backend` is the
      socket opened for the SSH daemon, if `socket` was reached and succeeded.
      The reply is chosen from the captured octets read as a C string, that is,
      with `header_buf[header_len]` taken as NUL; the code as written reads on
      into stale octets (see `Response.StaleOctetsSelectSwitching`). */
  method HandleConnection(conn: Connection, input: seq<byte>, closed: bool, socketFd: int, connectOk: bool,
                          replyRet: int, up: Script, down: Script)
    returns (outcome: Outcome, backend: Socket?)
    requires conn.ssh == null
    requires WellFormedScript(up) && WellFormedScript(down)
    modifies conn, conn.client
    ensures outcome == Expected(input, closed, socketFd, connectOk, up, down)
    ensures conn.ssh == backend
    ensures !outcome.Tunnelled? ==> conn.client.log == old(conn.client.log).(
      consumed := old(conn.client.log.consumed) + Captured(input, closed),
      closes := old(conn.client.log.closes) + if outcome.HeaderPending? then 0 else 1)
    ensures outcome.Tunnelled? ==> conn.client.log == SocketLog(
      old(conn.client.log.written) + SendPrefix(outcome.reply, replyRet) + outcome.down.delivered,
      old(conn.client.log.consumed) + Captured(input, closed) + outcome.up.read,
      old(conn.client.log.readShutdowns) + 1,
      old(conn.client.log.writeShutdowns) + 1,
      old(conn.client.log.closes) + 1)
    ensures backend != null <==> Sniff(input, closed).Header? && socketFd >= 0
    ensures backend != null ==> fresh(backend) && backend.fd == socketFd
    ensures outcome.ConnectFailed? ==> backend.log == SocketLog([], [], 0, 0, if socketFd > 0 then 2 else 1)
    ensures outcome.Tunnelled? ==> backend.log == SocketLog(
      outcome.up.delivered, outcome.down.read, 1, 1, if socketFd > 0 then 1 else 0)
  {
    var client := conn.client;
    var sniffed, captured := SniffHeader(input, closed);
    client.log := client.log.(consumed := client.log.consumed + captured);
    if sniffed.Pending? {
      // recv blocks: the handler has not returned yet
      return HeaderPending, null;
    }
    if sniffed.Aborted? {
      Cleanup(conn);
      return HeaderAborted, null;
    }
    assert captured == Captured(input, closed);
    outcome, backend := Dial(conn, captured, socketFd, connectOk, replyRet, up, down);
  }
}
