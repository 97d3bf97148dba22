/** A socket descriptor as the tunnel uses it. Only what the tunnel does to it is
    kept: the octets `send` wrote to it, the octets `recv` took from it, and how
    many `shutdown(SHUT_RD)`, `shutdown(SHUT_WR)` and `close` calls it received. */
module Sockets {
  import opened Bytes

  datatype SocketLog = SocketLog(
    written: seq<byte>,
    consumed: seq<byte>,
    readShutdowns: nat,
    writeShutdowns: nat,
    closes: nat)

  class Socket {
    /** The descriptor number. */
    const fd: int
    ghost var log: SocketLog

    constructor (fd: int)
      ensures this.fd == fd && log == SocketLog([], [], 0, 0, 0)
    {
      this.fd := fd;
      log := SocketLog([], [], 0, 0, 0);
    }

    /** `shutdown(fd, SHUT_RD)`. */
    method ShutdownRead()
      modifies this
      ensures log == old(log).(readShutdowns := old(log.readShutdowns) + 1)
    {
      log := log.(readShutdowns := log.readShutdowns + 1);
    }

    /** `shutdown(fd, SHUT_WR)`. */
    method ShutdownWrite()
      modifies this
      ensures log == old(log).(writeShutdowns := old(log.writeShutdowns) + 1)
    {
      log := log.(writeShutdowns := log.writeShutdowns + 1);
    }

    /** `close(fd)`. */
    method Close()
      modifies this
      ensures log == old(log).(closes := old(log.closes) + 1)
    {
      log := log.(closes := log.closes + 1);
    }
  }
}
