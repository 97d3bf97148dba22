/** One relay direction, `pipe_data` (fastproxy.c:42-61): chunks read from the
    source socket are written to the destination, retrying short writes, until a
    read returns <= 0, a write returns <= 0, or a chunk is left short; then the
    source is shut for reading and the destination for writing.

    The sockets are replaced by scripts. `recvs` lists what the successive `recv`
    calls return; once it is used up, `recv` reports end-of-stream. `sends` lists
    what the successive `send` calls return, over all chunks; a scripted value
    larger than the request is capped at the request, since `send` never reports
    more than it was asked to write, and once the script is used up every `send`
    writes all it is asked to. */
module Relay {
  import opened Bytes
  import opened Sockets

  /** BUFFER_SIZE: the length passed to each `recv`. */
  const BufferSize: nat := 1048576

  datatype RecvResult =
    | Received(data: seq<byte>)  // recv returned |data| > 0
    | EndOfStream                // recv returned 0
    | RecvFailed                 // recv returned -1

  /** `recv` fills at most BUFFER_SIZE octets, and a positive result has at least one. */
  predicate WellFormed(recvs: seq<RecvResult>) {
    forall i :: 0 <= i < |recvs| && recvs[i].Received? ==> 0 < |recvs[i].data| <= BufferSize
  }

  /** The result of the `i`-th `recv`. */
  function RecvAt(recvs: seq<RecvResult>, i: nat): RecvResult {
    if i < |recvs| then recvs[i] else EndOfStream
  }

  /** The result of the next `send` of `want` octets. */
  function SendReturn(sends: seq<int>, want: nat): (s: int)
    ensures s <= want
  {
    if sends == [] then want
    else if sends[0] < want then sends[0]
    else want
  }

  /** The send script after one `send`. */
  function Rest(sends: seq<int>): seq<int> {
    if sends == [] then [] else sends[1..]
  }

  /** How far the inner loop gets with one chunk, and the script left after it. */
  datatype ChunkResult = ChunkResult(sent: nat, rest: seq<int>)

  /** The inner loop `while (sent < n)` from `sent` onwards. */
  function SendChunk(data: seq<byte>, sends: seq<int>, sent: nat): (r: ChunkResult)
    requires sent <= |data|
    ensures sent <= r.sent <= |data|
    decreases |data| - sent
  {
    if sent == |data| then ChunkResult(sent, sends)
    else
      var s := SendReturn(sends, |data| - sent);
      if s <= 0 then ChunkResult(sent, Rest(sends))
      else SendChunk(data, Rest(sends), sent + s)
  }

  datatype Exit =
    | SourceClosed            // recv returned 0
    | SourceFailed            // recv returned -1
    | ShortWrite(sent: nat, n: nat)  // a send returned <= 0 with `sent` of `n` octets written

  /** What one direction does in all: the octets it took from the source, the
      octets it delivered to the destination, and why it stopped. */
  datatype Transfer = Transfer(read: seq<byte>, delivered: seq<byte>, exit: Exit)

  /** One turn of the outer loop `while (1)`: either the direction stops, having
      taken `read` from the source and delivered `delivered`, or a whole chunk
      `data` went through and the loop goes on with the send script `rest`. */
  datatype Turn =
    | Stop(exit: Exit, read: seq<byte>, delivered: seq<byte>)
    | Next(data: seq<byte>, rest: seq<int>)

  /** The `i`-th turn of the outer loop. */
  function TurnAt(recvs: seq<RecvResult>, i: nat, sends: seq<int>): (t: Turn)
    requires WellFormed(recvs)
    ensures t.Next? ==>
      i < |recvs| && recvs[i] == Received(t.data) &&
      SendChunk(t.data, sends, 0) == ChunkResult(|t.data|, t.rest)
  {
    match RecvAt(recvs, i)
    case EndOfStream => Stop(SourceClosed, [], [])
    case RecvFailed => Stop(SourceFailed, [], [])
    case Received(data) =>
      var c := SendChunk(data, sends, 0);
      if c.sent != |data| then Stop(ShortWrite(c.sent, |data|), data, data[..c.sent])
      else Next(data, c.rest)
  }

  /** The outer loop `while (1)` of `pipe_data`, from its `i`-th `recv` on. */
  function RunFrom(recvs: seq<RecvResult>, i: nat, sends: seq<int>): (r: Transfer)
    requires WellFormed(recvs)
    ensures r.delivered <= r.read
    ensures !r.exit.ShortWrite? ==> r.delivered == r.read
    decreases |recvs| - i
  {
    match TurnAt(recvs, i, sends)
    case Stop(exit, read, delivered) => Transfer(read, delivered, exit)
    case Next(data, rest) =>
      var t := RunFrom(recvs, i + 1, rest);
      Transfer(data + t.read, data + t.delivered, t.exit)
  }

  /** The whole of `pipe_data`'s copy loop. */
  function Run(recvs: seq<RecvResult>, sends: seq<int>): (r: Transfer)
    requires WellFormed(recvs)
    ensures r.delivered <= r.read
    ensures !r.exit.ShortWrite? ==> r.delivered == r.read
  {
    RunFrom(recvs, 0, sends)
  }

  /** All the octets the source offers from its `i`-th `recv` on: the chunks
      before the first read that returns <= 0. */
  function StreamFrom(recvs: seq<RecvResult>, i: nat): seq<byte>
    decreases |recvs| - i
  {
    match RecvAt(recvs, i)
    case Received(data) => data + StreamFrom(recvs, i + 1)
    case _ => []
  }

  /** Every scripted `send` result is positive. */
  predicate AllPositive(sends: seq<int>) {
    forall i :: 0 <= i < |sends| ==> sends[i] > 0
  }

  /** When every `send` writes something, each chunk is written in full, and the
      rest of the script still only writes. */
  lemma {:induction false} SendChunkCompletes(data: seq<byte>, sends: seq<int>, sent: nat)
    requires sent <= |data|
    requires AllPositive(sends)
    ensures SendChunk(data, sends, sent).sent == |data|
    ensures AllPositive(SendChunk(data, sends, sent).rest)
    decreases |data| - sent
  {
    if sent < |data| {
      SendChunkCompletes(data, Rest(sends), sent + SendReturn(sends, |data| - sent));
    }
  }

  /** Order is kept and nothing is invented: the destination gets a prefix of what
      was read, which is a prefix of what the source offered. The destination gets
      everything read exactly when the direction did not stop on a short write, and
      then everything the source offered was read. A short write leaves exactly the
      unsent tail of one chunk behind. */
  lemma {:induction false} RunFromDeliversPrefix(recvs: seq<RecvResult>, i: nat, sends: seq<int>)
    requires WellFormed(recvs)
    ensures var t := RunFrom(recvs, i, sends);
      t.delivered <= t.read <= StreamFrom(recvs, i) &&
      (t.exit.ShortWrite? <==> |t.delivered| < |t.read|) &&
      (!t.exit.ShortWrite? ==> t.read == StreamFrom(recvs, i))
    ensures var t := RunFrom(recvs, i, sends);
      t.exit.ShortWrite? ==>
        0 < t.exit.n <= BufferSize && t.exit.sent < t.exit.n &&
        |t.read| - |t.delivered| == t.exit.n - t.exit.sent
    decreases |recvs| - i
  {
    var r := RecvAt(recvs, i);
    if r.Received? {
      var c := SendChunk(r.data, sends, 0);
      if c.sent == |r.data| {
        RunFromDeliversPrefix(recvs, i + 1, c.rest);
      }
    }
  }

  lemma RunDeliversPrefix(recvs: seq<RecvResult>, sends: seq<int>)
    requires WellFormed(recvs)
    ensures var t := Run(recvs, sends);
      t.delivered <= t.read <= StreamFrom(recvs, 0) &&
      (t.exit.ShortWrite? <==> |t.delivered| < |t.read|) &&
      (!t.exit.ShortWrite? ==> t.read == StreamFrom(recvs, 0))
  {
    RunFromDeliversPrefix(recvs, 0, sends);
  }

  /** When every `send` writes something, the destination receives exactly the
      octets the source offered, in order, and the direction ends because the
      source did. */
  lemma {:induction false} RunFromExactWhenSendsSucceed(recvs: seq<RecvResult>, i: nat, sends: seq<int>)
    requires WellFormed(recvs)
    requires AllPositive(sends)
    ensures RunFrom(recvs, i, sends).delivered == StreamFrom(recvs, i)
    ensures !RunFrom(recvs, i, sends).exit.ShortWrite?
    decreases |recvs| - i
  {
    var r := RecvAt(recvs, i);
    if r.Received? {
      SendChunkCompletes(r.data, sends, 0);
      RunFromExactWhenSendsSucceed(recvs, i + 1, SendChunk(r.data, sends, 0).rest);
    }
  }

  /** The inner loop of `pipe_data`: write `buffer[..n]` to `dst`, retrying short
      writes, until all of it is written or a `send` returns <= 0. */
  method WriteChunk(dst: Socket, buffer: array<byte>, n: nat, sends: seq<int>) returns (sent: nat, rest: seq<int>)
    requires n <= buffer.Length
    modifies dst
    ensures ChunkResult(sent, rest) == SendChunk(buffer[..n], sends, 0)
    ensures dst.log == old(dst.log).(written := old(dst.log.written) + buffer[..sent])
  {
    ghost var data := buffer[..n];
    sent, rest := 0, sends;
    while sent < n
      invariant sent <= n
      invariant dst.log == old(dst.log).(written := old(dst.log.written) + data[..sent])
      invariant SendChunk(data, rest, sent) == SendChunk(data, sends, 0)
      decreases n - sent
    {
      // s = send(fds[1], buffer + sent, n - sent, 0)
      var s := SendReturn(rest, n - sent);
      rest := Rest(rest);
      if s <= 0 {
        break;
      }
      assert data[..sent] + buffer[sent..sent + s] == data[..sent + s];
      AppendAssociative(old(dst.log.written), data[..sent], buffer[sent..sent + s]);
      dst.log := dst.log.(written := dst.log.written + buffer[sent..sent + s]);
      sent := sent + s;
    }
    assert data[..sent] == buffer[..sent];
  }

  /** What `recv` does to the buffer: copy a received chunk to its front. */
  method FillBuffer(buffer: array<byte>, data: seq<byte>)
    requires |data| <= buffer.Length
    modifies buffer
    ensures buffer[..|data|] == data
  {
    forall k | 0 <= k < |data| {
      buffer[k] := data[k];
    }
  }

  /** The octets a turn takes from the source. */
  function Taken(t: Turn): seq<byte> {
    match t
    case Stop(_, read, _) => read
    case Next(data, _) => data
  }

  /** The octets a turn delivers to the destination. */
  function Given(t: Turn): seq<byte> {
    match t
    case Stop(_, _, delivered) => delivered
    case Next(data, _) => data
  }

  /** One turn of the outer loop: the `recv` into the buffer, and, when it
      returned a chunk, the inner loop writing that chunk to `dst`. */
  method TakeTurn(src: Socket, dst: Socket, buffer: array<byte>, recvs: seq<RecvResult>, i: nat, sends: seq<int>)
    returns (t: Turn)
    requires src != dst && buffer.Length == BufferSize
    requires WellFormed(recvs)
    modifies src, dst, buffer
    ensures t == TurnAt(recvs, i, sends)
    ensures src.log == old(src.log).(consumed := old(src.log.consumed) + Taken(t))
    ensures dst.log == old(dst.log).(written := old(dst.log.written) + Given(t))
  {
    // n = recv(fds[0], buffer, BUFFER_SIZE, 0)
    match RecvAt(recvs, i)
    case EndOfStream => t := Stop(SourceClosed, [], []);
    case RecvFailed => t := Stop(SourceFailed, [], []);
    case Received(data) =>
      FillBuffer(buffer, data);
      src.log := src.log.(consumed := src.log.consumed + data);
      var sent, rest := WriteChunk(dst, buffer, |data|, sends);
      assert buffer[..sent] == data[..sent];
      if sent != |data| {
        t := Stop(ShortWrite(sent, |data|), data, data[..sent]);
      } else {
        t := Next(data, rest);
      }
  }

  lemma AppendAssociative<T>(a: seq<T>, b: seq<T>, c: seq<T>)
    ensures a + b + c == a + (b + c)
  {
  }

  /** The copy loop `while (1)` of `pipe_data`. */
  method CopyLoop(src: Socket, dst: Socket, buffer: array<byte>, recvs: seq<RecvResult>, sends: seq<int>)
    requires src != dst && buffer.Length == BufferSize
    requires WellFormed(recvs)
    modifies src, dst, buffer
    ensures src.log == old(src.log).(consumed := old(src.log.consumed) + Run(recvs, sends).read)
    ensures dst.log == old(dst.log).(written := old(dst.log.written) + Run(recvs, sends).delivered)
  {
    ghost var total := Run(recvs, sends);
    ghost var src0, dst0 := src.log, dst.log;
    ghost var read: seq<byte>, delivered: seq<byte> := [], [];
    var i := 0;
    var pending := sends;
    while true
      invariant src.log == src0.(consumed := src0.consumed + read)
      invariant dst.log == dst0.(written := dst0.written + delivered)
      invariant total.read == read + RunFrom(recvs, i, pending).read
      invariant total.delivered == delivered + RunFrom(recvs, i, pending).delivered
      decreases |recvs| - i
    {
      var t := TakeTurn(src, dst, buffer, recvs, i, pending);
      AppendAssociative(src0.consumed, read, Taken(t));
      AppendAssociative(dst0.written, delivered, Given(t));
      if t.Stop? {
        read, delivered := read + t.read, delivered + t.delivered;
        break;
      }
      ghost var later := RunFrom(recvs, i + 1, t.rest);
      AppendAssociative(read, t.data, later.read);
      AppendAssociative(delivered, t.data, later.delivered);
      read, delivered, i, pending := read + t.data, delivered + t.data, i + 1, t.rest;
    }
  }

  /** `pipe_data` with `fds[0] == src` and `fds[1] == dst`: the copy loop, then
      `shutdown(fds[0], SHUT_RD)` and `shutdown(fds[1], SHUT_WR)` whatever ended it. */
  method PipeData(src: Socket, dst: Socket, recvs: seq<RecvResult>, sends: seq<int>)
    requires src != dst
    requires WellFormed(recvs)
    modifies src, dst
    ensures dst.log == old(dst.log).(
      written := old(dst.log.written) + Run(recvs, sends).delivered,
      writeShutdowns := old(dst.log.writeShutdowns) + 1)
    ensures src.log == old(src.log).(
      consumed := old(src.log.consumed) + Run(recvs, sends).read,
      readShutdowns := old(src.log.readShutdowns) + 1)
  {
    var buffer := new byte[BufferSize];
    CopyLoop(src, dst, buffer, recvs, sends);
    src.ShutdownRead();
    dst.ShutdownWrite();
  }
}
