# fastproxy connection core, modelled in Dafny

`fastproxy.c` is a small HTTP tunnel in front of an SSH daemon. For each accepted
client, `handle_connection` does the following:

1. It reads the request header one octet at a time into a 16384-octet stack buffer. It stops at the first CR LF CR LF, or once 16383 octets are held.
2. It opens a TCP socket to the local SSH daemon.
3. It replies with a fixed `101 Switching Protocols` when the header buffer, read as a C string, contains `websocket` or `Upgrade`, and with `200 Connection Established` otherwise.
4. It starts two `pipe_data` threads, one per direction. Each copies octets from one descriptor to the other through a 1 MiB buffer, retrying short writes, until a read or a write fails. It then shuts the source down for reading and the destination down for writing.
5. It closes the client, and the backend when its descriptor is positive. After a failed `connect` it closes the backend before the cleanup too, so a positive backend descriptor is closed twice.

The model covers this behaviour in seven modules:

- `Bytes`: octets and ASCII literals.
- `CString`: `strstr` and the NUL-terminated view of a buffer.
- `HeaderSniffer`: the header loop. `SniffHeader` is a method over an `array`, proved against the pure `Sniff`.
- `Response`: the choice of reply.
- `Sockets`: a `Socket` class whose ghost log records what reached each descriptor. The log holds the octets written, the octets consumed, and the counts of read shutdowns, write shutdowns and closes.
- `Relay`: `pipe_data`. `WriteChunk`, `TakeTurn`, `CopyLoop` and `PipeData` are methods over the buffer and the sockets, proved against the pure `SendChunk`, `TurnAt` and `Run`.
- `Handler`: `handle_connection` as a method on a `Connection` object, proved against the pure `Expected` and `Dialled`.

The outside world is replaced by parameters:

- the octets the client sends, and whether it then closes;
- the descriptor `socket` returns;
- whether `connect` succeeds;
- what the reply's `send` returns;
- for each relay direction, the results of its successive `recv` and `send` calls.

The two relay threads run one after the other in the model. One thread consumes from the client and writes to the backend; the other does the reverse. They therefore touch disjoint parts of each socket's log, so the final logs are the same under any interleaving.

## Model

| member | source | states |
|---|---|---|
| HeaderSniffer.SniffFrom | fastproxy.c:69-74 | From `header_len == len`, the loop either ends normally at a length between `len` and 16383 that is the cap or ends in CR LF CR LF, or goes to cleanup (client closed) or blocks (client silent), both only when fewer than 16383 octets arrived. |
| HeaderSniffer.Sniff | fastproxy.c:69-74 | The same for the whole loop, from `header_len == 0`. |
| HeaderSniffer.SniffHeader | fastproxy.c:65-74 | Returns the outcome `Sniff` describes. The buffer holds the input's first `header_len` octets when the header completes, and all of the input when a `recv` fails or would block. It never holds more than 16383 octets. |
| HeaderSniffer.Captured | fastproxy.c:69-74 | The octets taken from the client are a prefix of what it sent, at most 16383 long. They are exactly the header when the loop ends normally, and all the input otherwise. |
| HeaderSniffer.SniffFromSpec | fastproxy.c:69-74 | From any `header_len` reached with no terminator yet, the loop ends at the header end. It aborts, or blocks, exactly when the input runs out first. |
| HeaderSniffer.HeaderEndUnique | fastproxy.c:69-74 | An input has at most one header end. An input with a header end is not starved. |
| HeaderSniffer.SniffSpec | fastproxy.c:69-74 | The loop stops exactly at the first prefix ending in CR LF CR LF, or at 16383 octets. It goes to cleanup exactly when the client closes or errs before that point, and blocks when the client stays silent. Every header end is the one `Sniff` reports. |
| HeaderSniffer.SniffIgnoresLaterOctets | fastproxy.c:69-74 | Octets sent after the header end, and a later close, do not change what is captured. |
| HeaderSniffer.SniffStopsAtCap | fastproxy.c:69 | A client that sends 16383 octets without a terminator gets exactly those captured. |
| CString.FindFrom | fastproxy.c:90 | The scan from index `k` finds the first occurrence at or after `k`, or reports that there is none. |
| CString.StrStr | fastproxy.c:90 | `strstr` returns the first occurrence of the needle. It returns NULL exactly when the needle does not occur. |
| CString.CStr | fastproxy.c:90 | Reading the buffer as a C string yields its prefix before the first NUL. |
| Response.SelectResponse | fastproxy.c:90-92 | The reply is the 101 literal exactly when the buffer, read as a C string up to its first NUL, contains `websocket` or `Upgrade`. It is the 200 literal exactly when that string contains neither. |
| Response.CStrKeepsNulFreePrefix | fastproxy.c:90 | The C string of NUL-free text followed by anything starts with that text. |
| Response.TokenSelectsSwitching | fastproxy.c:90-91 | Either token selects 101 wherever it stands, provided no NUL comes before it. |
| Response.LeadingNulSelectsEstablished | fastproxy.c:90-92 | A buffer whose first octet is NUL gets 200, whatever tokens follow the NUL. |
| Response.NoLowerCaseNoUpgrade | fastproxy.c:90-92 | Matching is case-sensitive: a header with no lower-case letter gets 200. |
| Response.PlainRequestIsOneHeader | fastproxy.c:69-74 | `GET / HTTP/1.1` followed by a blank line is captured whole. |
| Response.CStrStopsAtNul | fastproxy.c:90 | NUL-free text followed by a NUL reads as that text. |
| Response.StaleOctetsSelectSwitching | fastproxy.c:65-92 | A NUL-free header with no lower-case letter gets 200 when the search stops after it. Followed in the buffer by a stale `Upgrade` and anything else, it gets 101 as written. |
| Response.PlainRequestDivergence | fastproxy.c:65-93 | The same divergence on a concrete 16384-octet buffer holding the plain request. |
| Relay.SendReturn | fastproxy.c:50 | A `send` never reports more octets than it was asked to write. |
| Relay.SendChunk | fastproxy.c:48-53 | The inner loop ends with `sent` between its start and `n`. |
| Relay.TurnAt | fastproxy.c:46-54 | The outer loop goes round again only after a `recv` returned a chunk and all of it was sent. |
| Relay.SendChunkCompletes | fastproxy.c:48-53 | When every `send` writes something, a chunk is sent whole, and the remaining script still only writes. |
| Relay.RunFrom | fastproxy.c:45-55 | From the `i`-th `recv` on, what the loop delivers is a prefix of what it reads, and all of it unless a write stopped early. |
| Relay.Run | fastproxy.c:45-55 | The same for the whole copy loop. |
| Relay.RunFromDeliversPrefix | fastproxy.c:45-55 | What is delivered is a prefix of what was read, and that is a prefix of what the source offered. Delivery is short exactly when a write stopped early, and then by exactly the unsent tail of one chunk. Otherwise everything offered was read. |
| Relay.RunDeliversPrefix | fastproxy.c:45-55 | The same property for the whole copy loop. |
| Relay.RunFromExactWhenSendsSucceed | fastproxy.c:45-55 | When every `send` writes something, the destination receives exactly what the source offered, and the loop ends because the source did. |
| Relay.WriteChunk | fastproxy.c:48-53 | The inner loop's `sent` and remaining script are those of `SendChunk`. The destination log gains exactly `buffer[..sent]`. |
| Relay.FillBuffer | fastproxy.c:46 | After `recv`, the buffer starts with the received chunk. |
| Relay.TakeTurn | fastproxy.c:46-54 | One turn of the outer loop is `TurnAt`. The source loses what the turn read, and the destination gains what it delivered. |
| Relay.CopyLoop | fastproxy.c:45-55 | The source's consumed log gains `Run(..).read`, and the destination's written log gains `Run(..).delivered`. |
| Relay.PipeData | fastproxy.c:42-61 | The copy loop's effect, plus one read shutdown of the source and one write shutdown of the destination, whatever ended the loop. |
| Sockets.Socket.constructor | fastproxy.c:77 | A freshly opened descriptor has an empty log. |
| Sockets.Socket.ShutdownRead | fastproxy.c:56 | Counts one read shutdown and changes nothing else. |
| Sockets.Socket.ShutdownWrite | fastproxy.c:57 | Counts one write shutdown and changes nothing else. |
| Sockets.Socket.Close | fastproxy.c:108 | Counts one close and changes nothing else. |
| Handler.Connection.constructor | fastproxy.c:136-138 | A new connection holds the client and no backend (`ssh_fd = -1`). |
| Handler.SendPrefix | fastproxy.c:93 | An unchecked `send` puts a prefix of the reply on the wire: none if it failed, all of it if it reported at least the whole length, exactly `ret` octets otherwise. |
| Handler.TunnelOnlyAfterHeader | fastproxy.c:69-93 | The tunnel is set up exactly when the header completed, `socket` succeeded and `connect` succeeded. The header then ends in CR LF CR LF or fills 16383 octets. The reply is 101 exactly when the header contains a token. Each direction delivers a prefix of what it read from its source. |
| Handler.Expected | fastproxy.c:63-111 | The handler blocks, or goes to cleanup after the header read, exactly when the header read does. It fails at `socket` exactly when the header completed and `socket` returned a negative descriptor. It fails at `connect` exactly when the header completed, `socket` succeeded and `connect` failed. |
| Handler.Dialled | fastproxy.c:77-105 | Once the header is captured, the handler fails at `socket` exactly when it returns a negative descriptor. It fails at `connect` exactly when `socket` succeeded and `connect` failed, and tunnels exactly when both succeeded. |
| Handler.Cleanup | fastproxy.c:107-109 | Closes the client once, and the backend once when its descriptor is positive. |
| Handler.AbortDialAsWritten | fastproxy.c:84-109 | On a failed `connect`, as written, a positive backend descriptor is closed twice and the client once. |
| Handler.AbortDial | fastproxy.c:84-87 | On a failed `connect`, once the descriptor is forgotten after closing, the backend is closed exactly once and the client once. |
| Handler.Tunnel | fastproxy.c:90-109 | The client gains the sent part of the reply followed by the downstream delivery. The backend gains the upstream delivery. Each socket gets one shutdown of each kind, the client is closed, and the backend is closed when its descriptor is positive. |
| Handler.Dial | fastproxy.c:77-111 | The outcome is `Dialled`. A backend socket exists exactly when `socket` succeeded. After a failed `connect` the backend is closed twice if its descriptor is positive, once otherwise, as written. After tunnelling it holds the upstream delivery and the downstream reads, has one shutdown of each kind, and is closed once if its descriptor is positive. The client gains the reply prefix and both relay directions when tunnelled, and is closed once in every case. |
| Handler.HandleConnection | fastproxy.c:63-111 | The outcome is `Expected`. The client's log records the header octets taken and, when tunnelled, the reply prefix and both relay directions. The client is closed unless the header read blocks. A backend socket exists exactly when the header completed and `socket` succeeded. After a failed `connect` it is closed twice if its descriptor is positive, as written. After tunnelling it is closed once if its descriptor is positive. |

## Left out

- `optimize_socket` (fastproxy.c:33-40) only sets socket options. It changes no octet the tunnel moves.
- `main` (fastproxy.c:114-147): the listening socket, `accept`, `SIGPIPE` handling and the thread start are not part of this model. Only its `ssh_fd = -1` initialisation is kept, as the `Connection` constructor.
- Threads: the two `pipe_data` threads run one after the other. How their calls interleave in time is not modelled. For example, one direction's shutdown may make the other's `recv` return 0; here that appears only as the other direction's `recv` script.
- `malloc` and `free` are not modelled, including a failed `malloc` returning NULL.
- The backend address (`127.0.0.1`, `SSH_PORT`) and its construction are not modelled. `socket` and `connect` are reduced to their results.
- A blocking `recv` with nothing to read: the header read reports `Pending` and the handler returns without cleanup. A relay `recv` script that runs out means end-of-stream, and a `send` script that runs out means every further `send` writes all it is asked to.
- Relay.SendReturn: a scripted `send` result larger than the request is capped at the request, since the kernel never reports more.
- CString.CStr: when the buffer holds no NUL at all, C reads past the end of the array. The model stops at the buffer's end.
- Handler.Cleanup: a backend descriptor of 0 is never closed, because the code tests `ssh_fd > 0`. The model keeps that test as written.
- The `ssize_t` and `int` widths are not modelled. Every length here is at most 1 MiB.
- Handler.HandleConnection: the reply is chosen from the captured octets read as a C string, as if `header_buf[header_len]` were NUL. The stale content of the rest of the stack buffer is unknown, so the as-written choice over the whole buffer is stated only by `Response.StaleOctetsSelectSwitching` and `Response.PlainRequestDivergence`. On a failed `connect` the handler follows the code as written (the double close); `Handler.AbortDial` is the corrected step and is not used by the handler.
- Handler.HandleConnection: octets in `input` past the header end are neither consumed nor relayed. What the client sends after the header belongs in the upstream `recv` script.
- Sockets.Socket: the log keeps the octets and the counts of each call. It does not keep the order of shutdowns and closes relative to the octets.

## Findings

| source | as written | input that shows it | evidently intended | confidence | as-written member | corrected member |
|---|---|---|---|---|---|---|
| fastproxy.c:65-92 | `header_buf` is never NUL-terminated, and `strstr` searches it as a C string. Octets past `header_len`, left in the uninitialised stack buffer, take part in the match. | The buffer holds `GET / HTTP/1.1\r\n\r\n`, then a stale `Upgrade`, then zeros. The captured header asks for no upgrade, yet the 101 reply is sent. | End the C string at `header_len` (`header_buf[header_len] = 0`) before the search. | high; not executed | Response.PlainRequestDivergence | Response.SelectResponse |
| fastproxy.c:84-109 | After a failed `connect`, `close(conn->ssh_fd)` runs and then `goto cleanup`. There `ssh_fd > 0` still holds, so the same descriptor is closed a second time. | `socket` returns 5 and `connect` fails. | Close the backend once, for example by setting `ssh_fd = -1` after the first close. | high; not executed | Handler.AbortDialAsWritten | Handler.AbortDial |
