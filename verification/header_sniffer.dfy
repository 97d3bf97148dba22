/** The header sniffer of `handle_connection` (fastproxy.c:65-74): the client's
    stream is read one octet per `recv` into a 16384-octet buffer until the last
    four octets read are CR LF CR LF, the end of the header section in section 2.1
    of RFC 9112, or until 16383 octets are held.

    The client is described by the octets it sends, `input`, and by `closed`: whether
    `recv` reports end-of-stream or an error (a result <= 0) once those octets are
    used up. When it does not, the real `recv` blocks; the model reports `Pending`. */
module HeaderSniffer {
  import opened Bytes

  /** `sizeof(header_buf)`. */
  const HeaderBufSize: nat := 16384
  /** The loop bound `sizeof(header_buf) - 1`: the most octets ever captured. */
  const MaxHeaderLen: nat := HeaderBufSize - 1

  /** CR LF CR LF. */
  const Terminator: seq<byte> := Ascii("\r\n\r\n")

  datatype SniffOutcome =
    | Header(len: nat)  // the loop ended normally with `header_len == len`
    | Aborted           // a `recv` returned <= 0: `goto cleanup`
    | Pending           // the next `recv` blocks for ever

  /** The first `k` octets of `s` end with the terminator. */
  predicate TerminatedAt(s: seq<byte>, k: int) {
    4 <= k <= |s| && s[k - 4..k] == Terminator
  }

  /** No prefix of `s` shorter than `k` ends with the terminator. */
  predicate NoTerminatorBefore(s: seq<byte>, k: int) {
    forall j :: 0 <= j < k ==> !TerminatedAt(s, j)
  }

  /** `n` is where the header of `input` ends: the first prefix that ends with the
      terminator, or the cap when no prefix up to the cap does. */
  predicate IsHeaderEnd(input: seq<byte>, n: nat) {
    n <= |input| && n <= MaxHeaderLen && NoTerminatorBefore(input, n) &&
    (TerminatedAt(input, n) || n == MaxHeaderLen)
  }

  /** The client's octets run out before any header end. */
  predicate Starved(input: seq<byte>) {
    |input| < MaxHeaderLen && NoTerminatorBefore(input, |input| + 1)
  }

  /** The sniffer's outcome from the state `header_len == len`. */
  function SniffFrom(input: seq<byte>, closed: bool, len: nat): (r: SniffOutcome)
    requires len <= MaxHeaderLen
    ensures r.Header? ==> len <= r.len <= MaxHeaderLen && (r.len == MaxHeaderLen || TerminatedAt(input, r.len))
    ensures r.Aborted? ==> closed && |input| < MaxHeaderLen
    ensures r.Pending? ==> !closed && |input| < MaxHeaderLen
    decreases MaxHeaderLen - len
  {
    if len == MaxHeaderLen then Header(len)
    else if len >= |input| then (if closed then Aborted else Pending)
    else if TerminatedAt(input, len + 1) then Header(len + 1)
    else SniffFrom(input, closed, len + 1)
  }

  /** The outcome of the whole header read. */
  function Sniff(input: seq<byte>, closed: bool): (r: SniffOutcome)
    ensures r.Header? ==> r.len <= MaxHeaderLen && (r.len == MaxHeaderLen || TerminatedAt(input, r.len))
    ensures r.Aborted? ==> closed && |input| < MaxHeaderLen
    ensures r.Pending? ==> !closed && |input| < MaxHeaderLen
  {
    SniffFrom(input, closed, 0)
  }

  /** The octets the sniffer took from the client. */
  function Captured(input: seq<byte>, closed: bool): (c: seq<byte>)
    ensures c <= input && |c| <= MaxHeaderLen
    ensures Sniff(input, closed).Header? ==> |c| == Sniff(input, closed).len
    ensures !Sniff(input, closed).Header? ==> c == input
  {
    SniffSpec(input, closed);
    match Sniff(input, closed)
    case Header(n) => input[..n]
    case _ => input
  }

  lemma {:induction false} SniffFromSpec(input: seq<byte>, closed: bool, len: nat)
    requires len <= MaxHeaderLen && len <= |input|
    requires NoTerminatorBefore(input, len + 1)
    ensures match SniffFrom(input, closed, len)
      case Header(n) => IsHeaderEnd(input, n)
      case Aborted => closed && Starved(input)
      case Pending => !closed && Starved(input)
    decreases MaxHeaderLen - len
  {
    if len == MaxHeaderLen || len >= |input| || TerminatedAt(input, len + 1) {
    } else {
      SniffFromSpec(input, closed, len + 1);
    }
  }

  /** At most one header end exists, and none when the input is starved. */
  lemma HeaderEndUnique(input: seq<byte>, n: nat, m: nat)
    requires IsHeaderEnd(input, n)
    ensures IsHeaderEnd(input, m) ==> m == n
    ensures !Starved(input)
  {
  }

  /** The sniffer stops exactly at the header end, and aborts (or blocks) exactly
      when the client's octets run out first. */
  lemma SniffSpec(input: seq<byte>, closed: bool)
    ensures match Sniff(input, closed)
      case Header(n) => IsHeaderEnd(input, n)
      case Aborted => closed && Starved(input)
      case Pending => !closed && Starved(input)
    ensures forall n: nat :: IsHeaderEnd(input, n) ==> Sniff(input, closed) == Header(n)
  {
    SniffFromSpec(input, closed, 0);
    forall n: nat | IsHeaderEnd(input, n) ensures Sniff(input, closed) == Header(n) {
      match Sniff(input, closed)
      case Header(m) => HeaderEndUnique(input, n, m);
      case _ => HeaderEndUnique(input, n, n);
    }
  }

  /** The sniffer never reads past the header end: octets the client sends after
      it (and whether it closes afterwards) do not change what is captured. */
  lemma SniffIgnoresLaterOctets(input: seq<byte>, closed: bool, more: seq<byte>, closed': bool)
    requires Sniff(input, closed).Header?
    ensures Sniff(input + more, closed') == Sniff(input, closed)
  {
    SniffSpec(input, closed);
    var n := Sniff(input, closed).len;
    var longer := input + more;
    forall j | 0 <= j <= n ensures TerminatedAt(longer, j) == TerminatedAt(input, j) {
      if 4 <= j {
        assert longer[j - 4..j] == input[j - 4..j];
      }
    }
    assert IsHeaderEnd(longer, n);
    SniffSpec(longer, closed');
  }

  /** A client that sends at least the cap without a terminator before it gets its
      first 16383 octets captured and is not read further, whether or not it ever
      closes. */
  lemma SniffStopsAtCap(input: seq<byte>, closed: bool)
    requires |input| >= MaxHeaderLen && NoTerminatorBefore(input, MaxHeaderLen)
    ensures Sniff(input, closed) == Header(MaxHeaderLen)
  {
    assert IsHeaderEnd(input, MaxHeaderLen);
    SniffSpec(input, closed);
  }

  /** The header loop of `handle_connection`, over `header_buf`. Returns the outcome
      and the octets `header_buf[..header_len]` it holds. */
  method SniffHeader(input: seq<byte>, closed: bool) returns (outcome: SniffOutcome, captured: seq<byte>)
    ensures outcome == Sniff(input, closed)
    ensures outcome.Header? ==> outcome.len <= |input| && captured == input[..outcome.len]
    ensures !outcome.Header? ==> captured == input
    ensures |captured| <= MaxHeaderLen
  {
    var headerBuf := new byte[HeaderBufSize];
    var headerLen := 0;
    while headerLen < HeaderBufSize - 1
      invariant headerLen <= MaxHeaderLen && headerLen <= |input|
      invariant headerBuf[..headerLen] == input[..headerLen]
      invariant SniffFrom(input, closed, headerLen) == Sniff(input, closed)
    {
      // recv(client_fd, header_buf + header_len, 1, 0)
      if headerLen == |input| {
        // the result is <= 0 (end-of-stream or error), or recv blocks
        outcome := if closed then Aborted else Pending;
        captured := headerBuf[..headerLen];
        return;
      }
      headerBuf[headerLen] := input[headerLen];
      headerLen := headerLen + 1;
      if headerLen >= 4 && headerBuf[headerLen - 4..headerLen] == Terminator {
        assert headerBuf[headerLen - 4..headerLen] == input[headerLen - 4..headerLen];
        break;
      }
    }
    outcome := Header(headerLen);
    captured := headerBuf[..headerLen];
  }
}
