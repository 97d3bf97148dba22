/** Response selection (fastproxy.c:90-92): the choice between the two literal
    replies written to the client before relaying. The 101 reply carries no
    `Sec-WebSocket-Accept` field, so it is not the handshake of section 4.2.2 of
    RFC 6455; it is only a fixed string here. */
module Response {
  import opened Bytes
  import opened CString
  import opened HeaderSniffer

  const WebsocketToken: seq<byte> := Ascii("websocket")
  const UpgradeToken: seq<byte> := Ascii("Upgrade")

  const SwitchingProtocols: seq<byte> :=
    Ascii("HTTP/1.1 101 Switching Protocols\r\nUpgrade: websocket\r\nConnection: Upgrade\r\n\r\n")
  const ConnectionEstablished: seq<byte> :=
    Ascii("HTTP/1.1 200 Connection Established\r\n\r\n")

  /** `strstr(header, "websocket") || strstr(header, "Upgrade")` on a C string. */
  predicate UpgradeRequested(header: seq<byte>) {
    StrStr(header, WebsocketToken).Some? || StrStr(header, UpgradeToken).Some?
  }

  /** The reply for a `char` buffer handed to `strstr`: the buffer is read as a C
      string, up to its first NUL, and the 101 reply is chosen exactly when that
      string contains "websocket" or "Upgrade", matched octet for octet (so
      case-sensitively); the 200 reply otherwise. As written, the buffer is the
      whole of `header_buf`; with `header_buf[header_len] = 0` it is the captured
      octets. */
  function SelectResponse(buf: seq<byte>): (r: seq<byte>)
    ensures r == SwitchingProtocols <==> Mentions(CStr(buf), WebsocketToken) || Mentions(CStr(buf), UpgradeToken)
    ensures r == ConnectionEstablished <==> !Mentions(CStr(buf), WebsocketToken) && !Mentions(CStr(buf), UpgradeToken)
  {
    if UpgradeRequested(CStr(buf)) then SwitchingProtocols else ConnectionEstablished
  }

  /** The C string of NUL-free text followed by anything starts with that text. */
  lemma {:induction false} CStrKeepsNulFreePrefix(text: seq<byte>, rest: seq<byte>)
    requires forall i :: 0 <= i < |text| ==> text[i] != 0
    ensures text <= CStr(text + rest)
  {
    if text != [] {
      assert (text + rest)[1..] == text[1..] + rest;
      CStrKeepsNulFreePrefix(text[1..], rest);
    }
  }

  /** Both tokens are found wherever they stand, provided no NUL comes before them. */
  lemma TokenSelectsSwitching(before: seq<byte>, token: seq<byte>, after: seq<byte>)
    requires token == UpgradeToken || token == WebsocketToken
    requires forall i :: 0 <= i < |before| ==> before[i] != 0
    ensures SelectResponse(before + token + after) == SwitchingProtocols
  {
    var text := before + token;
    assert forall i :: 0 <= i < |token| ==> token[i] != 0;
    assert forall i :: 0 <= i < |text| ==> text[i] != 0;
    CStrKeepsNulFreePrefix(text, after);
    var c := CStr(text + after);
    assert c[|before|..|before| + |token|] == token;
    assert OccursAt(c, token, |before|);
  }

  /** A NUL in the first octet hides everything after it: the C string is empty
      and the 200 reply is chosen, whatever tokens follow the NUL. */
  lemma LeadingNulSelectsEstablished(after: seq<byte>)
    ensures SelectResponse([0] + after) == ConnectionEstablished
  {
    assert CStr([0] + after) == [];
  }

  /** Matching is case-sensitive: a header with no lower-case letter, such as one
      spelling the field "UPGRADE: WEBSOCKET", always gets the 200 reply. */
  lemma NoLowerCaseNoUpgrade(header: seq<byte>)
    requires forall i :: 0 <= i < |header| ==> !IsLowerAscii(header[i])
    ensures SelectResponse(header) == ConnectionEstablished
  {
    var c := CStr(header);
    assert forall i :: 0 <= i < |c| ==> !IsLowerAscii(c[i]);
    assert IsLowerAscii(UpgradeToken[1]) && IsLowerAscii(WebsocketToken[0]);
    assert forall i :: OccursAt(c, UpgradeToken, i) ==> c[i + 1] == UpgradeToken[1];
    assert forall i :: OccursAt(c, WebsocketToken, i) ==> c[i] == WebsocketToken[0];
  }

  /** The request line "GET / HTTP/1.1" followed by the blank line. */
  const PlainRequest: seq<byte> := Ascii("GET / HTTP/1.1\r\n\r\n")

  /** The plain request is one whole header: the sniffer captures all of it. */
  lemma PlainRequestIsOneHeader()
    ensures Sniff(PlainRequest, true) == Header(|PlainRequest|)
  {
    var req := PlainRequest;
    forall j | 4 <= j < |req| ensures !TerminatedAt(req, j) {
      assert req[j - 4] == req[j - 4..j][0];
    }
    assert req[|req| - 4..] == Terminator;
    assert IsHeaderEnd(req, |req|);
    SniffSpec(req, true);
  }

  /** As a C string, a buffer holding NUL-free text and then a NUL reads as that
      text. */
  lemma CStrStopsAtNul(text: seq<byte>, rest: seq<byte>)
    requires forall i :: 0 <= i < |text| ==> text[i] != 0
    requires rest != [] && rest[0] == 0
    ensures CStr(text + rest) == text
  {
    var buf := text + rest;
    var c := CStr(buf);
    assert forall k :: 0 <= k < |text| ==> buf[k] != 0;
    assert buf[|text|] == 0;
  }

  /** The divergence caused by the missing NUL: a NUL-free header that asks for no
      upgrade gets the 200 reply when the search stops at `header_len`, yet when
      the buffer's octets after it still spell "Upgrade" from earlier use of the
      memory, the search as written runs on into them and the 101 reply is sent. */
  lemma StaleOctetsSelectSwitching(header: seq<byte>, stale: seq<byte>)
    requires forall i :: 0 <= i < |header| ==> !IsLowerAscii(header[i]) && header[i] != 0
    ensures SelectResponse(header) == ConnectionEstablished
    ensures SelectResponse(header + UpgradeToken + stale) == SwitchingProtocols
  {
    NoLowerCaseNoUpgrade(header);
    TokenSelectsSwitching(header, UpgradeToken, stale);
  }

  /** A literal with no character from NUL or from 'a' upwards has no NUL octet
      and no lower-case letter. */
  lemma NoLowerCaseLiteral(s: string)
    requires forall i :: 0 <= i < |s| ==> 0 < s[i] as int < 'a' as int
    ensures forall i :: 0 <= i < |s| ==> !IsLowerAscii(Ascii(s)[i]) && Ascii(s)[i] != 0
  {
  }

  /** The same divergence on a concrete buffer: "GET / HTTP/1.1" and a blank line,
      captured whole, followed by "Upgrade" and zeros up to 16384 octets. */
  lemma PlainRequestDivergence()
    ensures Sniff(PlainRequest, true) == Header(|PlainRequest|)
    ensures SelectResponse(PlainRequest) == ConnectionEstablished
    ensures var buf := PlainRequest + UpgradeToken + seq(HeaderBufSize - |PlainRequest| - |UpgradeToken|, _ => 0 as byte);
      |buf| == HeaderBufSize && SelectResponse(buf) == SwitchingProtocols
  {
    PlainRequestIsOneHeader();
    var zeros := seq(HeaderBufSize - |PlainRequest| - |UpgradeToken|, _ => 0 as byte);
    NoLowerCaseLiteral("GET / HTTP/1.1\r\n\r\n");
    StaleOctetsSelectSwitching(PlainRequest, zeros);
  }
}
