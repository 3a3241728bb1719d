/** The datagrams of a hole punch: token-carrying probes and acks between the peers, and the
  * reflector's padded request and its reply. */
module PunchWire {
  import opened Prelude

  /** A net.UDPAddr: an IP of 4 or 16 bytes, and a port. */
  datatype Address = Address(ip: seq<byte>, port: int)

  datatype Kind = Neither | Probe | Ack

  // "ORHOLE", "ORHOLEACK", "ORPUNCHRQ" and "ORPUNCHRS".
  const PROBE_MAGIC: seq<byte> := [79, 82, 72, 79, 76, 69]
  const ACK_MAGIC: seq<byte> := [79, 82, 72, 79, 76, 69, 65, 67, 75]
  const REQUEST_MAGIC: seq<byte> := [79, 82, 80, 85, 78, 67, 72, 82, 81]
  const REPLY_MAGIC: seq<byte> := [79, 82, 80, 85, 78, 67, 72, 82, 83]
  const NONCE_LEN: nat := 16
  const MIN_REQUEST: nat := 64
  const TOKEN_LEN: nat := 32

  /** Two bytes, most significant first, of an integer cut to 16 bits. */
  function Uint16(n: int): (r: seq<byte>)
    ensures |r| == 2
  {
    [((n % 65536) / 256) as byte, (n % 256) as byte]
  }

  function FromUint16(s: seq<byte>): (n: nat)
    requires |s| == 2
    ensures n < 65536
  {
    s[0] as int * 256 + s[1] as int
  }

  lemma Uint16RoundTrip(n: int)
    ensures FromUint16(Uint16(n)) == n % 65536
  {
  }

  lemma Uint16IsCanonical(s: seq<byte>)
    requires |s| == 2
    ensures Uint16(FromUint16(s)) == s
  {
  }

  // ---- Probes ----

  function BuildProbePacket(magic: seq<byte>, sessionId: seq<byte>, token: seq<byte>): seq<byte> {
    magic + Uint16(|sessionId|) + sessionId + token
  }

  predicate MatchProbe(data: seq<byte>, magic: seq<byte>, sessionId: seq<byte>, token: seq<byte>) {
    && |data| >= |magic| + 2
    && data[..|magic|] == magic
    && var off := |magic| + 2;
       var sl := FromUint16(data[|magic|..off]);
       && |data| >= off + sl + TOKEN_LEN
       && data[off..off + sl] == sessionId
       && data[off + sl..off + sl + TOKEN_LEN] == token
  }

  /** The longer ack magic is tried first: the probe magic is a prefix of it. */
  function ParseProbePacket(data: seq<byte>, sessionId: seq<byte>, token: seq<byte>): Kind {
    if MatchProbe(data, ACK_MAGIC, sessionId, token) then Ack
    else if MatchProbe(data, PROBE_MAGIC, sessionId, token) then Probe
    else Neither
  }

  /** A session ID whose length the wire carries whole, and a token of the right length. */
  predicate Sendable(sessionId: seq<byte>, token: seq<byte>) {
    |sessionId| <= 65535 && |token| == TOKEN_LEN
  }

  lemma MatchedHasPrefix(data: seq<byte>, magic: seq<byte>, sessionId: seq<byte>, token: seq<byte>)
    requires MatchProbe(data, magic, sessionId, token)
    ensures Sendable(sessionId, token) && BuildProbePacket(magic, sessionId, token) <= data
  {
    var off := |magic| + 2;
    var lenBytes := data[|magic|..off];
    var sl := FromUint16(lenBytes);
    Uint16IsCanonical(lenBytes);
    assert |sessionId| == sl && Uint16(|sessionId|) == lenBytes;
    assert data[..off + sl + TOKEN_LEN] ==
      data[..|magic|] + data[|magic|..off] + data[off..off + sl] + data[off + sl..off + sl + TOKEN_LEN];
  }

  lemma PrefixIsMatched(data: seq<byte>, magic: seq<byte>, sessionId: seq<byte>, token: seq<byte>)
    requires Sendable(sessionId, token) && BuildProbePacket(magic, sessionId, token) <= data
    ensures MatchProbe(data, magic, sessionId, token)
  {
    var built := BuildProbePacket(magic, sessionId, token);
    var off := |magic| + 2;
    assert data[..|built|] == built;
    assert data[..|magic|] == built[..|magic|] == magic;
    assert data[|magic|..off] == built[|magic|..off] == Uint16(|sessionId|);
    Uint16RoundTrip(|sessionId|);
    assert data[off..off + |sessionId|] == built[off..off + |sessionId|] == sessionId;
    assert data[off + |sessionId|..off + |sessionId| + TOKEN_LEN] == built[off + |sessionId|..] == token;
  }

  /** A datagram is accepted for a session exactly when it starts with the packet built for it, as an
    * ack whenever it starts with the ack. */
  lemma AcceptedIffBuiltPrefix(data: seq<byte>, sessionId: seq<byte>, token: seq<byte>)
    ensures var ack := Sendable(sessionId, token) && BuildProbePacket(ACK_MAGIC, sessionId, token) <= data;
      var probe := Sendable(sessionId, token) && BuildProbePacket(PROBE_MAGIC, sessionId, token) <= data;
      ParseProbePacket(data, sessionId, token) == if ack then Ack else if probe then Probe else Neither
  {
    if MatchProbe(data, ACK_MAGIC, sessionId, token) {
      MatchedHasPrefix(data, ACK_MAGIC, sessionId, token);
    }
    if MatchProbe(data, PROBE_MAGIC, sessionId, token) {
      MatchedHasPrefix(data, PROBE_MAGIC, sessionId, token);
    }
    if Sendable(sessionId, token) && BuildProbePacket(ACK_MAGIC, sessionId, token) <= data {
      PrefixIsMatched(data, ACK_MAGIC, sessionId, token);
    }
    if Sendable(sessionId, token) && BuildProbePacket(PROBE_MAGIC, sessionId, token) <= data {
      PrefixIsMatched(data, PROBE_MAGIC, sessionId, token);
    }
  }

  /** A built probe parses as a probe and a built ack as an ack, exactly for the session IDs and
    * tokens the wire can carry; the others are never accepted. */
  lemma ProbeRoundTrip(sessionId: seq<byte>, token: seq<byte>)
    ensures ParseProbePacket(BuildProbePacket(PROBE_MAGIC, sessionId, token), sessionId, token) ==
      if Sendable(sessionId, token) then Probe else Neither
    ensures ParseProbePacket(BuildProbePacket(ACK_MAGIC, sessionId, token), sessionId, token) ==
      if Sendable(sessionId, token) then Ack else Neither
  {
    var probe, ack := BuildProbePacket(PROBE_MAGIC, sessionId, token), BuildProbePacket(ACK_MAGIC, sessionId, token);
    AcceptedIffBuiltPrefix(probe, sessionId, token);
    AcceptedIffBuiltPrefix(ack, sessionId, token);
    assert |ack| > |probe|;
  }

  // ---- Reflector ----

  /** Go's copy into a zeroed buffer. */
  function Copied(src: seq<byte>, size: nat): (r: seq<byte>)
    ensures |r| == size && forall i :: 0 <= i < size ==> r[i] == if i < |src| then src[i] else 0
  {
    if |src| >= size then src[..size] else src + seq(size - |src|, _ => 0)
  }

  function BuildReflectRequest(nonce: seq<byte>): seq<byte> {
    REQUEST_MAGIC + Copied(nonce, MIN_REQUEST - |REQUEST_MAGIC|)
  }

  function ParseReflectRequest(data: seq<byte>): Option<seq<byte>> {
    if |data| < MIN_REQUEST || data[..|REQUEST_MAGIC|] != REQUEST_MAGIC then None
    else Some(data[|REQUEST_MAGIC|..|REQUEST_MAGIC| + NONCE_LEN])
  }

  /** A request is always accepted, and gives its nonce back exactly when the nonce has the length the
    * wire carries. */
  lemma RequestRoundTrip(nonce: seq<byte>)
    ensures ParseReflectRequest(BuildReflectRequest(nonce)) == Some(Copied(nonce, NONCE_LEN))
    ensures ParseReflectRequest(BuildReflectRequest(nonce)) == Some(nonce) <==> |nonce| == NONCE_LEN
  {
    var data := BuildReflectRequest(nonce);
    assert data[..|REQUEST_MAGIC|] == REQUEST_MAGIC;
    assert data[|REQUEST_MAGIC|..|REQUEST_MAGIC| + NONCE_LEN] == Copied(nonce, NONCE_LEN);
    assert |nonce| == NONCE_LEN ==> Copied(nonce, NONCE_LEN) == nonce;
  }

  predicate Mapped(ip: seq<byte>) {
    |ip| == 16 && ip[..12] == [0, 0, 0, 0, 0, 0, 0, 0, 0, 0, 255, 255]
  }

  function To4(ip: seq<byte>): Option<seq<byte>> {
    if |ip| == 4 then Some(ip) else if Mapped(ip) then Some(ip[12..]) else None
  }

  function To16(ip: seq<byte>): seq<byte> {
    if |ip| == 4 then [0, 0, 0, 0, 0, 0, 0, 0, 0, 0, 255, 255] + ip else if |ip| == 16 then ip else []
  }

  function BuildReflectReply(nonce: seq<byte>, addr: Address): seq<byte> {
    REPLY_MAGIC + nonce
    + (if To4(addr.ip).Some? then [4] + To4(addr.ip).value else [6] + To16(addr.ip))
    + Uint16(addr.port)
  }

  function ParseReflectReply(data: seq<byte>): Option<(seq<byte>, Address)> {
    var off := |REPLY_MAGIC| + NONCE_LEN;
    if |data| < off + 1 || data[..|REPLY_MAGIC|] != REPLY_MAGIC || data[off] !in {4, 6} then None
    else
      var end := off + 1 + if data[off] == 4 then 4 else 16;
      if |data| < end + 2 then None
      else Some((data[|REPLY_MAGIC|..off], Address(data[off + 1..end], FromUint16(data[end..end + 2]))))
  }

  /** Addresses as a socket reports them. */
  predicate Usable(addr: Address) {
    (|addr.ip| == 4 || |addr.ip| == 16) && 0 <= addr.port < 65536
  }

  predicate SameAddress(a: Address, b: Address) {
    To16(a.ip) == To16(b.ip) && a.port == b.port
  }

  lemma ReplyLayout(nonce: seq<byte>, addr: Address)
    requires |nonce| == NONCE_LEN && Usable(addr)
    ensures var data := BuildReflectReply(nonce, addr);
      var ip := if To4(addr.ip).Some? then To4(addr.ip).value else addr.ip;
      && |data| == 28 + |ip| && data[..9] == REPLY_MAGIC && data[9..25] == nonce
      && data[25] == (if |ip| == 4 then 4 else 6) && data[26..26 + |ip|] == ip && data[26 + |ip|..] == Uint16(addr.port)
  {
  }

  lemma MappedIsSame(ip: seq<byte>)
    requires Mapped(ip)
    ensures To16(ip[12..]) == ip
  {
    assert ip == ip[..12] + ip[12..];
  }

  /** The reflector's exchange: an accepted request is answered with a strictly shorter datagram that
    * parses back to the request's nonce and the address it was seen from. */
  lemma ReflectionRoundTrip(request: seq<byte>, addr: Address)
    requires ParseReflectRequest(request).Some? && Usable(addr)
    ensures var nonce := ParseReflectRequest(request).value; var reply := BuildReflectReply(nonce, addr);
      && |reply| < |request|
      && ParseReflectReply(reply).Some?
      && ParseReflectReply(reply).value.0 == nonce
      && SameAddress(ParseReflectReply(reply).value.1, addr)
  {
    var nonce := ParseReflectRequest(request).value;
    ReplyLayout(nonce, addr);
    Uint16RoundTrip(addr.port);
    if Mapped(addr.ip) { MappedIsSame(addr.ip); }
    var reply := BuildReflectReply(nonce, addr);
    var n := if To4(addr.ip).Some? then 4 else 16;
    assert reply[26 + n..26 + n + 2] == reply[26 + n..];
  }

  /** A reply is never longer than an accepted request, whatever address it reports. */
  lemma NeverAmplifies(request: seq<byte>, addr: Address)
    requires ParseReflectRequest(request).Some?
    ensures |BuildReflectReply(ParseReflectRequest(request).value, addr)| < |request|
  {
    assert |To16(addr.ip)| <= 16;
  }

  /** An accepted reply starts with the reply built for what it reports, unless it spells an IPv4
    * address in sixteen bytes, which is never built. */
  lemma AcceptedReplyIffBuiltPrefix(data: seq<byte>)
    requires ParseReflectReply(data).Some?
    ensures var (nonce, addr) := ParseReflectReply(data).value;
      BuildReflectReply(nonce, addr) <= data <==> !Mapped(addr.ip)
  {
    var (nonce, addr) := ParseReflectReply(data).value;
    ReplyLayout(nonce, addr);
    var built := BuildReflectReply(nonce, addr);
    var end := 26 + |addr.ip|;
    Uint16IsCanonical(data[end..end + 2]);
    if Mapped(addr.ip) {
      assert data[25] == 6 && built[25] == 4;
    } else {
      assert built == data[..9] + data[9..25] + [data[25]] + data[26..end] + data[end..end + 2];
      assert built == data[..end + 2];
    }
  }

  /** Such a reply: it is accepted, and no reply built for what it reports is a prefix of it. */
  lemma MappedReplyIsAccepted(nonce: seq<byte>)
    requires |nonce| == NONCE_LEN
    ensures var ip: seq<byte> := [0, 0, 0, 0, 0, 0, 0, 0, 0, 0, 255, 255, 203, 0, 113, 5];
      var data := REPLY_MAGIC + nonce + [6] + ip + [1, 187];
      && ParseReflectReply(data) == Some((nonce, Address(ip, 443)))
      && !(BuildReflectReply(nonce, Address(ip, 443)) <= data)
  {
    var ip: seq<byte> := [0, 0, 0, 0, 0, 0, 0, 0, 0, 0, 255, 255, 203, 0, 113, 5];
    var data := REPLY_MAGIC + nonce + [6] + ip + [1, 187];
    assert data[..9] == REPLY_MAGIC && data[9..25] == nonce && data[25] == 6;
    assert data[26..42] == ip && data[42..44] == [1, 187];
    assert ip[..12] == [0, 0, 0, 0, 0, 0, 0, 0, 0, 0, 255, 255];
    AcceptedReplyIffBuiltPrefix(data);
  }
}
