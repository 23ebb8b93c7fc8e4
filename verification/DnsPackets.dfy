/**
 Answering a DNS query that arrived inside the tunnel: the reply's IP and UDP headers are written over whatever the
 buffer held before. Field layouts follow section 3.1 of RFC 791, RFC 768 and section 3 of RFC 8200.
 */
module DnsPackets {
  import opened Basics
  import opened Checksum

  const IPV4_HEADER: nat := 20
  const IPV6_HEADER: nat := 40
  const UDP_HEADER: nat := 8
  const UDP: Byte := 17

  type Bits2 = b: int | 0 <= b < 4
  type Bits6 = b: int | 0 <= b < 64
  type U16 = w: int | 0 <= w < 0x10000
  type Ipv4 = a: Bytes | |a| == 4 witness [0, 0, 0, 0]
  type Ipv6 = a: Bytes | |a| == 16 witness [0, 0, 0, 0, 0, 0, 0, 0, 0, 0, 0, 0, 0, 0, 0, 0]

  /** What is kept of the request to address the reply. */
  datatype IpInfo =
    | V4(source4: Ipv4, destination4: Ipv4, dscp: Bits6, ecn: Bits2, ttl: Byte, identification: U16)
    | V6(source6: Ipv6, destination6: Ipv6)

  datatype RequestInfo = RequestInfo(ip: IpInfo, sourcePort: U16, destinationPort: U16)

  datatype Reply = Ok(length: nat) | Err

  function U16Of(n: nat): U16 {
    n % 0x10000
  }

  function WordBytes(w: U16): Bytes {
    [HighByte(w), LowByte(w)]
  }

  function HeaderLength(ip: IpInfo): nat {
    if ip.V4? then IPV4_HEADER else IPV6_HEADER
  }

  /** The reply's length, and so the room it needs. */
  function ReplyLength(r: RequestInfo, answer: Bytes): nat {
    HeaderLength(r.ip) + UDP_HEADER + |answer|
  }

  // ---- The reply as a value ----

  /** Bytes 6 and 7 hold three flag bits and the fragment offset; only the flags are written. */
  function V4Fields(ip: IpInfo, payload: nat, b6: Byte, b7: Byte): (h: Bytes)
    requires ip.V4?
    ensures |h| == IPV4_HEADER
  {
    var (total, id, from, to) := (U16Of(IPV4_HEADER + payload), ip.identification, ip.destination4, ip.source4);
    [0x45, ip.dscp * 4 + ip.ecn, HighByte(total), LowByte(total), HighByte(id), LowByte(id), 2 * 32 + b6 % 32, b7,
     ip.ttl, UDP, 0, 0, from[0], from[1], from[2], from[3], to[0], to[1], to[2], to[3]]
  }

  function V4Header(ip: IpInfo, payload: nat, b6: Byte, b7: Byte): (h: Bytes)
    requires ip.V4?
    ensures |h| == IPV4_HEADER
  {
    Sealed(V4Fields(ip, payload, b6, b7), 5, 0)
  }

  function V6Start(payload: nat): Bytes {
    [0x60, 0, 0, 0, HighByte(U16Of(payload)), LowByte(U16Of(payload)), UDP, 255]
  }

  function V6Header(ip: IpInfo, payload: nat): (h: Bytes)
    requires ip.V6?
    ensures |h| == IPV6_HEADER
  {
    V6Start(payload) + ip.destination6 + ip.source6
  }

  function IpHeader(ip: IpInfo, payload: nat, b6: Byte, b7: Byte): (h: Bytes)
    ensures |h| == HeaderLength(ip)
  {
    if ip.V4? then V4Header(ip, payload, b6, b7) else V6Header(ip, payload)
  }

  /** The addresses, protocol and length that are summed with a datagram though they are not part of it. */
  function PseudoSum(source: Bytes, destination: Bytes, length: nat): nat {
    WordSum(source) + WordSum(destination) + UDP + length
  }

  /** The pseudo-header sum of the reply, whose addresses are those of the request exchanged. */
  function ReplyPseudoSum(ip: IpInfo, length: nat): nat {
    if ip.V4? then PseudoSum(ip.destination4, ip.source4, length) else PseudoSum(ip.destination6, ip.source6, length)
  }

  function UdpStart(r: RequestInfo, answer: nat): (d: Bytes)
    ensures |d| == 6
  {
    var (from, to, length) := (r.destinationPort, r.sourcePort, U16Of(UDP_HEADER + answer));
    [HighByte(from), LowByte(from), HighByte(to), LowByte(to), HighByte(length), LowByte(length)]
  }

  function UdpFields(r: RequestInfo, answer: Bytes): (d: Bytes)
    ensures |d| == UDP_HEADER + |answer|
  {
    UdpStart(r, |answer|) + [0, 0] + answer
  }

  function UdpReply(r: RequestInfo, answer: Bytes): (d: Bytes)
    ensures |d| == UDP_HEADER + |answer|
  {
    Sealed(UdpFields(r, answer), 3, ReplyPseudoSum(r.ip, UDP_HEADER + |answer|))
  }

  function ReplyPacket(r: RequestInfo, answer: Bytes, b6: Byte, b7: Byte): (p: Bytes)
    ensures |p| == ReplyLength(r, answer)
  {
    IpHeader(r.ip, UDP_HEADER + |answer|, b6, b7) + UdpReply(r, answer)
  }

  // ---- Writing the reply in place ----

  /** The buffer contents with `bytes` written at `at`. */
  function Put(s: Bytes, at: nat, bytes: Bytes): Bytes
    requires at + |bytes| <= |s|
  {
    s[..at] + bytes + s[at + |bytes|..]
  }

  method WriteWord(buffer: array<Byte>, at: nat, w: U16)
    requires at + 2 <= buffer.Length
    modifies buffer
    ensures buffer[..] == Put(old(buffer[..]), at, WordBytes(w))
  {
    buffer[at], buffer[at + 1] := HighByte(w), LowByte(w);
  }

  method WriteBytes(buffer: array<Byte>, at: nat, bytes: Bytes)
    requires at + |bytes| <= buffer.Length
    modifies buffer
    ensures buffer[..] == Put(old(buffer[..]), at, bytes)
  {
    for i := 0 to |bytes|
      invariant buffer[..] == Put(old(buffer[..]), at, bytes[..i])
    {
      assert Put(old(buffer[..]), at, bytes[..i + 1]) == Put(old(buffer[..]), at, bytes[..i])[at + i := bytes[i]];
      buffer[at + i] := bytes[i];
    }
    assert bytes[..|bytes|] == bytes;
  }

  /** Fill in the checksum of the message between `from` and `to`, whose checksum field has been cleared. */
  method WriteChecksum(buffer: array<Byte>, from: nat, to: nat, at: nat, extra: nat)
    requires from + 2 * at + 2 <= to <= buffer.Length
    modifies buffer
    ensures buffer[..] == Put(old(buffer[..]), from, Sealed(old(buffer[from..to]), at, extra))
  {
    var c := Complement(Fold(extra + WordSumSkipping(buffer[from..to], at)));
    WriteWord(buffer, from + 2 * at, c);
    PutSealed(old(buffer[..]), from, to, at, extra);
  }

  lemma PutSealed(s: Bytes, from: nat, to: nat, at: nat, extra: nat)
    requires from + 2 * at + 2 <= to <= |s|
    ensures var c := Complement(Fold(extra + WordSumSkipping(s[from..to], at)));
            Put(s, from + 2 * at, WordBytes(c)) == Put(s, from, Sealed(s[from..to], at, extra))
  {
    hide WordSumSkipping, Fold;
    var c := Complement(Fold(extra + WordSumSkipping(s[from..to], at)));
    assert s[from..to][..2 * at] == s[from..from + 2 * at];
    assert s[from..to][2 * at + 2..] == s[from + 2 * at + 2..to];
    assert s[from + 2 * at + 2..] == s[from + 2 * at + 2..to] + s[to..];
    assert s[..from + 2 * at] == s[..from] + s[from..from + 2 * at];
  }

  method WriteV4Fields(buffer: array<Byte>, ip: IpInfo, payload: nat)
    requires ip.V4? && IPV4_HEADER <= buffer.Length
    modifies buffer
    ensures buffer[..] == Put(old(buffer[..]), 0, V4Fields(ip, payload, old(buffer[6]), old(buffer[7])))
  {
    WriteV4Start(buffer, ip, payload);
    ghost var start := buffer[..];
    WriteBytes(buffer, 12, ip.destination4);
    WriteBytes(buffer, 16, ip.source4);
    WriteWord(buffer, 10, 0);
    V4Parts(old(buffer[..]), start, ip, payload);
  }

  lemma V4Parts(before: Bytes, start: Bytes, ip: IpInfo, payload: nat)
    requires ip.V4? && IPV4_HEADER <= |before| == |start|
    requires start[..10] == V4Fields(ip, payload, before[6], before[7])[..10] && start[10..] == before[10..]
    ensures Put(Put(Put(start, 12, ip.destination4), 16, ip.source4), 10, WordBytes(0)) ==
            Put(before, 0, V4Fields(ip, payload, before[6], before[7]))
  {
    hide HighByte, LowByte, U16Of;
    var fields := V4Fields(ip, payload, before[6], before[7]);
    var written := Put(Put(Put(start, 12, ip.destination4), 16, ip.source4), 10, WordBytes(0));
    var target := Put(before, 0, fields);
    assert HighByte(0) == 0 && LowByte(0) == 0 by {
      ZeroBytes();
    }
    forall i | 0 <= i < |before|
      ensures written[i] == target[i]
    {
      if i < 10 {
        assert written[i] == start[..10][i] == fields[..10][i];
      } else if i < 12 {
      } else if i < 16 {
        assert written[i] == ip.destination4[i - 12];
      } else if i < 20 {
        assert written[i] == ip.source4[i - 16];
      } else {
        assert written[i] == start[10..][i - 10] == before[10..][i - 10];
      }
    }
  }

  lemma ZeroBytes()
    ensures HighByte(0) == 0 && LowByte(0) == 0
  {
  }

  /** Everything before the checksum and the addresses; each field keeps its neighbours in the same byte. */
  method WriteV4Start(buffer: array<Byte>, ip: IpInfo, payload: nat)
    requires ip.V4? && IPV4_HEADER <= buffer.Length
    modifies buffer
    ensures buffer[..10] == V4Fields(ip, payload, old(buffer[6]), old(buffer[7]))[..10]
    ensures buffer[10..] == old(buffer[10..])
  {
    hide HighByte, LowByte, U16Of;
    var total, id := U16Of(IPV4_HEADER + payload), ip.identification;
    buffer[0] := 4 * 16 + buffer[0] % 16;
    buffer[0] := buffer[0] / 16 * 16 + 5;
    buffer[1] := ip.dscp * 4 + buffer[1] % 4;
    buffer[1] := buffer[1] / 4 * 4 + ip.ecn;
    buffer[2], buffer[3] := HighByte(total), LowByte(total);
    buffer[6] := 2 * 32 + buffer[6] % 32;
    buffer[4], buffer[5] := HighByte(id), LowByte(id);
    buffer[9] := UDP;
    buffer[8] := ip.ttl;
  }

  method BuildIpHeader(buffer: array<Byte>, ip: IpInfo, payload: nat) returns (ok: bool)
    modifies buffer
    ensures ok == (HeaderLength(ip) <= buffer.Length)
    ensures !ok ==> buffer[..] == old(buffer[..])
    ensures ok ==> buffer[..] == Put(old(buffer[..]), 0, IpHeader(ip, payload, old(buffer[6]), old(buffer[7])))
  {
    ok := HeaderLength(ip) <= buffer.Length;
    if !ok {
      return;
    }
    if ip.V4? {
      WriteV4Fields(buffer, ip, payload);
      ghost var fields := V4Fields(ip, payload, old(buffer[6]), old(buffer[7]));
      PutThenPut(old(buffer[..]), 0, fields, V4Header(ip, payload, old(buffer[6]), old(buffer[7])));
      assert buffer[0..IPV4_HEADER] == buffer[..][0..IPV4_HEADER];
      WriteChecksum(buffer, 0, IPV4_HEADER, 5, 0);
    } else {
      WriteBytes(buffer, 0, V6Start(payload));
      WriteBytes(buffer, 8, ip.destination6);
      WriteBytes(buffer, 24, ip.source6);
      PutPut(old(buffer[..]), V6Start(payload), ip.destination6);
      PutPut(old(buffer[..]), V6Start(payload) + ip.destination6, ip.source6);
    }
  }

  /** Write the datagram behind an IP header of `ihl` bytes. */
  method BuildPayload(buffer: array<Byte>, r: RequestInfo, ihl: nat, answer: Bytes) returns (reply: Reply)
    modifies buffer
    ensures reply == if ihl + UDP_HEADER + |answer| <= buffer.Length then Ok(ihl + UDP_HEADER + |answer|) else Err
    ensures reply.Err? ==> buffer[..] == old(buffer[..])
    ensures reply.Ok? ==> buffer[..] == Put(old(buffer[..]), ihl, UdpReply(r, answer))
  {
    var length := ihl + UDP_HEADER + |answer|;
    if length > buffer.Length {
      return Err;
    }
    hide UdpFields, Sealed, ReplyPseudoSum;
    WriteUdpFields(buffer, r, ihl, answer);
    PutThenPut(old(buffer[..]), ihl, UdpFields(r, answer), UdpReply(r, answer));
    assert buffer[ihl..length] == buffer[..][ihl..length];
    WriteChecksum(buffer, ihl, length, 3, ReplyPseudoSum(r.ip, UDP_HEADER + |answer|));
    reply := Ok(length);
  }

  method WriteUdpFields(buffer: array<Byte>, r: RequestInfo, ihl: nat, answer: Bytes)
    requires ihl + UDP_HEADER + |answer| <= buffer.Length
    modifies buffer
    ensures buffer[..] == Put(old(buffer[..]), ihl, UdpFields(r, answer))
  {
    WriteUdpStart(buffer, r, ihl, |answer|);
    ghost var start := buffer[..];
    WriteBytes(buffer, ihl + UDP_HEADER, answer);
    WriteWord(buffer, ihl + 6, 0);
    UdpParts(old(buffer[..]), start, r, ihl, answer);
  }

  /** The ports and the length; the checksum field is left for later. */
  method WriteUdpStart(buffer: array<Byte>, r: RequestInfo, ihl: nat, answer: nat)
    requires ihl + UDP_HEADER <= buffer.Length
    modifies buffer
    ensures buffer[..] == Put(old(buffer[..]), ihl, UdpStart(r, answer))
  {
    hide HighByte, LowByte, U16Of;
    var length := U16Of(UDP_HEADER + answer);
    buffer[ihl], buffer[ihl + 1] := HighByte(r.destinationPort), LowByte(r.destinationPort);
    buffer[ihl + 2], buffer[ihl + 3] := HighByte(r.sourcePort), LowByte(r.sourcePort);
    buffer[ihl + 4], buffer[ihl + 5] := HighByte(length), LowByte(length);
  }

  lemma UdpParts(before: Bytes, start: Bytes, r: RequestInfo, ihl: nat, answer: Bytes)
    requires ihl + UDP_HEADER + |answer| <= |before|
    requires start == Put(before, ihl, UdpStart(r, |answer|))
    ensures Put(Put(start, ihl + UDP_HEADER, answer), ihl + 6, WordBytes(0)) == Put(before, ihl, UdpFields(r, answer))
  {
    hide UdpStart;
    ZeroBytes();
    var written := Put(Put(start, ihl + UDP_HEADER, answer), ihl + 6, WordBytes(0));
    var target := Put(before, ihl, UdpFields(r, answer));
    forall i | 0 <= i < |before|
      ensures written[i] == target[i]
    {
      if i < ihl {
        assert written[i] == start[i] == before[i];
      } else if i < ihl + 6 {
        assert written[i] == start[i] == UdpStart(r, |answer|)[i - ihl];
      } else if i < ihl + 8 {
      } else if i < ihl + 8 + |answer| {
        assert written[i] == answer[i - ihl - 8];
      } else {
        assert written[i] == start[i] == before[i];
      }
    }
  }

  /**
   The whole reply. It fails exactly when the buffer is too short, and otherwise its bytes depend on nothing the
   buffer held before except the fragment-offset bits of an IPv4 header; bytes beyond the reply are untouched.
   */
  method BuildResponsePacket(buffer: array<Byte>, r: RequestInfo, answer: Bytes) returns (reply: Reply)
    modifies buffer
    ensures reply == if ReplyLength(r, answer) <= buffer.Length then Ok(ReplyLength(r, answer)) else Err
    ensures reply.Ok? ==> buffer[..] == Put(old(buffer[..]), 0, ReplyPacket(r, answer, old(buffer[6]), old(buffer[7])))
  {
    var ok := BuildIpHeader(buffer, r.ip, UDP_HEADER + |answer|);
    if !ok {
      return Err;
    }
    reply := BuildPayload(buffer, r, HeaderLength(r.ip), answer);
    if reply.Ok? {
      ghost var header := IpHeader(r.ip, UDP_HEADER + |answer|, old(buffer[6]), old(buffer[7]));
      PutPut(old(buffer[..]), header, UdpReply(r, answer));
    }
  }

  /** What was put is read back, and putting something of the same length over it leaves only that. */
  lemma PutThenPut(s: Bytes, at: nat, a: Bytes, b: Bytes)
    requires at + |a| <= |s| && |a| == |b|
    ensures Put(s, at, a)[at..at + |a|] == a
    ensures Put(Put(s, at, a), at, b) == Put(s, at, b)
  {
  }

  lemma PutPut(s: Bytes, a: Bytes, b: Bytes)
    requires |a| + |b| <= |s|
    ensures Put(Put(s, 0, a), |a|, b) == Put(s, 0, a + b)
  {
  }

  // ---- Reading packets ----

  /** A UDP datagram with the addressing the server keeps. */
  datatype Datagram = Datagram(ip: IpInfo, sourcePort: U16, destinationPort: U16, payload: Bytes)

  function Clip(n: nat, low: nat, high: nat): nat {
    if n < low then low else if n > high then high else n
  }

  predicate CheckValidV4(p: Bytes) {
    && |p| >= IPV4_HEADER
    && p[0] / 16 == 4
    && p[0] % 16 >= 5
    && Complement(Fold(WordSumSkipping(p[..Clip(p[0] % 16 * 4, IPV4_HEADER, |p|)], 5))) == Word(p[10], p[11])
  }

  /** What follows the header and its options, up to the total length. */
  function PayloadV4(p: Bytes): Bytes
    requires |p| >= IPV4_HEADER
  {
    var ihl, total := p[0] % 16 * 4, Word(p[2], p[3]);
    var start := IPV4_HEADER + if ihl > IPV4_HEADER then ihl - IPV4_HEADER else 0;
    var length := if total > ihl then total - ihl else 0;
    if |p| <= start then [] else p[start..if start + length < |p| then start + length else |p|]
  }

  predicate CheckValidV6(p: Bytes) {
    |p| >= IPV6_HEADER && p[0] / 16 == 6 && IPV6_HEADER + Word(p[4], p[5]) <= |p|
  }

  function PayloadV6(p: Bytes): Bytes
    requires CheckValidV6(p)
  {
    p[IPV6_HEADER..IPV6_HEADER + Word(p[4], p[5])]
  }

  predicate UdpChecksumValid(source: Bytes, destination: Bytes, d: Bytes)
    requires |d| >= UDP_HEADER
  {
    Complement(Fold(PseudoSum(source, destination, |d|) + WordSumSkipping(d, 3))) == Word(d[6], d[7])
  }

  function ReadUdp(ip: IpInfo, d: Bytes): Option<Datagram> {
    if |d| < UDP_HEADER then None
    else if !(if ip.V4? then UdpChecksumValid(ip.source4, ip.destination4, d)
              else UdpChecksumValid(ip.source6, ip.destination6, d))
    then None
    else Some(Datagram(ip, Word(d[0], d[1]), Word(d[2], d[3]), d[UDP_HEADER..]))
  }

  /** Validate and take apart a packet carrying UDP. */
  function Read(p: Bytes): Option<Datagram> {
    if p == [] then None
    else if p[0] / 16 == 4 then
      if !CheckValidV4(p) || p[9] != UDP then None
      else ReadUdp(V4(p[12..16], p[16..20], p[1] / 4, p[1] % 4, p[8], Word(p[4], p[5])), PayloadV4(p))
    else if p[0] / 16 == 6 then
      if !CheckValidV6(p) || p[6] != UDP then None
      else ReadUdp(V6(p[8..24], p[24..40]), PayloadV6(p))
    else None
  }

  /** A query: a valid datagram to the DNS port. */
  function Query(p: Bytes): Option<RequestInfo> {
    var d := Read(p);
    if d.Some? && d.value.destinationPort == 53
    then Some(RequestInfo(d.value.ip, d.value.sourcePort, d.value.destinationPort))
    else None
  }

  // ---- What a reply says ----

  function Swapped(ip: IpInfo): IpInfo {
    match ip
    case V4(source, destination, dscp, ecn, ttl, id) => V4(destination, source, dscp, ecn, ttl, id)
    case V6(source, destination) => V6(destination, source)
  }

  lemma UdpReplyReads(r: RequestInfo, answer: Bytes)
    ensures ReadUdp(Swapped(r.ip), UdpReply(r, answer)) ==
            Some(Datagram(Swapped(r.ip), r.destinationPort, r.sourcePort, answer))
  {
    hide WordSumSkipping, Fold, HighByte, LowByte, PseudoSum, Sealed, Complement, Word;
    var fields, d := UdpFields(r, answer), UdpReply(r, answer);
    SealedSums(fields, 3, ReplyPseudoSum(r.ip, |fields|));
    WordRoundTrip(r.destinationPort);
    WordRoundTrip(r.sourcePort);
    assert d[0] == fields[0] && d[1] == fields[1] && d[2] == fields[2] && d[3] == fields[3];
    assert fields[UDP_HEADER..] == answer;
    assert forall i :: UDP_HEADER <= i < |d| ==> d[i] == fields[i];
    assert d[UDP_HEADER..] == answer;
  }

  lemma V4HeaderReads(ip: IpInfo, payload: nat, b6: Byte, b7: Byte, rest: Bytes)
    requires ip.V4?
    ensures var p := V4Header(ip, payload, b6, b7) + rest;
            && CheckValidV4(p) && p[0] == 0x45 && p[9] == UDP
            && p[12..16] == ip.destination4 && p[16..20] == ip.source4
            && p[1] / 4 == ip.dscp && p[1] % 4 == ip.ecn && p[8] == ip.ttl && Word(p[4], p[5]) == ip.identification
            && Word(p[2], p[3]) == U16Of(IPV4_HEADER + payload)
  {
    hide WordSumSkipping, Fold, HighByte, LowByte, U16Of;
    var fields, h := V4Fields(ip, payload, b6, b7), V4Header(ip, payload, b6, b7);
    var p := h + rest;
    SealedSums(fields, 5, 0);
    WordRoundTrip(ip.identification);
    WordRoundTrip(U16Of(IPV4_HEADER + payload));
    assert p[..20] == h;
    assert p[12..16] == ip.destination4;
    assert p[16..20] == ip.source4;
  }

  lemma V6HeaderReads(ip: IpInfo, payload: nat, rest: Bytes)
    requires ip.V6?
    ensures var p := V6Header(ip, payload) + rest;
            && p[0] == 0x60 && p[6] == UDP && p[8..24] == ip.destination6 && p[24..40] == ip.source6
            && Word(p[4], p[5]) == U16Of(payload)
  {
    hide HighByte, LowByte, U16Of;
    WordRoundTrip(U16Of(payload));
    var p := V6Header(ip, payload) + rest;
    assert V6Header(ip, payload)[..8] == V6Start(payload);
    assert p[8..24] == ip.destination6;
    assert p[24..40] == ip.source6;
  }

  /**
   A reply of at most 65535 bytes is a valid packet that reads back as exactly the answer, sent from the address and
   port the query went to, to the address and port it came from.
   */
  lemma ReplyReadsBack(r: RequestInfo, answer: Bytes, b6: Byte, b7: Byte)
    requires ReplyLength(r, answer) <= 0xffff
    ensures Read(ReplyPacket(r, answer, b6, b7)) ==
            Some(Datagram(Swapped(r.ip), r.destinationPort, r.sourcePort, answer))
  {
    hide UdpReply, ReadUdp, V4Header, V6Header, CheckValidV4, Word;
    var p, d := ReplyPacket(r, answer, b6, b7), UdpReply(r, answer);
    UdpReplyReads(r, answer);
    if r.ip.V4? {
      V4HeaderReads(r.ip, |d|, b6, b7, d);
      assert PayloadV4(p) == p[IPV4_HEADER..] == d;
    } else {
      V6HeaderReads(r.ip, |d|, d);
      assert PayloadV6(p) == p[IPV6_HEADER..] == d;
    }
  }

  /** Answering any accepted query: the reply comes from port 53 of the queried address and goes to the asker. */
  lemma QueryIsAnswered(p: Bytes, answer: Bytes, b6: Byte, b7: Byte)
    requires Query(p).Some? && ReplyLength(Query(p).value, answer) <= 0xffff
    ensures var q, d := Read(p).value, Read(ReplyPacket(Query(p).value, answer, b6, b7));
            && d.Some? && d.value.payload == answer && d.value.ip == Swapped(q.ip)
            && d.value.sourcePort == 53 && d.value.destinationPort == q.sourcePort
  {
    ReplyReadsBack(Query(p).value, answer, b6, b7);
  }

  /** The length fields hold the real sizes exactly when those fit in 16 bits. */
  lemma LengthFieldsExact(r: RequestInfo, answer: Bytes, b6: Byte, b7: Byte)
    ensures var p, ihl := ReplyPacket(r, answer, b6, b7), HeaderLength(r.ip);
            && (r.ip.V4? ==> (Word(p[2], p[3]) == |p| <==> |p| <= 0xffff))
            && (r.ip.V6? ==> (Word(p[4], p[5]) + IPV6_HEADER == |p| <==> |p| - IPV6_HEADER <= 0xffff))
            && (Word(p[ihl + 4], p[ihl + 5]) == |p| - ihl <==> |p| - ihl <= 0xffff)
  {
    hide Word, UdpReply, V4Header, V6Header, CheckValidV4, U16Of;
    var p, d := ReplyPacket(r, answer, b6, b7), UdpReply(r, answer);
    UdpLength(r, answer);
    FitsIff(UDP_HEADER + |answer|);
    assert p[HeaderLength(r.ip) + 4] == d[4] && p[HeaderLength(r.ip) + 5] == d[5];
    if r.ip.V4? {
      V4HeaderReads(r.ip, |d|, b6, b7, d);
      FitsIff(IPV4_HEADER + |d|);
    } else {
      V6HeaderReads(r.ip, |d|, d);
    }
  }

  lemma FitsIff(n: nat)
    ensures U16Of(n) == n <==> n <= 0xffff
  {
  }

  lemma UdpLength(r: RequestInfo, answer: Bytes)
    ensures Word(UdpReply(r, answer)[4], UdpReply(r, answer)[5]) == U16Of(UDP_HEADER + |answer|)
  {
    hide WordSumSkipping, Fold, HighByte, LowByte, U16Of;
    SealedSums(UdpFields(r, answer), 3, ReplyPseudoSum(r.ip, UDP_HEADER + |answer|));
    WordRoundTrip(U16Of(UDP_HEADER + |answer|));
  }

  /** Both checksums are right in the sense of RFC 1071: header and pseudo-header sums come to all ones. */
  lemma ReplySums(r: RequestInfo, answer: Bytes, b6: Byte, b7: Byte)
    ensures r.ip.V4? ==> Fold(WordSum(ReplyPacket(r, answer, b6, b7)[..IPV4_HEADER])) == 0xffff
    ensures var d := ReplyPacket(r, answer, b6, b7)[HeaderLength(r.ip)..];
            Fold(ReplyPseudoSum(r.ip, |d|) + WordSum(d)) == 0xffff
  {
    hide WordSumSkipping, WordSum, Fold;
    var p := ReplyPacket(r, answer, b6, b7);
    SealedSums(UdpFields(r, answer), 3, ReplyPseudoSum(r.ip, UDP_HEADER + |answer|));
    assert p[HeaderLength(r.ip)..] == UdpReply(r, answer);
    if r.ip.V4? {
      SealedSums(V4Fields(r.ip, UDP_HEADER + |answer|, b6, b7), 5, 0);
      assert p[..IPV4_HEADER] == V4Header(r.ip, UDP_HEADER + |answer|, b6, b7);
    }
  }

  // ---- The checksum value zero ----

  function ChecksumField(r: RequestInfo, answer: Bytes): nat {
    Word(UdpReply(r, answer)[6], UdpReply(r, answer)[7])
  }

  /**
   RFC 768 reserves a zero checksum for "none", and section 8.1 of RFC 8200 forbids it over IPv6: a computed zero is to
   be sent as all ones. The reply is sent with zero exactly when the unsealed datagram already sums to all ones.
   */
  lemma ZeroChecksumIff(r: RequestInfo, answer: Bytes)
    ensures ChecksumField(r, answer) == 0 <==>
            Fold(ReplyPseudoSum(r.ip, UDP_HEADER + |answer|) + WordSumSkipping(UdpFields(r, answer), 3)) == 0xffff
  {
    hide WordSumSkipping, Fold;
    SealedSums(UdpFields(r, answer), 3, ReplyPseudoSum(r.ip, UDP_HEADER + |answer|));
  }

  /** Such replies exist for every query: any answer of even length has a continuation by one word that gives one. */
  lemma ZeroChecksumReachable(r: RequestInfo, answer: Bytes) returns (more: Bytes)
    requires |answer| % 2 == 0
    ensures |more| == 2 && ChecksumField(r, answer + more) == 0
  {
    hide WordSum, Fold;
    var blank := UdpFields(r, answer + [0, 0]);
    var sum := ReplyPseudoSum(r.ip, |blank|) + WordSumSkipping(blank, 3);
    var w := Complement(Fold(sum));
    more := WordBytes(w);
    var full := UdpFields(r, answer + more);
    LastWordAdds(r, answer, w);
    ComplementCompletes(sum);
    ZeroChecksumIff(r, answer + more);
  }

  lemma LastWordAdds(r: RequestInfo, answer: Bytes, w: U16)
    requires |answer| % 2 == 0
    ensures WordSumSkipping(UdpFields(r, answer + WordBytes(w)), 3) ==
            WordSumSkipping(UdpFields(r, answer + [0, 0]), 3) + w
  {
    hide WordSum;
    var a, b := UdpFields(r, answer + WordBytes(w)), UdpFields(r, answer + [0, 0]);
    assert a[8..] == answer + WordBytes(w) && b[8..] == answer + [0, 0];
    assert a[..6] == b[..6];
    WordSumConcat(answer, WordBytes(w));
    WordSumConcat(answer, [0, 0]);
    OneWord(HighByte(w), LowByte(w));
    OneWord(0, 0);
    WordRoundTrip(w);
  }
}
