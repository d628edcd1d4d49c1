/** `PacketParser.parse`, on the layers that Scapy finds in a frame. */
module Parser {
  import opened Base
  import opened Tracker

  datatype IpLayer = IpLayer(src: string, dst: string, proto: nat)

  datatype Segment = Segment(sport: nat, dport: nat, payload: seq<byte>)

  /** A captured frame: its length and those of its layers that the parser looks for. */
  datatype Frame = Frame(length: nat, ip: Option<IpLayer>, tcp: Option<Segment>, udp: Option<Segment>)

  /** `protocol_map.get(protocol_number, "UNKNOWN")`. */
  function ProtocolName(number: nat): string {
    if number == 1 then "ICMP" else if number == 6 then "TCP" else if number == 17 then "UDP" else "UNKNOWN"
  }

  /** TCP, or else UDP. */
  function Transport(f: Frame): Option<Segment> {
    if f.tcp.Some? then f.tcp else f.udp
  }

  /** What the parser leaves in its dictionary. */
  function Fields(f: Frame): Packet {
    var ip := f.ip;
    var segment := Transport(f);
    Packet(
      f.length,
      if ip.Some? then Some(ip.value.src) else None,
      if ip.Some? then Some(ip.value.dst) else None,
      if ip.Some? then Some(ProtocolName(ip.value.proto)) else None,
      if segment.Some? then Some(segment.value.sport) else None,
      if segment.Some? then Some(segment.value.dport) else None,
      if segment.Some? then Some(segment.value.payload) else None)
  }

  /** `parse`, key by key. */
  method Parse(f: Frame) returns (result: Packet)
    ensures result == Fields(f) && Parsed(result)
  {
    result := Packet(f.length, None, None, None, None, None, None);
    if f.ip.Some? {
      result := result.(srcIp := Some(f.ip.value.src), dstIp := Some(f.ip.value.dst));
      result := result.(protocol := Some(ProtocolName(f.ip.value.proto)));
    }
    if f.tcp.Some? {
      result := result.(srcPort := Some(f.tcp.value.sport), dstPort := Some(f.tcp.value.dport));
    } else if f.udp.Some? {
      result := result.(srcPort := Some(f.udp.value.sport), dstPort := Some(f.udp.value.dport));
    }
    if f.tcp.Some? {
      result := result.(payload := Some(f.tcp.value.payload));
    } else if f.udp.Some? {
      result := result.(payload := Some(f.udp.value.payload));
    }
  }

  /** A protocol number with this name, if it is one of the four names. */
  function NumberOf(name: string): nat {
    if name == "ICMP" then 1 else if name == "TCP" then 6 else if name == "UDP" then 17 else 0
  }

  /** A frame that parses to the given packet, if any does. */
  function FrameOf(p: Packet): Frame {
    Frame(
      p.length,
      if p.protocol == None then None
      else Some(IpLayer(p.srcIp.GetOr(""), p.dstIp.GetOr(""), NumberOf(p.protocol.value))),
      if p.payload.Some? then Some(Segment(p.srcPort.GetOr(0), p.dstPort.GetOr(0), p.payload.value)) else None,
      None)
  }

  /** `Parsed` is neither more nor less than what the parser can produce. */
  lemma ParsedIsExact(p: Packet)
    ensures Parsed(p) <==> exists f: Frame :: Fields(f) == p
  {
    if Parsed(p) {
      assert Fields(FrameOf(p)) == p;
    }
  }

  /** The protocol is named after its number, whatever the transport layer. */
  lemma ProtocolIsNumber(f: Frame)
    ensures Fields(f).protocol == Some("TCP") <==> f.ip.Some? && f.ip.value.proto == 6
    ensures Fields(f).protocol == Some("UDP") <==> f.ip.Some? && f.ip.value.proto == 17
    ensures Fields(f).protocol == Some("ICMP") <==> f.ip.Some? && f.ip.value.proto == 1
    ensures Fields(f).protocol == None <==> f.ip == None
  {
    assert |"ICMP"| != |"TCP"| && |"UNKNOWN"| != |"TCP"| && |"UNKNOWN"| != |"ICMP"| && "TCP"[0] != "UDP"[0];
  }

  /** TCP hides UDP; a frame with neither has no ports and no payload. */
  lemma PortsAreTransport(f: Frame)
    ensures f.tcp.Some? ==> Fields(f).payload == Some(f.tcp.value.payload)
    ensures f.tcp == None && f.udp.Some? ==> Fields(f).payload == Some(f.udp.value.payload)
    ensures f.tcp == None && f.udp == None ==> Fields(f).dstPort == None && Fields(f).payload == None
  {
  }

  // ---------------------------------------------------------------- the five-tuple of a frame

  /** A frame has a five-tuple exactly when it has an IP layer with both addresses. Frames without ports have port 0. */
  lemma TupleOfFrame(f: Frame)
    ensures CreateFiveTuple(Fields(f)).Some? <==> f.ip.Some? && f.ip.value.src != "" && f.ip.value.dst != ""
    ensures CreateFiveTuple(Fields(f)).Some? ==>
              var t := CreateFiveTuple(Fields(f)).value;
              && t.srcIp == f.ip.value.src && t.dstIp == f.ip.value.dst
              && (f.tcp.Some? ==> t.srcPort == f.tcp.value.sport && t.dstPort == f.tcp.value.dport)
              && (f.tcp == None && f.udp.Some? ==> t.srcPort == f.udp.value.sport && t.dstPort == f.udp.value.dport)
              && (f.tcp == None && f.udp == None ==> t.srcPort == 0 && t.dstPort == 0)
              && (t.protocol == "TCP" <==> f.ip.value.proto == 6) && (t.protocol == "UDP" <==> f.ip.value.proto == 17)
              && (t.protocol == "ICMP" <==> f.ip.value.proto == 1)
  {
    ProtocolIsNumber(f);
  }
}
