/** The part of a TCP segment the simulators choose for each packet they
    send, and the packet built from it. Both drivers send packets made from
    the configured endpoints and a segment, with no options. */
module Segments {
  import opened Wrappers
  import opened Packets
  import opened PacketFactory
  import opened Config

  /** The control flags, sequence number and acknowledgment number of a
      built packet. */
  datatype Segment = Segment(flags: string, seqNum: int, ackNum: int)

  /** The packet built for a segment: the configured endpoints, no payload,
      no options. */
  function SegmentPacket(config: Settings, g: Segment): Packet {
    Build(config.srcIp, config.dstIp, config.srcPort, config.dstPort, g.flags, g.seqNum, g.ackNum, None, None)
  }

  /** A built packet carries the configured endpoints, and the segment's
      flags and numbers in its TCP layer. */
  lemma SegmentPacketFields(config: Settings, g: Segment)
    ensures var p := SegmentPacket(config, g);
            p.src == config.srcIp && p.dst == config.dstIp && HasTcp(p) &&
            Field(p.tcp.value, "sport") == Num(config.srcPort) &&
            Field(p.tcp.value, "dport") == Num(config.dstPort) &&
            Field(p.tcp.value, "flags") == Text(g.flags) &&
            Field(p.tcp.value, "seq") == Num(g.seqNum) &&
            Field(p.tcp.value, "ack") == Num(g.ackNum)
  {
  }
}
