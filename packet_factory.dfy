/** `PacketFactory.create_tcp_packet`: build an IP/TCP packet from the
    endpoints, the control flags, the sequence and acknowledgment numbers,
    an optional payload and optional extra TCP field settings. */
module PacketFactory {
  import opened Wrappers
  import opened Packets

  /** `options or {}`: no options and an empty dictionary behave alike. */
  function Overrides(options: Option<Fields>): Fields {
    if options.Some? then options.value else map[]
  }

  /** The packet `create_tcp_packet` returns: the TCP fields given as
      arguments, each overridden by an option of the same name. */
  function Build(srcIp: string, dstIp: string, srcPort: int, dstPort: int, flags: string,
                 seqNum: int, ackNum: int, payload: Option<string>, options: Option<Fields>): Packet
  {
    Stack(srcIp, dstIp, TcpFields(srcPort, dstPort, flags, seqNum, ackNum) + Overrides(options), payload)
  }

  /** Each option is applied to the TCP layer with `setattr`, one key at a
      time; a dictionary's keys are distinct, so the order does not matter. */
  method CreateTcpPacket(srcIp: string, dstIp: string, srcPort: int, dstPort: int, flags: string,
                         seqNum: int, ackNum: int, payload: Option<string>, options: Option<Fields>)
    returns (p: Packet)
    ensures p == Build(srcIp, dstIp, srcPort, dstPort, flags, seqNum, ackNum, payload, options)
    ensures p.src == srcIp && p.dst == dstIp && p.tcp.Some?
    ensures p.tcp.value.Keys == TcpFields(srcPort, dstPort, flags, seqNum, ackNum).Keys + Overrides(options).Keys
    ensures forall key :: key in Overrides(options) ==> p.tcp.value[key] == Overrides(options)[key]
    ensures forall key :: key in TcpFields(srcPort, dstPort, flags, seqNum, ackNum) && key !in Overrides(options) ==>
              p.tcp.value[key] == TcpFields(srcPort, dstPort, flags, seqNum, ackNum)[key]
    ensures p.load.Some? <==> Truthy(payload)
  {
    var base := TcpFields(srcPort, dstPort, flags, seqNum, ackNum);
    var layer := base;
    if options.Some? && options.value != map[] {
      var settings := options.value;
      var pending := settings.Keys;
      while pending != {}
        invariant pending <= settings.Keys
        invariant layer == base + map key | key in settings && key !in pending :: settings[key]
        decreases pending
      {
        var key :| key in pending;
        layer := layer[key := settings[key]];
        pending := pending - {key};
      }
      assert (map key | key in settings && key !in pending :: settings[key]) == settings;
    } else {
      assert base + Overrides(options) == base;
    }
    p := Packet(srcIp, dstIp, Some(layer), None);
    if Truthy(payload) {
      p := p.(load := payload);
    }
  }
}
