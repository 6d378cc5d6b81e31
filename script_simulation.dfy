/** The stand-alone script's `TCPSimulation` (`tcp_simulation.py`): it
    builds each packet of the handshake and of the teardown by hand, sends
    it, and keeps what it sends and captures in `captured_packets`. */
module ScriptSimulation {
  import opened Wrappers
  import opened Lists
  import opened Packets
  import opened PacketFactory
  import opened Network
  import opened Config
  import opened PacketAnalyzer
  import opened Segments

  /** The segments of `three_way_handshake`, for `self.seq == s0`. */
  function Handshake(s0: int): seq<Segment> {
    [Segment("S", s0, 0),
     Segment("SA", s0 + 1, s0 + 1),
     Segment("A", s0 + 1, s0 + 2)]
  }

  /** The segments of `four_way_handshake`, for `self.seq == s0`: unlike the
      package's builders, the numbers move on during the teardown. */
  function Teardown(s0: int): seq<Segment> {
    [Segment("FA", s0 + 1, s0 + 2),
     Segment("A", s0 + 2, s0 + 2),
     Segment("FA", s0 + 2, s0 + 2),
     Segment("A", s0 + 2, s0 + 3)]
  }

  /** The whole script: the handshake, then the teardown. */
  function Script(s0: int): seq<Segment> {
    Handshake(s0) + Teardown(s0)
  }

  /** The packets of several segments. */
  function SegmentPackets(config: Settings, segs: seq<Segment>): (ps: seq<Packet>)
    ensures |ps| == |segs|
    ensures forall i :: 0 <= i < |segs| ==> ps[i] == SegmentPacket(config, segs[i])
  {
    seq(|segs|, i requires 0 <= i < |segs| => SegmentPacket(config, segs[i]))
  }

  /** What `captured_packets` gains from the first `k` sends of `segs`, the
      `i`-th with outcome `net(i)`. */
  function Exchanged(config: Settings, segs: seq<Segment>, net: nat -> Exchange, k: nat): seq<Packet>
    requires k <= |segs|
  {
    if k == 0 then []
    else Exchanged(config, segs, net, k - 1) + StepLog(SegmentPacket(config, segs[k - 1]), Response(net(k - 1)))
  }

  /** The outcomes of the sends after the first `d`. */
  function Shift(net: nat -> Exchange, d: nat): (later: nat -> Exchange)
    ensures forall i: nat :: later(i) == net(i + d)
  {
    (i: nat) => net(i + d)
  }

  class TcpSimulation {
    const config: Settings
    const srcIp: string
    const dstIp: string
    const srcPort: int
    const dstPort: int
    const seqNum: int
    const ackNum: int
    var capturedPackets: seq<Packet>

    /** The fields copy the configuration; `self.seq` and `self.ack` are
        never assigned after `__init__`. */
    ghost predicate Valid() {
      srcIp == config.srcIp && dstIp == config.dstIp &&
      srcPort == config.srcPort && dstPort == config.dstPort &&
      seqNum == config.initialSeq && ackNum == 0
    }

    /** `__init__(config=None)`: `config or DEFAULT_CONFIG`. */
    constructor(config: Option<Settings>)
      ensures Valid()
      ensures this.config == if config.Some? then config.value else DefaultConfig
      ensures capturedPackets == []
    {
      var settings := if config.Some? then config.value else DefaultConfig;
      this.config := settings;
      srcIp := settings.srcIp;
      dstIp := settings.dstIp;
      srcPort := settings.srcPort;
      dstPort := settings.dstPort;
      seqNum := settings.initialSeq;
      ackNum := 0;
      capturedPackets := [];
    }

    /** `create_tcp_packet`: an omitted sequence or acknowledgment number is
        `self.seq` or `self.ack`; the payload becomes a Raw layer only when
        it is truthy. The packet is the factory's packet with no options. */
    function CreateTcpPacket(flags: string, seqArg: Option<int>, ackArg: Option<int>, payload: Option<string>): (p: Packet)
      ensures p.src == srcIp && p.dst == dstIp && HasTcp(p)
      ensures Field(p.tcp.value, "sport") == Num(srcPort) && Field(p.tcp.value, "dport") == Num(dstPort)
      ensures Field(p.tcp.value, "flags") == Text(flags)
      ensures Field(p.tcp.value, "seq") == Num(if seqArg.Some? then seqArg.value else seqNum)
      ensures Field(p.tcp.value, "ack") == Num(if ackArg.Some? then ackArg.value else ackNum)
      ensures p.load.Some? <==> Truthy(payload)
      ensures p.load.Some? ==> p.load == payload
      ensures p == Build(srcIp, dstIp, srcPort, dstPort, flags,
                         if seqArg.Some? then seqArg.value else seqNum,
                         if ackArg.Some? then ackArg.value else ackNum, payload, None)
    {
      var s := if seqArg.Some? then seqArg.value else seqNum;
      var a := if ackArg.Some? then ackArg.value else ackNum;
      assert TcpFields(srcPort, dstPort, flags, s, a) + Overrides(None) == TcpFields(srcPort, dstPort, flags, s, a);
      Stack(srcIp, dstIp, TcpFields(srcPort, dstPort, flags, s, a), payload)
    }

    /** `send_and_capture`: a failed send raises before anything is kept;
        otherwise the sent packet is appended, then the captured response,
        if any, which is also handed to the analyzer. */
    method SendAndCapture(packet: Packet, description: string, x: Exchange) returns (sent: bool)
      modifies this
      ensures sent <==> x.Delivered?
      ensures capturedPackets == old(capturedPackets) + (if sent then StepLog(packet, Response(x)) else [])
    {
      if x.SendFailed? {
        return false;
      }
      capturedPackets := capturedPackets + [packet];
      if x.response.Some? {
        capturedPackets := capturedPackets + [x.response.value];
        var _ := AnalyzeTcpPacket(x.response.value);
      }
      return true;
    }

    /** One send of `segs[i]` that went out, added to the capture so far. */
    lemma Extend(segs: seq<Segment>, net: nat -> Exchange, i: nat, before: seq<Packet>, after: seq<Packet>)
      requires i < |segs| && net(i).Delivered?
      requires after == before + Exchanged(config, segs, net, i) + StepLog(SegmentPacket(config, segs[i]), Response(net(i)))
      ensures after == before + Exchanged(config, segs, net, i + 1)
    {
      AppendAssoc(before, Exchanged(config, segs, net, i), StepLog(SegmentPacket(config, segs[i]), Response(net(i))));
    }

    /** `three_way_handshake`: SYN, SYN-ACK and ACK, stopping at the first
        send that fails. */
    method ThreeWayHandshake(net: nat -> Exchange) returns (ok: bool)
      requires Valid()
      modifies this
      ensures ok <==> Completed(net, 3) == 3
      ensures capturedPackets == old(capturedPackets) + Exchanged(config, Handshake(seqNum), net, Completed(net, 3))
    {
      ghost var segs := Handshake(seqNum);
      ghost var before := capturedPackets;
      var syn := CreateTcpPacket("S", None, None, None);
      assert syn == SegmentPacket(config, segs[0]);
      ok := SendAndCapture(syn, "SYN", net(0));
      if !ok {
        CompletedAt(net, 3, 0);
        return;
      }
      Extend(segs, net, 0, before, capturedPackets);
      var synAck := CreateTcpPacket("SA", Some(seqNum + 1), Some(seqNum + 1), None);
      assert synAck == SegmentPacket(config, segs[1]);
      ok := SendAndCapture(synAck, "SYN-ACK", net(1));
      if !ok {
        CompletedAt(net, 3, 1);
        return;
      }
      Extend(segs, net, 1, before, capturedPackets);
      var ack := CreateTcpPacket("A", Some(seqNum + 1), Some(seqNum + 2), None);
      assert ack == SegmentPacket(config, segs[2]);
      ok := SendAndCapture(ack, "ACK", net(2));
      if !ok {
        CompletedAt(net, 3, 2);
        return;
      }
      Extend(segs, net, 2, before, capturedPackets);
      assert Delivers(net, 2);
      CompletedAt(net, 3, 3);
    }

    /** `four_way_handshake`: FIN, ACK, FIN and ACK, stopping at the first
        send that fails. */
    method FourWayHandshake(net: nat -> Exchange) returns (ok: bool)
      requires Valid()
      modifies this
      ensures ok <==> Completed(net, 4) == 4
      ensures capturedPackets == old(capturedPackets) + Exchanged(config, Teardown(seqNum), net, Completed(net, 4))
    {
      ghost var segs := Teardown(seqNum);
      ghost var before := capturedPackets;
      var fin := CreateTcpPacket("FA", Some(seqNum + 1), Some(seqNum + 2), None);
      assert fin == SegmentPacket(config, segs[0]);
      ok := SendAndCapture(fin, "FIN", net(0));
      if !ok {
        CompletedAt(net, 4, 0);
        return;
      }
      Extend(segs, net, 0, before, capturedPackets);
      var ack := CreateTcpPacket("A", Some(seqNum + 2), Some(seqNum + 2), None);
      assert ack == SegmentPacket(config, segs[1]);
      ok := SendAndCapture(ack, "ACK", net(1));
      if !ok {
        CompletedAt(net, 4, 1);
        return;
      }
      Extend(segs, net, 1, before, capturedPackets);
      var fin2 := CreateTcpPacket("FA", Some(seqNum + 2), Some(seqNum + 2), None);
      assert fin2 == SegmentPacket(config, segs[2]);
      ok := SendAndCapture(fin2, "FIN", net(2));
      if !ok {
        assert Delivers(net, 1);
        CompletedAt(net, 4, 2);
        return;
      }
      Extend(segs, net, 2, before, capturedPackets);
      var finalAck := CreateTcpPacket("A", Some(seqNum + 2), Some(seqNum + 3), None);
      assert finalAck == SegmentPacket(config, segs[3]);
      ok := SendAndCapture(finalAck, "ACK", net(3));
      if !ok {
        assert Delivers(net, 2);
        CompletedAt(net, 4, 3);
        return;
      }
      Extend(segs, net, 3, before, capturedPackets);
      assert Delivers(net, 3);
      CompletedAt(net, 4, 4);
    }

    /** `save_captured_packets`: the packets are written only when
        `save_pcap` is set and something was captured. */
    method SaveCapturedPackets() returns (written: Option<seq<Packet>>)
      ensures written.Some? <==> config.savePcap && capturedPackets != []
      ensures written.Some? ==> written.value == capturedPackets
    {
      if config.savePcap && capturedPackets != [] {
        written := Some(capturedPackets);
      } else {
        written := None;
      }
    }

    /** The body of `main` after the configuration: the handshake, then the
        teardown, then the save; a failed send raises and skips the rest. */
    method Session(net: nat -> Exchange) returns (ok: bool, written: Option<seq<Packet>>)
      requires Valid()
      modifies this
      ensures ok <==> Completed(net, 7) == 7
      ensures capturedPackets == old(capturedPackets) + Exchanged(config, Script(seqNum), net, Completed(net, 7))
      ensures written.Some? <==> ok && config.savePcap && capturedPackets != []
      ensures written.Some? ==> written.value == capturedPackets
    {
      hide *;
      ghost var before := capturedPackets;
      ok := ThreeWayHandshake(net);
      CompletedSplit(net, 3, 4);
      if !ok {
        ScriptExchanged(config, seqNum, net, Completed(net, 3));
        written := None;
        return;
      }
      ok := FourWayHandshake(Shift(net, 3));
      ScriptExchanged(config, seqNum, net, 3 + Completed(Shift(net, 3), 4));
      AppendAssoc(before, Exchanged(config, Handshake(seqNum), net, 3),
                  Exchanged(config, Teardown(seqNum), Shift(net, 3), Completed(Shift(net, 3), 4)));
      if !ok {
        written := None;
        return;
      }
      written := SaveCapturedPackets();
    }
  }

  /** The first `m` sends, then the next `n`: the run stops inside the first
      part when a send fails there, and otherwise goes on into the second. */
  lemma {:induction false} CompletedSplit(net: nat -> Exchange, m: nat, n: nat)
    ensures Completed(net, m) < m ==> Completed(net, m + n) == Completed(net, m)
    ensures Completed(net, m) == m ==> Completed(net, m + n) == m + Completed(Shift(net, m), n)
  {
    if n > 0 {
      CompletedSplit(net, m, n - 1);
      assert Shift(net, m)(n - 1) == net(m + n - 1);
    }
  }

  /** No sends, nothing captured. */
  lemma ExchangedNone(config: Settings, segs: seq<Segment>, net: nat -> Exchange)
    ensures Exchanged(config, segs, net, 0) == []
  {
  }

  /** One more send adds its exchange to the capture. */
  lemma ExchangedNext(config: Settings, segs: seq<Segment>, net: nat -> Exchange, k: nat)
    requires k < |segs|
    ensures Exchanged(config, segs, net, k + 1) ==
              Exchanged(config, segs, net, k) + StepLog(SegmentPacket(config, segs[k]), Response(net(k)))
  {
  }

  /** Within `a`, the sends of `a + b` are those of `a`. */
  lemma {:induction false} ExchangedPrefix(config: Settings, a: seq<Segment>, b: seq<Segment>, net: nat -> Exchange, k: nat)
    requires k <= |a|
    ensures Exchanged(config, a + b, net, k) == Exchanged(config, a, net, k)
  {
    hide *;
    if k == 0 {
      ExchangedNone(config, a + b, net);
      ExchangedNone(config, a, net);
    } else {
      ExchangedPrefix(config, a, b, net, k - 1);
      ExchangedNext(config, a + b, net, k - 1);
      ExchangedNext(config, a, net, k - 1);
      assert (a + b)[k - 1] == a[k - 1];
    }
  }

  /** Past `a`, the sends of `a + b` are all of `a`'s, then those of `b`
      with the outcomes that follow `a`'s. */
  lemma {:induction false} ExchangedSuffix(config: Settings, a: seq<Segment>, b: seq<Segment>, net: nat -> Exchange, k: nat)
    requires |a| <= k <= |a| + |b|
    ensures Exchanged(config, a + b, net, k) ==
              Exchanged(config, a, net, |a|) + Exchanged(config, b, Shift(net, |a|), k - |a|)
  {
    hide *;
    if k == |a| {
      ExchangedPrefix(config, a, b, net, k);
      ExchangedNone(config, b, Shift(net, |a|));
    } else {
      ExchangedSuffix(config, a, b, net, k - 1);
      ExchangedNext(config, a + b, net, k - 1);
      ExchangedNext(config, b, Shift(net, |a|), k - 1 - |a|);
      var later := Shift(net, |a|);
      assert later(k - 1 - |a|) == net(k - 1);
      assert (a + b)[k - 1] == b[k - 1 - |a|];
      AppendAssoc(Exchanged(config, a, net, |a|), Exchanged(config, b, later, k - 1 - |a|),
                  StepLog(SegmentPacket(config, b[k - 1 - |a|]), Response(later(k - 1 - |a|))));
    }
  }

  /** The sends of the whole script, split at the end of the handshake. */
  lemma ScriptExchanged(config: Settings, s0: int, net: nat -> Exchange, k: nat)
    requires k <= 7
    ensures |Script(s0)| == 7 && |Handshake(s0)| == 3 && |Teardown(s0)| == 4
    ensures k <= 3 ==> Exchanged(config, Script(s0), net, k) == Exchanged(config, Handshake(s0), net, k)
    ensures k >= 3 ==> Exchanged(config, Script(s0), net, k) ==
                         Exchanged(config, Handshake(s0), net, 3) + Exchanged(config, Teardown(s0), Shift(net, 3), k - 3)
  {
    if k <= 3 {
      ExchangedPrefix(config, Handshake(s0), Teardown(s0), net, k);
    }
    if k >= 3 {
      ExchangedSuffix(config, Handshake(s0), Teardown(s0), net, k);
    }
  }

  /** The capture is the log of the packets sent, each followed by its
      response. */
  lemma {:induction false} ExchangedIsCaptureLog(config: Settings, segs: seq<Segment>, net: nat -> Exchange,
                                                 sent: seq<Packet>)
    requires |sent| <= |segs|
    requires forall i :: 0 <= i < |sent| ==> sent[i] == SegmentPacket(config, segs[i])
    ensures Exchanged(config, segs, net, |sent|) == CaptureLog(sent, Responses(net, |sent|))
  {
    var k := |sent|;
    if k > 0 {
      ExchangedIsCaptureLog(config, segs, net, sent[..k - 1]);
      assert Responses(net, k)[..k - 1] == Responses(net, k - 1);
    }
  }

  /** After a session in which every send goes out, `captured_packets` holds
      between 7 and 14 packets, and the seven sent packets appear in script
      order, each at its own place. */
  lemma SessionBounds(config: Settings, net: nat -> Exchange)
    requires forall i :: 0 <= i < 7 ==> net(i).Delivered?
    ensures Completed(net, 7) == 7
    ensures 7 <= |Exchanged(config, Script(config.initialSeq), net, 7)| <= 14
    ensures forall i :: 0 <= i < 7 ==>
              SentPosition(Responses(net, 7), i) < |Exchanged(config, Script(config.initialSeq), net, 7)| &&
              Exchanged(config, Script(config.initialSeq), net, 7)[SentPosition(Responses(net, 7), i)] ==
                SegmentPacket(config, Script(config.initialSeq)[i])
  {
    assert Completed(net, 7) == 7;
    var segs := Script(config.initialSeq);
    var sent := SegmentPackets(config, segs);
    ExchangedIsCaptureLog(config, segs, net, sent);
    CaptureLogLength(sent, Responses(net, 7));
    forall i | 0 <= i < 7
      ensures SentPosition(Responses(net, 7), i) < |Exchanged(config, segs, net, 7)| &&
              Exchanged(config, segs, net, 7)[SentPosition(Responses(net, 7), i)] == SegmentPacket(config, segs[i])
    {
      SentInOrder(sent, Responses(net, 7), i);
    }
  }
}
