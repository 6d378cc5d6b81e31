/** `PacketAnalyzer.analyze_tcp_packet`: decode the control bits of a TCP
    packet (the bits of the header in section 3.1 of RFC 9293) into their
    names and copy out the addressing and sequence fields. */
module PacketAnalyzer {
  import opened Wrappers
  import opened Packets
  import opened Bits
  import opened Lists

  /** The dictionary `analyze_tcp_packet` returns. */
  datatype Analysis = Analysis(srcIp: string, dstIp: string, sport: Value, dport: Value,
                               seqNum: Value, ackNum: Value, flags: seq<string>)

  /** The six names the decoder knows, in the order it tests their bits;
      the `i`-th name is the bit `2^i`. */
  const FlagOrder: seq<string> := ["FIN", "SYN", "RST", "PSH", "ACK", "URG"]

  /** The position of a name in `FlagOrder`. */
  function Rank(name: string): nat {
    match name
    case "FIN" => 0
    case "SYN" => 1
    case "RST" => 2
    case "PSH" => 3
    case "ACK" => 4
    case "URG" => 5
    case _ => 6
  }

  /** Whether each of the six masks the decoder tests is set in `bits`. */
  function TestedBits(bits: int): (tested: seq<bool>)
    ensures |tested| == |FlagOrder|
    ensures forall k :: 0 <= k < |FlagOrder| ==> tested[k] == HasFlag(bits, Pow2(k))
  {
    [HasFlag(bits, 0x01), HasFlag(bits, 0x02), HasFlag(bits, 0x04),
     HasFlag(bits, 0x08), HasFlag(bits, 0x10), HasFlag(bits, 0x20)]
  }

  /** The names of the set entries among positions 0 to `k - 1`, lowest
      first: the list after the first `k` of the decoder's tests. */
  function Collected(tested: seq<bool>, k: nat): seq<string>
    requires |tested| == |FlagOrder| && k <= |FlagOrder|
  {
    if k == 0 then []
    else Collected(tested, k - 1) + (if tested[k - 1] then [FlagOrder[k - 1]] else [])
  }

  /** The names of the set bits among the six lowest, lowest bit first. */
  function FlagNames(bits: int): seq<string> {
    Collected(TestedBits(bits), |FlagOrder|)
  }

  /** Only names of positions below `k` are listed, in increasing order. */
  lemma {:induction false} CollectedRanks(tested: seq<bool>, k: nat)
    requires |tested| == |FlagOrder| && k <= |FlagOrder|
    ensures forall j :: 0 <= j < |Collected(tested, k)| ==>
              Rank(Collected(tested, k)[j]) < k && Collected(tested, k)[j] == FlagOrder[Rank(Collected(tested, k)[j])]
    ensures forall a, b :: 0 <= a < b < |Collected(tested, k)| ==>
              Rank(Collected(tested, k)[a]) < Rank(Collected(tested, k)[b])
  {
    if k > 0 {
      CollectedRanks(tested, k - 1);
      var prev := Collected(tested, k - 1);
      assert Rank(FlagOrder[k - 1]) == k - 1;
      if tested[k - 1] {
        var c := prev + [FlagOrder[k - 1]];
        forall j | 0 <= j < |c| ensures Rank(c[j]) < k && c[j] == FlagOrder[Rank(c[j])] {
          if j < |prev| { assert c[j] == prev[j]; }
        }
        forall a, b | 0 <= a < b < |c| ensures Rank(c[a]) < Rank(c[b]) {
          assert c[a] == prev[a];
          if b < |prev| { assert c[b] == prev[b]; }
        }
      }
    }
  }

  /** A name is listed exactly when its bit is set. */
  lemma {:induction false} CollectedListsSetBits(tested: seq<bool>, k: nat)
    requires |tested| == |FlagOrder| && k <= |FlagOrder|
    ensures forall j :: 0 <= j < |FlagOrder| ==> (FlagOrder[j] in Collected(tested, k) <==> j < k && tested[j])
  {
    CollectedRanks(tested, k);
    assert forall j :: 0 <= j < |FlagOrder| ==> Rank(FlagOrder[j]) == j;
    if k > 0 {
      CollectedListsSetBits(tested, k - 1);
    }
  }

  /** The decoder's contract: the `i`-th name is listed iff bit `2^i` is
      set; only those names are listed; they come in the order of
      `FlagOrder`, so none twice. */
  lemma FlagNamesSpec(bits: int)
    ensures forall i :: 0 <= i < |FlagOrder| ==> (FlagOrder[i] in FlagNames(bits) <==> HasFlag(bits, Pow2(i)))
    ensures forall name :: name in FlagNames(bits) ==> name in FlagOrder
    ensures forall a, b :: 0 <= a < b < |FlagNames(bits)| ==> Rank(FlagNames(bits)[a]) < Rank(FlagNames(bits)[b])
    ensures NoDup(FlagNames(bits))
  {
    CollectedListsSetBits(TestedBits(bits), |FlagOrder|);
    CollectedRanks(TestedBits(bits), |FlagOrder|);
  }

  /** Returns None for a packet without a TCP layer; otherwise the flag
      list is built by testing the six masks in turn. */
  method AnalyzeTcpPacket(packet: Packet) returns (r: Option<Analysis>)
    ensures r.None? <==> !HasTcp(packet)
    ensures r.Some? ==> r.value.srcIp == packet.src && r.value.dstIp == packet.dst
    ensures r.Some? ==> r.value.sport == Field(packet.tcp.value, "sport") &&
                        r.value.dport == Field(packet.tcp.value, "dport") &&
                        r.value.seqNum == Field(packet.tcp.value, "seq") &&
                        r.value.ackNum == Field(packet.tcp.value, "ack")
    ensures r.Some? ==> r.value.flags == FlagNames(FlagBits(Field(packet.tcp.value, "flags")))
  {
    if !HasTcp(packet) {
      return None;
    }
    var tcp := packet.tcp.value;
    var bits := FlagBits(Field(tcp, "flags"));
    ghost var tested := TestedBits(bits);
    var flags: seq<string> := [];
    if HasFlag(bits, 0x01) { flags := flags + ["FIN"]; }
    assert flags == Collected(tested, 1);
    if HasFlag(bits, 0x02) { flags := flags + ["SYN"]; }
    assert flags == Collected(tested, 2);
    if HasFlag(bits, 0x04) { flags := flags + ["RST"]; }
    assert flags == Collected(tested, 3);
    if HasFlag(bits, 0x08) { flags := flags + ["PSH"]; }
    assert flags == Collected(tested, 4);
    if HasFlag(bits, 0x10) { flags := flags + ["ACK"]; }
    assert flags == Collected(tested, 5);
    if HasFlag(bits, 0x20) { flags := flags + ["URG"]; }
    assert flags == Collected(tested, 6);
    r := Some(Analysis(packet.src, packet.dst, Field(tcp, "sport"), Field(tcp, "dport"),
                       Field(tcp, "seq"), Field(tcp, "ack"), flags));
  }

  /** One name per set entry among the first `k` tests. */
  lemma {:induction false} CollectedCount(bits: int, k: nat)
    requires k <= |FlagOrder|
    ensures |Collected(TestedBits(bits), k)| == PopCount(bits, k)
  {
    if k > 0 {
      CollectedCount(bits, k - 1);
    }
  }

  /** One name per tested bit among the six lowest: the list is as long as the
      population count of `bits & 0x3F`. */
  lemma FlagNamesCount(bits: int)
    ensures |FlagNames(bits)| == PopCount(bits, 6)
  {
    CollectedCount(bits, 6);
  }

  /** Bits above 0x20 do not change the decoded names. */
  lemma HighBitsIgnored(bits: int)
    ensures FlagNames(bits) == FlagNames(bits % 64)
  {
    LowSixBitsSurviveMod64(bits);
    assert TestedBits(bits) == TestedBits(bits % 64);
  }

  /** The flag strings the simulations send, read as scapy reads them, and
      the names their values decode to: proof steps of `SentFlagsDecode`,
      kept apart so that each stays small. */
  lemma SynLetters()
    ensures LetterMask("S", 0) == 0x02
  {
  }

  lemma SynDecodes()
    ensures FlagNames(0x02) == ["SYN"]
  {
    var tested := TestedBits(0x02);
    assert tested == [false, true, false, false, false, false];
    assert Collected(tested, 1) == [];
    assert Collected(tested, 2) == ["SYN"];
    assert Collected(tested, 3) == ["SYN"];
    assert Collected(tested, 4) == ["SYN"];
    assert Collected(tested, 5) == ["SYN"];
    assert Collected(tested, 6) == ["SYN"];
  }

  lemma SynAckLetters()
    ensures LetterMask("SA", 0) == 0x12
  {
  }

  lemma SynAckDecodes()
    ensures FlagNames(0x12) == ["SYN", "ACK"]
  {
    var tested := TestedBits(0x12);
    assert tested == [false, true, false, false, true, false];
    assert Collected(tested, 1) == [];
    assert Collected(tested, 2) == ["SYN"];
    assert Collected(tested, 3) == ["SYN"];
    assert Collected(tested, 4) == ["SYN"];
    assert Collected(tested, 5) == ["SYN", "ACK"];
    assert Collected(tested, 6) == ["SYN", "ACK"];
  }

  lemma AckLetters()
    ensures LetterMask("A", 0) == 0x10
  {
  }

  lemma AckDecodes()
    ensures FlagNames(0x10) == ["ACK"]
  {
    var tested := TestedBits(0x10);
    assert tested == [false, false, false, false, true, false];
    assert Collected(tested, 1) == [];
    assert Collected(tested, 2) == [];
    assert Collected(tested, 3) == [];
    assert Collected(tested, 4) == [];
    assert Collected(tested, 5) == ["ACK"];
    assert Collected(tested, 6) == ["ACK"];
  }

  lemma FinAckLetters()
    ensures LetterMask("FA", 0) == 0x11
  {
  }

  lemma FinAckDecodes()
    ensures FlagNames(0x11) == ["FIN", "ACK"]
  {
    var tested := TestedBits(0x11);
    assert tested == [true, false, false, false, true, false];
    assert Collected(tested, 1) == ["FIN"];
    assert Collected(tested, 2) == ["FIN"];
    assert Collected(tested, 3) == ["FIN"];
    assert Collected(tested, 4) == ["FIN"];
    assert Collected(tested, 5) == ["FIN", "ACK"];
    assert Collected(tested, 6) == ["FIN", "ACK"];
  }

  /** The flag strings the simulations send decode to the names of the
      control bits they stand for. */
  lemma SentFlagsDecode()
    ensures FlagNames(FlagBits(Text("S"))) == ["SYN"]
    ensures FlagNames(FlagBits(Text("SA"))) == ["SYN", "ACK"]
    ensures FlagNames(FlagBits(Text("A"))) == ["ACK"]
    ensures FlagNames(FlagBits(Text("FA"))) == ["FIN", "ACK"]
  {
    SynLetters();
    SynAckLetters();
    AckLetters();
    FinAckLetters();
    SynDecodes();
    SynAckDecodes();
    AckDecodes();
    FinAckDecodes();
  }
}
