/** `config.py`: the default parameters of the scripted simulation and the
    table of TCP control-bit values. */
module Config {
  import opened Wrappers
  import opened Bits
  import opened PacketAnalyzer
  import ErrorHandler

  /** The entries of `DEFAULT_CONFIG`, less `packet_delay` (the pause
      between packets is not part of this model). */
  datatype Settings = Settings(srcIp: string, dstIp: string, srcPort: int, dstPort: int,
                               initialSeq: int, interface: Option<string>, logLevel: string,
                               savePcap: bool, pcapFilename: string)

  const DefaultConfig: Settings := Settings("192.168.1.100", "192.168.1.101", 12345, 80, 1000,
                                            None, "INFO", true, "tcp_simulation.pcap")

  /** `TCP_FLAGS`: each control-bit name with its value. */
  const TcpFlags: map<string, int> := map[
    "FIN" := 0x01, "SYN" := 0x02, "RST" := 0x04, "PSH" := 0x08, "ACK" := 0x10, "URG" := 0x20
  ]

  /** The table's names are the decoder's names, and the `i`-th of them has
      the single bit `2^i`. */
  lemma {:induction false} FlagValuesAreBits()
    ensures TcpFlags.Keys == set i | 0 <= i < |FlagOrder| :: FlagOrder[i]
    ensures forall i :: 0 <= i < |FlagOrder| ==> TcpFlags[FlagOrder[i]] == Pow2(i)
  {
    assert Pow2(0) == 1 && Pow2(1) == 2 && Pow2(2) == 4;
    assert Pow2(3) == 8 && Pow2(4) == 16 && Pow2(5) == 32;
    var names := set i | 0 <= i < |FlagOrder| :: FlagOrder[i];
    assert forall name :: name in names <==> name in FlagOrder;
  }

  /** No two names share a value, and together the values fill the six
      lowest bits. */
  lemma FlagValuesDistinct()
    ensures forall a, b :: a in TcpFlags && b in TcpFlags && a != b ==> TcpFlags[a] != TcpFlags[b]
    ensures TcpFlags["FIN"] + TcpFlags["SYN"] + TcpFlags["RST"] +
            TcpFlags["PSH"] + TcpFlags["ACK"] + TcpFlags["URG"] == 0x3F
  {
  }

  /** The table and the decoder agree bit for bit: the decoder lists a name
      exactly when the table's value for it is set. */
  lemma {:induction false} TableAgreesWithDecoder(bits: int)
    ensures forall name :: name in FlagNames(bits) <==> name in TcpFlags && HasFlag(bits, TcpFlags[name])
  {
    FlagValuesAreBits();
    FlagNamesSpec(bits);
    forall name | name in TcpFlags
      ensures name in FlagNames(bits) <==> HasFlag(bits, TcpFlags[name])
    {
      var i :| 0 <= i < |FlagOrder| && FlagOrder[i] == name;
    }
  }

  /** The default endpoints pass the port check and are distinct, the
      sequence numbers start at 1000, the interface is chosen
      automatically, and the capture is saved. */
  lemma DefaultsAreValid()
    ensures ErrorHandler.ValidatePort(DefaultConfig.srcPort) && ErrorHandler.ValidatePort(DefaultConfig.dstPort)
    ensures DefaultConfig.srcIp != DefaultConfig.dstIp
    ensures DefaultConfig.initialSeq == 1000
    ensures DefaultConfig.interface.None? && DefaultConfig.savePcap
  {
  }
}
