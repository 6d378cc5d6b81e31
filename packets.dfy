/** The packets the simulation builds, sends and captures, kept as abstract
    descriptors. A scapy layer keeps the fields that were set on it in a
    dictionary; the TCP layer here is that dictionary. */
module Packets {
  import opened Wrappers

  /** A field value as scapy stores it: a number, or a string (flags may be
      given as letters such as "SA"). */
  datatype Value = Num(n: int) | Text(s: string)

  type Fields = map<string, Value>

  /** `IP(src=…, dst=…)`, its TCP layer if it has one, and the load of a
      `Raw` layer if one was stacked on top. */
  datatype Packet = Packet(src: string, dst: string, tcp: Option<Fields>, load: Option<string>)

  /** `packet.haslayer(TCP)`. */
  predicate HasTcp(p: Packet) {
    p.tcp.Some?
  }

  /** The fields that `TCP(sport=…, dport=…, flags=…, seq=…, ack=…)` sets. */
  function TcpFields(sport: int, dport: int, flags: string, seqNum: int, ackNum: int): (f: Fields)
    ensures f.Keys == {"sport", "dport", "flags", "seq", "ack"}
    ensures f["sport"] == Num(sport) && f["dport"] == Num(dport) && f["flags"] == Text(flags)
    ensures f["seq"] == Num(seqNum) && f["ack"] == Num(ackNum)
  {
    map["sport" := Num(sport), "dport" := Num(dport), "flags" := Text(flags),
        "seq" := Num(seqNum), "ack" := Num(ackNum)]
  }

  /** Python's truth value of an optional string: `None` and `""` are false. */
  predicate Truthy(payload: Option<string>) {
    payload.Some? && payload.value != ""
  }

  /** `IP(src, dst)/TCP(fields)`, then `/Raw(load=payload)` when the payload
      is truthy. */
  function Stack(src: string, dst: string, fields: Fields, payload: Option<string>): (p: Packet)
    ensures p.src == src && p.dst == dst && p.tcp == Some(fields)
    ensures p.load.Some? <==> Truthy(payload)
    ensures p.load.Some? ==> p.load == payload
  {
    Packet(src, dst, Some(fields), if Truthy(payload) then payload else None)
  }

  /** What scapy reports for a TCP field that was never set (its defaults:
      source port 20, destination port 80, sequence and acknowledgment 0,
      flags "S", window 8192, reserved bits and urgent pointer 0). The
      fields whose default is None (`dataofs`, `chksum`) also read as 0. */
  function DefaultField(name: string): Value {
    match name
    case "sport" => Num(20)
    case "dport" => Num(80)
    case "flags" => Num(0x02)
    case "window" => Num(8192)
    case _ => Num(0)
  }

  /** `packet[TCP].<name>`. */
  function Field(fields: Fields, name: string): Value {
    if name in fields then fields[name] else DefaultField(name)
  }

  /** scapy's letters for the TCP control bits, lowest bit first. */
  const FlagLetters: string := "FSRPAUECN"

  /** The integer value of a flags field; letters are read as scapy reads
      them, each naming one bit of `FlagLetters`. */
  function FlagBits(v: Value): int {
    match v
    case Num(n) => n
    case Text(s) => LetterMask(s, 0)
  }

  function LetterMask(s: string, i: nat): nat
    decreases |FlagLetters| - i
  {
    if i >= |FlagLetters| then 0
    else (if FlagLetters[i] in s then 1 else 0) + 2 * LetterMask(s, i + 1)
  }
}
