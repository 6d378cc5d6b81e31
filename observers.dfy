/** The observer pattern of the package: a subject keeps a list of
    observers and passes every packet event to each of them. The three kinds
    of observer are separate classes; the subject holds them through a
    tagged reference, so `notify` dispatches on the tag. */
module Observers {
  import opened Packets
  import opened Lists

  /** One call of `notify`: a packet and its event type, such as
      "SEND_ClosedState". */
  datatype Notification = Notification(packet: Packet, eventType: string)

  /** Writes each event to the log; it keeps no state of its own. */
  class LoggingObserver {
    constructor() {}
  }

  /** Keeps every packet it is told about. */
  class PacketCaptureObserver {
    var capturedPackets: seq<Packet>

    constructor()
      ensures capturedPackets == []
    {
      capturedPackets := [];
    }

    method Update(packet: Packet, eventType: string)
      modifies this
      ensures capturedPackets == old(capturedPackets) + [packet]
    {
      capturedPackets := capturedPackets + [packet];
    }

    function GetCapturedPackets(): (packets: seq<Packet>)
      reads this
      ensures packets == capturedPackets
    {
      capturedPackets
    }
  }

  /** The dictionary `PacketAnalyzerObserver.update` builds for a TCP packet. */
  datatype AnalysisRecord = AnalysisRecord(eventType: string, srcIp: string, dstIp: string,
                                           sport: Value, dport: Value, seqNum: Value,
                                           ackNum: Value, flags: Value)

  /** The record of a TCP packet: every field is copied from the packet. */
  function RecordOf(packet: Packet, eventType: string): (r: AnalysisRecord)
    requires HasTcp(packet)
    ensures r.eventType == eventType && r.srcIp == packet.src && r.dstIp == packet.dst
    ensures r.sport == Field(packet.tcp.value, "sport") && r.dport == Field(packet.tcp.value, "dport")
    ensures r.seqNum == Field(packet.tcp.value, "seq") && r.ackNum == Field(packet.tcp.value, "ack")
    ensures r.flags == Field(packet.tcp.value, "flags")
  {
    var tcp := packet.tcp.value;
    AnalysisRecord(eventType, packet.src, packet.dst, Field(tcp, "sport"), Field(tcp, "dport"),
                   Field(tcp, "seq"), Field(tcp, "ack"), Field(tcp, "flags"))
  }

  /** Keeps a record of every TCP packet it is told about. */
  class PacketAnalyzerObserver {
    var analysisResults: seq<AnalysisRecord>

    constructor()
      ensures analysisResults == []
    {
      analysisResults := [];
    }

    method Update(packet: Packet, eventType: string)
      modifies this
      ensures analysisResults == old(analysisResults) +
                (if HasTcp(packet) then [RecordOf(packet, eventType)] else [])
    {
      if HasTcp(packet) {
        analysisResults := analysisResults + [RecordOf(packet, eventType)];
      }
    }

    function GetAnalysisResults(): (results: seq<AnalysisRecord>)
      reads this
      ensures results == analysisResults
    {
      analysisResults
    }
  }

  /** An attached observer, tagged with its class. Two references are equal
      exactly when they name the same object, as with Python's `in` on
      observers. */
  datatype ObserverRef =
    | Logging(logger: LoggingObserver)
    | Capture(capture: PacketCaptureObserver)
    | Analyzer(analyzer: PacketAnalyzerObserver)
  {
    function Target(): object {
      match this
      case Logging(o) => o
      case Capture(o) => o
      case Analyzer(o) => o
    }
  }

  /** The objects a list of observers refers to. */
  ghost function Targets(observers: seq<ObserverRef>): set<object> {
    set o | o in observers :: o.Target()
  }

  /** The objects of three tagged references, one of each kind. */
  lemma TargetsOfThree(lo: LoggingObserver, co: PacketCaptureObserver, ao: PacketAnalyzerObserver)
    ensures Targets([Logging(lo), Capture(co), Analyzer(ao)]) == {lo, co, ao}
  {
    var refs := [Logging(lo), Capture(co), Analyzer(ao)];
    assert refs[0] in refs && refs[1] in refs && refs[2] in refs;
  }

  /** The other attached observers are other objects than the `i`-th. */
  lemma DistinctTargets(observers: seq<ObserverRef>, i: nat)
    requires NoDup(observers) && i < |observers|
    ensures forall j :: 0 <= j < |observers| && j != i && observers[j].Capture? ==>
              observers[j].capture != observers[i].Target()
    ensures forall j :: 0 <= j < |observers| && j != i && observers[j].Analyzer? ==>
              observers[j].analyzer != observers[i].Target()
  {
  }

  /** Calls `update` on one observer. */
  method Deliver(observer: ObserverRef, packet: Packet, eventType: string)
    modifies observer.Target()
    ensures observer.Capture? ==> observer.capture.capturedPackets == old(observer.capture.capturedPackets) + [packet]
    ensures observer.Analyzer? ==>
              observer.analyzer.analysisResults == old(observer.analyzer.analysisResults) +
                (if HasTcp(packet) then [RecordOf(packet, eventType)] else [])
  {
    match observer {
      case Logging(_) =>
      case Capture(o) => o.Update(packet, eventType);
      case Analyzer(o) => o.Update(packet, eventType);
    }
  }

  /** `Subject`: the list of attached observers. `notified` and `delivered`
      record, for the proofs only, every call of `notify` and every call of
      an observer's `update`, in order. */
  class Subject {
    var observers: seq<ObserverRef>
    ghost var notified: seq<Notification>
    ghost var delivered: seq<ObserverRef>

    /** No observer is attached twice. */
    ghost predicate Valid()
      reads this
    {
      NoDup(observers)
    }

    constructor()
      ensures Valid() && observers == [] && notified == [] && delivered == []
    {
      observers, notified, delivered := [], [], [];
    }

    /** Appends the observer unless it is already attached. */
    method Attach(observer: ObserverRef)
      requires Valid()
      modifies this
      ensures Valid()
      ensures observers == if observer in old(observers) then old(observers) else old(observers) + [observer]
      ensures notified == old(notified) && delivered == old(delivered)
    {
      if observer !in observers {
        AppendAbsentNoDup(observers, observer);
        observers := observers + [observer];
      }
    }

    /** Removes the observer if it is attached; the others keep their order. */
    method Detach(observer: ObserverRef)
      requires Valid()
      modifies this
      ensures Valid() && observer !in observers
      ensures observers == RemoveFirst(old(observers), observer)
      ensures notified == old(notified) && delivered == old(delivered)
    {
      RemoveFirstNoDup(observers, observer);
      if observer in observers {
        observers := RemoveFirst(observers, observer);
      }
    }

    /** Calls `update` on every attached observer once, in the order they
        were attached. */
    method Notify(packet: Packet, eventType: string)
      requires Valid()
      modifies this, Targets(observers)
      ensures Valid() && observers == old(observers)
      ensures notified == old(notified) + [Notification(packet, eventType)]
      ensures delivered == old(delivered) + observers
      ensures forall j :: 0 <= j < |observers| && observers[j].Capture? ==>
                observers[j].capture.capturedPackets == old(observers[j].capture.capturedPackets) + [packet]
      ensures forall j :: 0 <= j < |observers| && observers[j].Analyzer? ==>
                observers[j].analyzer.analysisResults == old(observers[j].analyzer.analysisResults) +
                  (if HasTcp(packet) then [RecordOf(packet, eventType)] else [])
    {
      notified := notified + [Notification(packet, eventType)];
      var i := 0;
      while i < |observers|
        invariant 0 <= i <= |observers| && observers == old(observers)
        invariant notified == old(notified) + [Notification(packet, eventType)]
        invariant delivered == old(delivered) + observers[..i]
        invariant forall j :: 0 <= j < |observers| && observers[j].Capture? ==>
                    observers[j].capture.capturedPackets ==
                      old(observers[j].capture.capturedPackets) + (if j < i then [packet] else [])
        invariant forall j :: 0 <= j < |observers| && observers[j].Analyzer? ==>
                    observers[j].analyzer.analysisResults == old(observers[j].analyzer.analysisResults) +
                      (if j < i && HasTcp(packet) then [RecordOf(packet, eventType)] else [])
      {
        var observer := observers[i];
        assert observer in observers;
        DistinctTargets(observers, i);
        Deliver(observer, packet, eventType);
        delivered := delivered + [observer];
        assert observers[..i + 1] == observers[..i] + [observer];
        i := i + 1;
      }
      assert observers[..i] == observers;
    }
  }
}
