/** The package's `TCPSimulation` (`tcp_simulation/core/tcp_simulation.py`):
    a subject with three observers that walks the state cycle once, sending
    the packet each state asks for and reporting what it sends and
    captures. */
module Simulation {
  import opened Wrappers
  import opened Packets
  import opened PacketFactory
  import opened TcpState
  import opened Network
  import opened Observers
  import opened Config
  import opened PacketAnalyzer
  import opened Lists
  import opened Segments

  /** The four builders of the package variant, for `self.seq == seq0` and
      `self.ack == ack0`. */
  function BuilderSegment(kind: Emission, seq0: int, ack0: int): Segment {
    match kind
    case Syn => Segment("S", seq0, ack0)
    case SynAck => Segment("SA", seq0 + 1, seq0 + 1)
    case Ack => Segment("A", seq0 + 1, seq0 + 2)
    case Fin => Segment("FA", seq0 + 1, seq0 + 2)
  }

  /** The packet `handle_packet` returns in state `s`. `self.seq` is the
      initial sequence number and `self.ack` is 0, and neither is assigned
      again, so this depends on the state and the configuration alone. */
  function StatePacket(config: Settings, s: State): Packet {
    SegmentPacket(config, BuilderSegment(Emit(s), config.initialSeq, 0))
  }

  /** One pass of the loop body: the packet sent, the description its event
      types carry, and the outcome of sending it. */
  datatype Step = Step(packet: Packet, description: string, outcome: Exchange)

  /** The pass that handles state `s` with outcome `x`. */
  function StepOf(config: Settings, s: State, x: Exchange): Step {
    Step(StatePacket(config, s), ClassName(s), x)
  }

  /** The first `k` passes from `start`, the `i`-th with outcome `net(i)`. */
  function Steps(config: Settings, start: State, net: nat -> Exchange, k: nat): (steps: seq<Step>)
    ensures |steps| == k
  {
    if k == 0 then [] else Steps(config, start, net, k - 1) + [StepOf(config, Iterate(start, k - 1), net(k - 1))]
  }

  /** The notifications of one `send_and_capture`: none when the send
      fails, otherwise `SEND_<description>` and then, if the capture
      returned a packet, `RECEIVE_<description>`. */
  function Announced(st: Step): seq<Notification> {
    if st.outcome.SendFailed? then []
    else [Notification(st.packet, "SEND_" + st.description)] +
         (if st.outcome.response.Some? then [Notification(st.outcome.response.value, "RECEIVE_" + st.description)] else [])
  }

  /** The packets one pass adds to the capture: the sent packet, then the
      captured response; nothing when the send fails. */
  function Logged(st: Step): seq<Packet> {
    if st.outcome.Delivered? then StepLog(st.packet, st.outcome.response) else []
  }

  /** The records the analyzer observer keeps for some notifications: one
      per notification whose packet has a TCP layer. */
  function Analysed(notes: seq<Notification>): seq<AnalysisRecord> {
    if notes == [] then []
    else
      var n := notes[|notes| - 1];
      Analysed(notes[..|notes| - 1]) + (if HasTcp(n.packet) then [RecordOf(n.packet, n.eventType)] else [])
  }

  /** The notifications of several passes, in order. */
  function Notes(steps: seq<Step>): seq<Notification> {
    if steps == [] then [] else Notes(steps[..|steps| - 1]) + Announced(steps[|steps| - 1])
  }

  /** What the capture observer keeps over several passes. */
  function Log(steps: seq<Step>): seq<Packet> {
    if steps == [] then [] else Log(steps[..|steps| - 1]) + Logged(steps[|steps| - 1])
  }

  /** What the analyzer observer keeps over several passes. */
  function Records(steps: seq<Step>): seq<AnalysisRecord> {
    if steps == [] then [] else Records(steps[..|steps| - 1]) + Analysed(Announced(steps[|steps| - 1]))
  }

  /** The sent packets of several passes. */
  function SentOf(steps: seq<Step>): (sent: seq<Packet>)
    ensures |sent| == |steps|
  {
    if steps == [] then [] else SentOf(steps[..|steps| - 1]) + [steps[|steps| - 1].packet]
  }

  /** The captured responses of several passes. */
  function ResponsesOf(steps: seq<Step>): (responses: seq<Option<Packet>>)
    ensures |responses| == |steps|
  {
    if steps == [] then [] else ResponsesOf(steps[..|steps| - 1]) + [Response(steps[|steps| - 1].outcome)]
  }

  /** The packets of some notifications, in order. */
  function NotedPackets(notes: seq<Notification>): (r: seq<Packet>)
    ensures |r| == |notes|
  {
    if notes == [] then [] else NotedPackets(notes[..|notes| - 1]) + [notes[|notes| - 1].packet]
  }

  /** How many passes `run` completes from `start`: up to the first failed
      send, and at most one round of the cycle. */
  function Taken(start: State, net: nat -> Exchange): nat {
    Completed(net, StepsToClosed(start))
  }

  class TcpSimulation {
    const config: Settings
    const srcIp: string
    const dstIp: string
    const srcPort: int
    const dstPort: int
    const seqNum: int
    const ackNum: int
    var currentState: State

    /** `TCPSimulation` inherits from `Subject`; here it holds one. */
    const subject: Subject
    const loggingObserver: LoggingObserver
    const captureObserver: PacketCaptureObserver
    const analyzerObserver: PacketAnalyzerObserver

    /** The fields copy the configuration, the acknowledgment number is 0,
        and the three observers are attached in order. */
    ghost predicate Valid()
      reads this, subject
    {
      srcIp == config.srcIp && dstIp == config.dstIp &&
      srcPort == config.srcPort && dstPort == config.dstPort &&
      seqNum == config.initialSeq && ackNum == 0 &&
      subject.Valid() &&
      subject.observers == [Logging(loggingObserver), Capture(captureObserver), Analyzer(analyzerObserver)]
    }

    constructor(config: Settings)
      ensures Valid() && this.config == config && currentState == Closed
      ensures fresh(subject) && fresh(loggingObserver) && fresh(captureObserver) && fresh(analyzerObserver)
      ensures subject.notified == [] && captureObserver.capturedPackets == [] && analyzerObserver.analysisResults == []
    {
      this.config := config;
      srcIp, dstIp := config.srcIp, config.dstIp;
      srcPort, dstPort := config.srcPort, config.dstPort;
      seqNum, ackNum := config.initialSeq, 0;
      currentState := Closed;
      var s := new Subject();
      var lo := new LoggingObserver();
      var co := new PacketCaptureObserver();
      var ao := new PacketAnalyzerObserver();
      s.Attach(Logging(lo));
      s.Attach(Capture(co));
      s.Attach(Analyzer(ao));
      subject, loggingObserver, captureObserver, analyzerObserver := s, lo, co, ao;
    }

    method CreateSynPacket() returns (p: Packet)
      requires Valid()
      ensures p == SegmentPacket(config, Segment("S", config.initialSeq, 0))
    {
      p := CreateTcpPacket(srcIp, dstIp, srcPort, dstPort, "S", seqNum, ackNum, None, None);
    }

    method CreateSynAckPacket() returns (p: Packet)
      requires Valid()
      ensures p == SegmentPacket(config, Segment("SA", config.initialSeq + 1, config.initialSeq + 1))
    {
      p := CreateTcpPacket(srcIp, dstIp, srcPort, dstPort, "SA", seqNum + 1, seqNum + 1, None, None);
    }

    method CreateAckPacket() returns (p: Packet)
      requires Valid()
      ensures p == SegmentPacket(config, Segment("A", config.initialSeq + 1, config.initialSeq + 2))
    {
      p := CreateTcpPacket(srcIp, dstIp, srcPort, dstPort, "A", seqNum + 1, seqNum + 2, None, None);
    }

    method CreateFinPacket() returns (p: Packet)
      requires Valid()
      ensures p == SegmentPacket(config, Segment("FA", config.initialSeq + 1, config.initialSeq + 2))
    {
      p := CreateTcpPacket(srcIp, dstIp, srcPort, dstPort, "FA", seqNum + 1, seqNum + 2, None, None);
    }

    /** `handle_packet` of the state object for `s`: the incoming packet is
        ignored, and a packet is always returned. */
    method HandlePacket(s: State, incoming: Option<Packet>) returns (p: Packet)
      requires Valid()
      ensures p == StatePacket(config, s)
    {
      match Emit(s) {
        case Syn => p := CreateSynPacket();
        case SynAck => p := CreateSynAckPacket();
        case Ack => p := CreateAckPacket();
        case Fin => p := CreateFinPacket();
      }
    }

    /** Sends the packet and notifies the observers of it, then notifies
        them of the captured response, if any. A failed send raises before
        any notification. */
    method SendAndCapture(packet: Packet, description: string, x: Exchange) returns (sent: bool)
      requires Valid()
      modifies subject, loggingObserver, captureObserver, analyzerObserver
      ensures Valid()
      ensures sent <==> x.Delivered?
      ensures subject.notified == old(subject.notified) + Announced(Step(packet, description, x))
      ensures captureObserver.capturedPackets == old(captureObserver.capturedPackets) + Logged(Step(packet, description, x))
      ensures analyzerObserver.analysisResults ==
                old(analyzerObserver.analysisResults) + Analysed(Announced(Step(packet, description, x)))
    {
      if x.SendFailed? {
        return false;
      }
      assert subject.observers[1] == Capture(captureObserver);
      assert subject.observers[2] == Analyzer(analyzerObserver);
      TargetsOfThree(loggingObserver, captureObserver, analyzerObserver);
      subject.Notify(packet, "SEND_" + description);
      var notes := [Notification(packet, "SEND_" + description)];
      assert Analysed(notes) == (if HasTcp(packet) then [RecordOf(packet, "SEND_" + description)] else []);
      if x.response.Some? {
        subject.Notify(x.response.value, "RECEIVE_" + description);
        notes := notes + [Notification(x.response.value, "RECEIVE_" + description)];
        AnalysedSnoc(notes[..1], notes[1]);
        assert notes[..1] + [notes[1]] == notes;
      }
      assert notes == Announced(Step(packet, description, x));
      return true;
    }

    /** The loop body of `run` up to the change of state: the current
        state's packet is built, sent and captured, with outcome `x`. */
    method HandleCurrentState(x: Exchange) returns (sent: bool)
      requires Valid()
      modifies subject, loggingObserver, captureObserver, analyzerObserver
      ensures Valid()
      ensures sent <==> x.Delivered?
      ensures subject.notified == old(subject.notified) + Announced(StepOf(config, currentState, x))
      ensures captureObserver.capturedPackets == old(captureObserver.capturedPackets) + Logged(StepOf(config, currentState, x))
      ensures analyzerObserver.analysisResults ==
                old(analyzerObserver.analysisResults) + Analysed(Announced(StepOf(config, currentState, x)))
    {
      var packet := HandlePacket(currentState, None);
      sent := SendAndCapture(packet, ClassName(currentState), x);
    }

    /** The state of `run` after `k` passes from `start`: the machine is
        `k` states further on, all `k` sends went out, and the observers'
        histories are `notes0`, `log0` and `records0` followed by what those
        passes added. */
    ghost predicate Reached(start: State, net: nat -> Exchange, k: nat, steps: seq<Step>,
                            notes0: seq<Notification>, log0: seq<Packet>, records0: seq<AnalysisRecord>)
      reads this, subject, captureObserver, analyzerObserver
    {
      Valid() && k <= StepsToClosed(start) && currentState == Iterate(start, k) &&
      Delivers(net, k) && steps == Steps(config, start, net, k) &&
      subject.notified == notes0 + Notes(steps) &&
      captureObserver.capturedPackets == log0 + Log(steps) &&
      analyzerObserver.analysisResults == records0 + Records(steps)
    }

    /** `Reached`, taken apart. */
    lemma ReachedUnpack(start: State, net: nat -> Exchange, k: nat, steps: seq<Step>,
                        notes0: seq<Notification>, log0: seq<Packet>, records0: seq<AnalysisRecord>)
      requires Reached(start, net, k, steps, notes0, log0, records0)
      ensures Valid() && k <= StepsToClosed(start) && currentState == Iterate(start, k)
      ensures Delivers(net, k) && steps == Steps(config, start, net, k)
      ensures subject.notified == notes0 + Notes(steps)
      ensures captureObserver.capturedPackets == log0 + Log(steps)
      ensures analyzerObserver.analysisResults == records0 + Records(steps)
    {
    }

    /** `Reached`, put together. */
    lemma ReachedPack(start: State, net: nat -> Exchange, k: nat, steps: seq<Step>,
                      notes0: seq<Notification>, log0: seq<Packet>, records0: seq<AnalysisRecord>)
      requires Valid() && k <= StepsToClosed(start) && currentState == Iterate(start, k)
      requires Delivers(net, k) && steps == Steps(config, start, net, k)
      requires subject.notified == notes0 + Notes(steps)
      requires captureObserver.capturedPackets == log0 + Log(steps)
      requires analyzerObserver.analysisResults == records0 + Records(steps)
      ensures Reached(start, net, k, steps, notes0, log0, records0)
    {
    }

    /** Before the first pass. */
    lemma ReachedStart(notes0: seq<Notification>, log0: seq<Packet>, records0: seq<AnalysisRecord>, net: nat -> Exchange)
      requires Valid()
      requires subject.notified == notes0 && captureObserver.capturedPackets == log0
      requires analyzerObserver.analysisResults == records0
      ensures Reached(currentState, net, 0, [], notes0, log0, records0)
    {
    }

    /** One pass of the loop of `run`: the current state's packet is sent
        and captured with outcome `net(k)`; when the send succeeds the
        machine moves to the successor state. The observers' histories
        stay the ones of the passes so far, and when the loop stops after
        this pass (the send failed, or CLOSED is reached) they are those of
        all `Taken(start, net)` passes. */
    method Pass(ghost start: State, net: nat -> Exchange, k: nat, ghost steps: seq<Step>,
                ghost notes0: seq<Notification>, ghost log0: seq<Packet>, ghost records0: seq<AnalysisRecord>)
      returns (sent: bool, ghost steps': seq<Step>)
      requires Reached(start, net, k, steps, notes0, log0, records0) && k < StepsToClosed(start)
      modifies this, subject, loggingObserver, captureObserver, analyzerObserver
      ensures sent <==> net(k).Delivered?
      ensures Reached(start, net, if sent then k + 1 else k, steps', notes0, log0, records0)
      ensures !sent ==> Taken(start, net) == k
      ensures sent ==> (currentState == Closed <==> k + 1 == StepsToClosed(start))
      ensures sent && currentState == Closed ==> Taken(start, net) == k + 1
      ensures !sent || currentState == Closed ==>
                Valid() && currentState == Iterate(start, Taken(start, net)) &&
                subject.notified == notes0 + Notes(Steps(config, start, net, Taken(start, net))) &&
                captureObserver.capturedPackets == log0 + Log(Steps(config, start, net, Taken(start, net))) &&
                analyzerObserver.analysisResults == records0 + Records(Steps(config, start, net, Taken(start, net)))
    {
      hide *;
      ReachedUnpack(start, net, k, steps, notes0, log0, records0);
      ghost var st := StepOf(config, currentState, net(k));
      sent := HandleCurrentState(net(k));
      if !sent {
        FailedPassAddsNothing(config, currentState, net(k));
        steps' := steps;
        TakenFailed(start, net, k);
      } else {
        ExtendHistories(steps, st, notes0, log0, records0);
        StepsNext(config, start, net, k);
        DeliversNext(net, k);
        steps' := steps + [st];
        currentState := Next(currentState);
        TakenClosed(start, net, k + 1);
      }
      ReachedPack(start, net, if sent then k + 1 else k, steps', notes0, log0, records0);
    }

    /** `run`: handles the current state, moves to its successor, and stops
        on reaching CLOSED; then writes the captured packets out when
        `save_pcap` is set. `net(i)` is the outcome of the `i`-th send and
        capture; a failed send ends the run where it happened. */
    method Run(net: nat -> Exchange) returns (ok: bool, written: Option<seq<Packet>>)
      requires Valid()
      modifies this, subject, loggingObserver, captureObserver, analyzerObserver
      ensures Valid()
      ensures ok <==> Taken(old(currentState), net) == StepsToClosed(old(currentState))
      ensures currentState == Iterate(old(currentState), Taken(old(currentState), net))
      ensures ok ==> currentState == Closed
      ensures subject.notified ==
                old(subject.notified) + Notes(Steps(config, old(currentState), net, Taken(old(currentState), net)))
      ensures captureObserver.capturedPackets ==
                old(captureObserver.capturedPackets) + Log(Steps(config, old(currentState), net, Taken(old(currentState), net)))
      ensures analyzerObserver.analysisResults ==
                old(analyzerObserver.analysisResults) + Records(Steps(config, old(currentState), net, Taken(old(currentState), net)))
      ensures written == if ok && config.savePcap then Some(captureObserver.capturedPackets) else None
    {
      ghost var start := currentState;
      ghost var notes0, log0, records0 := subject.notified, captureObserver.capturedPackets, analyzerObserver.analysisResults;
      ghost var steps: seq<Step> := [];
      ReachedStart(notes0, log0, records0, net);
      hide *;
      var k := 0;
      ok := true;
      while true
        invariant Reached(start, net, k, steps, notes0, log0, records0) && k < StepsToClosed(start)
        decreases StepsToClosed(start) - k
      {
        var sent;
        sent, steps := Pass(start, net, k, steps, notes0, log0, records0);
        if !sent {
          ok := false;
          break;
        }
        k := k + 1;
        if currentState == Closed {
          break;
        }
      }
      if ok && config.savePcap {
        written := Some(captureObserver.GetCapturedPackets());
      } else {
        written := None;
      }
    }
  }

  /** A pass whose send fails adds nothing to any history. */
  lemma FailedPassAddsNothing(config: Settings, s: State, x: Exchange)
    requires !x.Delivered?
    ensures Announced(StepOf(config, s, x)) == [] && Logged(StepOf(config, s, x)) == []
    ensures Analysed(Announced(StepOf(config, s, x))) == []
  {
  }

  /** A failed send ends the loop of `run` after the passes before it. */
  lemma TakenFailed(start: State, net: nat -> Exchange, k: nat)
    requires k < StepsToClosed(start) && Delivers(net, k) && !net(k).Delivered?
    ensures Taken(start, net) == k
  {
    CompletedAt(net, StepsToClosed(start), k);
  }

  /** After `k` delivered passes the machine is in CLOSED exactly when the
      round is over, and then the loop of `run` took all `k` passes. */
  lemma TakenClosed(start: State, net: nat -> Exchange, k: nat)
    requires 0 < k <= StepsToClosed(start) && Delivers(net, k)
    ensures Iterate(start, k) == Closed <==> k == StepsToClosed(start)
    ensures k == StepsToClosed(start) ==> Taken(start, net) == k
  {
    ReachesClosed(start, k);
    if k == StepsToClosed(start) {
      CompletedAt(net, k, k);
    }
  }

  /** Pass `k + 1` extends the first `k` by the pass that handles the `k`-th
      successor of `start`, and leaves the machine in the next state. */
  lemma StepsNext(config: Settings, start: State, net: nat -> Exchange, k: nat)
    ensures Steps(config, start, net, k + 1) == Steps(config, start, net, k) + [StepOf(config, Iterate(start, k), net(k))]
    ensures Iterate(start, k + 1) == Next(Iterate(start, k))
  {
  }

  /** Adding one notification adds its record, if its packet has a TCP
      layer. */
  lemma AnalysedSnoc(notes: seq<Notification>, n: Notification)
    ensures Analysed(notes + [n]) == Analysed(notes) + (if HasTcp(n.packet) then [RecordOf(n.packet, n.eventType)] else [])
  {
    assert (notes + [n])[..|notes|] == notes;
  }

  /** Adding one pass adds its notifications, its captured packets and its
      records. */
  lemma StepsSnoc(steps: seq<Step>, st: Step)
    ensures Notes(steps + [st]) == Notes(steps) + Announced(st)
    ensures Log(steps + [st]) == Log(steps) + Logged(st)
    ensures Records(steps + [st]) == Records(steps) + Analysed(Announced(st))
    ensures SentOf(steps + [st]) == SentOf(steps) + [st.packet]
    ensures ResponsesOf(steps + [st]) == ResponsesOf(steps) + [Response(st.outcome)]
  {
    assert (steps + [st])[..|steps|] == steps;
  }

  /** The histories kept from `notes0`, `log0` and `records0` on, extended
      by one pass. */
  lemma ExtendHistories(steps: seq<Step>, st: Step, notes0: seq<Notification>, log0: seq<Packet>, records0: seq<AnalysisRecord>)
    ensures (notes0 + Notes(steps)) + Announced(st) == notes0 + Notes(steps + [st])
    ensures (log0 + Log(steps)) + Logged(st) == log0 + Log(steps + [st])
    ensures (records0 + Records(steps)) + Analysed(Announced(st)) == records0 + Records(steps + [st])
  {
    StepsSnoc(steps, st);
    AppendAssoc(notes0, Notes(steps), Announced(st));
    AppendAssoc(log0, Log(steps), Logged(st));
    AppendAssoc(records0, Records(steps), Analysed(Announced(st)));
  }

  /** The `i`-th pass handles the `i`-th state after `start`. */
  lemma {:induction false} StepsAt(config: Settings, start: State, net: nat -> Exchange, k: nat, i: nat)
    requires i < k
    ensures Steps(config, start, net, k)[i] == StepOf(config, Iterate(start, i), net(i))
  {
    hide *;
    StepsNext(config, start, net, k - 1);
    if i < k - 1 {
      StepsAt(config, start, net, k - 1, i);
    }
  }

  /** The packets of two runs of notifications, one after the other. */
  lemma {:induction false} NotedPacketsAppend(a: seq<Notification>, b: seq<Notification>)
    ensures NotedPackets(a + b) == NotedPackets(a) + NotedPackets(b)
  {
    if b != [] {
      assert (a + b)[..|a + b| - 1] == a + b[..|b| - 1];
      NotedPacketsAppend(a, b[..|b| - 1]);
    } else {
      assert a + b == a;
    }
  }

  /** The records of two runs of notifications, one after the other. */
  lemma {:induction false} AnalysedAppend(a: seq<Notification>, b: seq<Notification>)
    ensures Analysed(a + b) == Analysed(a) + Analysed(b)
  {
    if b != [] {
      assert (a + b)[..|a + b| - 1] == a + b[..|b| - 1];
      AnalysedAppend(a, b[..|b| - 1]);
    } else {
      assert a + b == a;
    }
  }

  /** A pass notifies of the sent packet and then of the captured response,
      if any; a failed send notifies of nothing. */
  lemma AnnouncedPackets(st: Step)
    ensures NotedPackets(Announced(st)) == Logged(st)
  {
  }

  /** The capture observer keeps exactly the packets of the notifications. */
  lemma {:induction false} NotedPacketsAreLogged(steps: seq<Step>)
    ensures NotedPackets(Notes(steps)) == Log(steps)
  {
    if steps != [] {
      var before, last := steps[..|steps| - 1], steps[|steps| - 1];
      NotedPacketsAreLogged(before);
      NotedPacketsAppend(Notes(before), Announced(last));
      AnnouncedPackets(last);
    }
  }

  /** The analyzer observer keeps one record per notification of a TCP
      packet, in order. */
  lemma {:induction false} RecordsFollowNotes(steps: seq<Step>)
    ensures Records(steps) == Analysed(Notes(steps))
  {
    if steps != [] {
      var before, last := steps[..|steps| - 1], steps[|steps| - 1];
      RecordsFollowNotes(before);
      AnalysedAppend(Notes(before), Announced(last));
    }
  }

  /** While every send goes out, the capture is the sent packets, each
      followed by its captured response. */
  lemma {:induction false} LogIsCaptureLog(steps: seq<Step>)
    requires forall i :: 0 <= i < |steps| ==> steps[i].outcome.Delivered?
    ensures Log(steps) == CaptureLog(SentOf(steps), ResponsesOf(steps))
  {
    if steps != [] {
      var before, last := steps[..|steps| - 1], steps[|steps| - 1];
      assert forall i :: 0 <= i < |before| ==> before[i] == steps[i];
      LogIsCaptureLog(before);
      assert SentOf(steps)[..|steps| - 1] == SentOf(before);
      assert ResponsesOf(steps)[..|steps| - 1] == ResponsesOf(before);
    }
  }

  /** Every packet of the run carries the configured addresses and ports. */
  lemma EndpointsUnchanged(config: Settings, s: State)
    ensures StatePacket(config, s).src == config.srcIp && StatePacket(config, s).dst == config.dstIp
    ensures HasTcp(StatePacket(config, s))
    ensures Field(StatePacket(config, s).tcp.value, "sport") == Num(config.srcPort)
    ensures Field(StatePacket(config, s).tcp.value, "dport") == Num(config.dstPort)
  {
  }

  /** Only four packets exist: every state after LISTEN sends
      `seq0 + 1` / `seq0 + 2`, the teardown included. */
  lemma TeardownReusesNumbers(config: Settings, s: State)
    ensures s != Closed && s != Listen ==>
              Field(StatePacket(config, s).tcp.value, "seq") == Num(config.initialSeq + 1) &&
              Field(StatePacket(config, s).tcp.value, "ack") == Num(config.initialSeq + 2)
  {
  }

  /** The segments of one turn of the cycle from CLOSED: SYN, SYN-ACK, ACK,
      FIN, ACK, FIN, ACK with these numbers. */
  function CycleSegments(s0: int): seq<Segment> {
    [Segment("S", s0, 0), Segment("SA", s0 + 1, s0 + 1), Segment("A", s0 + 1, s0 + 2),
     Segment("FA", s0 + 1, s0 + 2), Segment("A", s0 + 1, s0 + 2), Segment("FA", s0 + 1, s0 + 2),
     Segment("A", s0 + 1, s0 + 2)]
  }

  /** Each state of the cycle builds the segment at its place. */
  lemma CycleBuildsSegments(s0: int)
    ensures forall i :: 0 <= i < |Cycle| ==> BuilderSegment(Emit(Cycle[i]), s0, 0) == CycleSegments(s0)[i]
  {
  }

  /** From CLOSED, `run` handles seven states and sends, in order, SYN,
      SYN-ACK, ACK, FIN, ACK, FIN, ACK: only four distinct packets, since
      the teardown reuses the numbers of the final ACK of the handshake. */
  lemma {:induction false} RunFromClosed(config: Settings, net: nat -> Exchange)
    ensures StepsToClosed(Closed) == 7
    ensures |SentOf(Steps(config, Closed, net, 7))| == 7
    ensures forall i :: 0 <= i < 7 ==>
              SentOf(Steps(config, Closed, net, 7))[i] == SegmentPacket(config, CycleSegments(config.initialSeq)[i])
  {
    ClosedOrbit();
    CycleBuildsSegments(config.initialSeq);
    var steps := Steps(config, Closed, net, 7);
    forall i | 0 <= i < 7
      ensures SentOf(steps)[i] == SegmentPacket(config, CycleSegments(config.initialSeq)[i])
    {
      SentOfAt(steps, i);
      StepsAt(config, Closed, net, 7, i);
      assert SentOf(steps)[i] == StatePacket(config, Cycle[i]);
    }
  }

  /** The `i`-th sent packet is the packet of the `i`-th pass. */
  lemma {:induction false} SentOfAt(steps: seq<Step>, i: nat)
    requires i < |steps|
    ensures SentOf(steps)[i] == steps[i].packet
  {
    if i < |steps| - 1 {
      SentOfAt(steps[..|steps| - 1], i);
    }
  }

  /** A run from CLOSED in which every send goes out completes seven passes,
      notifies and captures between 7 and 14 packets, and keeps the sent
      packets in order, each at its own place in the capture. */
  lemma CompleteRunBounds(config: Settings, net: nat -> Exchange)
    requires forall i :: 0 <= i < 7 ==> net(i).Delivered?
    ensures Taken(Closed, net) == 7
    ensures var steps := Steps(config, Closed, net, 7);
            |Notes(steps)| == |Log(steps)| && 7 <= |Log(steps)| <= 14
    ensures var steps := Steps(config, Closed, net, 7);
            forall i :: 0 <= i < 7 ==>
              SentPosition(ResponsesOf(steps), i) < |Log(steps)| &&
              Log(steps)[SentPosition(ResponsesOf(steps), i)] == SentOf(steps)[i]
  {
    RunFromClosed(config, net);
    assert Completed(net, 7) == 7;
    var steps := Steps(config, Closed, net, 7);
    forall i | 0 <= i < 7 ensures steps[i].outcome.Delivered? {
      StepsAt(config, Closed, net, 7, i);
    }
    NotedPacketsAreLogged(steps);
    LogIsCaptureLog(steps);
    CaptureLogLength(SentOf(steps), ResponsesOf(steps));
    forall i | 0 <= i < 7
      ensures SentPosition(ResponsesOf(steps), i) < |Log(steps)| &&
              Log(steps)[SentPosition(ResponsesOf(steps), i)] == SentOf(steps)[i]
    {
      SentInOrder(SentOf(steps), ResponsesOf(steps), i);
    }
  }

  /** The analyzer reads the flags of each sent packet back as the control
      bits the state meant to send. */
  lemma SentFlagsNamed(config: Settings, s: State)
    ensures var names := FlagNames(FlagBits(Field(StatePacket(config, s).tcp.value, "flags")));
            match Emit(s)
            case Syn => names == ["SYN"]
            case SynAck => names == ["SYN", "ACK"]
            case Ack => names == ["ACK"]
            case Fin => names == ["FIN", "ACK"]
  {
    hide SegmentPacket;
    SegmentPacketFields(config, BuilderSegment(Emit(s), config.initialSeq, 0));
    SentFlagsDecode();
  }
}
