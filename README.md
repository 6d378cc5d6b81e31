# TCP handshake simulator: a Dafny model

The simulator is a teaching tool. It walks a fixed TCP connection script:
the three-way handshake (SYN, SYN-ACK, ACK), then the four-way teardown
(FIN, ACK, FIN, ACK). It builds each packet with scapy, sends it, sniffs at
most one response, keeps what it sent and captured, and can write the
capture to a pcap file. The state names follow section 3.3.2 of RFC 9293.
The transitions do not react to the peer: every state emits one packet
kind and names one successor.

The repository holds two drivers. This model keeps them apart:

- **The package variant** (`tcp_simulation/core/tcp_simulation.py`). Its
  `TCPSimulation` is a `Subject` with three observers: logging, capture and
  analysis. Its `run` loop walks the seven-state cycle
  (`tcp_simulation/core/tcp_state.py`) from CLOSED back to CLOSED. It has
  four packet builders, so every teardown packet reuses the numbers
  (seq0+1, seq0+2).
- **The stand-alone script** (`tcp_simulation.py`). Its `TCPSimulation`
  keeps a `captured_packets` list. Its two handshake methods send seven
  hand-numbered packets. In the teardown, the sequence numbers move on to
  seq0+2 and the last acknowledgment is seq0+3.

Around these sit:

- the observer classes and `Subject` (`observers.py`);
- the `EventManager` (`events.py`);
- the dependency `Container` (`container.py`);
- `PacketFactory.create_tcp_packet`;
- the control-bit decoder `PacketAnalyzer.analyze_tcp_packet`, which reads
  the bits of the header in section 3.1 of RFC 9293;
- the `DEFAULT_CONFIG` and `TCP_FLAGS` tables (`config.py`);
- the exception classes, `validate_port` and `handle_error`
  (`tcp_simulation/utils/error_handler.py`).

**How things are modelled.**

- **Packets** are values: `Packets.Packet` holds the IP source and
  destination, the TCP layer as scapy's field dictionary, and an optional
  `Raw` load. A field that was never set reads as scapy's default for
  `sport` (20), `dport` (80), `seq` and `ack` (0), `flags` (`S`), `window`
  (8192), `reserved` and `urgptr` (0). `dataofs` and `chksum`, whose
  default is None until the packet is built, read as 0.
- **The network** is a parameter `net: nat -> Exchange`. It gives the
  outcome of the `i`-th send-and-sniff:
  - `SendFailed`: scapy's `send` raised;
  - `Delivered(None)`: nothing was sniffed within the timeout;
  - `Delivered(Some(p))`: one packet was captured, since `count=1`.
- **Objects whose fields the source updates** are Dafny classes with
  `modifies` clauses: the observers, `Subject`, `EventManager`,
  `Container`, and both `TCPSimulation`s.
- **Loops** are methods with loop invariants, each proved against a
  specification function:
  - `run`;
  - `notify`;
  - `emit`;
  - the `setattr` loop of `create_tcp_packet`.
- **`analyze_tcp_packet`** has no loop: six guarded appends, one per
  control bit. `PacketAnalyzer.AnalyzeTcpPacket` keeps them as six
  guarded appends and asserts after each one that the list so far is
  the names of the bits tested so far.
- **Inheritance** is modelled by composition. The package's
  `TCPSimulation` holds its `Subject` instead of deriving from it. An
  attached observer is a tagged reference (`Observers.ObserverRef`), not a
  virtual call.

Files, one module each: `wrappers`, `lists`, `bits`, `packets`,
`packet_factory`, `tcp_state`, `network`, `observers`, `events`,
`container`, `packet_analyzer`, `config`, `error_handler`, `segments`
(the flags and numbers of a sent packet, shared by both drivers),
`simulation` (the package variant), `script_simulation` (the script) and
`variants` (the two drivers compared).

## Model

| member | source | states |
|---|---|---|
| TcpState.Next | tcp_simulation/core/tcp_state.py:33-94 | `get_next_state` moves one place along CLOSED, LISTEN, SYN_RECEIVED, ESTABLISHED, FIN_WAIT_1, FIN_WAIT_2, TIME_WAIT and wraps from TIME_WAIT to CLOSED |
| TcpState.IterateIndex | tcp_simulation/core/tcp_state.py:33-94 | `n` transitions move `n` places along the cycle, modulo 7 |
| TcpState.IterateReturns | tcp_simulation/core/tcp_state.py:33-94 | from any state, `n` transitions return to it exactly when `n` is a multiple of 7 |
| TcpState.SingleCycle | tcp_simulation/core/tcp_state.py:33-94 | every state is reached from every other, so the successor function is one cycle of length 7 |
| TcpState.ClosedOrbit | tcp_simulation/core/tcp_state.py:33-94 | from CLOSED the `i`-th state is the `i`-th of the cycle; CLOSED recurs after 7 transitions and after no fewer |
| TcpState.Emit | tcp_simulation/core/tcp_state.py:29-91 | `handle_packet`: CLOSED alone emits SYN and LISTEN alone emits SYN-ACK; SYN_RECEIVED, FIN_WAIT_1 and TIME_WAIT emit ACK; ESTABLISHED and FIN_WAIT_2 emit FIN; every state emits one |
| TcpState.ClassName | tcp_simulation/core/tcp_state.py:26-86 | the `__class__.__name__` of each state object; every one ends in `State` |
| TcpState.ClassNamesDistinct | tcp_simulation/core/tcp_simulation.py:100 | the class names that describe the sends are different for different states |
| TcpState.StepsToClosed | tcp_simulation/core/tcp_simulation.py:96-107 | from any state the loop handles between 1 and 7 states before CLOSED recurs |
| TcpState.ReachesClosed | tcp_simulation/core/tcp_simulation.py:103-107 | within that count, the state after the `j`-th pass is CLOSED exactly at the last pass |
| Simulation.TcpSimulation.constructor | tcp_simulation/core/tcp_simulation.py:17-37 | the fields copy the configuration, the acknowledgment number is 0, the state is CLOSED, and the logging, capture and analyzer observers are attached in that order with empty histories |
| Simulation.TcpSimulation.CreateSynPacket | tcp_simulation/core/tcp_simulation.py:39-45 | flags `S`, seq = initial seq, ack = 0 |
| Simulation.TcpSimulation.CreateSynAckPacket | tcp_simulation/core/tcp_simulation.py:47-53 | flags `SA`, seq = ack = initial seq + 1 |
| Simulation.TcpSimulation.CreateAckPacket | tcp_simulation/core/tcp_simulation.py:55-61 | flags `A`, seq = initial seq + 1, ack = initial seq + 2 |
| Simulation.TcpSimulation.CreateFinPacket | tcp_simulation/core/tcp_simulation.py:63-69 | flags `FA`, seq = initial seq + 1, ack = initial seq + 2 |
| Simulation.TcpSimulation.HandlePacket | tcp_simulation/core/tcp_state.py:29-91 | the state's `handle_packet` returns the packet of its builder whatever the incoming packet; it never returns None |
| Simulation.TcpSimulation.SendAndCapture | tcp_simulation/core/tcp_simulation.py:71-88 | a failed send notifies nobody; otherwise one `SEND_<description>` notification, then one `RECEIVE_<description>` if a response was captured; the capture observer gains exactly those packets and the analyzer one record per TCP packet among them |
| Simulation.TcpSimulation.HandleCurrentState | tcp_simulation/core/tcp_simulation.py:98-100 | the pass sends the current state's packet, described by the state's class name, with the histories extended as above |
| Simulation.TcpSimulation.Pass | tcp_simulation/core/tcp_simulation.py:96-107 | one loop pass keeps the run invariant; it reports a failed send, and the state becomes CLOSED exactly on the last pass of the cycle |
| Simulation.TcpSimulation.Run | tcp_simulation/core/tcp_simulation.py:90-112 | `run` ends in CLOSED after a full cycle, or stops at the first failed send. The three histories gain exactly the notifications, packets and records of the passes taken. The capture is written only after a full cycle with `save_pcap` set, and then it is the capture observer's list |
| Simulation.FailedPassAddsNothing | tcp_simulation/core/tcp_simulation.py:74-75 | a send that raises adds nothing to the notifications, the capture or the records |
| Simulation.TakenClosed | tcp_simulation/core/tcp_simulation.py:103-107 | after `k` delivered passes the state is CLOSED exactly when `k` is the cycle length, and then the loop has ended |
| Simulation.StepsAt | tcp_simulation/core/tcp_simulation.py:96-103 | the `i`-th pass handles the `i`-th state after the start, with the `i`-th network outcome |
| Simulation.AnnouncedPackets | tcp_simulation/core/tcp_simulation.py:74-86 | a pass notifies of the sent packet first and of the captured response second |
| Simulation.NotedPacketsAreLogged | tcp_simulation/core/observers.py:35-37 | over any passes, the capture observer holds exactly the packets of the notifications, in order |
| Simulation.RecordsFollowNotes | tcp_simulation/core/observers.py:49-62 | over any passes, the analyzer holds one record for each notification whose packet has a TCP layer, in order |
| Simulation.LogIsCaptureLog | tcp_simulation/core/tcp_simulation.py:74-86 | while every send goes out, the capture is each sent packet followed by its response, if any |
| Simulation.EndpointsUnchanged | tcp_simulation/core/tcp_simulation.py:39-69 | every packet the loop sends carries the configured addresses and ports |
| Simulation.TeardownReusesNumbers | tcp_simulation/core/tcp_simulation.py:55-69 | every state after LISTEN sends seq = initial seq + 1 and ack = initial seq + 2 |
| Simulation.CycleBuildsSegments | tcp_simulation/core/tcp_simulation.py:39-69 | the `i`-th state of the cycle builds (S, s0, 0), (SA, s0+1, s0+1), (A, s0+1, s0+2), (FA, s0+1, s0+2), (A, s0+1, s0+2), (FA, s0+1, s0+2), (A, s0+1, s0+2) in that order |
| Simulation.RunFromClosed | tcp_simulation/core/tcp_simulation.py:96-103 | from CLOSED the loop handles 7 states and its 7 sent packets are those segments, in order |
| Simulation.CompleteRunBounds | tcp_simulation/core/tcp_simulation.py:96-107 | when every send goes out, a run from CLOSED takes 7 passes; the capture holds 7 to 14 packets, one per notification, with each sent packet at its place in send order |
| Simulation.SentFlagsNamed | tcp_simulation/core/tcp_simulation.py:39-69 | the flags of each state's packet decode to SYN, SYN ACK, ACK, or FIN ACK, by the state's emission kind |
| ScriptSimulation.TcpSimulation.constructor | tcp_simulation.py:19-29 | `config or DEFAULT_CONFIG` is the configuration; the fields copy it; the capture is empty |
| ScriptSimulation.TcpSimulation.CreateTcpPacket | tcp_simulation.py:31-49 | an omitted seq or ack defaults to `self.seq` or `self.ack`; endpoints and flags are copied; a `Raw` load is attached exactly when the payload is truthy |
| ScriptSimulation.TcpSimulation.SendAndCapture | tcp_simulation.py:51-69 | a failed send keeps nothing; otherwise the sent packet, then at most one response, are appended and nothing earlier changes |
| ScriptSimulation.TcpSimulation.ThreeWayHandshake | tcp_simulation.py:71-87 | sends (S, s0, 0), (SA, s0+1, s0+1), (A, s0+1, s0+2) in order and stops at the first failed send; the capture gains exactly the exchanges completed |
| ScriptSimulation.TcpSimulation.FourWayHandshake | tcp_simulation.py:89-109 | sends (FA, s0+1, s0+2), (A, s0+2, s0+2), (FA, s0+2, s0+2), (A, s0+2, s0+3) in order, with the same stopping rule |
| ScriptSimulation.TcpSimulation.SaveCapturedPackets | tcp_simulation.py:111-117 | the capture is written exactly when `save_pcap` is set and the list is non-empty |
| ScriptSimulation.TcpSimulation.Session | tcp_simulation.py:164-174 | the handshake, then the teardown, then the save: the capture gains the exchanges of the whole seven-packet script up to the first failed send, and is written only when all seven went out |
| ScriptSimulation.ExchangedIsCaptureLog | tcp_simulation.py:55-66 | the capture of a script prefix is each sent packet followed by its response, if any |
| ScriptSimulation.SessionBounds | tcp_simulation.py:76-107 | when every send goes out, the capture holds 7 to 14 packets, with the seven scripted packets in script order |
| Variants.VariantsDiverge | tcp_simulation.py:94-106 | the two drivers send the same first four packets; the script then sends seq = s0+2 where the package sends s0+1, and ends with ack = s0+3 |
| Network.CaptureLogLength | tcp_simulation.py:55-66 | a capture of `n` sends holds `n` plus the number of responses, so between `n` and `2n` packets |
| Network.CaptureLogAppend | tcp_simulation.py:55-66 | captures of consecutive sends concatenate |
| Network.SentInOrder | tcp_simulation.py:55-66 | each sent packet sits in the capture at its place, and the sent packets appear in send order |
| Network.Completed | tcp_simulation.py:54-55 | a sequence of sends runs up to the first send that raises: all earlier sends went out |
| PacketFactory.CreateTcpPacket | tcp_simulation/core/packet_factory.py:11-60 | IP src/dst are the arguments; the TCP fields are the five arguments, except where an option overrides them; every option ends with its value; a load is present exactly when the payload is truthy; there is no rejecting branch |
| Packets.Stack | tcp_simulation/core/packet_factory.py:54-58 | `IP/TCP`, with a `Raw` layer exactly when the payload is truthy |
| Packets.TcpFields | tcp_simulation/core/packet_factory.py:40-46 | the TCP constructor sets the five fields sport, dport, flags, seq and ack |
| Observers.PacketCaptureObserver.constructor | tcp_simulation/core/observers.py:32-33 | the capture starts empty |
| Observers.PacketCaptureObserver.Update | tcp_simulation/core/observers.py:35-37 | the capture grows by the packet at its end; earlier entries are unchanged |
| Observers.PacketCaptureObserver.GetCapturedPackets | tcp_simulation/core/observers.py:39-41 | returns the capture as kept |
| Observers.RecordOf | tcp_simulation/core/observers.py:52-61 | the analysis record copies the event type and the packet's addresses, ports, numbers and flags |
| Observers.PacketAnalyzerObserver.constructor | tcp_simulation/core/observers.py:46-47 | the results start empty |
| Observers.PacketAnalyzerObserver.Update | tcp_simulation/core/observers.py:49-62 | a record is appended for a packet with a TCP layer and nothing otherwise |
| Observers.PacketAnalyzerObserver.GetAnalysisResults | tcp_simulation/core/observers.py:64-66 | returns the results as kept |
| Observers.Deliver | tcp_simulation/core/observers.py:86-87 | one `update` call on an attached observer, dispatched on its class |
| Observers.Subject.constructor | tcp_simulation/core/observers.py:71-72 | no observers are attached |
| Observers.Subject.Attach | tcp_simulation/core/observers.py:74-77 | appends an observer that is not attached and leaves the list unchanged otherwise; the list never holds duplicates |
| Observers.Subject.Detach | tcp_simulation/core/observers.py:79-82 | removes an attached observer and keeps the others in order; an absent one changes nothing |
| Observers.Subject.Notify | tcp_simulation/core/observers.py:84-87 | every attached observer is updated exactly once, in attachment order; each capture observer gains the packet and each analyzer its record |
| Lists.RemoveFirst | tcp_simulation/core/observers.py:81-82 | `list.remove` guarded by `in`: an absent element leaves the list unchanged; a present one makes it one shorter, and only that element can go |
| Lists.RemoveFirstCutsOneIndex | tcp_simulation/core/observers.py:82 | `list.remove` deletes the first occurrence and keeps the other elements in their order |
| Lists.RemoveFirstNoDup | tcp_simulation/core/events.py:35-36 | on a list without duplicates, removal keeps it free of duplicates and removes the element completely |
| Lists.AppendAbsentNoDup | tcp_simulation/core/observers.py:76-77 | appending only an absent element keeps the list free of duplicates |
| Events.EventManager.constructor | tcp_simulation/core/events.py:23-26 | every event type starts with an empty handler list |
| Events.EventManager.Subscribe | tcp_simulation/core/events.py:28-31 | appends a new handler to its type's list and ignores a repeat; the other types' lists are unchanged; no list holds duplicates |
| Events.EventManager.Unsubscribe | tcp_simulation/core/events.py:33-36 | removes the handler from its type's list if present, with no effect otherwise; the other types' lists are unchanged |
| Events.EventManager.Emit | tcp_simulation/core/events.py:38-41 | calls the handlers subscribed to the event's type, each at most once, in subscription order, up to and including the first that raises; the exception escapes exactly when some subscribed handler raises, and otherwise every subscribed handler was called |
| Container.Container.constructor | tcp_simulation/core/container.py:9-10 | no services are registered |
| Container.Container.Register | tcp_simulation/core/container.py:12-14 | `resolve` of the key then returns the new service, replacing any earlier one; no other key's lookup changes |
| Container.Container.Resolve | tcp_simulation/core/container.py:16-20 | the registered service, or a `KeyError` naming the interface exactly when none is registered |
| Container.Container.GetPacketFactory | tcp_simulation/core/container.py:22-24 | `resolve` on the packet-factory interface |
| Container.Container.GetTcpState | tcp_simulation/core/container.py:26-28 | `resolve` on the TCP-state interface |
| Container.Container.GetLogger | tcp_simulation/core/container.py:35-37 | `resolve` on the logger interface |
| Container.ObserverPositions | tcp_simulation/core/container.py:32-33 | the positions of the observer-valued keys in registration order: all of them, each once, increasing |
| Container.Container.GetObservers | tcp_simulation/core/container.py:30-33 | one entry per observer-valued key, in registration order (the order `_services.values()` walks), and nothing else: the `j`-th entry is the service of the `j`-th observer position |
| PacketAnalyzer.TestedBits | utils/packet_analyzer.py:19-30 | the six tests are the masks 0x01 to 0x20, bit by bit |
| PacketAnalyzer.FlagNamesSpec | utils/packet_analyzer.py:18-30 | a name is listed exactly when its bit is set; names appear in the order FIN, SYN, RST, PSH, ACK, URG, without duplicates |
| PacketAnalyzer.FlagNamesCount | utils/packet_analyzer.py:18-30 | the list is as long as the number of set bits among the six lowest |
| PacketAnalyzer.HighBitsIgnored | utils/packet_analyzer.py:19-30 | bits above 0x20 do not change the names |
| PacketAnalyzer.AnalyzeTcpPacket | utils/packet_analyzer.py:11-51 | None exactly for a packet without a TCP layer; otherwise the addresses, ports and numbers are copied and the flag list is the decoded names |
| PacketAnalyzer.SentFlagsDecode | utils/packet_analyzer.py:19-30 | the flag strings `S`, `SA`, `A` and `FA`, read as bits, decode to SYN, SYN ACK, ACK and FIN ACK |
| Config.FlagValuesAreBits | config.py:19-26 | `TCP_FLAGS` (`Config.TcpFlags`) names exactly the decoder's six flags, and the `i`-th in decoder order has the single bit `2^i` |
| Config.FlagValuesDistinct | config.py:19-26 | no two names of `TCP_FLAGS` share a value, and the values add up to 0x3F |
| Config.TableAgreesWithDecoder | config.py:19-26 | the decoder lists a name exactly when the table's bit for that name is set |
| Config.DefaultsAreValid | config.py:5-16 | `DEFAULT_CONFIG` (`Config.DefaultConfig`): the ports 12345 and 80 pass `validate_port`, the two addresses differ, the initial sequence number is 1000, the interface is chosen automatically and the capture is saved |
| ErrorHandler.ValidatePort | tcp_simulation/utils/error_handler.py:100-110 | a port is valid exactly when it fits the sixteen-bit port field and is not 0 |
| ErrorHandler.Message | tcp_simulation/utils/error_handler.py:36-44 | the four mapped classes report their table entry; every other class, the exception's own text |
| ErrorHandler.PortBoundaries | tcp_simulation/utils/error_handler.py:100-110 | a port is valid exactly when it lies in 1..65535: 0 and 65536 are rejected, 1 and 65535 are accepted |
| ErrorHandler.MappedClasses | tcp_simulation/utils/error_handler.py:36-41 | the message table holds exactly the four specific subclasses of the base exception |
| ErrorHandler.ExactTypeLookup | tcp_simulation/utils/error_handler.py:43-44 | each of the four mapped classes reports its fixed message; any other class reports the exception's text |
| ErrorHandler.SubclassFallsBack | tcp_simulation/utils/error_handler.py:43-44 | a subclass of a mapped class reports its own text, because the lookup is by exact class |
| ErrorHandler.HandleError | tcp_simulation/utils/error_handler.py:28-54 | with a logger: three log lines, the second carrying the message. Without one: two stderr lines, the first carrying the message. The exit status is always 1 |

## Left out

- The network is a parameter `net`. Left out: scapy's `send` and `sniff`, the sniff filter, the interface and the two-second timeout. All that remains of them is whether the send raised and whether one response came back.
- `time.sleep(packet_delay)` is left out, and `Config.Settings` has no `packet_delay` entry: the model assumes `packet_delay >= 0`. A negative delay (`--delay -1` passes the `if args.delay:` test at tcp_simulation.py:150-151) makes `time.sleep` raise `ValueError` at the end of the first `send_and_capture` (tcp_simulation.py:69, tcp_simulation/core/tcp_simulation.py:88), after the first SYN was sent and captured and, in the package, after its notifications; the run then stops without saving and `main` exits with status 1. A `sniff` that raises after a successful send (an unknown interface, a missing permission) stops the run in the same way, after the sent packet was kept and before any response. `Network.Exchange` has no outcome for either case: a send either raises before anything is kept or completes its whole exchange.
- `wrpcap` and `PacketAnalyzer.save_pcap` (utils/packet_analyzer.py:63-70) are modelled as the out-value `written`: the list that would be written, or `None`. The file name, file I/O and a failing write are not modelled.
- `PacketAnalyzer.capture_packets` (utils/packet_analyzer.py:53-61) is left out. It only wraps `sniff`.
- All logging is left out: every `logger.*` call and the output of `analyze_tcp_packet`. `LoggingObserver.update` is modelled as attached and called, with no effect.
- scapy's wire encoding is left out. A packet is the field dictionary of its TCP layer.
  - `PacketFactory.CreateTcpPacket` puts every option key into that dictionary. scapy's `setattr` (tcp_simulation/core/packet_factory.py:50-51) sets a TCP field only when the key names one; any other key becomes a plain attribute of the layer object, outside its fields.
  - Flag letters are read as scapy's letters `FSRPAUECN`. An unknown letter adds no bit; scapy itself would raise.
  - Sequence numbers are unbounded integers. The code does no 32-bit wrap-around.
- `Simulation.TcpSimulation.Run`: an exception from `send` ends the loop with `ok == false`. The re-raise and its log line are not modelled.
- `ScriptSimulation.TcpSimulation.Session`: a failed send ends the session with `ok == false`. `main` catches every exception and exits with status 1; that exit is not modelled.
- `main` is modelled only from the construction on. Left out: `parse_arguments`, the copying of the arguments into the configuration, the log-level setup, the root check of `__main__`, and the `KeyboardInterrupt` exit with status 0. The whole of `tcp_simulation/__main__.py` is left out too; it names classes it never imports.
- `check_requirements` and `validate_ip` (tcp_simulation/utils/error_handler.py:56-98) are left out. They only query the operating system and the `ipaddress` module.
- `ScriptSimulation.TcpSimulation.constructor`: a configuration dictionary with a missing key, which raises `KeyError`, is not modelled. The configuration is a record with every entry. `config or DEFAULT_CONFIG` is modelled as an optional record.
- `Simulation.TcpSimulation.constructor`: likewise, a configuration dictionary missing one of `src_ip`, `dst_ip`, `src_port`, `dst_port` or `initial_seq` raises `KeyError` at construction (tcp_simulation/core/tcp_simulation.py:21-25). One missing `interface` or `packet_delay` raises in the first `send_and_capture`, after the SEND notification (tcp_simulation/core/tcp_simulation.py:79, 88); one missing `save_pcap`, or `pcap_filename` when `save_pcap` is set, raises after the whole cycle (tcp_simulation/core/tcp_simulation.py:110, 112). The model takes a record with every entry, so none of these errors is modelled.
- `tcp_simulation/core/interfaces.py` and `tcp_simulation/config/settings.py` are not part of this model. They hold abstract signatures and plain records. The container's interfaces are a datatype, and "is an observer" is a predicate the caller supplies.
- The test files are not treated as contracts. They target another API: state names, a reactive RST branch and keyword constructors.
- `Observers.PacketAnalyzerObserver.Update` models the intended guard "has a TCP layer". As written, `observers.py` never imports `TCP`, so the guard raises `NameError` when evaluated. The analyzer is the third observer attached, so every package `run` raises at its first notification, right after the SYN is sent, logged and captured. `Simulation.TcpSimulation.Run` and the lemmas about complete cycles therefore describe the intended program, not the one as written.
- Inheritance is replaced by composition. The package's `TCPSimulation` holds a `Subject`. An observer is a tagged reference, and its `update` is chosen by its tag.
- The builder adds no check of its own: it does not look at the flag string or the payload, does not validate ports, and does not wrap sequence numbers modulo 2^32. An unknown flag letter, which scapy rejects when the TCP layer is built, is read as no bit (see the wire-encoding line above). So `PacketFactory.CreateTcpPacket` is total and the numbers are unbounded.
- The two drivers number the teardown differently: the package reuses (seq0+1, seq0+2) throughout, the script moves on to seq0+2 and seq0+3. Both are modelled; `Variants.VariantsDiverge` states where they differ.
- `Events.EventManager.Emit`: a handler is modelled only by whether it raises (`raises`). A handler that subscribes or unsubscribes while `emit` walks the live handler list, and so changes which handlers run, is not modelled; handlers are assumed not to touch the manager. Their other effects are not modelled either.
