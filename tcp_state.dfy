/** The seven connection states. Each state class has one `handle_packet`,
    which asks the simulation context for one kind of packet, and one
    `get_next_state`, which builds the successor state; neither looks at the
    packet it is given, and the states carry no data of their own, so each
    becomes a value of an enumeration. The names follow the connection states
    of section 3.3.2 of RFC 9293, but the successor never depends on the peer. */
module TcpState {

  datatype State = Closed | Listen | SynReceived | Established | FinWait1 | FinWait2 | TimeWait

  /** The `create_*_packet` method of the context that a state calls. */
  datatype Emission = Syn | SynAck | Ack | Fin

  /** `handle_packet`: the kind of packet the state sends. Every state sends
      one; only CLOSED opens with SYN and only LISTEN answers with SYN-ACK. */
  function Emit(s: State): (e: Emission)
    ensures e == Syn <==> s == Closed
    ensures e == SynAck <==> s == Listen
    ensures e == Ack <==> s in {SynReceived, FinWait1, TimeWait}
    ensures e == Fin <==> s in {Established, FinWait2}
  {
    match s
    case Closed => Syn
    case Listen => SynAck
    case SynReceived => Ack
    case Established => Fin
    case FinWait1 => Ack
    case FinWait2 => Fin
    case TimeWait => Ack
  }

  /** `get_next_state`: it moves one place along `Cycle`, wrapping from
      TIME_WAIT to CLOSED. */
  function Next(s: State): (t: State)
    ensures Index(t) == (Index(s) + 1) % 7
    ensures t == Cycle[(Index(s) + 1) % 7]
  {
    match s
    case Closed => Listen
    case Listen => SynReceived
    case SynReceived => Established
    case Established => FinWait1
    case FinWait1 => FinWait2
    case FinWait2 => TimeWait
    case TimeWait => Closed
  }

  /** The Python class name, which the simulation uses to describe a state;
      every one ends in `State`. */
  function ClassName(s: State): (name: string)
    ensures |name| > 5 && name[|name| - 5..] == "State"
  {
    match s
    case Closed => "ClosedState"
    case Listen => "ListenState"
    case SynReceived => "SynReceivedState"
    case Established => "EstablishedState"
    case FinWait1 => "FinWait1State"
    case FinWait2 => "FinWait2State"
    case TimeWait => "TimeWaitState"
  }

  /** The states in the order the simulation visits them from CLOSED. */
  const Cycle: seq<State> := [Closed, Listen, SynReceived, Established, FinWait1, FinWait2, TimeWait]

  /** A state's position in `Cycle`. */
  function Index(s: State): (i: nat)
    ensures i < |Cycle| && Cycle[i] == s
  {
    match s
    case Closed => 0
    case Listen => 1
    case SynReceived => 2
    case Established => 3
    case FinWait1 => 4
    case FinWait2 => 5
    case TimeWait => 6
  }

  /** `n` successive calls of `get_next_state`. */
  function Iterate(s: State, n: nat): State {
    if n == 0 then s else Next(Iterate(s, n - 1))
  }

  /** How many states the simulation loop handles when it starts in `s`: it
      stops as soon as it reaches CLOSED again. */
  function StepsToClosed(s: State): (n: nat)
    ensures 1 <= n <= |Cycle|
  {
    |Cycle| - Index(s)
  }

  /** `n` transitions move `n` places along the cycle. */
  lemma {:induction false} IterateIndex(s: State, n: nat)
    ensures Index(Iterate(s, n)) == (Index(s) + n) % 7
  {
    if n > 0 {
      IterateIndex(s, n - 1);
    }
  }

  /** `get_next_state` is a permutation of the states made of one cycle of
      length seven: a state recurs after exactly the multiples of seven
      transitions. */
  lemma IterateReturns(s: State, n: nat)
    ensures Iterate(s, n) == s <==> n % 7 == 0
  {
    IterateIndex(s, n);
    assert Iterate(s, n) == Cycle[Index(Iterate(s, n))];
  }

  /** Every state is reached from every other, so the cycle is the only one. */
  lemma {:induction false} SingleCycle(s: State, t: State)
    ensures Iterate(s, (Index(t) - Index(s)) % 7) == t
  {
    var n := (Index(t) - Index(s)) % 7;
    IterateIndex(s, n);
    assert Iterate(s, n) == Cycle[Index(Iterate(s, n))];
  }

  /** From CLOSED the transitions visit the states in the order of `Cycle`
      and come back to CLOSED after seven, and not before. */
  lemma ClosedOrbit()
    ensures forall i :: 0 <= i < |Cycle| ==> Iterate(Closed, i) == Cycle[i]
    ensures Iterate(Closed, 7) == Closed
    ensures forall n :: 0 < n < 7 ==> Iterate(Closed, n) != Closed
  {
    forall i | 0 <= i < |Cycle| ensures Iterate(Closed, i) == Cycle[i] {
      IterateIndex(Closed, i);
      assert Iterate(Closed, i) == Cycle[Index(Iterate(Closed, i))];
    }
    forall n | 0 < n < 7 ensures Iterate(Closed, n) != Closed {
      IterateReturns(Closed, n);
    }
  }

  /** Started in any state, the loop reaches CLOSED after `StepsToClosed`
      transitions and passes no CLOSED state before. */
  lemma ReachesClosed(s: State, j: nat)
    requires 0 < j <= StepsToClosed(s)
    ensures Iterate(s, j) == Closed <==> j == StepsToClosed(s)
  {
    IterateIndex(s, j);
    assert Iterate(s, j) == Cycle[Index(Iterate(s, j))];
  }

  /** The class names tell the states apart. */
  lemma ClassNamesDistinct(s: State, t: State)
    ensures ClassName(s) == ClassName(t) <==> s == t
  {
  }
}
