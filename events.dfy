/** `EventManager`: for each event type, the list of handlers subscribed to
    it. A handler is known here only by its identity (`H`), which is all that
    `in` and `remove` on the handler lists use. */
module Events {
  import opened Lists

  datatype EventType = PacketSent | PacketReceived | StateChanged | ErrorOccurred

  /** An event: its type and an arbitrary payload. */
  datatype Event<D> = Event(eventType: EventType, data: D)

  class EventManager<H(==)> {
    var handlers: map<EventType, seq<H>>

    /** Every event type has a list, and no list names a handler twice. */
    ghost predicate Valid()
      reads this
    {
      forall t: EventType :: t in handlers && NoDup(handlers[t])
    }

    /** Starts with an empty list for every event type. */
    constructor()
      ensures Valid()
      ensures forall t: EventType :: t in handlers && handlers[t] == []
    {
      handlers := map[PacketSent := [], PacketReceived := [], StateChanged := [], ErrorOccurred := []];
      new;
      forall t: EventType ensures t in handlers && NoDup(handlers[t]) {
        match t
        case PacketSent =>
        case PacketReceived =>
        case StateChanged =>
        case ErrorOccurred =>
      }
    }

    /** Appends the handler to the type's list unless it is already there;
        the other types' lists are untouched. */
    method Subscribe(t: EventType, handler: H)
      requires Valid()
      modifies this
      ensures Valid()
      ensures handlers == old(handlers)[t := if handler in old(handlers[t]) then old(handlers[t])
                                             else old(handlers[t]) + [handler]]
    {
      if handler !in handlers[t] {
        AppendAbsentNoDup(handlers[t], handler);
        handlers := handlers[t := handlers[t] + [handler]];
      }
    }

    /** Removes the handler from the type's list if it is there; the other
        handlers keep their order, and the other types' lists are untouched. */
    method Unsubscribe(t: EventType, handler: H)
      requires Valid()
      modifies this
      ensures Valid() && handler !in handlers[t]
      ensures handlers == old(handlers)[t := RemoveFirst(old(handlers[t]), handler)]
    {
      RemoveFirstNoDup(handlers[t], handler);
      if handler in handlers[t] {
        handlers := handlers[t := RemoveFirst(handlers[t], handler)];
      }
    }

    /** Calls the handlers subscribed to the event's type, in the order they
        subscribed, until one raises: `raises` tells which handlers raise.
        `called` lists the calls made; `raised` says whether the exception
        escaped, in which case it came from the last handler called and
        the handlers after it were never called. */
    method Emit<D>(event: Event<D>, raises: H -> bool) returns (called: seq<H>, raised: bool)
      requires Valid()
      ensures called <= handlers[event.eventType] && NoDup(called)
      ensures forall i :: 0 <= i < |called| - 1 ==> !raises(called[i])
      ensures !raised <==> called == handlers[event.eventType] && (forall h :: h in called ==> !raises(h))
      ensures raised ==> called != [] && raises(called[|called| - 1])
    {
      var list := handlers[event.eventType];
      called, raised := [], false;
      var i := 0;
      while i < |list| && !raised
        invariant 0 <= i <= |list|
        invariant called == list[..i]
        invariant !raised ==> forall j :: 0 <= j < i ==> !raises(list[j])
        invariant raised ==> 0 < i && raises(list[i - 1]) && forall j :: 0 <= j < i - 1 ==> !raises(list[j])
      {
        called := called + [list[i]];
        raised := raises(list[i]);
        i := i + 1;
      }
      if !raised {
        assert called == list;
      }
    }
  }
}
