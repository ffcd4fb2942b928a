/** The messaging provider the gateways talk to, abstracted. Connections,
    sessions, queues, messages, producers and consumers are opaque handles
    the provider issues; every call into the provider may fail, and which
    calls fail is not known in advance. Every call is recorded, with whether
    it succeeded, so that the gateways' contracts can say which calls they
    make and in what order. Message delivery itself is not modelled. */
module MessageBroker {
  import opened Wrappers

  /** An object of the provider's: a connection, session, destination,
      message, producer or consumer. */
  datatype Handle = Handle(id: nat)

  /** A call into the provider. */
  datatype Op =
    | OpenConnection
    | SetExceptionListener(connection: Handle)
    | CreateSession(connection: Handle)
    | StartConnection(connection: Handle)
    | CreateQueue(session: Handle, name: Option<string>)
    | CreateTemporaryQueue(session: Handle)
    | CreateTextMessage(session: Handle, text: Option<string>)
    | CreateProducer(session: Handle, destination: Option<Handle>)
    | CreateConsumer(session: Handle, destination: Option<Handle>)
    | SetReplyTo(message: Handle, replyTo: Handle)
    | Send(producer: Handle, message: Handle)
    | Receive(consumer: Handle, timeout: int)
    | GetText(message: Handle)
    | CloseProducer(producer: Handle)
    | CloseSession(session: Handle)
    | CloseConnection(connection: Handle)

  /** A call and whether it succeeded. */
  datatype Event = Event(op: Op, succeeded: bool)

  /** How many connections were asked for in `events`. */
  function Opens(events: seq<Event>): nat
  {
    if events == [] then 0
    else Opens(events[..|events| - 1]) + (if events[|events| - 1].op.OpenConnection? then 1 else 0)
  }

  /** Recording one more call adds one to the count exactly when it asks
      for a connection. */
  lemma OpensSnoc(events: seq<Event>, e: Event)
    ensures Opens(events + [e]) == Opens(events) + (if e.op.OpenConnection? then 1 else 0)
  {
    assert (events + [e])[..|events|] == events;
  }

  /** The last `|b|` calls of `a + b` are `b`. */
  lemma SuffixOfAppend(a: seq<Event>, b: seq<Event>)
    ensures (a + b)[|a + b| - |b|..] == b
  {
  }

  class Broker {
    /** How many handles have been issued; the next one is `Handle(issued)`,
        so a handle issued later differs from every earlier one. */
    var issued: nat
    /** Every call so far, in order. */
    var log: seq<Event>
    /** The text of a received message. */
    const textOf: Handle -> string

    constructor (textOf: Handle -> string)
      ensures issued == 0 && log == [] && this.textOf == textOf
    {
      issued := 0;
      log := [];
      this.textOf := textOf;
    }

    /** A call that yields nothing; it may fail. */
    method Perform(op: Op) returns (ok: bool)
      modifies this
      ensures log == old(log) + [Event(op, ok)]
      ensures issued == old(issued)
      ensures Opens(log) == Opens(old(log)) + (if op.OpenConnection? then 1 else 0)
    {
      ok :| true;
      OpensSnoc(log, Event(op, ok));
      log := log + [Event(op, ok)];
    }

    /** A call that yields a new object of the provider's; it may fail. */
    method Obtain(op: Op) returns (ok: bool, h: Handle)
      modifies this
      ensures log == old(log) + [Event(op, ok)]
      ensures ok ==> h == Handle(old(issued)) && issued == old(issued) + 1
      ensures !ok ==> issued == old(issued)
      ensures Opens(log) == Opens(old(log)) + (if op.OpenConnection? then 1 else 0)
    {
      ok :| true;
      h := Handle(issued);
      if ok {
        issued := issued + 1;
      }
      OpensSnoc(log, Event(op, ok));
      log := log + [Event(op, ok)];
    }

    /** `consumer.receive(timeout)`: fails, or times out with no message,
        or yields a new message. */
    method ReceiveOn(consumer: Handle, timeout: int) returns (ok: bool, response: Option<Handle>)
      modifies this
      ensures log == old(log) + [Event(Receive(consumer, timeout), ok)]
      ensures !ok ==> response.None?
      ensures response.Some? ==> response.value == Handle(old(issued)) && issued == old(issued) + 1
      ensures response.None? ==> issued == old(issued)
      ensures Opens(log) == Opens(old(log))
    {
      ok :| true;
      var arrived: bool :| true;
      response := None;
      if ok && arrived {
        response := Some(Handle(issued));
        issued := issued + 1;
      }
      OpensSnoc(log, Event(Receive(consumer, timeout), ok));
      log := log + [Event(Receive(consumer, timeout), ok)];
    }

    /** `message.getText()` on a received message; it may fail. */
    method TextOf(message: Handle) returns (ok: bool, text: string)
      modifies this
      ensures log == old(log) + [Event(GetText(message), ok)]
      ensures issued == old(issued)
      ensures text == textOf(message)
      ensures Opens(log) == Opens(old(log))
    {
      ok :| true;
      text := textOf(message);
      OpensSnoc(log, Event(GetText(message), ok));
      log := log + [Event(GetText(message), ok)];
    }
  }
}
