/** `com.mindplex.commons.messaging.AbstractMessageGateway`: the connection
    lifecycle of a gateway to a messaging provider. The gateway holds a
    connection, a session and a default destination obtained from the
    provider, and a `closed` flag; `initialize` sets them up step by step and
    `close` tears them down. The provider is the abstract `Broker`. */
module AbstractMessaging {
  import opened Wrappers
  import opened JavaLang
  import Check
  import opened MessageBroker

  const INITIALIZE_FAILED: string := "Failed to initialize message gateway."
  const DESTINATION_FAILED: string := "Failed to get convert string destination to jms destination."
  const MESSAGE_FAILED: string := "Failed to create jms text message."
  const PRODUCER_FAILED: string := "Failed to create jms message producer."
  const CONSUMER_FAILED: string := "Failed to create jms message consumer."
  const PROVIDER_FAILED: string := "messaging provider connection failed."

  /** The lifecycle part of a gateway's state. */
  datatype Lifecycle = Lifecycle(connection: Option<Handle>, session: Option<Handle>, destination: Option<Handle>, closed: bool)

  /** The state `close()` leaves behind: closed and without a connection;
      the (closed) session and the destination are kept. */
  function Closing(st: Lifecycle): Lifecycle
  {
    st.(closed := true, connection := None)
  }

  /** Closing a closed gateway leaves it as it was. */
  lemma ClosingIsIdempotent(st: Lifecycle)
    ensures Closing(Closing(st)) == Closing(st)
    ensures Closing(st).closed && Closing(st).connection.None?
  {
  }

  /** The calls a successful `initialize()` makes after obtaining the
      connection `c`, in order: register the exception listener, create a
      session `s` and the default queue on it, start the connection. */
  function SetUpCalls(c: Handle, s: Handle, name: string): seq<Event>
  {
    [Event(SetExceptionListener(c), true), Event(CreateSession(c), true),
     Event(CreateQueue(s, Some(name)), true), Event(StartConnection(c), true)]
  }

  /** The calls a successful `initialize()` makes: get a connection, then
      set it up. */
  function InitializeCalls(c: Handle, s: Handle, name: string): seq<Event>
  {
    [Event(OpenConnection, true)] + SetUpCalls(c, s, name)
  }

  /** The calls `close()` makes when it starts from `session` and
      `connection`: close the session if there is one, and the connection if
      there is one and the session closed without error. */
  ghost predicate ClosingCalls(events: seq<Event>, session: Option<Handle>, connection: Option<Handle>)
  {
    if session.None? then events == []
    else if connection.Some? && |events| == 2 then
      events[0] == Event(CloseSession(session.value), true) && events[1].op == CloseConnection(connection.value)
    else
      |events| == 1 && events[0].op == CloseSession(session.value) && (connection.Some? ==> !events[0].succeeded)
  }

  /** The default exception-listener function: every failure the provider
      reports on the connection is raised again as a gateway failure. Being a
      function of the failure alone, it changes no gateway state. */
  function ExceptionListenerFunction(exception: string): (r: Outcome<Error>)
    ensures r.Fail? && r.error == GatewayFailure(PROVIDER_FAILED)
  {
    Fail(GatewayFailure(PROVIDER_FAILED))
  }

  class AbstractMessageGateway {
    const broker: Broker
    const destinationName: string
    var connection: Option<Handle>
    var session: Option<Handle>
    var destination: Option<Handle>
    var closed: bool

    ghost function State(): Lifecycle
      reads this
    {
      Lifecycle(connection, session, destination, closed)
    }

    /** Connected, with a session and a default destination, and open. */
    ghost predicate Live()
      reads this
    {
      connection.Some? && session.Some? && destination.Some? && !closed
    }

    /** The fields before `initialize` runs: nothing obtained yet, and
        `closed` starts out true. */
    constructor (destinationName: string, broker: Broker)
      ensures this.destinationName == destinationName && this.broker == broker
      ensures State() == Lifecycle(None, None, None, true)
    {
      this.destinationName := destinationName;
      this.broker := broker;
      connection := None;
      session := None;
      destination := None;
      closed := true;
    }

    /** The constructor: a null or empty destination name is rejected before
        the provider is called at all; otherwise the gateway is initialized,
        and a failure to initialize is a failure to construct. */
    static method Create(destinationName: Option<string>, broker: Broker) returns (r: Result<AbstractMessageGateway, Error>)
      modifies broker
      ensures Check.NotEmpty(destinationName).Failure? ==>
                r == Failure(IllegalArgument(None)) && broker.log == old(broker.log) && broker.issued == old(broker.issued)
      ensures Check.NotEmpty(destinationName).Success? && r.Failure? ==> r.error == IllegalState(INITIALIZE_FAILED)
      ensures r.Success? ==> fresh(r.value) && r.value.broker == broker && r.value.destinationName == destinationName.value
      ensures r.Success? ==> r.value.Live()
      ensures r.Success? ==>
                r.value.State() == Lifecycle(Some(Handle(old(broker.issued))), Some(Handle(old(broker.issued) + 1)), Some(Handle(old(broker.issued) + 2)), false)
      ensures r.Success? ==>
                broker.log == old(broker.log) + InitializeCalls(Handle(old(broker.issued)), Handle(old(broker.issued) + 1), destinationName.value)
      ensures r.Success? ==> broker.issued == old(broker.issued) + 3
      ensures old(broker.log) <= broker.log
      ensures Opens(broker.log) <= Opens(old(broker.log)) + 1
    {
      var name := Check.NotEmpty(destinationName);
      if name.Failure? {
        return Failure(name.error);
      }
      var g := new AbstractMessageGateway(name.value, broker);
      var o := g.Initialize();
      if o.Fail? {
        return Failure(o.error);
      }
      return Success(g);
    }

    /** `initialize()`. The connection is stored as soon as it is obtained,
        so a failure in a later step leaves it set; a failure in any step is
        reported as one IllegalState and leaves `closed` as it was. Exactly
        one connection is asked for. */
    method Initialize() returns (o: Outcome<Error>)
      modifies this, broker
      ensures o.Fail? ==> o.error == IllegalState(INITIALIZE_FAILED) && closed == old(closed)
      ensures o == Pass ==> Live()
      ensures o == Pass ==>
                State() == Lifecycle(Some(Handle(old(broker.issued))), Some(Handle(old(broker.issued) + 1)), Some(Handle(old(broker.issued) + 2)), false)
      ensures o == Pass ==>
                broker.log == old(broker.log) + InitializeCalls(Handle(old(broker.issued)), Handle(old(broker.issued) + 1), destinationName)
      ensures |broker.log| > |old(broker.log)| && broker.log[|old(broker.log)|].op == OpenConnection
      ensures broker.log[|old(broker.log)|].succeeded ==> connection == Some(Handle(old(broker.issued)))
      ensures !broker.log[|old(broker.log)|].succeeded ==> o.Fail? && State() == old(State()) && broker.log == old(broker.log) + [Event(OpenConnection, false)]
      ensures o == Pass ==> broker.issued == old(broker.issued) + 3
      ensures old(broker.log) <= broker.log
      ensures Opens(broker.log) == Opens(old(broker.log)) + 1
      ensures broker.issued >= old(broker.issued)
    {
      var ok, c := broker.Obtain(OpenConnection);
      if !ok {
        return Fail(IllegalState(INITIALIZE_FAILED));
      }
      connection := Some(c);
      ghost var log1 := broker.log;
      ok := SetUp(c);
      if !ok {
        return Fail(IllegalState(INITIALIZE_FAILED));
      }
      closed := false;
      assert broker.log == log1 + SetUpCalls(c, session.value, destinationName);
      return Pass;
    }

    /** The steps of `initialize()` after the connection `c` is obtained:
        each result is stored as soon as it is obtained. */
    method SetUp(c: Handle) returns (ok: bool)
      modifies this, broker
      ensures connection == old(connection) && closed == old(closed)
      ensures ok ==> session == Some(Handle(old(broker.issued))) && destination == Some(Handle(old(broker.issued) + 1))
      ensures ok ==> broker.log == old(broker.log) + SetUpCalls(c, Handle(old(broker.issued)), destinationName)
      ensures ok ==> broker.issued == old(broker.issued) + 2
      ensures |broker.log| > |old(broker.log)| && old(broker.log) <= broker.log
      ensures Opens(broker.log) == Opens(old(broker.log))
      ensures broker.issued >= old(broker.issued)
    {
      ghost var log0 := broker.log;
      ok := broker.Perform(SetExceptionListener(c));
      if !ok {
        return;
      }
      var s;
      ok, s := broker.Obtain(CreateSession(c));
      if !ok {
        return;
      }
      session := Some(s);
      assert broker.log == log0 + [Event(SetExceptionListener(c), true), Event(CreateSession(c), true)];
      var d;
      ok, d := broker.Obtain(CreateQueue(s, Some(destinationName)));
      if !ok {
        return;
      }
      destination := Some(d);
      assert broker.log == log0 + SetUpCalls(c, s, destinationName)[..3];
      ok := broker.Perform(StartConnection(c));
      assert ok ==> broker.log == log0 + SetUpCalls(c, s, destinationName);
    }

    /** `createDestination(name)`: a queue on the current session. Without a
        session, or when the provider fails, an IllegalState. */
    method CreateDestination(name: Option<string>) returns (r: Result<Handle, Error>)
      modifies broker
      ensures session.None? ==> r == Failure(IllegalState(DESTINATION_FAILED)) && broker.log == old(broker.log)
      ensures session.Some? ==> broker.log == old(broker.log) + [Event(CreateQueue(session.value, name), r.Success?)]
      ensures r.Failure? ==> r.error == IllegalState(DESTINATION_FAILED) && broker.issued == old(broker.issued)
      ensures r.Success? ==> r.value == Handle(old(broker.issued)) && broker.issued == old(broker.issued) + 1
      ensures Opens(broker.log) == Opens(old(broker.log))
    {
      if session.None? {
        return Failure(IllegalState(DESTINATION_FAILED));
      }
      var ok, q := broker.Obtain(CreateQueue(session.value, name));
      if !ok {
        return Failure(IllegalState(DESTINATION_FAILED));
      }
      return Success(q);
    }

    /** `createMessage(text)`: a text message from the current session; the
        no-argument `createMessage()` is `CreateMessage(None)`. */
    method CreateMessage(text: Option<string>) returns (r: Result<Handle, Error>)
      modifies broker
      ensures session.None? ==> r == Failure(IllegalState(MESSAGE_FAILED)) && broker.log == old(broker.log)
      ensures session.Some? ==> broker.log == old(broker.log) + [Event(CreateTextMessage(session.value, text), r.Success?)]
      ensures r.Failure? ==> r.error == IllegalState(MESSAGE_FAILED) && broker.issued == old(broker.issued)
      ensures r.Success? ==> r.value == Handle(old(broker.issued)) && broker.issued == old(broker.issued) + 1
      ensures Opens(broker.log) == Opens(old(broker.log))
    {
      if session.None? {
        return Failure(IllegalState(MESSAGE_FAILED));
      }
      var ok, m := broker.Obtain(CreateTextMessage(session.value, text));
      if !ok {
        return Failure(IllegalState(MESSAGE_FAILED));
      }
      return Success(m);
    }

    /** `createProducer(destination)`: a producer on the current session;
        the no-argument `createProducer()` passes the default destination. */
    method CreateProducer(target: Option<Handle>) returns (r: Result<Handle, Error>)
      modifies broker
      ensures session.None? ==> r == Failure(IllegalState(PRODUCER_FAILED)) && broker.log == old(broker.log)
      ensures session.Some? ==> broker.log == old(broker.log) + [Event(Op.CreateProducer(session.value, target), r.Success?)]
      ensures r.Failure? ==> r.error == IllegalState(PRODUCER_FAILED) && broker.issued == old(broker.issued)
      ensures r.Success? ==> r.value == Handle(old(broker.issued)) && broker.issued == old(broker.issued) + 1
      ensures Opens(broker.log) == Opens(old(broker.log))
    {
      if session.None? {
        return Failure(IllegalState(PRODUCER_FAILED));
      }
      var ok, p := broker.Obtain(Op.CreateProducer(session.value, target));
      if !ok {
        return Failure(IllegalState(PRODUCER_FAILED));
      }
      return Success(p);
    }

    /** `createConsumer(destination)`: a consumer on the current session;
        the no-argument `createConsumer()` passes the default destination. */
    method CreateConsumer(target: Option<Handle>) returns (r: Result<Handle, Error>)
      modifies broker
      ensures session.None? ==> r == Failure(IllegalState(CONSUMER_FAILED)) && broker.log == old(broker.log)
      ensures session.Some? ==> broker.log == old(broker.log) + [Event(Op.CreateConsumer(session.value, target), r.Success?)]
      ensures r.Failure? ==> r.error == IllegalState(CONSUMER_FAILED) && broker.issued == old(broker.issued)
      ensures r.Success? ==> r.value == Handle(old(broker.issued)) && broker.issued == old(broker.issued) + 1
      ensures Opens(broker.log) == Opens(old(broker.log))
    {
      if session.None? {
        return Failure(IllegalState(CONSUMER_FAILED));
      }
      var ok, c := broker.Obtain(Op.CreateConsumer(session.value, target));
      if !ok {
        return Failure(IllegalState(CONSUMER_FAILED));
      }
      return Success(c);
    }

    /** `close()`: always ends closed and without a connection, and never
        fails; a failure to close the session is swallowed and skips closing
        the connection. */
    method Close()
      modifies this, broker
      ensures State() == Closing(old(State()))
      ensures old(broker.log) <= broker.log
      ensures ClosingCalls(broker.log[|old(broker.log)|..], old(session), old(connection))
      ensures broker.issued == old(broker.issued)
      ensures Opens(broker.log) == Opens(old(broker.log))
    {
      closed := true;
      if session.Some? {
        var ok := broker.Perform(CloseSession(session.value));
        if ok && connection.Some? {
          ok := broker.Perform(CloseConnection(connection.value));
        }
      }
      connection := None;
    }

    /** `destroy()`: its guard on `closed` has an empty body, so it is
        `close()` whatever the state. */
    method Destroy()
      modifies this, broker
      ensures State() == Closing(old(State()))
      ensures old(broker.log) <= broker.log
      ensures ClosingCalls(broker.log[|old(broker.log)|..], old(session), old(connection))
      ensures broker.issued == old(broker.issued)
      ensures Opens(broker.log) == Opens(old(broker.log))
    {
      Close();
    }

    /** `isConnectionValid()`: a connection is held. */
    method IsConnectionValid() returns (b: bool)
      ensures b <==> connection.Some?
    {
      return connection.Some?;
    }

    /** `isClosed()`. */
    method IsClosed() returns (b: bool)
      ensures b == closed
    {
      return closed;
    }
  }
}
