/** `com.mindplex.commons.messaging.StandardMessageGateway`: sending,
    request/reply and receiving over an `AbstractMessageGateway`, with a
    default producer and a producer for rejected messages. Every messaging
    operation first checks that the connection is alive, re-initializing
    once if it is not, and on any failure destroys the connection and
    raises an IllegalState. The subclass is modelled by composition: a
    `StandardMessageGateway` holds its `AbstractMessageGateway` part. */
module StandardMessaging {
  import opened Wrappers
  import opened JavaLang
  import Check
  import opened MessageBroker
  import opened AbstractMessaging

  const SEND_FAILED: string := "Failed to send message."
  const SEND_INVALID_FAILED: string := "Failed to send invalid message."
  const LISTEN_FAILED: string := "Failed to listen."
  const REQUEST_FAILED: string := "Failed to complete request/reply."
  const RESET_FAILED: string := "Failed to reset MessageProducer"

  /** The calls that post a request on session `s`, in order: a new
      temporary queue `q` is set as the message's reply-to, then a one-shot
      producer `Handle(q.id + 1)` for `destination` sends the message once
      and is closed. */
  function PostCalls(s: Handle, message: Handle, q: Handle, destination: Option<Handle>): seq<Event>
  {
    [Event(CreateTemporaryQueue(s), true), Event(SetReplyTo(message, q), true),
     Event(Op.CreateProducer(s, destination), true), Event(Op.Send(Handle(q.id + 1), message), true),
     Event(CloseProducer(Handle(q.id + 1)), true)]
  }

  /** The calls that listen on `destination` on session `s`: a consumer
      `c` for it, and one receive on `c`. */
  function ListenCalls(s: Handle, destination: Handle, c: Handle, timeout: int): seq<Event>
  {
    [Event(Op.CreateConsumer(s, Some(destination)), true), Event(Op.Receive(c, timeout), true)]
  }

  /** The calls of a request/reply that gets as far as the reply: post the
      request, then listen on its reply queue `q` with consumer
      `Handle(q.id + 2)`. */
  function RequestCalls(s: Handle, message: Handle, q: Handle, destination: Option<Handle>, timeout: int): seq<Event>
  {
    PostCalls(s, message, q, destination) + ListenCalls(s, q, Handle(q.id + 2), timeout)
  }

  /** `log` ends with the calls of a one-shot send on session `s`: a
      producer for `destination` (the last handle issued), one send of
      `message` on it, and its close. */
  ghost predicate SentOnce(log: seq<Event>, issued: nat, s: Handle, destination: Handle, message: Handle)
  {
    |log| >= 3 && issued > 0
    && log[|log| - 3..] == [Event(Op.CreateProducer(s, Some(destination)), true),
                            Event(Op.Send(Handle(issued - 1), message), true),
                            Event(CloseProducer(Handle(issued - 1)), true)]
  }

  /** `log` ends with the calls of one listen on `destination` on session
      `s`, and `answer` is its outcome: `None` when nothing arrived within
      the timeout, otherwise the text of the message received. `issued` is
      the provider's count after the listen. */
  ghost predicate Listened(log: seq<Event>, issued: nat, textOf: Handle -> string,
                           s: Handle, destination: Handle, timeout: int, answer: Option<string>)
  {
    if answer.None? then
      |log| >= 2 && issued > 0 && log[|log| - 2..] == ListenCalls(s, destination, Handle(issued - 1), timeout)
    else
      |log| >= 3 && issued > 1
      && log[|log| - 3..] == ListenCalls(s, destination, Handle(issued - 2), timeout) + [Event(GetText(Handle(issued - 1)), true)]
      && answer.value == textOf(Handle(issued - 1))
  }

  /** `log` ends with the calls of one request/reply on session `s` over
      reply queue `q`, and `answer` is its outcome, as for `Listened`. */
  ghost predicate Requested(log: seq<Event>, textOf: Handle -> string,
                            s: Handle, message: Handle, q: Handle, destination: Option<Handle>, timeout: int, answer: Option<string>)
  {
    if answer.None? then
      |log| >= 7 && log[|log| - 7..] == RequestCalls(s, message, q, destination, timeout)
    else
      |log| >= 8 && log[|log| - 8..] == RequestCalls(s, message, q, destination, timeout) + [Event(GetText(Handle(q.id + 3)), true)]
      && answer.value == textOf(Handle(q.id + 3))
  }

  /** Listening with consumer `Handle(i)`, and reading the answer from
      `Handle(i + 1)` when one arrives, leaves the calls of one listen at
      the end of the log. */
  lemma ListenedAfter(before: seq<Event>, i: nat, textOf: Handle -> string,
                      s: Handle, destination: Handle, timeout: int, answer: Option<string>)
    requires answer.Some? ==> answer.value == textOf(Handle(i + 1))
    ensures answer.None? ==>
              Listened(before + ListenCalls(s, destination, Handle(i), timeout), i + 1, textOf, s, destination, timeout, answer)
    ensures answer.Some? ==>
              Listened(before + (ListenCalls(s, destination, Handle(i), timeout) + [Event(GetText(Handle(i + 1)), true)]),
                       i + 2, textOf, s, destination, timeout, answer)
  {
    var calls := ListenCalls(s, destination, Handle(i), timeout);
    if answer.None? {
      SuffixOfAppend(before, calls);
    } else {
      SuffixOfAppend(before, calls + [Event(GetText(Handle(i + 1)), true)]);
    }
  }

  /** Posting a request and then listening on its reply queue leaves the
      calls of one request/reply at the end of the log. */
  lemma RequestedAfter(before: seq<Event>, textOf: Handle -> string,
                       s: Handle, message: Handle, q: Handle, destination: Option<Handle>, timeout: int, answer: Option<string>)
    requires answer.Some? ==> answer.value == textOf(Handle(q.id + 3))
    ensures answer.None? ==>
              Requested(before + PostCalls(s, message, q, destination) + ListenCalls(s, q, Handle(q.id + 2), timeout),
                        textOf, s, message, q, destination, timeout, answer)
    ensures answer.Some? ==>
              Requested(before + PostCalls(s, message, q, destination)
                          + (ListenCalls(s, q, Handle(q.id + 2), timeout) + [Event(GetText(Handle(q.id + 3)), true)]),
                        textOf, s, message, q, destination, timeout, answer)
  {
    var post := PostCalls(s, message, q, destination);
    var listen := ListenCalls(s, q, Handle(q.id + 2), timeout);
    var calls := RequestCalls(s, message, q, destination, timeout);
    if answer.None? {
      assert before + post + listen == before + calls;
      SuffixOfAppend(before, calls);
    } else {
      var text := [Event(GetText(Handle(q.id + 3)), true)];
      assert before + post + (listen + text) == before + (calls + text);
      SuffixOfAppend(before, calls + text);
    }
  }

  class StandardMessageGateway {
    const base: AbstractMessageGateway
    var producer: Option<Handle>
    var invalidMessageProducer: Option<Handle>

    constructor (base: AbstractMessageGateway, producer: Handle, invalidMessageProducer: Handle)
      ensures this.base == base && this.producer == Some(producer) && this.invalidMessageProducer == Some(invalidMessageProducer)
    {
      this.base := base;
      this.producer := Some(producer);
      this.invalidMessageProducer := Some(invalidMessageProducer);
    }

    /** What a failed operation leaves behind: closed, without a
        connection. */
    ghost predicate Destroyed()
      reads this, base
    {
      base.closed && base.connection.None?
    }

    /** `of(destination)`: the gateway for the default destination, with a
        default producer and a producer on the invalid-message channel
        `invalidChannel`. */
    static method Of(destination: Option<string>, invalidChannel: Option<string>, broker: Broker)
      returns (r: Result<StandardMessageGateway, Error>)
      modifies broker
      ensures Check.NotEmpty(destination).Failure? ==>
                r == Failure(IllegalArgument(None)) && broker.log == old(broker.log) && broker.issued == old(broker.issued)
      ensures Check.NotEmpty(destination).Success? && r.Failure? ==>
                r.error in {IllegalState(INITIALIZE_FAILED), IllegalState(PRODUCER_FAILED), IllegalState(DESTINATION_FAILED)}
      ensures r.Success? ==> fresh(r.value) && fresh(r.value.base) && r.value.base.broker == broker
      ensures r.Success? ==> r.value.base.destinationName == destination.value && r.value.base.Live()
      ensures r.Success? ==> r.value.producer == Some(Handle(old(broker.issued) + 3))
      ensures r.Success? ==> r.value.invalidMessageProducer == Some(Handle(old(broker.issued) + 5))
      ensures r.Success? ==>
                broker.log == old(broker.log)
                  + InitializeCalls(Handle(old(broker.issued)), Handle(old(broker.issued) + 1), destination.value)
                  + [Event(Op.CreateProducer(Handle(old(broker.issued) + 1), Some(Handle(old(broker.issued) + 2))), true),
                     Event(CreateQueue(Handle(old(broker.issued) + 1), invalidChannel), true),
                     Event(Op.CreateProducer(Handle(old(broker.issued) + 1), Some(Handle(old(broker.issued) + 4))), true)]
      ensures Opens(broker.log) <= Opens(old(broker.log)) + 1
    {
      var created := AbstractMessageGateway.Create(destination, broker);
      if created.Failure? {
        return Failure(created.error);
      }
      var base := created.value;
      var p := base.CreateProducer(base.destination);
      if p.Failure? {
        return Failure(p.error);
      }
      var channel := base.CreateDestination(invalidChannel);
      if channel.Failure? {
        return Failure(channel.error);
      }
      var ip := base.CreateProducer(Some(channel.value));
      if ip.Failure? {
        return Failure(ip.error);
      }
      var g := new StandardMessageGateway(base, p.value, ip.value);
      return Success(g);
    }

    /** `resetProducer()`: a new default producer from the current session;
        the invalid-message producer is kept. */
    method ResetProducer() returns (o: Outcome<Error>)
      modifies this, base.broker
      ensures invalidMessageProducer == old(invalidMessageProducer)
      ensures old(base.broker.log) <= base.broker.log
      ensures o == Pass ==> producer == Some(Handle(old(base.broker.issued)))
      ensures o.Fail? ==> o.error == IllegalState(RESET_FAILED) && producer == old(producer)
      ensures base.session.None? ==> o.Fail? && base.broker.log == old(base.broker.log)
      ensures base.session.Some? ==>
                base.broker.log == old(base.broker.log) + [Event(Op.CreateProducer(base.session.value, base.destination), o == Pass)]
      ensures base.broker.issued >= old(base.broker.issued)
      ensures Opens(base.broker.log) == Opens(old(base.broker.log))
    {
      var p := base.CreateProducer(base.destination);
      if p.Failure? {
        return Fail(IllegalState(RESET_FAILED));
      }
      producer := Some(p.value);
      return Pass;
    }

    /** `verifyAlive()`: nothing at all happens while a connection is held;
        otherwise one `initialize()` and, if it succeeds, one
        `resetProducer()`. */
    method VerifyAlive() returns (o: Outcome<Error>)
      modifies this, base, base.broker
      ensures old(base.connection).Some? ==>
                o == Pass && base.State() == old(base.State()) && producer == old(producer)
                && base.broker.log == old(base.broker.log) && base.broker.issued == old(base.broker.issued)
      ensures old(base.connection).None? && o == Pass ==> base.Live() && producer == Some(Handle(old(base.broker.issued) + 3))
      ensures old(base.connection).None? && o == Pass ==>
                base.broker.log == old(base.broker.log)
                  + InitializeCalls(Handle(old(base.broker.issued)), Handle(old(base.broker.issued) + 1), base.destinationName)
                  + [Event(Op.CreateProducer(Handle(old(base.broker.issued) + 1), Some(Handle(old(base.broker.issued) + 2))), true)]
      ensures o.Fail? ==> o.error in {IllegalState(INITIALIZE_FAILED), IllegalState(RESET_FAILED)}
      ensures o == Pass ==> base.connection.Some?
      ensures invalidMessageProducer == old(invalidMessageProducer)
      ensures old(base.broker.log) <= base.broker.log
      ensures base.broker.issued >= old(base.broker.issued)
      ensures Opens(base.broker.log) == Opens(old(base.broker.log)) + (if old(base.connection).None? then 1 else 0)
    {
      var valid := base.IsConnectionValid();
      if !valid {
        o := Reinitialize();
      } else {
        o := Pass;
      }
    }

    /** `initialize()` and, if it succeeds, `resetProducer()`: the repair of
        `verifyAlive()` and the second half of `restart()`. */
    method Reinitialize() returns (o: Outcome<Error>)
      modifies this, base, base.broker
      ensures o == Pass ==>
                base.Live() && producer == Some(Handle(old(base.broker.issued) + 3))
                && base.State() == Lifecycle(Some(Handle(old(base.broker.issued))), Some(Handle(old(base.broker.issued) + 1)),
                                             Some(Handle(old(base.broker.issued) + 2)), false)
      ensures o == Pass ==>
                base.broker.log == old(base.broker.log)
                  + (InitializeCalls(Handle(old(base.broker.issued)), Handle(old(base.broker.issued) + 1), base.destinationName)
                     + [Event(Op.CreateProducer(Handle(old(base.broker.issued) + 1), Some(Handle(old(base.broker.issued) + 2))), true)])
      ensures o.Fail? ==> o.error in {IllegalState(INITIALIZE_FAILED), IllegalState(RESET_FAILED)}
      ensures o == Fail(IllegalState(INITIALIZE_FAILED)) ==> base.closed == old(base.closed)
      ensures o == Fail(IllegalState(RESET_FAILED)) ==> base.Live() && producer == old(producer)
      ensures invalidMessageProducer == old(invalidMessageProducer)
      ensures old(base.broker.log) <= base.broker.log
      ensures base.broker.issued >= old(base.broker.issued)
      ensures Opens(base.broker.log) == Opens(old(base.broker.log)) + 1
    {
      o := base.Initialize();
      if o.Fail? {
        return;
      }
      o := ResetProducer();
    }

    /** `restart()`: `close()`, then `initialize()`, then `resetProducer()`.
        When initializing fails the gateway stays closed. */
    method Restart() returns (o: Outcome<Error>)
      modifies this, base, base.broker
      ensures o == Pass ==> base.Live() && producer.Some?
      ensures o == Pass ==>
                producer == Some(Handle(old(base.broker.issued) + 3))
                && base.State() == Lifecycle(Some(Handle(old(base.broker.issued))), Some(Handle(old(base.broker.issued) + 1)),
                                             Some(Handle(old(base.broker.issued) + 2)), false)
      ensures o == Pass ==>
                exists closing :: ClosingCalls(closing, old(base.session), old(base.connection))
                  && base.broker.log == old(base.broker.log) + closing
                       + (InitializeCalls(Handle(old(base.broker.issued)), Handle(old(base.broker.issued) + 1), base.destinationName)
                          + [Event(Op.CreateProducer(Handle(old(base.broker.issued) + 1), Some(Handle(old(base.broker.issued) + 2))), true)])
      ensures o.Fail? ==> o.error in {IllegalState(INITIALIZE_FAILED), IllegalState(RESET_FAILED)}
      ensures o == Fail(IllegalState(INITIALIZE_FAILED)) ==> base.closed
      ensures o == Fail(IllegalState(RESET_FAILED)) ==> base.Live() && producer == old(producer)
      ensures invalidMessageProducer == old(invalidMessageProducer)
      ensures old(base.broker.log) <= base.broker.log
      ensures base.broker.issued >= old(base.broker.issued)
      ensures Opens(base.broker.log) == Opens(old(base.broker.log)) + 1
    {
      ghost var log0, i0, session0, connection0 := base.broker.log, base.broker.issued, base.session, base.connection;
      base.Close();
      ghost var closing := base.broker.log[|log0|..];
      assert base.broker.log == log0 + closing && base.broker.issued == i0;
      o := Reinitialize();
      if o == Pass {
        ghost var rest := InitializeCalls(Handle(i0), Handle(i0 + 1), base.destinationName)
                          + [Event(Op.CreateProducer(Handle(i0 + 1), Some(Handle(i0 + 2))), true)];
        assert ClosingCalls(closing, session0, connection0) && base.broker.log == log0 + closing + rest;
      }
    }

    /** `doSend(message)`: the default producer sends the message. */
    method DoSend(message: Handle) returns (o: Outcome<Error>)
      modifies this, base, base.broker
      ensures o.Fail? ==> o.error == IllegalState(SEND_FAILED) && Destroyed()
      ensures o == Pass ==>
                base.connection.Some? && producer.Some? && |base.broker.log| > 0
                && base.broker.log[|base.broker.log| - 1] == Event(Op.Send(producer.value, message), true)
      ensures old(base.connection).Some? && o == Pass ==> base.State() == old(base.State()) && producer == old(producer)
      ensures invalidMessageProducer == old(invalidMessageProducer)
      ensures old(base.broker.log) <= base.broker.log
      ensures base.broker.issued >= old(base.broker.issued)
      ensures Opens(base.broker.log) == Opens(old(base.broker.log)) + (if old(base.connection).None? then 1 else 0)
    {
      var alive := VerifyAlive();
      var ok := alive == Pass && producer.Some?;
      if ok {
        ok := base.broker.Perform(Op.Send(producer.value, message));
      }
      if !ok {
        base.Destroy();
        return Fail(IllegalState(SEND_FAILED));
      }
      return Pass;
    }

    /** `doSend(message, destination)`: a one-shot producer for
        `destination` sends the message once and is closed; the default
        producer is not used. */
    method DoSendTo(message: Handle, destination: Handle) returns (o: Outcome<Error>)
      modifies this, base, base.broker
      ensures o.Fail? ==> o.error == IllegalState(SEND_FAILED) && Destroyed()
      ensures o == Pass ==>
                base.connection.Some? && base.session.Some?
                && SentOnce(base.broker.log, base.broker.issued, base.session.value, destination, message)
      ensures old(base.connection).Some? ==> producer == old(producer)
      ensures old(base.connection).Some? && o == Pass ==> base.State() == old(base.State())
      ensures invalidMessageProducer == old(invalidMessageProducer)
      ensures old(base.broker.log) <= base.broker.log
      ensures base.broker.issued >= old(base.broker.issued)
      ensures Opens(base.broker.log) == Opens(old(base.broker.log)) + (if old(base.connection).None? then 1 else 0)
    {
      var alive := VerifyAlive();
      var ok := alive == Pass;
      if ok {
        ok := SendOnce(message, destination);
      }
      if !ok {
        base.Destroy();
        return Fail(IllegalState(SEND_FAILED));
      }
      return Pass;
    }

    /** What `doSend(message, destination)` does once the connection is
        alive: a one-shot producer for `destination` sends the message and is
        closed. */
    method SendOnce(message: Handle, destination: Handle) returns (ok: bool)
      modifies base.broker
      ensures ok ==> base.session.Some? && SentOnce(base.broker.log, base.broker.issued, base.session.value, destination, message)
      ensures old(base.broker.log) <= base.broker.log
      ensures base.broker.issued >= old(base.broker.issued)
      ensures Opens(base.broker.log) == Opens(old(base.broker.log))
    {
      ghost var before := base.broker.log;
      var p := base.CreateProducer(Some(destination));
      if p.Failure? {
        return false;
      }
      ok := base.broker.Perform(Op.Send(p.value, message));
      if !ok {
        return;
      }
      ok := base.broker.Perform(CloseProducer(p.value));
      if ok {
        var calls := [Event(Op.CreateProducer(base.session.value, Some(destination)), true),
                      Event(Op.Send(p.value, message), true), Event(CloseProducer(p.value), true)];
        assert base.broker.log == before + calls;
        SuffixOfAppend(before, calls);
      }
    }

    /** `doSendInvalidMessage(message)`: the invalid-message producer sends
        the message. */
    method DoSendInvalidMessage(message: Handle) returns (o: Outcome<Error>)
      modifies this, base, base.broker
      ensures o.Fail? ==> o.error == IllegalState(SEND_INVALID_FAILED) && Destroyed()
      ensures o == Pass ==>
                base.connection.Some? && invalidMessageProducer.Some? && |base.broker.log| > 0
                && base.broker.log[|base.broker.log| - 1] == Event(Op.Send(invalidMessageProducer.value, message), true)
      ensures old(base.connection).Some? ==> producer == old(producer)
      ensures old(base.connection).Some? && o == Pass ==> base.State() == old(base.State())
      ensures invalidMessageProducer == old(invalidMessageProducer)
      ensures old(base.broker.log) <= base.broker.log
      ensures base.broker.issued >= old(base.broker.issued)
      ensures Opens(base.broker.log) == Opens(old(base.broker.log)) + (if old(base.connection).None? then 1 else 0)
    {
      var alive := VerifyAlive();
      var ok := alive == Pass && invalidMessageProducer.Some?;
      if ok {
        ok := base.broker.Perform(Op.Send(invalidMessageProducer.value, message));
      }
      if !ok {
        base.Destroy();
        return Fail(IllegalState(SEND_INVALID_FAILED));
      }
      return Pass;
    }

    /** `doListen(destination, timeout)`: one receive on a new consumer for
        `destination`; no message within the timeout is `None`, not a
        failure. */
    method DoListen(destination: Handle, timeout: Int64) returns (r: Result<Option<string>, Error>)
      modifies this, base, base.broker
      ensures r.Failure? ==> r.error == IllegalState(LISTEN_FAILED) && Destroyed()
      ensures r.Success? ==>
                base.connection.Some? && base.session.Some?
                && Listened(base.broker.log, base.broker.issued, base.broker.textOf, base.session.value, destination, timeout, r.value)
      ensures old(base.connection).Some? ==> producer == old(producer)
      ensures old(base.connection).Some? && r.Success? ==> base.State() == old(base.State())
      ensures invalidMessageProducer == old(invalidMessageProducer)
      ensures old(base.broker.log) <= base.broker.log
      ensures base.broker.issued >= old(base.broker.issued)
      ensures Opens(base.broker.log) == Opens(old(base.broker.log)) + (if old(base.connection).None? then 1 else 0)
    {
      var alive := VerifyAlive();
      var ok := alive == Pass;
      var answer: Option<string> := None;
      if ok {
        ok, answer := ListenOnce(destination, timeout);
      }
      if !ok {
        base.Destroy();
        return Failure(IllegalState(LISTEN_FAILED));
      }
      return Success(answer);
    }

    /** `doSendAndListen(message, destination, timeout)`: request/reply over
        a temporary queue `replyTo` issued during this call. */
    method DoSendAndListen(message: Handle, destination: Option<Handle>, timeout: Int64)
      returns (r: Result<Option<string>, Error>, ghost replyTo: Handle)
      modifies this, base, base.broker
      ensures r.Failure? ==> r.error == IllegalState(REQUEST_FAILED) && Destroyed()
      ensures r.Success? ==>
                base.connection.Some? && base.session.Some? && replyTo.id >= old(base.broker.issued)
                && Requested(base.broker.log, base.broker.textOf, base.session.value, message, replyTo, destination, timeout, r.value)
      ensures old(base.connection).Some? ==> producer == old(producer)
      ensures old(base.connection).Some? && r.Success? ==> base.State() == old(base.State())
      ensures invalidMessageProducer == old(invalidMessageProducer)
      ensures old(base.broker.log) <= base.broker.log
      ensures base.broker.issued >= old(base.broker.issued)
      ensures Opens(base.broker.log) == Opens(old(base.broker.log)) + (if old(base.connection).None? then 1 else 0)
    {
      replyTo := Handle(0);
      var alive := VerifyAlive();
      var ok := alive == Pass && base.session.Some?;
      var answer: Option<string> := None;
      if ok {
        ok, answer, replyTo := RequestReply(message, destination, timeout);
      }
      if !ok {
        base.Destroy();
        return Failure(IllegalState(REQUEST_FAILED)), replyTo;
      }
      return Success(answer), replyTo;
    }

    /** What `doSendAndListen` does once the connection is alive: post the
        request, then listen on its reply queue. */
    method RequestReply(message: Handle, destination: Option<Handle>, timeout: Int64)
      returns (ok: bool, answer: Option<string>, ghost q: Handle)
      requires base.session.Some?
      modifies base.broker
      ensures ok ==>
                q.id >= old(base.broker.issued)
                && Requested(base.broker.log, base.broker.textOf, base.session.value, message, q, destination, timeout, answer)
      ensures old(base.broker.log) <= base.broker.log
      ensures base.broker.issued >= old(base.broker.issued)
      ensures Opens(base.broker.log) == Opens(old(base.broker.log))
    {
      ghost var before := base.broker.log;
      answer := None;
      var temporary;
      ok, temporary := PostRequest(message, destination);
      q := temporary;
      if !ok {
        return;
      }
      ghost var s := base.session.value;
      ghost var posted := base.broker.log;
      assert posted == before + PostCalls(s, message, q, destination);
      assert base.broker.issued == q.id + 2;
      ok, answer := ListenOn(temporary, timeout);
      if ok {
        RequestedAfter(before, base.broker.textOf, s, message, q, destination, timeout, answer);
        if answer.None? {
          assert base.broker.log == posted + ListenCalls(s, q, Handle(q.id + 2), timeout);
        } else {
          assert base.broker.log == posted + (ListenCalls(s, q, Handle(q.id + 2), timeout) + [Event(GetText(Handle(q.id + 3)), true)]);
        }
      }
    }

    /** The sending half of `doSendAndListen`, on the current session. */
    method PostRequest(message: Handle, destination: Option<Handle>) returns (ok: bool, q: Handle)
      requires base.session.Some?
      modifies base.broker
      ensures ok ==> q == Handle(old(base.broker.issued)) && base.broker.issued == old(base.broker.issued) + 2
      ensures ok ==> base.broker.log == old(base.broker.log) + PostCalls(base.session.value, message, q, destination)
      ensures old(base.broker.log) <= base.broker.log
      ensures base.broker.issued >= old(base.broker.issued)
      ensures Opens(base.broker.log) == Opens(old(base.broker.log))
    {
      var s := base.session.value;
      ghost var log0 := base.broker.log;
      ok, q := AskReply(s, message);
      if !ok {
        return;
      }
      ghost var log1 := base.broker.log;
      ghost var reply := [Event(CreateTemporaryQueue(s), true), Event(SetReplyTo(message, q), true)];
      ok := ProduceOnce(s, message, destination);
      if ok {
        ghost var p := Handle(q.id + 1);
        ghost var produce := [Event(Op.CreateProducer(s, destination), true), Event(Op.Send(p, message), true), Event(CloseProducer(p), true)];
        assert base.broker.log == log0 + reply + produce;
        assert PostCalls(s, message, q, destination) == reply + produce;
        assert base.broker.log == log0 + (reply + produce);
      }
    }

    /** The first part of posting a request: a temporary reply queue from
        session `s`, set as the reply-to of `message`. */
    method AskReply(s: Handle, message: Handle) returns (ok: bool, q: Handle)
      modifies base.broker
      ensures ok ==> q == Handle(old(base.broker.issued)) && base.broker.issued == old(base.broker.issued) + 1
      ensures ok ==> base.broker.log == old(base.broker.log) + [Event(CreateTemporaryQueue(s), true), Event(SetReplyTo(message, q), true)]
      ensures old(base.broker.log) <= base.broker.log
      ensures base.broker.issued >= old(base.broker.issued)
      ensures Opens(base.broker.log) == Opens(old(base.broker.log))
    {
      ok, q := base.broker.Obtain(CreateTemporaryQueue(s));
      if !ok {
        return;
      }
      ok := base.broker.Perform(SetReplyTo(message, q));
    }

    /** The producer part of posting a request: a one-shot producer from
        session `s` for `destination` sends `message` and is closed. */
    method ProduceOnce(s: Handle, message: Handle, destination: Option<Handle>) returns (ok: bool)
      modifies base.broker
      ensures ok ==> base.broker.log == old(base.broker.log)
                       + [Event(Op.CreateProducer(s, destination), true), Event(Op.Send(Handle(old(base.broker.issued)), message), true),
                          Event(CloseProducer(Handle(old(base.broker.issued))), true)]
      ensures ok ==> base.broker.issued == old(base.broker.issued) + 1
      ensures old(base.broker.log) <= base.broker.log
      ensures base.broker.issued >= old(base.broker.issued)
      ensures Opens(base.broker.log) == Opens(old(base.broker.log))
    {
      var p;
      ok, p := base.broker.Obtain(Op.CreateProducer(s, destination));
      if !ok {
        return;
      }
      ok := base.broker.Perform(Op.Send(p, message));
      if !ok {
        return;
      }
      ok := base.broker.Perform(CloseProducer(p));
    }

    /** The listen of `doListen`: its calls end the log, as `Listened`
        describes. */
    method ListenOnce(destination: Handle, timeout: Int64) returns (ok: bool, answer: Option<string>)
      modifies base.broker
      ensures ok ==>
                base.session.Some?
                && Listened(base.broker.log, base.broker.issued, base.broker.textOf, base.session.value, destination, timeout, answer)
      ensures old(base.broker.log) <= base.broker.log
      ensures base.broker.issued >= old(base.broker.issued)
      ensures Opens(base.broker.log) == Opens(old(base.broker.log))
    {
      ghost var before := base.broker.log;
      ghost var i := base.broker.issued;
      ok, answer := ListenOn(destination, timeout);
      if ok {
        ListenedAfter(before, i, base.broker.textOf, base.session.value, destination, timeout, answer);
      }
    }

    /** One receive on a new consumer for `destination` on the current
        session, and the text of the message if one arrives: the common part
        of `doListen` and `doSendAndListen`. */
    method ListenOn(destination: Handle, timeout: Int64) returns (ok: bool, answer: Option<string>)
      modifies base.broker
      ensures ok ==> base.session.Some?
      ensures ok && answer.None? ==>
                base.broker.log == old(base.broker.log)
                  + ListenCalls(base.session.value, destination, Handle(old(base.broker.issued)), timeout)
                && base.broker.issued == old(base.broker.issued) + 1
      ensures ok && answer.Some? ==>
                base.broker.log == old(base.broker.log)
                  + (ListenCalls(base.session.value, destination, Handle(old(base.broker.issued)), timeout)
                     + [Event(GetText(Handle(old(base.broker.issued) + 1)), true)])
                && base.broker.issued == old(base.broker.issued) + 2
                && answer.value == base.broker.textOf(Handle(old(base.broker.issued) + 1))
      ensures old(base.broker.log) <= base.broker.log
      ensures base.broker.issued >= old(base.broker.issued)
      ensures Opens(base.broker.log) == Opens(old(base.broker.log))
    {
      ghost var before := base.broker.log;
      answer := None;
      var c := base.CreateConsumer(Some(destination));
      if c.Failure? {
        return false, None;
      }
      var calls := ListenCalls(base.session.value, destination, c.value, timeout);
      var response;
      ok, response := base.broker.ReceiveOn(c.value, timeout);
      if !ok {
        return;
      }
      assert base.broker.log == before + calls;
      if response.None? {
        return;
      }
      var text;
      ok, text := base.broker.TextOf(response.value);
      answer := Some(text);
      if ok {
        assert base.broker.log == before + (calls + [Event(GetText(response.value), true)]);
      }
    }

    /** `send(message)`: the message is built on the current session before
        the connection is checked; a failure to build it is not caught and
        destroys nothing. */
    method Send(text: Option<string>) returns (o: Outcome<Error>)
      modifies this, base, base.broker
      ensures old(base.session).None? ==> o == Fail(IllegalState(MESSAGE_FAILED)) && base.broker.log == old(base.broker.log)
      ensures old(base.session).Some? ==>
                |base.broker.log| > |old(base.broker.log)|
                && base.broker.log[|old(base.broker.log)|].op == CreateTextMessage(old(base.session).value, text)
      ensures o == Fail(IllegalState(MESSAGE_FAILED)) ==> base.State() == old(base.State()) && producer == old(producer)
      ensures o.Fail? ==> o.error in {IllegalState(MESSAGE_FAILED), IllegalState(SEND_FAILED)}
      ensures o == Fail(IllegalState(SEND_FAILED)) ==> Destroyed()
      ensures o == Pass ==> base.connection.Some? && producer.Some? && |base.broker.log| > 0 && base.broker.log[|base.broker.log| - 1].op == Op.Send(producer.value, Handle(old(base.broker.issued)))
      ensures invalidMessageProducer == old(invalidMessageProducer)
      ensures old(base.broker.log) <= base.broker.log
      ensures Opens(base.broker.log) <= Opens(old(base.broker.log)) + 1
    {
      var m := base.CreateMessage(text);
      if m.Failure? {
        return Fail(m.error);
      }
      o := DoSend(m.value);
    }

    /** The arguments of `send(message, destination)` and
        `request(message, destination, timeout)`, evaluated in order: the
        text message, then the destination, both on the current session. */
    method Compose(text: Option<string>, destination: Option<string>) returns (r: Result<(Handle, Handle), Error>)
      modifies base.broker
      ensures base.session.None? ==> r == Failure(IllegalState(MESSAGE_FAILED)) && base.broker.log == old(base.broker.log)
      ensures base.session.Some? ==>
                |base.broker.log| > |old(base.broker.log)|
                && base.broker.log[|old(base.broker.log)|].op == CreateTextMessage(base.session.value, text)
      ensures base.session.Some? && base.broker.log[|old(base.broker.log)|].succeeded ==>
                base.broker.log == old(base.broker.log)
                  + [Event(CreateTextMessage(base.session.value, text), true), Event(CreateQueue(base.session.value, destination), r.Success?)]
      ensures r.Failure? ==> r.error in {IllegalState(MESSAGE_FAILED), IllegalState(DESTINATION_FAILED)}
      ensures r.Success? ==> r.value == (Handle(old(base.broker.issued)), Handle(old(base.broker.issued) + 1))
      ensures r.Success? ==>
                base.session.Some? && |base.broker.log| == |old(base.broker.log)| + 2
                && base.broker.log[|old(base.broker.log)|].succeeded
      ensures old(base.broker.log) <= base.broker.log
      ensures base.broker.issued >= old(base.broker.issued)
      ensures Opens(base.broker.log) == Opens(old(base.broker.log))
    {
      ghost var log0 := base.broker.log;
      var m := base.CreateMessage(text);
      if m.Failure? {
        return Failure(m.error);
      }
      ghost var message := Event(CreateTextMessage(base.session.value, text), true);
      assert base.broker.log == log0 + [message];
      var d := base.CreateDestination(destination);
      assert base.broker.log == log0 + [message, Event(CreateQueue(base.session.value, destination), d.Success?)];
      if d.Failure? {
        return Failure(d.error);
      }
      return Success((m.value, d.value));
    }

    /** `send(message, destination)`: the message and then the destination
        are built on the current session before the connection is checked. */
    method SendTo(text: Option<string>, destination: Option<string>) returns (o: Outcome<Error>)
      modifies this, base, base.broker
      ensures old(base.session).None? ==> o == Fail(IllegalState(MESSAGE_FAILED)) && base.broker.log == old(base.broker.log)
      ensures old(base.session).Some? ==>
                |base.broker.log| > |old(base.broker.log)|
                && base.broker.log[|old(base.broker.log)|].op == CreateTextMessage(old(base.session).value, text)
      ensures o.Fail? ==> o.error in {IllegalState(MESSAGE_FAILED), IllegalState(DESTINATION_FAILED), IllegalState(SEND_FAILED)}
      ensures o.Fail? && o.error != IllegalState(SEND_FAILED) ==> base.State() == old(base.State()) && producer == old(producer)
      ensures o == Fail(IllegalState(SEND_FAILED)) ==> Destroyed()
      ensures old(base.session).Some? && base.broker.log[|old(base.broker.log)|].succeeded ==>
                |base.broker.log| > |old(base.broker.log)| + 1
                && base.broker.log[|old(base.broker.log)| + 1].op == CreateQueue(old(base.session).value, destination)
      ensures o == Pass ==>
                base.connection.Some? && base.session.Some?
                && SentOnce(base.broker.log, base.broker.issued, base.session.value,
                            Handle(old(base.broker.issued) + 1), Handle(old(base.broker.issued)))
      ensures old(base.connection).Some? ==> producer == old(producer)
      ensures invalidMessageProducer == old(invalidMessageProducer)
      ensures old(base.broker.log) <= base.broker.log
      ensures Opens(base.broker.log) <= Opens(old(base.broker.log)) + 1
    {
      var args := Compose(text, destination);
      if args.Failure? {
        return Fail(args.error);
      }
      ghost var log1 := base.broker.log;
      o := DoSendTo(args.value.0, args.value.1);
      assert base.broker.log[|old(base.broker.log)| + 1] == log1[|old(base.broker.log)| + 1];
    }

    /** `request(message, timeout)`: request/reply to the default
        destination. */
    method Request(text: Option<string>, timeout: Int64) returns (r: Result<Option<string>, Error>)
      modifies this, base, base.broker
      ensures old(base.session).None? ==> r == Failure(IllegalState(MESSAGE_FAILED)) && base.broker.log == old(base.broker.log)
      ensures old(base.session).Some? ==>
                |base.broker.log| > |old(base.broker.log)|
                && base.broker.log[|old(base.broker.log)|].op == CreateTextMessage(old(base.session).value, text)
      ensures r.Failure? ==> r.error in {IllegalState(MESSAGE_FAILED), IllegalState(REQUEST_FAILED)}
      ensures r == Failure(IllegalState(MESSAGE_FAILED)) ==> base.State() == old(base.State()) && producer == old(producer)
      ensures r == Failure(IllegalState(REQUEST_FAILED)) ==> Destroyed()
      ensures r.Success? ==>
                base.connection.Some? && base.session.Some?
                && exists q: Handle :: q.id >= old(base.broker.issued)
                     && Requested(base.broker.log, base.broker.textOf, base.session.value,
                                  Handle(old(base.broker.issued)), q, old(base.destination), timeout, r.value)
      ensures old(base.connection).Some? ==> producer == old(producer)
      ensures invalidMessageProducer == old(invalidMessageProducer)
      ensures old(base.broker.log) <= base.broker.log
      ensures Opens(base.broker.log) <= Opens(old(base.broker.log)) + 1
    {
      var m := base.CreateMessage(text);
      if m.Failure? {
        return Failure(m.error);
      }
      ghost var replyTo;
      r, replyTo := DoSendAndListen(m.value, base.destination, timeout);
    }

    /** `request(message, destination, timeout)`: request/reply to
        `destination`; the message and then the destination are built
        before the connection is checked. */
    method RequestTo(text: Option<string>, destination: Option<string>, timeout: Int64) returns (r: Result<Option<string>, Error>)
      modifies this, base, base.broker
      ensures old(base.session).None? ==> r == Failure(IllegalState(MESSAGE_FAILED)) && base.broker.log == old(base.broker.log)
      ensures old(base.session).Some? ==>
                |base.broker.log| > |old(base.broker.log)|
                && base.broker.log[|old(base.broker.log)|].op == CreateTextMessage(old(base.session).value, text)
      ensures r.Failure? ==> r.error in {IllegalState(MESSAGE_FAILED), IllegalState(DESTINATION_FAILED), IllegalState(REQUEST_FAILED)}
      ensures r.Failure? && r.error != IllegalState(REQUEST_FAILED) ==> base.State() == old(base.State()) && producer == old(producer)
      ensures r == Failure(IllegalState(REQUEST_FAILED)) ==> Destroyed()
      ensures old(base.session).Some? && base.broker.log[|old(base.broker.log)|].succeeded ==>
                |base.broker.log| > |old(base.broker.log)| + 1
                && base.broker.log[|old(base.broker.log)| + 1].op == CreateQueue(old(base.session).value, destination)
      ensures r.Success? ==>
                base.connection.Some? && base.session.Some?
                && exists q: Handle :: q.id >= old(base.broker.issued)
                     && Requested(base.broker.log, base.broker.textOf, base.session.value,
                                  Handle(old(base.broker.issued)), q, Some(Handle(old(base.broker.issued) + 1)), timeout, r.value)
      ensures old(base.connection).Some? ==> producer == old(producer)
      ensures invalidMessageProducer == old(invalidMessageProducer)
      ensures old(base.broker.log) <= base.broker.log
      ensures Opens(base.broker.log) <= Opens(old(base.broker.log)) + 1
    {
      var args := Compose(text, destination);
      if args.Failure? {
        return Failure(args.error);
      }
      ghost var log1 := base.broker.log;
      ghost var replyTo;
      r, replyTo := DoSendAndListen(args.value.0, Some(args.value.1), timeout);
      assert base.broker.log[|old(base.broker.log)| + 1] == log1[|old(base.broker.log)| + 1];
      if r.Success? {
        assert Requested(base.broker.log, base.broker.textOf, base.session.value,
                         args.value.0, replyTo, Some(args.value.1), timeout, r.value);
      }
    }

    /** `receive(destination, timeout)`: the destination is built on the
        current session before the connection is checked. */
    method Receive(destination: Option<string>, timeout: Int64) returns (r: Result<Option<string>, Error>)
      modifies this, base, base.broker
      ensures old(base.session).None? ==> r == Failure(IllegalState(DESTINATION_FAILED)) && base.broker.log == old(base.broker.log)
      ensures old(base.session).Some? ==>
                |base.broker.log| > |old(base.broker.log)|
                && base.broker.log[|old(base.broker.log)|].op == CreateQueue(old(base.session).value, destination)
      ensures r.Failure? ==> r.error in {IllegalState(DESTINATION_FAILED), IllegalState(LISTEN_FAILED)}
      ensures r == Failure(IllegalState(DESTINATION_FAILED)) ==> base.State() == old(base.State()) && producer == old(producer)
      ensures r == Failure(IllegalState(LISTEN_FAILED)) ==> Destroyed()
      ensures r.Success? ==>
                base.connection.Some? && base.session.Some?
                && Listened(base.broker.log, base.broker.issued, base.broker.textOf, base.session.value,
                            Handle(old(base.broker.issued)), timeout, r.value)
      ensures old(base.connection).Some? ==> producer == old(producer)
      ensures invalidMessageProducer == old(invalidMessageProducer)
      ensures old(base.broker.log) <= base.broker.log
      ensures Opens(base.broker.log) <= Opens(old(base.broker.log)) + 1
    {
      var d := base.CreateDestination(destination);
      if d.Failure? {
        return Failure(d.error);
      }
      r := DoListen(d.value, timeout);
    }

    /** `reject(message)`: a null or empty message is refused before
        anything is built or sent; otherwise the message goes to the
        invalid-message channel. */
    method Reject(text: Option<string>) returns (o: Outcome<Error>)
      modifies this, base, base.broker
      ensures Check.NotEmpty(text).Failure? ==>
                o == Fail(IllegalArgument(None)) && base.State() == old(base.State()) && producer == old(producer)
                && base.broker.log == old(base.broker.log) && base.broker.issued == old(base.broker.issued)
      ensures Check.NotEmpty(text).Success? && old(base.session).Some? ==>
                |base.broker.log| > |old(base.broker.log)|
                && base.broker.log[|old(base.broker.log)|].op == CreateTextMessage(old(base.session).value, text)
      ensures o.Fail? ==> o.error in {IllegalArgument(None), IllegalState(MESSAGE_FAILED), IllegalState(SEND_INVALID_FAILED)}
      ensures o == Fail(IllegalState(SEND_INVALID_FAILED)) ==> Destroyed()
      ensures o == Pass ==>
                base.connection.Some? && invalidMessageProducer.Some? && |base.broker.log| > 0
                && base.broker.log[|base.broker.log| - 1].op == Op.Send(invalidMessageProducer.value, Handle(old(base.broker.issued)))
      ensures old(base.connection).Some? ==> producer == old(producer)
      ensures invalidMessageProducer == old(invalidMessageProducer)
      ensures old(base.broker.log) <= base.broker.log
      ensures Opens(base.broker.log) <= Opens(old(base.broker.log)) + 1
    {
      var checked := Check.NotEmpty(text);
      if checked.Failure? {
        return Fail(checked.error);
      }
      var m := base.CreateMessage(Some(checked.value));
      if m.Failure? {
        return Fail(m.error);
      }
      o := DoSendInvalidMessage(m.value);
    }
  }
}
