/**
  `BodySizeLimitMiddleware`: the two wrapped callables and what the application and the client see
  through them, over every interleaving of receives and sends.
 */
module BodyLimit {
  type byte = x: int | 0 <= x < 256

  /** What the server hands over: a piece of the body, a disconnect, or anything else. */
  datatype Incoming = Request(body: seq<byte>) | Disconnect | Other

  /** What reaches the client: a message of the application, or the middleware's own 413 response. */
  datatype Outgoing<+M> = FromApp(message: M) | TooLarge

  /**
    One exchange: the three nonlocals, then what was taken from the server, given to the application,
    offered by the application, and sent to the client.
   */
  datatype Exchange<+M> = Exchange(
    received: nat, exceeded: bool, forwarded: bool,
    taken: seq<Incoming>, given: seq<Incoming>, offered: seq<M>, client: seq<Outgoing<M>>)

  datatype Event<+M> = Receive(message: Incoming) | Send(offer: M)

  function Fresh<M>(): Exchange<M> { Exchange(0, false, false, [], [], [], []) }

  /** The body bytes in a sequence of messages. */
  function Bytes(messages: seq<Incoming>): seq<byte> {
    if messages == [] then []
    else
      var n := |messages| - 1;
      Bytes(messages[..n]) + if messages[n].Request? then messages[n].body else []
  }

  function FromApps<M>(offered: seq<M>): seq<Outgoing<M>> {
    seq(|offered|, i requires 0 <= i < |offered| => FromApp(offered[i]))
  }

  lemma NotThe413<M>(offered: seq<M>)
    ensures FromApps(offered) != [TooLarge]
  {
    assert |offered| == 1 ==> FromApps(offered)[0].FromApp?;
  }

  /** `limited_receive`. */
  function Received<M>(limit: nat, x: Exchange<M>, message: Incoming): Exchange<M> {
    var received := x.received + if message.Request? then |message.body| else 0;
    var tooMuch := message.Request? && received > limit;
    x.(received := received, exceeded := x.exceeded || tooMuch, taken := x.taken + [message],
       given := x.given + [if tooMuch then Disconnect else message])
  }

  /** `limited_send`. */
  function Sent<M>(x: Exchange<M>, offer: M): Exchange<M> {
    if x.exceeded && !x.forwarded then x.(offered := x.offered + [offer])
    else x.(forwarded := true, offered := x.offered + [offer], client := x.client + [FromApp(offer)])
  }

  /** The end of `__call__`: the application returned, or an exception of its own goes on up. */
  function Finished<M>(x: Exchange<M>, raised: bool): Exchange<M> {
    if !raised && x.exceeded && !x.forwarded then x.(client := x.client + [TooLarge]) else x
  }

  function Run<M>(limit: nat, x: Exchange<M>, events: seq<Event<M>>): Exchange<M> {
    if events == [] then x
    else
      var before := Run(limit, x, events[..|events| - 1]);
      match events[|events| - 1]
      case Receive(message) => Received(limit, before, message)
      case Send(offer) => Sent(before, offer)
  }

  // ---- What every exchange keeps -------------------------------------------

  /** What becomes of message i of those that arrived: a disconnect when it takes the body past the limit. */
  function Handed(limit: nat, arrived: seq<Incoming>, i: nat): Incoming
    requires i < |arrived|
  {
    if arrived[i].Request? && |Bytes(arrived[..i + 1])| > limit then Disconnect else arrived[i]
  }

  predicate PassedOn(limit: nat, arrived: seq<Incoming>, given: seq<Incoming>) {
    |given| == |arrived| && forall i: nat :: i < |given| ==> given[i] == Handed(limit, arrived, i)
  }

  lemma OnePassedOn(limit: nat, arrived: seq<Incoming>, given: seq<Incoming>, message: Incoming)
    requires PassedOn(limit, arrived, given)
    ensures PassedOn(limit, arrived + [message], given + [Handed(limit, arrived + [message], |arrived|)])
  {
    var more := arrived + [message];
    forall i: nat | i < |given| ensures Handed(limit, more, i) == Handed(limit, arrived, i) {
      assert more[..i + 1] == arrived[..i + 1];
    }
  }

  lemma BytesGrow(messages: seq<Incoming>, message: Incoming)
    ensures Bytes(messages + [message]) == Bytes(messages) + if message.Request? then message.body else []
  {
    assert (messages + [message])[..|messages|] == messages;
  }

  ghost predicate Fair<M>(limit: nat, x: Exchange<M>) {
    && x.received == |Bytes(x.taken)| && (x.exceeded <==> x.received > limit)
    && Bytes(x.given) <= Bytes(x.taken) && |Bytes(x.given)| <= limit
    && (!x.exceeded ==> x.given == x.taken)
    && PassedOn(limit, x.taken, x.given)
    && (x.forwarded <==> x.client != [])
    && (if x.forwarded || !x.exceeded then x.client == FromApps(x.offered) else x.client == [])
  }

  lemma ReceiveFair<M>(limit: nat, x: Exchange<M>, message: Incoming)
    requires Fair(limit, x)
    ensures Fair(limit, Received(limit, x, message))
  {
    var more := x.taken + [message];
    BytesGrow(x.taken, message);
    BytesGrow(x.given, Received(limit, x, message).given[|x.given|]);
    OnePassedOn(limit, x.taken, x.given, message);
    assert more[..|x.taken| + 1] == more;
  }

  lemma SendFair<M>(limit: nat, x: Exchange<M>, offer: M)
    requires Fair(limit, x)
    ensures Fair(limit, Sent(x, offer))
  {
    assert FromApps(x.offered + [offer]) == FromApps(x.offered) + [FromApp(offer)];
  }

  /** What the server handed over, and what the application sent, in the order of the events. */
  function Arrivals<M>(events: seq<Event<M>>): seq<Incoming> {
    if events == [] then []
    else (if events[0].Receive? then [events[0].message] else []) + Arrivals(events[1..])
  }

  function Offers<M>(events: seq<Event<M>>): seq<M> {
    if events == [] then [] else (if events[0].Send? then [events[0].offer] else []) + Offers(events[1..])
  }

  lemma {:induction false} OneMoreArrival<M>(events: seq<Event<M>>, event: Event<M>)
    ensures Arrivals(events + [event]) == Arrivals(events) + if event.Receive? then [event.message] else []
  {
    var more := events + [event];
    if events == [] {
      assert more[1..] == [];
    } else {
      OneMoreArrival(events[1..], event);
      assert more[0] == events[0] && more[1..] == events[1..] + [event];
    }
  }

  lemma {:induction false} OneMoreOffer<M>(events: seq<Event<M>>, event: Event<M>)
    ensures Offers(events + [event]) == Offers(events) + if event.Send? then [event.offer] else []
  {
    var more := events + [event];
    if events == [] {
      assert more[1..] == [];
    } else {
      OneMoreOffer(events[1..], event);
      assert more[0] == events[0] && more[1..] == events[1..] + [event];
    }
  }

  lemma {:induction false} RunRecords<M>(limit: nat, events: seq<Event<M>>)
    ensures var x := Run(limit, Fresh(), events); x.taken == Arrivals(events) && x.offered == Offers(events)
  {
    if events != [] {
      var n := |events| - 1;
      RunRecords(limit, events[..n]);
      OneMoreArrival(events[..n], events[n]);
      OneMoreOffer(events[..n], events[n]);
      assert events == events[..n] + [events[n]];
    }
  }

  lemma {:induction false} RunFair<M>(limit: nat, events: seq<Event<M>>)
    ensures Fair(limit, Run(limit, Fresh(), events))
  {
    if events != [] {
      RunFair(limit, events[..|events| - 1]);
      var before := Run(limit, Fresh(), events[..|events| - 1]);
      match events[|events| - 1]
      case Receive(message) => ReceiveFair(limit, before, message);
      case Send(offer) => SendFair(limit, before, offer);
    }
  }

  // ---- Claims --------------------------------------------------------------

  /**
    The application is given one message for each that arrives: a piece of the body that passes the limit
    becomes a disconnect, and everything else is as it came. So it reads a prefix of the body, never more
    than the limit, and all of it while the limit holds.
   */
  lemma AppSeesABoundedPrefix<M>(limit: nat, events: seq<Event<M>>)
    ensures var arrived, given := Arrivals(events), Run(limit, Fresh(), events).given;
      && PassedOn(limit, arrived, given)
      && Bytes(given) <= Bytes(arrived) && |Bytes(given)| <= limit
      && (|Bytes(arrived)| <= limit ==> given == arrived)
  {
    RunFair(limit, events);
    RunRecords(limit, events);
  }

  /** Whether the application has sent anything before the limit was passed. */
  predicate SentInTime<M>(limit: nat, events: seq<Event<M>>) {
    exists k :: 0 <= k < |events| && events[k].Send? && |Bytes(Arrivals(events[..k]))| <= limit
  }

  lemma SentBefore<M>(limit: nat, events: seq<Event<M>>)
    requires events != []
    ensures var n := |events| - 1;
      SentInTime(limit, events) <==>
      SentInTime(limit, events[..n]) || (events[n].Send? && |Bytes(Arrivals(events[..n]))| <= limit)
  {
    var n := |events| - 1;
    var before := events[..n];
    assert forall k :: 0 <= k < n ==> before[k] == events[k] && before[..k] == events[..k];
  }

  lemma {:induction false} ForwardedIff<M>(limit: nat, events: seq<Event<M>>)
    ensures Run(limit, Fresh(), events).forwarded <==> SentInTime(limit, events)
  {
    if events != [] {
      var n := |events| - 1;
      var before := events[..n];
      ForwardedIff(limit, before);
      RunFair(limit, before);
      RunRecords(limit, before);
      SentBefore(limit, events);
    }
  }

  /**
    The client sees the application's messages, all and in order, or the 413 alone; the 413 exactly
    when the limit was passed before the application had sent anything.
   */
  lemma ClientSeesOneAnswer<M>(limit: nat, events: seq<Event<M>>)
    ensures Finished(Run(limit, Fresh(), events), false).client ==
            if |Bytes(Arrivals(events))| > limit && !SentInTime(limit, events) then [TooLarge]
            else FromApps(Offers(events))
  {
    RunFair(limit, events);
    RunRecords(limit, events);
    ForwardedIff(limit, events);
  }

  /** When the application raises, the client has seen its messages so far, or nothing: never a 413. */
  lemma RaisingAddsNothing<M>(limit: nat, events: seq<Event<M>>)
    ensures Finished(Run(limit, Fresh(), events), true).client ==
            if |Bytes(Arrivals(events))| > limit && !SentInTime(limit, events) then [] else FromApps(Offers(events))
  {
    RunFair(limit, events);
    RunRecords(limit, events);
    ForwardedIff(limit, events);
  }

  // ---- The object ----------------------------------------------------------

  class LimitedExchange<M> {
    const limit: nat

    var received: nat
    var exceeded: bool
    var forwarded: bool

    var taken: seq<Incoming>
    var given: seq<Incoming>
    var offered: seq<M>
    var client: seq<Outgoing<M>>

    ghost function State(): Exchange<M>
      reads this
    {
      Exchange(received, exceeded, forwarded, taken, given, offered, client)
    }

    ghost predicate Valid()
      reads this
    {
      Fair(limit, State())
    }

    constructor (limit: nat)
      ensures Valid() && this.limit == limit && State() == Fresh()
    {
      this.limit := limit;
      received, exceeded, forwarded := 0, false, false;
      taken, given, offered, client := [], [], [], [];
    }

    method LimitedReceive(message: Incoming) returns (result: Incoming)
      requires Valid()
      modifies this
      ensures Valid() && State() == Received(limit, old(State()), message) && given == old(given) + [result]
      ensures result != message ==> result == Disconnect && exceeded
    {
      ghost var before := State();
      ReceiveFair(limit, before, message);
      taken := taken + [message];
      result := message;
      if message.Request? {
        received := received + |message.body|;
        if received > limit {
          exceeded := true;
          result := Disconnect;
        }
      }
      given := given + [result];
      assert State() == Received(limit, before, message);
    }

    method LimitedSend(message: M)
      requires Valid()
      modifies this
      ensures Valid() && State() == Sent(old(State()), message)
    {
      SendFair(limit, State(), message);
      offered := offered + [message];
      if exceeded && !forwarded { return; }
      forwarded := true;
      client := client + [FromApp(message)];
    }

    /** After the application returned. */
    method Finish()
      requires Valid()
      modifies this
      ensures State() == Finished(old(State()), false)
      ensures client == FromApps(offered) || client == [TooLarge]
      ensures client == [TooLarge] <==> exceeded && !forwarded
    {
      NotThe413(offered);
      if exceeded && !forwarded { client := client + [TooLarge]; }
    }
  }

  // ---- The declared length -------------------------------------------------

  /** How a request is handled, judged before anything is read. */
  datatype Handling = PassThrough | RejectAtOnce | Limited

  /** The Content-Length header: absent, not all digits, or a number. */
  datatype Declared = Absent | NotDigits | Length(n: nat)

  const BODY_METHODS := {"POST", "PUT", "PATCH"}

  function Judge(limit: nat, http: bool, verb: string, declared: Declared): Handling {
    if !http || verb !in BODY_METHODS then PassThrough
    else if declared.Length? && declared.n > limit then RejectAtOnce
    else Limited
  }

  /** Everything the client sees of a body request and everything the application reads of it. */
  function Answered<M>(limit: nat, verb: string, declared: Declared, events: seq<Event<M>>): Exchange<M>
    requires verb in BODY_METHODS
  {
    if Judge(limit, true, verb, declared).RejectAtOnce? then Fresh().(client := [TooLarge])
    else Finished(Run(limit, Fresh(), events), false)
  }

  /** Only POST, PUT and PATCH over HTTP are limited, and of those only a declared excess is refused unread. */
  lemma WhoIsLimited(limit: nat, http: bool, verb: string, declared: Declared)
    ensures Judge(limit, http, verb, declared).PassThrough? <==>
            !http || (verb != "POST" && verb != "PUT" && verb != "PATCH")
    ensures Judge(limit, http, verb, declared).RejectAtOnce? <==>
            http && (verb == "POST" || verb == "PUT" || verb == "PATCH") && declared.Length? && declared.n > limit
  {}

  /**
    However the length is declared, at most the limit reaches the application, and the client gets one
    answer; only a declaration over the limit, or a body over it, changes anything.
   */
  lemma BodyRequestsAreBounded<M>(limit: nat, verb: string, declared: Declared, events: seq<Event<M>>)
    requires verb == "POST" || verb == "PUT" || verb == "PATCH"
    ensures var x := Answered(limit, verb, declared, events);
      && |Bytes(x.given)| <= limit
      && (if declared.Length? && declared.n > limit then x.taken == [] && x.client == [TooLarge]
          else x.taken == Arrivals(events) && (x.client == FromApps(Offers(events)) || x.client == [TooLarge]))
      && (!(declared.Length? && declared.n > limit) && |Bytes(Arrivals(events))| <= limit ==>
            x.given == Arrivals(events) && x.client == FromApps(Offers(events)))
  {
    RunFair(limit, events);
    RunRecords(limit, events);
    ClientSeesOneAnswer(limit, events);
  }
}
