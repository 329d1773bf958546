/**
 * The `JsonEventStreamer` protocol engine (index.js:4-79): configuration,
 * the observe-all registry, outbound `emit` and inbound line handling.
 *
 * Effects are recorded in logs: the text written to the transport, every
 * listener invocation (observe-all callbacks and the inherited named-event
 * dispatch `super.emit`) and every `error` emission.
 */
module Streamer {
  import opened Wrappers
  import opened Json
  import opened Wire
  import opened Registry
  import opened Framing

  /** The constructor's options object; `None` leaves an option at its default. */
  datatype Options = Options(
    argumentsProperty: Option<string>,
    emitLocalEvents: Option<bool>,
    eventProperty: Option<string>,
    ignoreNonJson: Option<bool>)

  /** `new JsonEventStreamer(stream)`: no options given at all. */
  const NoOptions := Options(None, None, None, None)

  datatype Config = Config(
    argumentsProperty: string,
    emitLocalEvents: bool,
    eventProperty: string,
    ignoreNonJson: bool)

  /**
   * The destructuring defaults of the constructor: each option is taken as
   * given or falls back to its own default, independently of the others.
   */
  function Resolve(o: Options): (c: Config)
    ensures o == NoOptions ==> c == Config("arguments", false, "event", false)
    ensures o.argumentsProperty.Some? ==> c.argumentsProperty == o.argumentsProperty.value
    ensures o.emitLocalEvents.Some? ==> c.emitLocalEvents == o.emitLocalEvents.value
    ensures o.eventProperty.Some? ==> c.eventProperty == o.eventProperty.value
    ensures o.ignoreNonJson.Some? ==> c.ignoreNonJson == o.ignoreNonJson.value
    ensures o.argumentsProperty.None? ==> c.argumentsProperty == "arguments"
    ensures o.emitLocalEvents.None? ==> !c.emitLocalEvents
    ensures o.eventProperty.None? ==> c.eventProperty == "event"
    ensures o.ignoreNonJson.None? ==> !c.ignoreNonJson
  {
    Config(
      if o.argumentsProperty.Some? then o.argumentsProperty.value else "arguments",
      if o.emitLocalEvents.Some? then o.emitLocalEvents.value else false,
      if o.eventProperty.Some? then o.eventProperty.value else "event",
      if o.ignoreNonJson.Some? then o.ignoreNonJson.value else false)
  }

  /** One listener invocation. */
  datatype Call =
    | AllCall(listener: ListenerId, event: Option<Json>, args: seq<Json>)  // listener(event, ...args)
    | NamedCall(event: Option<Json>, args: seq<Json>)                      // super.emit(event, ...args)

  /**
   * One pass of `_handleAll` over the registry: every observe-all listener
   * is called once, in registration order, with the same event and arguments.
   */
  function Round(ls: seq<ListenerId>, event: Option<Json>, args: seq<Json>): (r: seq<Call>)
    ensures |r| == |ls|
    ensures forall i :: 0 <= i < |ls| ==> r[i] == AllCall(ls[i], event, args)
    decreases |ls|
  {
    if ls == [] then []
    else Round(ls[..|ls| - 1], event, args) + [AllCall(ls[|ls| - 1], event, args)]
  }

  /** The dispatch of one decoded message: the observe-all round, then the named event. */
  function Dispatch(ls: seq<ListenerId>, d: Decoded): seq<Call>
  {
    Round(ls, d.event, d.args) + [NamedCall(d.event, d.args)]
  }

  /** How many times the log calls observe-all listener `l`. */
  function CallsTo(log: seq<Call>, l: ListenerId): nat
    decreases |log|
  {
    if log == [] then 0
    else
      var last := log[|log| - 1];
      CallsTo(log[..|log| - 1], l) + (if last.AllCall? && last.listener == l then 1 else 0)
  }

  /**
   * The shape of a dispatch: one observe-all call per registered listener,
   * in registration order, all before the single named dispatch, and all
   * with the same event and arguments.
   */
  lemma DispatchOrder(ls: seq<ListenerId>, d: Decoded)
    ensures |Dispatch(ls, d)| == |ls| + 1
    ensures forall i :: 0 <= i < |ls| ==> Dispatch(ls, d)[i] == AllCall(ls[i], d.event, d.args)
    ensures Dispatch(ls, d)[|ls|] == NamedCall(d.event, d.args)
  {
  }

  /** In a round over a duplicate-free registry, each listener is called once iff registered. */
  lemma {:induction false} RoundCallsOnce(ls: seq<ListenerId>, l: ListenerId, event: Option<Json>, args: seq<Json>)
    requires NoDuplicates(ls)
    ensures CallsTo(Round(ls, event, args), l) == if l in ls then 1 else 0
    decreases |ls|
  {
    if ls != [] {
      var front := ls[..|ls| - 1];
      var r := Round(ls, event, args);
      assert r[..|r| - 1] == Round(front, event, args);
      assert ls == front + [ls[|ls| - 1]];
      RoundCallsOnce(front, l, event, args);
    }
  }

  /**
   * A dispatch calls every registered observe-all listener exactly once,
   * and an unregistered one never.
   */
  lemma DispatchCallsOnce(ls: seq<ListenerId>, l: ListenerId, d: Decoded)
    requires NoDuplicates(ls)
    ensures CallsTo(Dispatch(ls, d), l) == if l in ls then 1 else 0
  {
    var r := Dispatch(ls, d);
    assert r[..|r| - 1] == Round(ls, d.event, d.args);
    RoundCallsOnce(ls, l, d.event, d.args);
  }

  /** After `removeAllListener(l)`, no dispatch calls `l`. */
  lemma RemovedNotCalled(ls: seq<ListenerId>, l: ListenerId, d: Decoded)
    requires NoDuplicates(ls)
    ensures CallsTo(Dispatch(Remove(ls, l), d), l) == 0
  {
    DispatchCallsOnce(Remove(ls, l), l, d);
  }

  /** An `error` emission for a line that is not valid JSON. */
  datatype Report = InvalidMessage(line: string)

  /** How handling one line ended. */
  datatype Outcome =
    | Dispatched  // parsed and dispatched
    | Reported    // not JSON; an `error` was emitted
    | Ignored     // not JSON; dropped because of `ignoreNonJson`
    | Threw       // parsed, but the arguments field could not be spread (TypeError)

  /** What handling one line adds to the logs. */
  datatype Reaction = Reaction(calls: seq<Call>, errors: seq<Report>, outcome: Outcome)

  /**
   * `_handle` (index.js:24-44) as a function of the configuration, the
   * registry, the line and what parsing it gave: a parse failure dispatches
   * nothing and reports one error unless `ignoreNonJson`; a parsed message
   * is dispatched once, and never reports an error.
   */
  function Inbound(c: Config, ls: seq<ListenerId>, line: string, parsed: Option<Message>): (r: Reaction)
    ensures parsed.None? ==> r.calls == []
    ensures parsed.None? ==> r.errors == if c.ignoreNonJson then [] else [InvalidMessage(line)]
    ensures parsed.None? ==> r.outcome == if c.ignoreNonJson then Ignored else Reported
    ensures parsed.Some? && Decode(c.eventProperty, c.argumentsProperty, parsed.value).None? ==>
              r.outcome == Threw
    ensures parsed.Some? ==> r.errors == []
    ensures r.outcome == Dispatched <==> r.calls != []
    ensures r.outcome == Dispatched <==>
              parsed.Some? && Decode(c.eventProperty, c.argumentsProperty, parsed.value).Some?
    ensures r.outcome == Dispatched ==>
              r.calls == Dispatch(ls, Decode(c.eventProperty, c.argumentsProperty, parsed.value).value)
  {
    match parsed
    case None =>
      if c.ignoreNonJson then Reaction([], [], Ignored)
      else Reaction([], [InvalidMessage(line)], Reported)
    case Some(m) =>
      match Decode(c.eventProperty, c.argumentsProperty, m)
      case None => Reaction([], [], Threw)
      case Some(d) => Reaction(Dispatch(ls, d), [], Dispatched)
  }

  /** What one `emit` produces: the message written, and the local dispatch. */
  datatype Emission = Emission(message: Message, local: seq<Call>)

  /**
   * `emit` (index.js:56-70): the message is the encoded event; without
   * `emitLocalEvents` nothing is dispatched locally, with it one
   * observe-all round over the message and one named dispatch of the
   * original event and arguments.
   */
  function Outbound(c: Config, ls: seq<ListenerId>, event: string, args: seq<Json>): (r: Emission)
    ensures r.message == Encode(c.eventProperty, c.argumentsProperty, event, args)
    ensures !c.emitLocalEvents ==> r.local == []
    ensures c.emitLocalEvents ==>
              |r.local| == |ls| + 1 && r.local[|ls|] == NamedCall(Some(JString(event)), args)
    ensures c.emitLocalEvents ==>
              var d := Decode(c.eventProperty, c.argumentsProperty, r.message);
              d.Some? && r.local[..|ls|] == Round(ls, d.value.event, d.value.args)
    ensures c.emitLocalEvents && c.eventProperty != c.argumentsProperty ==>
              r.local == Dispatch(ls, Decoded(Some(JString(event)), args))
  {
    var m := Encode(c.eventProperty, c.argumentsProperty, event, args);
    if !c.emitLocalEvents then Emission(m, [])
    else
      var d := Decode(c.eventProperty, c.argumentsProperty, m).value;
      Emission(m, Round(ls, d.event, d.args) + [NamedCall(Some(JString(event)), args)])
  }

  /**
   * Local loopback goes through the same paths as an inbound message: with
   * distinct property names, what `emit` dispatches locally is exactly what
   * handling its own message would dispatch.
   */
  lemma LoopbackMatchesInbound(c: Config, ls: seq<ListenerId>, line: string, event: string, args: seq<Json>)
    requires c.emitLocalEvents && c.eventProperty != c.argumentsProperty
    ensures Outbound(c, ls, event, args).local
            == Inbound(c, ls, line, Some(Outbound(c, ls, event, args).message)).calls
  {
  }

  /** The JSON text codec the engine relies on (`JSON.parse`, `JSON.stringify`). */
  datatype Codec = Codec(parse: string -> Option<Message>, stringify: Message -> string)

  /** The texts of a sequence of messages, as the codec serialises them. */
  function Texts(codec: Codec, ms: seq<Message>): seq<string>
  {
    seq(|ms|, i requires 0 <= i < |ms| => codec.stringify(ms[i]))
  }

  /** `JSON.stringify` without indentation never emits a raw newline. */
  ghost predicate SingleLine(codec: Codec)
  {
    forall m :: '\n' !in codec.stringify(m)
  }

  /**
   * A peer with the same configuration that reads a line `emit` wrote, with
   * a codec that parses back what it serialised, dispatches exactly the
   * event and the arguments that were emitted.
   */
  lemma PeerReceivesEmitted(c: Config, codec: Codec, ls: seq<ListenerId>, event: string, args: seq<Json>)
    requires c.eventProperty != c.argumentsProperty
    requires var m := Encode(c.eventProperty, c.argumentsProperty, event, args);
             codec.parse(codec.stringify(m)) == Some(m)
    ensures var line := codec.stringify(Outbound(c, ls, event, args).message);
            Inbound(c, ls, line, codec.parse(line))
            == Reaction(Dispatch(ls, Decoded(Some(JString(event)), args)), [], Dispatched)
  {
  }

  class JsonEventStreamer {
    const argumentsProperty: string
    const emitLocalEvents: bool
    const eventProperty: string
    const ignoreNonJson: bool
    /** Stands in for `JSON.parse` and `JSON.stringify`. */
    const codec: Codec

    /** The observe-all listeners, in registration order. */
    var allListeners: seq<ListenerId>
    /** Everything written to the transport so far. */
    var written: string
    /** The messages written, in order. */
    ghost var sent: seq<Message>
    /** Every listener invocation so far. */
    var calls: seq<Call>
    /** Every `error` emission so far. */
    var errors: seq<Report>

    function Configured(): Config
    {
      Config(argumentsProperty, emitLocalEvents, eventProperty, ignoreNonJson)
    }

    /** The registry is a set, and the transport holds one line per message sent. */
    ghost predicate Valid()
      reads this
    {
      NoDuplicates(allListeners) && written == Frame(Texts(codec, sent))
    }

    constructor (options: Options, codec: Codec)
      ensures Valid()
      ensures Configured() == Resolve(options) && this.codec == codec
      ensures allListeners == [] && written == "" && sent == [] && calls == [] && errors == []
    {
      var c := Resolve(options);
      argumentsProperty := c.argumentsProperty;
      emitLocalEvents := c.emitLocalEvents;
      eventProperty := c.eventProperty;
      ignoreNonJson := c.ignoreNonJson;
      this.codec := codec;
      allListeners := [];
      written := "";
      sent := [];
      calls := [];
      errors := [];
    }

    /** `_handleAll`: call every observe-all listener, in registration order. */
    method HandleAll(event: Option<Json>, args: seq<Json>)
      modifies this`calls
      ensures calls == old(calls) + Round(allListeners, event, args)
    {
      var i := 0;
      while i < |allListeners|
        invariant 0 <= i <= |allListeners|
        invariant calls == old(calls) + Round(allListeners[..i], event, args)
      {
        assert allListeners[..i + 1][..i] == allListeners[..i];
        calls := calls + [AllCall(allListeners[i], event, args)];
        i := i + 1;
      }
      assert allListeners[..i] == allListeners;
    }

    /** `_handle`: one line delivered by the line splitter. */
    method Handle(line: string) returns (outcome: Outcome)
      requires Valid()
      modifies this`calls, this`errors
      ensures Valid()
      ensures var r := Inbound(Configured(), allListeners, line, codec.parse(line));
              calls == old(calls) + r.calls && errors == old(errors) + r.errors && outcome == r.outcome
    {
      var parsed := codec.parse(line);
      if parsed.None? {
        if !ignoreNonJson {
          errors := errors + [InvalidMessage(line)];
          return Reported;
        }
        return Ignored;
      }
      var decoded := Decode(eventProperty, argumentsProperty, parsed.value);
      if decoded.None? {
        return Threw;
      }
      HandleAll(decoded.value.event, decoded.value.args);
      calls := calls + [NamedCall(decoded.value.event, decoded.value.args)];
      outcome := Dispatched;
    }

    /** `emit(event, ...args)`. */
    method Emit(event: string, args: seq<Json>)
      requires Valid()
      modifies this`written, this`sent, this`calls
      ensures Valid()
      ensures var r := Outbound(Configured(), allListeners, event, args);
              sent == old(sent) + [r.message]
              && written == old(written) + codec.stringify(r.message) + "\n"
              && calls == old(calls) + r.local
    {
      var message := Encode(eventProperty, argumentsProperty, event, args);
      FrameAppend(Texts(codec, sent), codec.stringify(message));
      assert Texts(codec, sent + [message]) == Texts(codec, sent) + [codec.stringify(message)];
      written := written + codec.stringify(message) + "\n";
      sent := sent + [message];
      if emitLocalEvents {
        var decoded := Decode(eventProperty, argumentsProperty, message).value;
        HandleAll(decoded.event, decoded.args);
        calls := calls + [NamedCall(Some(JString(event)), args)];
      }
    }

    /** `onAll(listener)`. */
    method OnAll(listener: ListenerId)
      requires Valid()
      modifies this`allListeners
      ensures Valid()
      ensures allListeners == Add(old(allListeners), listener)
    {
      allListeners := Add(allListeners, listener);
    }

    /** `removeAllListener(listener)`. */
    method RemoveAllListener(listener: ListenerId)
      requires Valid()
      modifies this`allListeners
      ensures Valid()
      ensures allListeners == Remove(old(allListeners), listener)
    {
      allListeners := Remove(allListeners, listener);
    }
  }

  /**
   * Everything the engine wrote splits back into one line per message sent,
   * in order, when the codec never emits a raw newline.
   */
  lemma OutputIsLineFramed(s: JsonEventStreamer)
    requires s.Valid() && SingleLine(s.codec)
    ensures Lines(s.written) == Texts(s.codec, s.sent)
  {
    LinesOfFrame(Texts(s.codec, s.sent));
  }

  /** A line that is not JSON reports one error and dispatches nothing (test/test.js:13-27). */
  method InvalidLineScenario()
  {
    var codec := Codec(line => None, m => "");
    var s := new JsonEventStreamer(NoOptions, codec);
    s.OnAll(1);
    var outcome := s.Handle("test");
    assert outcome == Reported;
    assert s.errors == [InvalidMessage("test")] && s.calls == [];
  }

  /** A listener removed before a message arrives is not called for it (test/test.js:369-385). */
  method RemovedListenerScenario()
  {
    var line := "{\"event\":\"example\"}";
    var example := map["event" := JString("example")];
    var codec := Codec(text => if text == line then Some(example) else None, m => "");
    var s := new JsonEventStreamer(NoOptions, codec);
    s.OnAll(7);
    s.RemoveAllListener(7);
    var outcome := s.Handle(line);
    assert outcome == Dispatched;
    assert s.calls == [NamedCall(Some(JString("example")), [])];
  }

  /** `emitLocalEvents` loops an emitted event back to local listeners (test/test.js:339-358). */
  method LoopbackScenario()
  {
    var codec := Codec(text => None, m => "{\"event\":\"example\"}");
    var s := new JsonEventStreamer(Options(None, Some(true), None, None), codec);
    s.OnAll(3);
    s.Emit("example", []);
    assert s.written == "{\"event\":\"example\"}\n";
    assert s.calls == [AllCall(3, Some(JString("example")), []), NamedCall(Some(JString("example")), [])];
  }
}
