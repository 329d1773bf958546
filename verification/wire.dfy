/**
 * The pure half of the protocol engine: how `emit` builds a wire message
 * from an event name and its arguments (index.js:56-61), and how
 * `_handle` / `_handleAll` read a parsed message back into an event name
 * and an argument list (index.js:39-42, 48-52).
 */
module Wire {
  import opened Wrappers
  import opened Json

  /** Property access `message[key]`; `None` is JavaScript's `undefined`. */
  function Lookup(m: Message, key: string): Option<Json>
  {
    if key in m then Some(m[key]) else None
  }

  /** The test `!message[key]`: the property is absent or holds a falsy value. */
  predicate Falsy(v: Option<Json>)
  {
    v.None? || !Truthy(v.value)
  }

  /** Spreading a string yields one single-character string per character. */
  function Characters(s: string): seq<Json>
  {
    seq(|s|, i requires 0 <= i < |s| => JString([s[i]]))
  }

  /** The text of a sequence of strings joined end to end; other values contribute nothing. */
  function Joined(vs: seq<Json>): string
    decreases |vs|
  {
    if vs == [] then "" else (if vs[0].JString? then vs[0].s else "") + Joined(vs[1..])
  }

  /** Spreading a string loses nothing: joining its one-character strings gives it back. */
  lemma {:induction false} CharactersJoin(s: string)
    ensures Joined(Characters(s)) == s
    decreases |s|
  {
    if s != [] {
      assert Characters(s)[1..] == Characters(s[1..]);
      CharactersJoin(s[1..]);
      assert s == [s[0]] + s[1..];
    }
  }

  /**
   * The spread `...v` of a truthy value: an array gives its elements, a
   * string its characters, and anything else is not iterable, so the
   * spread throws a TypeError (`None`).
   */
  function Spread(v: Json): Option<seq<Json>>
  {
    match v
    case JArray(elems) => Some(elems)
    case JString(s) => Some(Characters(s))
    case _ => None
  }

  /** What one dispatch hands to listeners: the event name and the arguments. */
  datatype Decoded = Decoded(event: Option<Json>, args: seq<Json>)

  /**
   * Reads a parsed message: the event name is whatever sits under
   * `eventProperty` (possibly undefined); an absent or falsy arguments field
   * means no arguments; otherwise the field is spread, which fails for a
   * truthy value that is neither an array nor a string.
   */
  function Decode(eventProperty: string, argumentsProperty: string, m: Message): (r: Option<Decoded>)
    ensures r.Some? ==> r.value.event == Lookup(m, eventProperty)
    ensures argumentsProperty !in m ==> r == Some(Decoded(Lookup(m, eventProperty), []))
    ensures Falsy(Lookup(m, argumentsProperty)) ==> r.Some? && r.value.args == []
    ensures argumentsProperty in m && m[argumentsProperty].JArray? ==>
              r == Some(Decoded(Lookup(m, eventProperty), m[argumentsProperty].elems))
    ensures r.None? <==>
              argumentsProperty in m && Truthy(m[argumentsProperty])
              && !m[argumentsProperty].JArray? && !m[argumentsProperty].JString?
  {
    var event := Lookup(m, eventProperty);
    var field := Lookup(m, argumentsProperty);
    if Falsy(field) then Some(Decoded(event, []))
    else match Spread(field.value)
      case Some(args) => Some(Decoded(event, args))
      case None => None
  }

  /**
   * Builds the message `emit(event, ...args)` writes: the event name under
   * `eventProperty` and, only when there is at least one argument, the
   * argument array under `argumentsProperty` (which overwrites the event
   * name when the two keys are equal). No other key is ever present.
   */
  function Encode(eventProperty: string, argumentsProperty: string, event: string, args: seq<Json>): (m: Message)
    ensures m.Keys == if |args| > 0 then {eventProperty, argumentsProperty} else {eventProperty}
    ensures argumentsProperty in m <==> |args| > 0 || argumentsProperty == eventProperty
    ensures |args| > 0 ==> m[argumentsProperty] == JArray(args)
    ensures eventProperty != argumentsProperty || |args| == 0 ==> m[eventProperty] == JString(event)
  {
    var m := map[eventProperty := JString(event)];
    if |args| > 0 then m[argumentsProperty := JArray(args)] else m
  }

  /**
   * With distinct property names, decoding an encoded message gives back
   * exactly the event name and the arguments, the empty list included.
   */
  lemma RoundTrip(eventProperty: string, argumentsProperty: string, event: string, args: seq<Json>)
    requires eventProperty != argumentsProperty
    ensures Decode(eventProperty, argumentsProperty, Encode(eventProperty, argumentsProperty, event, args))
            == Some(Decoded(Some(JString(event)), args))
  {
  }

  /** Different (event, arguments) pairs never produce the same message. */
  lemma EncodeInjective(eventProperty: string, argumentsProperty: string,
                        e1: string, a1: seq<Json>, e2: string, a2: seq<Json>)
    requires eventProperty != argumentsProperty
    requires Encode(eventProperty, argumentsProperty, e1, a1) == Encode(eventProperty, argumentsProperty, e2, a2)
    ensures e1 == e2 && a1 == a2
  {
  }

  /** Every message `emit` builds can be read back: the spread never throws. */
  lemma EncodedDecodes(eventProperty: string, argumentsProperty: string, event: string, args: seq<Json>)
    ensures Decode(eventProperty, argumentsProperty, Encode(eventProperty, argumentsProperty, event, args)).Some?
  {
  }

  /**
   * With equal property names the arguments overwrite the event name: a
   * non-empty argument list comes back as both the event and the arguments,
   * and with no arguments the event name is spread into its characters.
   */
  lemma CollidingProperties(property: string, event: string, args: seq<Json>)
    ensures |args| > 0 ==>
              Decode(property, property, Encode(property, property, event, args))
              == Some(Decoded(Some(JArray(args)), args))
    ensures |args| == 0 ==>
              Decode(property, property, Encode(property, property, event, args))
              == Some(Decoded(Some(JString(event)), Characters(event)))
  {
    if event == "" {
      assert Characters(event) == [];
    }
  }
}
