# json-event-stream: a Dafny model of `JsonEventStreamer`

This project models the protocol engine of json-event-stream. The engine
(`JsonEventStreamer` in `index.js`) turns named events with positional
arguments into one JSON object per line on a duplex stream. It also turns
the lines it reads back into event dispatch.

- `wrappers.dfy` (`Wrappers`): `Option`, which stands for JavaScript's `undefined`.
- `json.dfy` (`Json`): JSON values. Numbers are opaque tokens; the engine only asks whether one is zero. It also defines JavaScript truthiness and `Message`, a parsed JSON object.
- `wire.dfy` (`Wire`): the pure parts of the engine. `Encode` is how `emit` builds a message. `Decode` is how `_handle` and `_handleAll` read one back: the property lookups, the falsy-arguments test and the spread `...message[argumentsProperty]`.
- `registry.dfy` (`Registry`): the observe-all `Set` as a duplicate-free sequence in insertion order, with `Add` and `Remove`.
- `framing.dfy` (`Framing`): one serialised message plus `"\n"` per write, and a newline splitter that recovers the lines.
- `streamer.dfy` (`Streamer`):
  - the constructor's options and defaults;
  - the log of listener invocations;
  - `Inbound` and `Outbound`, the specification functions of `_handle` and `emit`;
  - the class `JsonEventStreamer`. Its configuration is immutable (`const` fields). It keeps the registry, the text written to the transport, the call log and the error log. `Handle`, `HandleAll`, `Emit`, `OnAll` and `RemoveAllListener` are proved against the specification functions.
  - three client scenarios that follow the repository's tests.

The transport is replaced by the `written` text. `JSON.parse` and
`JSON.stringify` are replaced by a `Codec` given at construction. Each
inherited `super.emit(event, ...args)` is recorded as one `NamedCall`, and
each `error` emission as one `InvalidMessage` report.

In these edge cases the model follows the code:

- Any falsy arguments field means "no arguments", not only an absent one: `null`, `false`, `0` or `""`.
- A truthy string in the arguments field is spread into one-character strings.
- Any other truthy non-array (`true`, a non-zero number, an object) makes the spread throw a TypeError. The model's outcome is then `Threw`, and nothing is dispatched.
- With `emitLocalEvents`, the observe-all round reads the encoded message, but the named dispatch uses the original `event` and `args` (index.js:66 and 68). The two agree when `eventProperty != argumentsProperty` (`LoopbackMatchesInbound`).
- When the two property names are equal, the argument array overwrites the event name (`CollidingProperties`).

## Model

| member | source | states |
|---|---|---|
| `Wire.Encode` | index.js:56-61 | The event name sits under `eventProperty`. The arguments key is present iff there are arguments (or the two keys coincide), and then holds the argument array in order. No other key is present. |
| `Wire.Decode` | index.js:39-42 | The event is whatever sits under `eventProperty`, possibly undefined. An absent or falsy arguments field gives no arguments, and an array gives its elements. Decoding fails (the spread throws) iff the field is truthy and neither an array nor a string. |
| `Wire.CharactersJoin` | index.js:51 | Spreading a string into one-character strings (the arguments field as a truthy string) loses nothing: joining them gives the string back. |
| `Wire.RoundTrip` | index.js:39-61 | With distinct property names, decoding an encoded message gives back the event name and exactly the arguments, including none. |
| `Wire.EncodeInjective` | index.js:57-61 | With distinct property names, distinct (event, arguments) pairs give distinct messages. |
| `Wire.EncodedDecodes` | index.js:65-66 | The local observe-all round over an emitted message never throws. |
| `Wire.CollidingProperties` | index.js:57-61 | With equal property names, arguments replace the event name. With no arguments, the event name is spread into characters. |
| `Registry.Add` | index.js:72-74 | `onAll` of a registered listener changes nothing. A new listener is appended after all existing ones. The set stays duplicate-free. |
| `Registry.Remove` | index.js:76-78 | `removeAllListener` removes exactly that listener. Removing an unregistered one is a no-op. The set stays duplicate-free. |
| `Registry.RemoveKeepsOrder` | index.js:76-78 | Removing a listener keeps every other listener in its relative order. |
| `Registry.AddThenRemove` | index.js:72-78 | Registering a new listener and removing it restores the registry exactly. |
| `Registry.AddIdempotent` | index.js:72-74 | Registering the same listener twice is registering it once. |
| `Framing.FrameAppend` | index.js:63 | Each write appends exactly the serialised message and one newline. |
| `Framing.LinesOfFrame` | index.js:63 | Splitting the written text at newlines recovers the serialised messages one per line, in order, when none of them contains a newline. |
| `Streamer.Resolve` | index.js:5-17 | Each option given is taken as is. Each option omitted keeps its own default (`arguments`, `false`, `event`, `false`), whatever the other options are. |
| `Streamer.Round` | index.js:46-54 | An observe-all round calls each registered listener once, in registration order, with the same event and arguments. |
| `Streamer.DispatchOrder` | index.js:37-43 | A dispatch makes all observe-all calls first, then one named dispatch, all with the same event and arguments. |
| `Streamer.RoundCallsOnce` | index.js:46-54 | Over a duplicate-free registry, a round calls a listener once if it is registered and never otherwise. |
| `Streamer.DispatchCallsOnce` | index.js:37-53 | A dispatch calls every registered observe-all listener exactly once and an unregistered one never. |
| `Streamer.RemovedNotCalled` | index.js:76-78 | After `removeAllListener(l)`, no dispatch calls `l`. |
| `Streamer.Inbound` | index.js:24-44 | A line that fails to parse dispatches nothing and never throws. It reports exactly one error (outcome `Reported`) iff `ignoreNonJson` is false, and is otherwise `Ignored`. A parsed message reports no error. It is dispatched iff its arguments field can be read, and then exactly as `Dispatch` says; otherwise the outcome is `Threw`. |
| `Streamer.Outbound` | index.js:56-70 | The written message is the encoded event. Without `emitLocalEvents`, nothing is dispatched locally. With it, there is one observe-all round over the registry, in order, with the event and arguments read back from the message, then one named dispatch of the emitted event and arguments. |
| `Streamer.LoopbackMatchesInbound` | index.js:65-69 | With distinct property names, local loopback dispatches exactly what receiving the emitted message would. |
| `Streamer.PeerReceivesEmitted` | index.js:27-63 | A peer with the same configuration reads the line `emit` wrote, using a codec that parses back what it serialised. It dispatches exactly the emitted event and arguments, with no error. |
| `Streamer.OutputIsLineFramed` | index.js:63 | The engine's whole output splits into one line per message sent, in order. |
| `Streamer.JsonEventStreamer.constructor` | index.js:5-19 | The configuration is the resolved options, the registry is empty and nothing has been written or dispatched. |
| `Streamer.JsonEventStreamer.HandleAll` | index.js:46-54 | Appends exactly one observe-all round over the current registry to the call log. |
| `Streamer.JsonEventStreamer.Handle` | index.js:24-44 | The call log, the error log and the outcome change exactly as `Inbound` says. The registry, configuration and output are unchanged. |
| `Streamer.JsonEventStreamer.Emit` | index.js:56-70 | Appends exactly one line, the serialised encoded message followed by `"\n"`. The call log grows by exactly `Outbound`'s local dispatch. The registry and error log are unchanged. |
| `Streamer.JsonEventStreamer.OnAll` | index.js:72-74 | The registry becomes `Add` of the old one. Nothing else changes. |
| `Streamer.JsonEventStreamer.RemoveAllListener` | index.js:76-78 | The registry becomes `Remove` of the old one. Nothing else changes. |

## Left out

- The transport stream is replaced by an output text and lines handed to `Handle`. Construction-time subscription through `byline` is not modelled: it is I/O and a foreign library.
- Line splitting: `Framing.Lines` splits at `"\n"` only. `byline` also splits at `"\r\n"`, `"\r"` and other Unicode line terminators, and by default skips empty lines, so a blank line never reaches `_handle` and never produces an error. None of this is modelled.
- `OutputIsLineFramed`: its hypothesis `SingleLine` (no `'\n'` in serialised text) is weaker than what a `byline` peer needs. `JSON.stringify` writes U+0085, U+2028 and U+2029 unescaped, and `byline` splits at them, so a string argument holding one of them reaches such a peer as two lines. `PeerReceivesEmitted` likewise hands the peer the serialised text as one whole line.
- `JSON.parse` and `JSON.stringify` are an abstract `Codec`. Their text format is not modelled. That the serialiser emits no raw newline (`SingleLine`) and parses back what it wrote are hypotheses of the lemmas that need them.
- Top-level JSON values that are not objects (`null`, numbers, strings, arrays) are not modelled: `Codec.parse` yields objects only. Property lookups that reach `Object.prototype` (`__proto__`, `toString`) are not modelled either.
- Numbers are opaque tokens; the engine only asks whether one is zero. Floating point is out of scope.
- Node's `EventEmitter` is not modelled: named subscriptions, `newListener` events, and the throw when `error` has no listener. Each `super.emit` is one logged call. The `error` payload is represented by the offending line.
- What listener callbacks do is not modelled: their exceptions, re-entrant `emit`/`onAll`/`removeAllListener` during a round, and a `Set` modified while it is being iterated.
- What happens to the TypeError that escapes the stream's `data` handler (outcome `Threw`) is not modelled.
- `SerializationFailure` cannot occur: every `Json` value is serialisable, and values such as BigInt or cyclic objects have no counterpart in the model.
- `Emit` takes the event name as a string. Non-string event values such as `undefined` are not modelled.
- The four configuration fields are `const`. JavaScript callers could reassign these public properties, but the engine itself never does.
- Strings are sequences of Unicode scalar values, so lone surrogates are not modelled.
