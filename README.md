# Chat component synchronisation state, in Dafny

This project models the state behind the `ChatApp` React component
(`components/ChatApp.tsx`). The component is a two-party chat client on a
socket.io connection, and the model covers its two pieces of state:

- **Connection status.** It is a pair `(isConnected, transport)`. It starts as
  `(false, "N/A")`. The socket's `connect` event sets it to `(true, k)`, where
  `k` is the engine's transport name. `disconnect` sets it back to
  `(false, "N/A")`. The engine's `upgrade` event replaces only the transport.
  Its listener is installed inside the connect handler, so it does nothing
  before the first connect. The header shows `Connected via <transport>` or
  `Disconnected`.
- **Message log.** It is an append-only sequence of
  `Message(id, sender, content, timestamp)`. It has two producers:
  - A submit of the input field is dropped when the text is blank after
    JavaScript's `trim`. Otherwise it emits the text as typed, appends a `You`
    entry and clears the input.
  - Every inbound `message` payload appends a `Stranger` entry.

  Either way the new entry's id is the old length plus one.

Files:

- `JsString.dfy` (module `JsString`): `String.prototype.trim` and the "is the
  trimmed text empty" guard. Whitespace follows the ECMAScript WhiteSpace and
  LineTerminator sets.
- `ChatState.dfy` (module `ChatState`): the state as a value.
  - `Chat` holds the state. `Event` lists the events.
  - `Step` gives each handler's effect. `Run` applies a sequence of events.
  - `Inv` is the invariant every reachable state keeps.
  - The lemmas about any interleaving of events live here too.
- `ChatApp.dfy` (module `ChatApp`): class `ChatSession`. Its fields are the
  component's state variables. Each event handler is a method that overwrites
  them. Each method states its new field values and also
  `State() == Step(old(State()), e)`, which ties it to the lemmas in
  `ChatState`.

Two points where the code does less than one might expect:

- **Upgrade after a disconnect.** The upgrade listener is registered in
  `onConnect` and never removed, so after connect and then disconnect an
  upgrade still rewrites `transport`. The model keeps that flag
  (`upgradeRegistered`). `DropStaleUpgradeStep` is the alternative tracker
  that drops an upgrade while disconnected. `StaleUpgradeUnobservable` proves
  the two cannot be told apart: the header label, log, input and emitted
  payloads always agree.
- **Blank contents.** Only local entries are guarded against blank text. An
  inbound `""` is logged as it arrives, and the model does the same.

## Model

| member | source | states |
|---|---|---|
| `JsString.IsJsWhitespace` | components/ChatApp.tsx:82 | The characters `trim()` strips: the ECMAScript WhiteSpace and LineTerminator sets. |
| `JsString.ContentStart` | components/ChatApp.tsx:82 | The index where the content begins. Every character before it is whitespace, and the character at it is not. If there is none, it is the length. |
| `JsString.ContentEnd` | components/ChatApp.tsx:82 | The index just past the content. Every character from it to the end is whitespace, and the character before it is not. |
| `JsString.Trim` | components/ChatApp.tsx:82 | `trim()` is no longer than its input. It neither starts nor ends with whitespace. |
| `JsString.TrimBounds` | components/ChatApp.tsx:82 | `trim()` is the slice `s[lo..hi]`. Everything before `lo` and everything from `hi` on is whitespace. |
| `JsString.TrimCutsOnlyWhitespace` | components/ChatApp.tsx:82 | The input is some whitespace, then `trim()`'s result, then some more whitespace. With `Trim`'s non-whitespace ends, this determines the result. |
| `JsString.IsBlank` | components/ChatApp.tsx:82 | The send guard: the text is blank when its trimmed form is empty, the one falsy string. |
| `JsString.BlankIffAllWhitespace` | components/ChatApp.tsx:82 | The send guard `text.trim()` is falsy exactly when the text is all whitespace, `""` included. |
| `JsString.BlankExamples` | components/ChatApp.tsx:82 | `""` and `"   "` are blank. `"hi"` is not. |
| `ChatState.Append` | components/ChatApp.tsx:64-67 | Admitting an entry keeps the old log as a prefix. The new entry goes last with id old length + 1. Ids 1..N stay 1..N. The local contents grow by the content exactly when the sender is `You`. |
| `ChatState.Initial` | components/ChatApp.tsx:24-32 | The mount state: empty log, empty input, disconnected over "N/A", no upgrade listener, nothing emitted. |
| `ChatState.Step` | components/ChatApp.tsx:39-95 | The effect of each handler on the state: connect, disconnect, upgrade, inbound message, input edit and submit. |
| `ChatState.StatusLabel` | components/ChatApp.tsx:102 | The label reads "Disconnected" exactly when not connected. When connected, it is "Connected via " followed by the transport. |
| `ChatState.RunConcat` | components/ChatApp.tsx:34-95 | Handling one sequence of events and then another gives the same state as handling their concatenation. |
| `ChatState.InitialInv` | components/ChatApp.tsx:24-32 | The mount state (empty log, disconnected, "N/A", no upgrade listener, empty input, nothing emitted) satisfies the invariant. |
| `ChatState.StepKeepsInv` | components/ChatApp.tsx:39-95 | Every handler keeps the invariant. Ids stay 1..N. Local entries stay exactly the emitted payloads, in order. No local entry is blank. Without an upgrade listener the status is still `(false, "N/A")`. |
| `ChatState.RunKeepsInv` | components/ChatApp.tsx:39-95 | Any sequence of events keeps the invariant. |
| `ChatState.IdsAreOneToN` | components/ChatApp.tsx:62-95 | From mount, any interleaving of sends, receipts and status events leaves ids exactly 1..N in order. The local entries equal the emitted payloads. |
| `ChatState.StepEffectOnLog` | components/ChatApp.tsx:62-95 | One event never changes existing entries and adds at most one. Only an inbound payload or an accepted send adds one, and only a submit emits. Status events leave the log, input and emitted payloads alone. |
| `ChatState.RunExtendsLog` | components/ChatApp.tsx:62-95 | Over any sequence of events, the earlier log is a prefix of the later one. |
| `ChatState.LogGrowthAccounted` | components/ChatApp.tsx:62-95 | Over any sequence of events, the log grows by exactly the number of inbound payloads plus the number of payloads emitted. |
| `ChatState.StatusChurnKeepsLog` | components/ChatApp.tsx:39-51 | Any run of connects, disconnects and upgrades leaves the log, emitted payloads and input unchanged. |
| `ChatState.StepIndistinguishable` | components/ChatApp.tsx:43-45 | One event keeps the component (upgrade listener never removed) observably equal to a tracker that drops upgrades while disconnected. |
| `ChatState.StaleUpgradeUnobservable` | components/ChatApp.tsx:39-51 | Along any sequence of events, the component and the tracker that drops stale upgrades agree on the label, log, input and emitted payloads. |
| `ChatState.UpgradeBeforeConnectIgnored` | components/ChatApp.tsx:39-45 | An upgrade before the first connect changes nothing. After connect, disconnect, upgrade, the label is "Disconnected" although the transport was rewritten. |
| `ChatState.NoConnectNoListener` | components/ChatApp.tsx:39-45 | Without a connect the upgrade listener is never installed. The status stays `(false, "N/A")`. |
| `ChatState.UpgradeIgnoredUntilConnect` | components/ChatApp.tsx:39-45 | After any sequence of events without a connect, an upgrade changes nothing and the label reads "Disconnected". |
| `ChatState.ReconnectScenario` | components/ChatApp.tsx:39-51 | From any state, disconnect/connect `k1`/upgrade `k2` ends connected over `k2`. Connect `k1`/disconnect/connect `k2` ends connected over `k2` with the log unchanged. |
| `ChatState.EndToEndScenario` | components/ChatApp.tsx:62-95 | Connect, type and send non-blank text, receive a payload: the log is `[{1, You, text}, {2, Stranger, payload}]`, exactly `[text]` was emitted, and the input is `""`. |
| `ChatState.BlankScenario` | components/ChatApp.tsx:82 | Submitting `""` or `"   "` changes nothing. Submitting `"hi"` adds one entry. An inbound `""` adds one entry. |
| `ChatApp.ChatSession.Label` | components/ChatApp.tsx:102 | The header label of the current state is `StatusLabel` of its fields. It reads "Disconnected" exactly when not connected, and otherwise "Connected via " followed by the transport. |
| `ChatApp.ChatSession.constructor` | components/ChatApp.tsx:24-32 | Mount state: empty log, disconnected over "N/A", no upgrade listener, empty input, nothing emitted. The invariant holds. |
| `ChatApp.ChatSession.Mount` | components/ChatApp.tsx:34-37 | If the socket is already connected at subscription, the connect handler runs at once. Otherwise nothing changes. |
| `ChatApp.ChatSession.OnConnect` | components/ChatApp.tsx:39-46 | Sets connected over `kind` and installs the upgrade listener. The log, input and emitted payloads are unchanged. |
| `ChatApp.ChatSession.OnDisconnect` | components/ChatApp.tsx:48-51 | Sets disconnected with transport "N/A". The upgrade listener stays. Nothing else changes. |
| `ChatApp.ChatSession.OnUpgrade` | components/ChatApp.tsx:43-45 | Replaces only the transport, and only once the listener exists. Connection state never changes. While disconnected the label stays "Disconnected". |
| `ChatApp.ChatSession.OnInbound` | components/ChatApp.tsx:62-73 | Any payload, `""` included, is appended verbatim as one `Stranger` entry with id old length + 1. Nothing else changes. |
| `ChatApp.ChatSession.EditInput` | components/ChatApp.tsx:144 | The pending input becomes the field's text. Nothing else changes. |
| `ChatApp.ChatSession.SendText` | components/ChatApp.tsx:80-95 | Blank input changes nothing. Otherwise the untrimmed input is emitted once and appended as one `You` entry with id old length + 1, and the input becomes `""`. The status is untouched. |

## Left out

- Socket I/O is not modelled directly. This covers `io()`, `socket.on`,
  `socket.off`, `socket.emit` and reading `socket.io.engine.transport.name`.
  Transport names arrive as method arguments. Emitting is recorded in the
  ghost sequence `outbound`.
- The React lifecycle is left out. This covers `useState`, subscribing and
  unsubscribing in `useEffect`, and re-registering the `'message'` listener
  each time `messages` changes (lines 62-78). That re-registration is closure
  and render timing, not state logic. The model has one listener that applies
  each payload to the current log, one event at a time. The stale-closure and
  duplicate-listener behaviour it could cause in between renders is not
  captured.
- Each connect registers one more upgrade listener (line 43), so several may
  be installed. They all write the same value, so a single flag
  (`upgradeRegistered`) stands for them.
- Timestamps are not modelled. `new Date().toLocaleTimeString(...)` reads the
  clock and formats it for the locale. Each timestamp is opaque text passed
  in by the caller.
- `e.preventDefault()` and all JSX/MUI layout and styling are left out. That
  includes the `"Chat App - "` prefix of the header and the per-sender colours
  and alignment. Only the status text at line 102 is modelled.
- Strings are modelled as sequences of Unicode scalar values, not UTF-16 code
  units. Every character `trim` strips is in the Basic Multilingual Plane, so
  the guard is unaffected.
