# Voice assistant call session

A model of the call session inside the `VoiceAssistant` React component
(`src/components/VoiceAssistant.tsx`). The component holds a voice call with a
backend over a WebSocket. It records the microphone in 250 ms chunks and sends
each chunk base64-encoded as `{type: 'audio_chunk', data}`. It plays every
`{type: 'tts_chunk', data}` it receives as a WAV clip. Every non-empty chunk
sent while the socket is open first cuts off the clip that is playing. This
happens for every 250 ms chunk, whether it holds speech or silence: nothing in
the code detects speech. Hanging up releases the recorder,
the microphone tracks, the socket and the clip, then calls the page's
`onCallEnd`.

The project has five files:

- `wrappers.dfy`: `Option`.
- `base64.dfy`: `btoa` and `atob` as the browser defines them. The encoding is
  the base64 alphabet and padding of section 4 of RFC 4648. `atob` follows the
  forgiving-base64 decode of the HTML standard: it strips ASCII whitespace,
  strips one or two trailing `=` when the length is a multiple of four, and
  rejects a length of 1 modulo 4 or a character outside the alphabet. Also
  here: `String.fromCharCode(...bytes)` and the copy loop that fills the
  `Uint8Array` from the decoded string. The lemmas prove that decoding undoes
  encoding for every byte sequence.
- `call_session.dfy`: the session as a value (`SessionState`), with one
  transition function per handler. The value holds:
  - the four state flags (`isRecording`, `isConnected`, `isPlaying`, `error`);
  - the four ref slots that are ever assigned (socket with its ready-state,
    recorder, stream, current clip);
  - a counter that gives every browser object it creates a fresh identity;
  - the trace of calls the component makes into the browser and the page
    (pause, play, open, send, close, request the microphone, start and stop
    the recorder, stop a track, `onCallEnd`).

  `Next` applies any event. `Run` applies a sequence of events. `Possible`
  says which events a browser can deliver: a socket event needs a socket that
  was opened, a recorder event needs a recorder that was started, and a clip
  event needs a clip that was played. Besides the handlers, there is one
  browser step, a socket moving to CLOSING when the server starts the closing
  handshake. No handler runs for it, but `ondataavailable` reads it.
- `voice_assistant.dfy`: the component as a class. Its fields are the hooks
  and refs. It has one method per handler, updating the fields step by step as
  the component does. Each method is proved to end in the state the matching
  transition function gives. The base64 decode loop fills an `array`. The
  `forEach` over the tracks is a loop.
- `call_session_properties.dfy`: what the handlers guarantee, one at a time,
  over every event, and over runs of events.

Browser outcomes are inputs to the model:

- whether `new WebSocket(url)` throws, and with what text;
- how far `setupRecording` gets (`getUserMedia` rejects, the `MediaRecorder`
  constructor throws, `start` throws, or capture runs);
- the ids of the granted stream's tracks;
- whether `audio.play()` resolves;
- the message that `JSON.parse` produced, or `None` when it throws.

The model follows the code, including where a reader might expect otherwise:

- `endCall` does not clear `mediaRecorderRef`. The recorder slot keeps the
  stopped recorder.
- `startCall` has no "already in a call" guard. A second call opens a second
  socket and drops the first one from the slot without closing it. This is a
  fact about the function. The shipped component calls `startCall` only from
  its mount effect (lines 230-239, empty dependency list), so the page never
  makes a second call without an `endCall` between them. `Possible` still lets
  `CallStart` happen at any time.
- `onCallEnd` is called on every `endCall`, not once.
- Nothing ever reconnects.
- A chunk that cannot be sent is dropped without any report.

## Model

Each handler appears twice. `CallSession.X` is a function on the session value
and serves as the specification. `VoiceAssistantComponent.VoiceAssistant.X` is
the class method that updates the fields. Each method's `ensures` says its new
`State()` is `CallSession.X` of the old one. The property lemmas in
`CallSessionProperties` are stated about the `CallSession` functions, so they
describe the methods too. A method's source lines are also those of the function
with the same name.

| member | source | states |
|---|---|---|
| `VoiceAssistantComponent.VoiceAssistant.constructor` | src/components/VoiceAssistant.tsx:10-23 | The URL defaults to `ws://localhost:8080`. Every flag starts false, the error and every slot start null, and no call has been made. |
| `VoiceAssistantComponent.VoiceAssistant.StopCurrentAudio` | src/components/VoiceAssistant.tsx:26-33 | Pauses and rewinds the current clip, empties the slot and clears `isPlaying`. With no clip it changes nothing. |
| `VoiceAssistantComponent.VoiceAssistant.PlayAudio` | src/components/VoiceAssistant.tsx:36-74 | Cancels the old clip, decodes the payload, installs a fresh clip holding the decoded bytes, and plays it. A failed decode or a rejected `play()` leaves `isPlaying` false. |
| `VoiceAssistantComponent.VoiceAssistant.OnClipEnded` | src/components/VoiceAssistant.tsx:56-60 | Clears `isPlaying` and the current slot. |
| `VoiceAssistantComponent.VoiceAssistant.OnClipError` | src/components/VoiceAssistant.tsx:62-67 | Clears `isPlaying` and the current slot. |
| `VoiceAssistantComponent.VoiceAssistant.SetupWebSocket` | src/components/VoiceAssistant.tsx:77-124 | In demo mode it sets the demo error only. Otherwise it either stores a new connecting socket or sets the constructor's error. |
| `VoiceAssistantComponent.VoiceAssistant.OnSocketOpen` | src/components/VoiceAssistant.tsx:90-94 | Connects, clears the error, and marks that socket OPEN. |
| `VoiceAssistantComponent.VoiceAssistant.OnSocketMessage` | src/components/VoiceAssistant.tsx:96-107 | Plays the `data` of a `tts_chunk` message that has data. Anything else, or a parse failure, changes nothing. |
| `VoiceAssistantComponent.VoiceAssistant.SocketStartsClosing` | src/components/VoiceAssistant.tsx:147 | The browser's move of that socket to CLOSING, which the OPEN test of `ondataavailable` reads. Nothing else changes. |
| `VoiceAssistantComponent.VoiceAssistant.OnSocketClose` | src/components/VoiceAssistant.tsx:109-112 | Disconnects and marks that socket CLOSED. The error is kept. |
| `VoiceAssistantComponent.VoiceAssistant.OnSocketError` | src/components/VoiceAssistant.tsx:114-118 | Disconnects and sets the connection error. |
| `VoiceAssistantComponent.VoiceAssistant.SetupRecording` | src/components/VoiceAssistant.tsx:127-182 | Requests the microphone, stores the stream, stores the recorder and starts it with a 250 ms timeslice. A failure at any step sets the microphone error. |
| `VoiceAssistantComponent.VoiceAssistant.OnDataAvailable` | src/components/VoiceAssistant.tsx:146-163 | A non-empty chunk on an OPEN socket cancels playback and is sent as one `audio_chunk`. Any other chunk changes nothing. |
| `VoiceAssistantComponent.VoiceAssistant.OnRecorderStart` | src/components/VoiceAssistant.tsx:165-168 | Sets `isRecording`. |
| `VoiceAssistantComponent.VoiceAssistant.OnRecorderStop` | src/components/VoiceAssistant.tsx:170-173 | Clears `isRecording`. |
| `VoiceAssistantComponent.VoiceAssistant.StartCall` | src/components/VoiceAssistant.tsx:185-188 | Sets up the socket, then recording. |
| `VoiceAssistantComponent.VoiceAssistant.StopEachTrack` | src/components/VoiceAssistant.tsx:199 | Stops every track of the stream once, in order. |
| `VoiceAssistantComponent.VoiceAssistant.StopRecording` | src/components/VoiceAssistant.tsx:193-195 | Stops the recorder only when there is one and `isRecording` is set. |
| `VoiceAssistantComponent.VoiceAssistant.ReleaseStream` | src/components/VoiceAssistant.tsx:198-201 | Stops the tracks and empties the stream slot. |
| `VoiceAssistantComponent.VoiceAssistant.ReleaseSocket` | src/components/VoiceAssistant.tsx:204-207 | Closes the socket and empties its slot. |
| `VoiceAssistantComponent.VoiceAssistant.EndCall` | src/components/VoiceAssistant.tsx:191-227 | Runs the three release blocks, then cancels playback, resets the flags and the error, and calls `onCallEnd` when given. |
| `CallSession.StopTracks` | src/components/VoiceAssistant.tsx:199 | Exactly one `stop()` per track, with the i-th call stopping the i-th track. |
| `Base64.FromCharCodes` | src/components/VoiceAssistant.tsx:153 | `String.fromCharCode(...bytes)`: one character per byte, whose code is that byte. |
| `Base64.BinaryStringToBytes` | src/components/VoiceAssistant.tsx:42-47 | Gives a fresh buffer as long as the decoded string, whose byte i is the char code of character i. |
| `Base64.Btoa` | src/components/VoiceAssistant.tsx:153 | `btoa` succeeds exactly when every character code is at most 255. |
| `Base64.Atob` | src/components/VoiceAssistant.tsx:42 | Whatever `atob` returns is a binary string (every code at most 255). |
| `Base64.StripWhitespace` | src/components/VoiceAssistant.tsx:42 | The decoder's whitespace strip leaves no ASCII whitespace, never lengthens the input, and keeps every other character as often as the input has it. |
| `Base64.StripWhitespaceAppend` | src/components/VoiceAssistant.tsx:42 | The strip works piecewise, so the surviving characters keep their order. With the clause above, the result is the input with its whitespace removed. |
| `Base64.EncodeTestVectorsOneGroup` | src/components/VoiceAssistant.tsx:153 | `btoa` gives the RFC 4648 section 10 results for "", "f", "fo" and "foo". |
| `Base64.EncodeFoob` | src/components/VoiceAssistant.tsx:153 | `btoa("foob")` is `"Zm9vYg=="`, as in section 10 of RFC 4648. |
| `Base64.EncodeFooba` | src/components/VoiceAssistant.tsx:153 | `btoa("fooba")` is `"Zm9vYmE="`, as in section 10 of RFC 4648. |
| `Base64.EncodeFoobar` | src/components/VoiceAssistant.tsx:153 | `btoa("foobar")` is `"Zm9vYmFy"`, as in section 10 of RFC 4648. |
| `Base64.Sextet` | src/components/VoiceAssistant.tsx:42 | The value of a base64 character is the inverse of the alphabet that `btoa` uses. |
| `Base64.DecodeEncodeBody` | src/components/VoiceAssistant.tsx:42 | Decoding the unpadded base64 text of any byte sequence gives those bytes back. |
| `Base64.AtobOfEncode` | src/components/VoiceAssistant.tsx:42 | `atob` of the padded encoding of any bytes is the binary string of those bytes. |
| `Base64.RoundTrip` | src/components/VoiceAssistant.tsx:42-47 | `btoa(String.fromCharCode(...bytes))` is the encoding of the bytes. `atob` of it, copied into a buffer, is the same bytes. |
| `CallSessionProperties.StopCurrentAudioCancels` | src/components/VoiceAssistant.tsx:26-33 | No clip is current afterwards. A present clip is paused and `isPlaying` cleared. With no clip nothing changes. A second call changes nothing. |
| `CallSessionProperties.PlayAudioReplacesClip` | src/components/VoiceAssistant.tsx:36-74 | The old clip is paused before the new one plays. The new clip is a different object and holds the decoded bytes. `isPlaying` is the outcome of `play()`. A rejected payload leaves no clip and `isPlaying` false. The invariant is kept. |
| `CallSessionProperties.ClipHandlersClear` | src/components/VoiceAssistant.tsx:56-67 | `onended` and `onerror` leave no clip and `isPlaying` false, and change nothing else. |
| `CallSessionProperties.EchoedChunkPlaysCapturedBytes` | src/components/VoiceAssistant.tsx:153-158 | A sent chunk that the server echoes back as `tts_chunk` is played with exactly the captured bytes. |
| `CallSessionProperties.SetupWebSocketOutcomes` | src/components/VoiceAssistant.tsx:79-123 | An empty or default URL creates no socket and only sets the demo error. A throw sets the prefixed error. Otherwise the whole new state is the old one plus a connecting socket in the slot, the counter moved on, and one `OpenSocket` call. |
| `CallSessionProperties.SocketEventsNeverReconnect` | src/components/VoiceAssistant.tsx:90-118 | `onopen` connects and clears the error. `onclose` disconnects and keeps the error. `onerror` disconnects and sets the error. None of them calls the browser, and none replaces the socket in the slot with another. |
| `CallSessionProperties.MessageDispatch` | src/components/VoiceAssistant.tsx:96-107 | Playback starts only for a parsed `tts_chunk` with non-empty `data`. Every other message, and a parse failure, leaves the state unchanged. |
| `CallSessionProperties.SetupRecordingOutcomes` | src/components/VoiceAssistant.tsx:127-182 | A refused microphone stores neither stream nor recorder and sets the error. Any failure sets the error. Success stores both and starts the recorder at 250 ms. Setup never sets `isRecording`. |
| `CallSessionProperties.MicrophoneDeniedScenario` | src/components/VoiceAssistant.tsx:178-181 | A call started with the microphone refused records nothing, stores no stream or recorder, and shows the microphone error. |
| `CallSessionProperties.RecordingFlagFollowsRecorder` | src/components/VoiceAssistant.tsx:165-173 | Over every event, `isRecording` becomes true only by `onstart`, and false only by `onstop` or `endCall`. |
| `CallSessionProperties.ChunkSendCancelsPlayback` | src/components/VoiceAssistant.tsx:146-163 | Every non-empty chunk on an OPEN socket cancels the current clip, speech or not. A chunk is sent only when it is non-empty and the socket is OPEN. The pause comes before the one send, and the send carries the chunk's base64. Otherwise the chunk is dropped and nothing changes. |
| `CallSessionProperties.ChunksGoOutInOrder` | src/components/VoiceAssistant.tsx:146-176 | In the call started at mount, connected and recording with no clip, every non-empty chunk goes out as one message, in capture order, and every empty chunk is dropped without a message. |
| `CallSessionProperties.HappyPath` | src/components/VoiceAssistant.tsx:185-188 | Start, socket open, recorder start, then chunks: the events are feasible, the call is connected and recording, and the trace is open, microphone, recorder at 250 ms, then one message per non-empty chunk, in capture order. |
| `CallSessionProperties.EndCallResets` | src/components/VoiceAssistant.tsx:191-227 | The whole state after `endCall`. Stream, socket and clip slots are empty. Flags are false and the error is null. The recorder slot is kept. The trace grows by the teardown calls. |
| `CallSessionProperties.EndCallTearsDown` | src/components/VoiceAssistant.tsx:191-227 | Teardown order: recorder stop (only when recording), each track, socket close, clip pause, then `onCallEnd` last and once when given. Each call releases something held, and everything held is released. |
| `CallSessionProperties.EndCallTwice` | src/components/VoiceAssistant.tsx:224-226 | A second `endCall` leaves the same state and calls `onCallEnd` again. |
| `CallSessionProperties.ChunkAfterEndCallDropped` | src/components/VoiceAssistant.tsx:147 | A chunk delivered after `endCall` is dropped, because the socket slot is empty. |
| `CallSessionProperties.LateSocketErrorAfterEndCall` | src/components/VoiceAssistant.tsx:114-118 | The socket's handlers stay attached after `endCall`, so a late `onerror` shows the connection error again. |
| `CallSessionProperties.ClosingSocketDropsChunks` | src/components/VoiceAssistant.tsx:147 | After the socket in the slot has moved to CLOSING and before `onclose`, a captured chunk is dropped: no pause and no send. |
| `CallSessionProperties.StartCallHasNoGuard` | src/components/VoiceAssistant.tsx:185-188 | With a real URL, a second `startCall` puts a new socket in the slot without closing the old one. |
| `CallSessionProperties.InvInitial` | src/components/VoiceAssistant.tsx:14-23 | The mount state keeps the invariant. |
| `CallSessionProperties.InvPreserved` | src/components/VoiceAssistant.tsx:14-23 | Every event keeps the invariant: `isPlaying` only with a clip, and every slot holds an object created earlier. |
| `CallSessionProperties.OnlyStartCallOpensSockets` | src/components/VoiceAssistant.tsx:87 | No event but `startCall` opens a socket. The socket slot never changes to another socket. |
| `CallSessionProperties.DemoModeStaysOffline` | src/components/VoiceAssistant.tsx:79-83 | With an empty or default URL, no feasible run of events opens a socket, sends, connects or plays. |
| `CallSessionProperties.ShippedPageStaysOffline` | src/pages/Index.tsx:6-9 | The page passes the default URL, so from mount no feasible run of events ever touches the network or the speaker. |

## Left out

- The JSX rendering and status display (lines 241-295). It is UI.
- `audioContextRef`. It is never assigned, so the teardown branch at lines
  213-216 is dead.
- Console logging.
- `URL.createObjectURL`/`revokeObjectURL` and the `Blob`. The clip carries its
  decoded bytes and MIME type instead.
- `await` interleavings (lines 69, 152, 187). Each handler is one atomic step.
  So the model does not capture an `endCall` that runs between
  `ondataavailable`'s `await event.data.arrayBuffer()` and its send. In the
  code that case makes `wsRef.current.send` throw, and the catch logs it.
- A rejected `event.data.arrayBuffer()` (line 152, caught at lines 159-161).
  The code has already cancelled playback by then, and it sends nothing. The
  model's chunk is always readable. Its only failure branch in
  `CallSession.OnDataAvailable`, `btoa` throwing, can never be taken, because
  `String.fromCharCode` of bytes is always a binary string (`Base64.RoundTrip`).
- The `useEffect` mount/unmount wiring (lines 230-239). Its cleanup closes over
  the `endCall` of the first render, where `isRecording` is still false. On
  unmount, then, the recorder's `stop()` is never called. The model's
  `EndCall` reads the current `isRecording`, as the hang-up button does.
- `JSON.parse` and the JSON text. A parsed message is its `type` and `data`
  when those are strings. A non-string truthy `data`, such as a number or
  `true`, is not modelled. `atob` would convert it to a string and decode
  that, or throw when the string leaves the alphabet. The outgoing message is the record
  `{type, data}`, not its JSON text.
- `String.fromCharCode(...)` with a spread throws a `RangeError` past the
  engine's argument limit. The model has no such limit.
- Strings are sequences of Dafny `char`, not UTF-16 code units.
- Event order is constrained only by `Possible`: each event comes from an
  object that exists. Finer browser guarantees are not imposed: one `onopen`
  per socket, and no `onmessage` after `onclose` or after `close()`. After
  `endCall` has called `close()`, the socket is CLOSING and the browser
  delivers no more messages. The model still lets a late `tts_chunk` start a
  clip after the call has ended.
- `startCall` is one step, although it awaits `getUserMedia` (line 129). In
  the code a socket can open while the microphone prompt is showing. If the
  user then refuses, the page ends up connected with the microphone error
  shown. The model never reaches that state. Its `onopen` always comes after
  the whole `startCall`, so an `onopen` following a refusal clears the
  microphone error instead.
- `src/pages/Index.tsx` appears only through the props it passes.
