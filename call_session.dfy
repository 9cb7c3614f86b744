/** The call session of the voice-assistant component as a state machine.

    `SessionState` is everything the component's handlers read or write:
    the four React state flags (`isRecording`, `isConnected`, `isPlaying`,
    `error`), the four handle slots that are ever assigned (`wsRef`,
    `mediaRecorderRef`, `streamRef`, `currentAudioRef`), a counter that
    hands out identities for the browser objects the component creates, and
    the trace of calls the component has made into the browser and its host
    page. There is one transition function per handler; the class in
    voice_assistant.dfy performs the same steps on its fields and is proved
    to end in the state these functions give. */
module CallSession {
  import opened Wrappers
  import opened Base64

  /** The identity of a browser object (socket, stream, track, recorder,
      audio element). */
  type Handle = nat

  // ---------------------------------------------------------------------
  // Constants of the component

  const DefaultUrl := "ws://localhost:8080"
  const DemoModeError := "WebSocket no configurado (modo demo)"
  const ConnectFailedError := "No se pudo conectar al WebSocket. Verifica que tu servidor est\U{E9} corriendo."
  const SetupErrorPrefix := "Error configurando WebSocket: "
  const MicrophoneError := "Error accediendo al micr\U{F3}fono. Verifica los permisos."
  const TtsChunkType := "tts_chunk"
  const AudioChunkType := "audio_chunk"
  const ClipMimeType := "audio/wav"
  const RecorderMimeType := "audio/webm;codecs=opus"
  /** The recorder's timeslice: a chunk every 250 ms. */
  const ChunkIntervalMs := 250
  const Microphone := AudioConstraints(16000, 1, true, true)

  // ---------------------------------------------------------------------
  // Browser objects and messages

  /** `WebSocket.readyState`: CONNECTING, OPEN, CLOSING, CLOSED. */
  datatype ReadyState = Connecting | Open | Closing | Closed

  datatype Socket = Socket(id: Handle, url: string, readyState: ReadyState)
  datatype Stream = Stream(id: Handle, tracks: seq<Handle>)
  datatype Recorder = Recorder(id: Handle, stream: Handle, mimeType: string)
  /** An audio element playing one decoded payload. */
  datatype Clip = Clip(id: Handle, audio: seq<byte>, mimeType: string)

  datatype AudioConstraints = AudioConstraints(sampleRate: nat, channelCount: nat,
                                               echoCancellation: bool, noiseSuppression: bool)

  /** The JSON object `{type, data}` the component sends. */
  datatype Outbound = Outbound(msgType: string, data: string)

  /** A parsed inbound message: its `type` and `data` fields when they are
      strings (`None` when absent or of another JSON type). */
  datatype Inbound = Inbound(msgType: Option<string>, data: Option<string>)

  /** A call the component makes into the browser or its host page. */
  datatype Effect =
    | PauseClip(clip: Handle)                      // pause() and rewind to 0
    | PlayClip(clip: Handle)                       // play()
    | OpenSocket(socket: Handle, url: string)      // new WebSocket(url)
    | Send(socket: Handle, message: Outbound)      // ws.send(JSON.stringify(message))
    | CloseSocket(socket: Handle)                  // ws.close()
    | RequestMicrophone(constraints: AudioConstraints)  // getUserMedia
    | StartRecorder(recorder: Handle, timeslice: nat)   // mediaRecorder.start(250)
    | StopRecorder(recorder: Handle)               // mediaRecorder.stop()
    | StopTrack(track: Handle)                     // track.stop()
    | NotifyCallEnd                                // onCallEnd()

  /** The component's props, with the URL default already applied. */
  datatype Props = Props(websocketUrl: string, hasOnCallEnd: bool)

  /** How far `setupRecording` gets: `getUserMedia` rejects, the
      `MediaRecorder` constructor throws, `start` throws, or capture runs. */
  datatype CaptureOutcome = MicrophoneDenied | RecorderRejected | StartRejected | Capturing

  datatype SessionState = SessionState(
    isRecording: bool,
    isConnected: bool,
    isPlaying: bool,
    error: Option<string>,
    ws: Option<Socket>,
    recorder: Option<Recorder>,
    stream: Option<Stream>,
    currentAudio: Option<Clip>,
    nextHandle: Handle,
    effects: seq<Effect>)

  /** The state at mount: flags false, error and every slot null. */
  function Initial(): SessionState
  {
    SessionState(false, false, false, None, None, None, None, None, 0, [])
  }

  /** What the state says about handles: `isPlaying` only with a clip in the
      slot, and every object in a slot was created before the counter's
      current value. */
  predicate Inv(s: SessionState)
  {
    && (s.isPlaying ==> s.currentAudio.Some?)
    && (s.ws.Some? ==> s.ws.value.id < s.nextHandle)
    && (s.recorder.Some? ==> s.recorder.value.id < s.nextHandle)
    && (s.stream.Some? ==> s.stream.value.id < s.nextHandle)
    && (s.currentAudio.Some? ==> s.currentAudio.value.id < s.nextHandle)
  }

  // ---------------------------------------------------------------------
  // Playback

  /** The pause `stopCurrentAudio` issues: one for the clip in the slot,
      none when the slot is empty. */
  function PauseCurrent(s: SessionState): seq<Effect>
  {
    if s.currentAudio.Some? then [PauseClip(s.currentAudio.value.id)] else []
  }

  /** `stopCurrentAudio`, the barge-in cancel. */
  function StopCurrentAudio(s: SessionState): (r: SessionState)
  {
    if s.currentAudio.Some? then
      s.(currentAudio := None, isPlaying := false, effects := s.effects + PauseCurrent(s))
    else s
  }

  /** `playAudio(base64Audio)`: cancel the current clip, decode the payload
      and, when `atob` accepts it, install a new clip and call `play()`,
      whose promise resolves (`played`) or rejects. A decode failure or a
      rejection leaves `isPlaying` false; a rejection keeps the clip in
      the slot. */
  function PlayAudio(s: SessionState, base64Audio: string, played: bool): (r: SessionState)
  {
    var s1 := StopCurrentAudio(s);
    match Atob(base64Audio)
    case None => s1.(isPlaying := false)
    case Some(audioData) =>
      var clip := Clip(s1.nextHandle, CharCodes(audioData), ClipMimeType);
      s1.(currentAudio := Some(clip), isPlaying := played, nextHandle := s1.nextHandle + 1,
          effects := s1.effects + [PlayClip(clip.id)])
  }

  /** The clip's `onended` and `onerror`: both clear `isPlaying` and the
      slot, whichever clip fires them. */
  function OnClipDone(s: SessionState): (r: SessionState)
  {
    s.(isPlaying := false, currentAudio := None)
  }

  // ---------------------------------------------------------------------
  // Transport

  /** The socket in the slot, with its ready-state moved to `state` when it
      is the socket `id` that the event comes from. */
  function WithReadyState(ws: Option<Socket>, id: Handle, state: ReadyState): (r: Option<Socket>)
  {
    if ws.Some? && ws.value.id == id then Some(ws.value.(readyState := state)) else ws
  }

  predicate IsDemoUrl(url: string)
  {
    url == "" || url == DefaultUrl
  }

  /** `setupWebSocket`: no socket for an empty or the default URL (demo
      mode); otherwise `new WebSocket(url)`, which either throws with the
      text `thrown` or yields a socket that is still connecting. */
  function SetupWebSocket(s: SessionState, props: Props, thrown: Option<string>): (r: SessionState)
  {
    if IsDemoUrl(props.websocketUrl) then s.(error := Some(DemoModeError))
    else match thrown
      case Some(detail) => s.(error := Some(SetupErrorPrefix + detail))
      case None =>
        var socket := Socket(s.nextHandle, props.websocketUrl, Connecting);
        s.(ws := Some(socket), nextHandle := s.nextHandle + 1,
           effects := s.effects + [OpenSocket(socket.id, socket.url)])
  }

  /** `ws.onopen` of socket `id`. */
  function OnSocketOpen(s: SessionState, id: Handle): (r: SessionState)
  {
    s.(isConnected := true, error := None, ws := WithReadyState(s.ws, id, Open))
  }

  /** The browser moves socket `id` to CLOSING when the server starts the
      closing handshake. This is a task of its own, before the later one
      that sets CLOSED and runs `onclose`, and it runs no handler. */
  function SocketStartsClosing(s: SessionState, id: Handle): (r: SessionState)
  {
    s.(ws := WithReadyState(s.ws, id, Closing))
  }

  /** `ws.onclose` of socket `id`: the code and reason are only logged. */
  function OnSocketClose(s: SessionState, id: Handle): (r: SessionState)
  {
    s.(isConnected := false, ws := WithReadyState(s.ws, id, Closed))
  }

  /** `ws.onerror` of socket `id`; the browser has already closed it. */
  function OnSocketError(s: SessionState, id: Handle): (r: SessionState)
  {
    s.(error := Some(ConnectFailedError), isConnected := false, ws := WithReadyState(s.ws, id, Closed))
  }

  /** True when the `type` is `'tts_chunk'` and `data` is truthy (a
      non-empty string). */
  predicate IsSpeech(m: Inbound)
  {
    m.msgType == Some(TtsChunkType) && m.data.Some? && m.data.value != ""
  }

  /** `ws.onmessage`: `parsed` is `None` when `JSON.parse` (or reading a
      field of its result) throws. */
  function OnSocketMessage(s: SessionState, parsed: Option<Inbound>, played: bool): (r: SessionState)
  {
    match parsed
    case None => s
    case Some(m) => if IsSpeech(m) then PlayAudio(s, m.data.value, played) else s
  }

  // ---------------------------------------------------------------------
  // Capture

  /** `setupRecording`: ask for the microphone; keep the stream; create the
      recorder and keep it; start it with a 250 ms timeslice. A failure at
      any step sets the microphone error and leaves what was already kept
      in its slot. `tracks` are the tracks of the granted stream. */
  function SetupRecording(s: SessionState, outcome: CaptureOutcome, tracks: seq<Handle>): (r: SessionState)
  {
    var s0 := s.(effects := s.effects + [RequestMicrophone(Microphone)]);
    if outcome == MicrophoneDenied then s0.(error := Some(MicrophoneError))
    else
      var stream := Stream(s0.nextHandle, tracks);
      var s1 := s0.(stream := Some(stream), nextHandle := s0.nextHandle + 1);
      if outcome == RecorderRejected then s1.(error := Some(MicrophoneError))
      else
        var recorder := Recorder(s1.nextHandle, stream.id, RecorderMimeType);
        var s2 := s1.(recorder := Some(recorder), nextHandle := s1.nextHandle + 1);
        if outcome == StartRejected then s2.(error := Some(MicrophoneError))
        else s2.(effects := s2.effects + [StartRecorder(recorder.id, ChunkIntervalMs)])
  }

  /** True when `ondataavailable` forwards a chunk: it is not empty and the
      socket in the slot is OPEN. */
  predicate CanSend(s: SessionState, chunk: seq<byte>)
  {
    |chunk| > 0 && s.ws.Some? && s.ws.value.readyState == Open
  }

  /** `mediaRecorder.ondataavailable`: cancel playback, then send the chunk
      as `{type: 'audio_chunk', data: btoa(...)}`; otherwise drop it. */
  function OnDataAvailable(s: SessionState, chunk: seq<byte>): (r: SessionState)
  {
    if CanSend(s, chunk) then
      var s1 := StopCurrentAudio(s);
      match Btoa(FromCharCodes(chunk))
      case None => s1
      case Some(payload) =>
        s1.(effects := s1.effects + [Send(s1.ws.value.id, Outbound(AudioChunkType, payload))])
    else s
  }

  function OnRecorderStart(s: SessionState): (r: SessionState)
  {
    s.(isRecording := true)
  }

  function OnRecorderStop(s: SessionState): (r: SessionState)
  {
    s.(isRecording := false)
  }

  // ---------------------------------------------------------------------
  // The call

  /** `startCall`: the socket is set up, then recording. */
  function StartCall(s: SessionState, props: Props, thrown: Option<string>,
                     outcome: CaptureOutcome, tracks: seq<Handle>): (r: SessionState)
  {
    SetupRecording(SetupWebSocket(s, props, thrown), outcome, tracks)
  }

  /** One `track.stop()` per track, in order. */
  function StopTracks(tracks: seq<Handle>): (r: seq<Effect>)
    ensures |r| == |tracks|
    ensures forall i :: 0 <= i < |r| ==> r[i] == StopTrack(tracks[i])
  {
    if tracks == [] then [] else StopTracks(tracks[..|tracks| - 1]) + [StopTrack(tracks[|tracks| - 1])]
  }

  /** The first block of `endCall`: `stop()` the recorder, only when there
      is one and `isRecording` is set. The recorder slot is not cleared. */
  function StopRecording(s: SessionState): (r: SessionState)
  {
    if s.recorder.Some? && s.isRecording then s.(effects := s.effects + [StopRecorder(s.recorder.value.id)])
    else s
  }

  /** The second block: stop every track of the stream and clear its slot. */
  function ReleaseStream(s: SessionState): (r: SessionState)
  {
    if s.stream.Some? then s.(stream := None, effects := s.effects + StopTracks(s.stream.value.tracks))
    else s
  }

  /** The third block: close the socket and clear its slot. */
  function ReleaseSocket(s: SessionState): (r: SessionState)
  {
    if s.ws.Some? then s.(ws := None, effects := s.effects + [CloseSocket(s.ws.value.id)])
    else s
  }

  /** `endCall`: release the devices, cancel playback, reset the flags and
      the error, and notify the page. */
  function EndCall(s: SessionState, props: Props): (r: SessionState)
  {
    var s1 := StopCurrentAudio(ReleaseSocket(ReleaseStream(StopRecording(s))));
    s1.(isRecording := false, isConnected := false, isPlaying := false, error := None,
        effects := s1.effects + (if props.hasOnCallEnd then [NotifyCallEnd] else []))
  }

  // ---------------------------------------------------------------------
  // Events

  /** Everything that runs a handler of the component, and the one browser
      step that changes what a handler reads (a socket starting to close).
      Outcomes the browser decides are carried by the event. */
  datatype Event =
    | CallStart(thrown: Option<string>, outcome: CaptureOutcome, tracks: seq<Handle>)
    | CallEnd
    | SocketOpened(socket: Handle)
    | SocketMessage(parsed: Option<Inbound>, played: bool)
    | SocketClosing(socket: Handle)
    | SocketClosed(socket: Handle)
    | SocketFailed(socket: Handle)
    | DataAvailable(chunk: seq<byte>)
    | RecorderStarted
    | RecorderStopped
    | ClipEnded
    | ClipFailed

  /** The effect of any event in any state: every event is defined
      everywhere. */
  function Next(s: SessionState, props: Props, ev: Event): (r: SessionState)
  {
    match ev
    case CallStart(thrown, outcome, tracks) => StartCall(s, props, thrown, outcome, tracks)
    case CallEnd => EndCall(s, props)
    case SocketOpened(id) => OnSocketOpen(s, id)
    case SocketMessage(parsed, played) => OnSocketMessage(s, parsed, played)
    case SocketClosing(id) => SocketStartsClosing(s, id)
    case SocketClosed(id) => OnSocketClose(s, id)
    case SocketFailed(id) => OnSocketError(s, id)
    case DataAvailable(chunk) => OnDataAvailable(s, chunk)
    case RecorderStarted => OnRecorderStart(s)
    case RecorderStopped => OnRecorderStop(s)
    case ClipEnded => OnClipDone(s)
    case ClipFailed => OnClipDone(s)
  }

  /** Browser objects only fire events once they exist: socket events come
      from a socket that was opened, recorder events from a recorder that
      was started, clip events from a clip that was played. */
  predicate Possible(s: SessionState, ev: Event)
  {
    match ev
    case SocketOpened(id) => SocketWasOpened(s, id)
    case SocketClosing(id) => SocketWasOpened(s, id)
    case SocketClosed(id) => SocketWasOpened(s, id)
    case SocketFailed(id) => SocketWasOpened(s, id)
    case SocketMessage(_, _) => exists i :: 0 <= i < |s.effects| && s.effects[i].OpenSocket?
    case DataAvailable(_) => RecorderWasStarted(s)
    case RecorderStarted => RecorderWasStarted(s)
    case RecorderStopped => RecorderWasStarted(s)
    case ClipEnded => ClipWasPlayed(s)
    case ClipFailed => ClipWasPlayed(s)
    case CallStart(_, _, _) => true
    case CallEnd => true
  }

  predicate SocketWasOpened(s: SessionState, id: Handle)
  {
    exists i :: 0 <= i < |s.effects| && s.effects[i].OpenSocket? && s.effects[i].socket == id
  }

  predicate RecorderWasStarted(s: SessionState)
  {
    exists i :: 0 <= i < |s.effects| && s.effects[i].StartRecorder?
  }

  predicate ClipWasPlayed(s: SessionState)
  {
    exists i :: 0 <= i < |s.effects| && s.effects[i].PlayClip?
  }

  /** The state after the events `evs`, one handler at a time. */
  function Run(s: SessionState, props: Props, evs: seq<Event>): (r: SessionState)
    decreases |evs|
  {
    if evs == [] then s else Run(Next(s, props, evs[0]), props, evs[1..])
  }

  /** Every event of `evs` is possible in the state it arrives in. */
  predicate Feasible(s: SessionState, props: Props, evs: seq<Event>)
    decreases |evs|
  {
    evs == [] || (Possible(s, evs[0]) && Feasible(Next(s, props, evs[0]), props, evs[1..]))
  }
}
