/** The `VoiceAssistant` React component as an object: its state hooks and
    refs are fields, and each handler is a method that updates them step by
    step, as the component does. Each method is proved to end in the state
    that the matching function of `CallSession` gives. */
module VoiceAssistantComponent {
  import opened Wrappers
  import opened Base64
  import opened CallSession

  class VoiceAssistant {
    const props: Props

    var isRecording: bool
    var isConnected: bool
    var isPlaying: bool
    var error: Option<string>

    var ws: Option<Socket>                // wsRef
    var mediaRecorder: Option<Recorder>   // mediaRecorderRef
    var stream: Option<Stream>            // streamRef
    var currentAudio: Option<Clip>        // currentAudioRef

    /** Where the identities of the browser objects created next come from. */
    var nextHandle: Handle

    /** The calls made so far into the browser and the host page. */
    ghost var effects: seq<Effect>

    ghost function State(): SessionState
      reads this
    {
      SessionState(isRecording, isConnected, isPlaying, error,
                   ws, mediaRecorder, stream, currentAudio, nextHandle, effects)
    }

    /** Mounting with the given props; a missing URL becomes the default. */
    constructor(websocketUrl: Option<string>, onCallEnd: bool)
      ensures props == Props(websocketUrl.GetOr(DefaultUrl), onCallEnd)
      ensures State() == Initial()
    {
      props := Props(websocketUrl.GetOr(DefaultUrl), onCallEnd);
      isRecording, isConnected, isPlaying, error := false, false, false, None;
      ws, mediaRecorder, stream, currentAudio := None, None, None, None;
      nextHandle := 0;
      effects := [];
    }

    method StopCurrentAudio()
      modifies this
      ensures State() == CallSession.StopCurrentAudio(old(State()))
    {
      if currentAudio.Some? {
        effects := effects + [PauseClip(currentAudio.value.id)];
        currentAudio := None;
        isPlaying := false;
      }
    }

    method PlayAudio(base64Audio: string, played: bool)
      modifies this
      ensures State() == CallSession.PlayAudio(old(State()), base64Audio, played)
    {
      StopCurrentAudio();
      var decoded := Atob(base64Audio);
      if decoded.None? {
        isPlaying := false;
        return;
      }
      var view := BinaryStringToBytes(decoded.value);
      var audio := Clip(nextHandle, view[..], ClipMimeType);
      nextHandle := nextHandle + 1;
      currentAudio := Some(audio);
      isPlaying := true;
      effects := effects + [PlayClip(audio.id)];
      if !played {
        isPlaying := false;
      }
    }

    method OnClipEnded()
      modifies this
      ensures State() == OnClipDone(old(State()))
    {
      isPlaying := false;
      currentAudio := None;
    }

    method OnClipError()
      modifies this
      ensures State() == OnClipDone(old(State()))
    {
      isPlaying := false;
      currentAudio := None;
    }

    method SetupWebSocket(thrown: Option<string>)
      modifies this
      ensures State() == CallSession.SetupWebSocket(old(State()), props, thrown)
    {
      if IsDemoUrl(props.websocketUrl) {
        error := Some(DemoModeError);
        return;
      }
      if thrown.Some? {
        error := Some(SetupErrorPrefix + thrown.value);
        return;
      }
      var socket := Socket(nextHandle, props.websocketUrl, Connecting);
      nextHandle := nextHandle + 1;
      effects := effects + [OpenSocket(socket.id, socket.url)];
      ws := Some(socket);
    }

    method OnSocketOpen(socket: Handle)
      modifies this
      ensures State() == CallSession.OnSocketOpen(old(State()), socket)
    {
      if ws.Some? && ws.value.id == socket {
        ws := Some(ws.value.(readyState := Open));
      }
      isConnected := true;
      error := None;
    }

    method OnSocketMessage(parsed: Option<Inbound>, played: bool)
      modifies this
      ensures State() == CallSession.OnSocketMessage(old(State()), parsed, played)
    {
      if parsed.Some? {
        var message := parsed.value;
        if message.msgType == Some(TtsChunkType) && message.data.Some? && message.data.value != "" {
          PlayAudio(message.data.value, played);
        }
      }
    }

    /** The browser's own move of socket `socket` to CLOSING; no handler
        of the component runs. */
    method SocketStartsClosing(socket: Handle)
      modifies this
      ensures State() == CallSession.SocketStartsClosing(old(State()), socket)
    {
      if ws.Some? && ws.value.id == socket {
        ws := Some(ws.value.(readyState := Closing));
      }
    }

    method OnSocketClose(socket: Handle)
      modifies this
      ensures State() == CallSession.OnSocketClose(old(State()), socket)
    {
      if ws.Some? && ws.value.id == socket {
        ws := Some(ws.value.(readyState := Closed));
      }
      isConnected := false;
    }

    method OnSocketError(socket: Handle)
      modifies this
      ensures State() == CallSession.OnSocketError(old(State()), socket)
    {
      if ws.Some? && ws.value.id == socket {
        ws := Some(ws.value.(readyState := Closed));
      }
      error := Some(ConnectFailedError);
      isConnected := false;
    }

    method SetupRecording(outcome: CaptureOutcome, tracks: seq<Handle>)
      modifies this
      ensures State() == CallSession.SetupRecording(old(State()), outcome, tracks)
    {
      effects := effects + [RequestMicrophone(Microphone)];
      if outcome == MicrophoneDenied {
        error := Some(MicrophoneError);
        return;
      }
      var granted := Stream(nextHandle, tracks);
      nextHandle := nextHandle + 1;
      stream := Some(granted);
      if outcome == RecorderRejected {
        error := Some(MicrophoneError);
        return;
      }
      var recorder := Recorder(nextHandle, granted.id, RecorderMimeType);
      nextHandle := nextHandle + 1;
      mediaRecorder := Some(recorder);
      if outcome == StartRejected {
        error := Some(MicrophoneError);
        return;
      }
      effects := effects + [StartRecorder(recorder.id, ChunkIntervalMs)];
    }

    method OnDataAvailable(chunk: seq<byte>)
      modifies this
      ensures State() == CallSession.OnDataAvailable(old(State()), chunk)
    {
      if |chunk| > 0 && ws.Some? && ws.value.readyState == Open {
        StopCurrentAudio();
        var payload := Btoa(FromCharCodes(chunk));
        if payload.Some? {
          effects := effects + [Send(ws.value.id, Outbound(AudioChunkType, payload.value))];
        }
      }
    }

    method OnRecorderStart()
      modifies this
      ensures State() == CallSession.OnRecorderStart(old(State()))
    {
      isRecording := true;
    }

    method OnRecorderStop()
      modifies this
      ensures State() == CallSession.OnRecorderStop(old(State()))
    {
      isRecording := false;
    }

    method StartCall(thrown: Option<string>, outcome: CaptureOutcome, tracks: seq<Handle>)
      modifies this
      ensures State() == CallSession.StartCall(old(State()), props, thrown, outcome, tracks)
    {
      SetupWebSocket(thrown);
      SetupRecording(outcome, tracks);
    }

    /** `getTracks().forEach(track => track.stop())`. */
    method StopEachTrack(tracks: seq<Handle>)
      modifies this`effects
      ensures effects == old(effects) + StopTracks(tracks)
    {
      for i := 0 to |tracks|
        invariant effects == old(effects) + StopTracks(tracks[..i])
      {
        assert tracks[..i + 1][..i] == tracks[..i];
        effects := effects + [StopTrack(tracks[i])];
      }
      assert tracks[..|tracks|] == tracks;
    }

    /** The blocks of `endCall`, in order. */
    method StopRecording()
      modifies this
      ensures State() == CallSession.StopRecording(old(State()))
    {
      if mediaRecorder.Some? && isRecording {
        effects := effects + [StopRecorder(mediaRecorder.value.id)];
      }
    }

    method ReleaseStream()
      modifies this
      ensures State() == CallSession.ReleaseStream(old(State()))
    {
      if stream.Some? {
        StopEachTrack(stream.value.tracks);
        stream := None;
      }
    }

    method ReleaseSocket()
      modifies this
      ensures State() == CallSession.ReleaseSocket(old(State()))
    {
      if ws.Some? {
        effects := effects + [CloseSocket(ws.value.id)];
        ws := None;
      }
    }

    method EndCall()
      modifies this
      ensures State() == CallSession.EndCall(old(State()), props)
    {
      StopRecording();
      ReleaseStream();
      ReleaseSocket();
      StopCurrentAudio();
      isRecording := false;
      isConnected := false;
      isPlaying := false;
      error := None;
      if props.hasOnCallEnd {
        effects := effects + [NotifyCallEnd];
      }
    }
  }
}
