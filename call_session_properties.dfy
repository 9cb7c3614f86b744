/** What the handlers of the call session guarantee, one handler at a time
    and over runs of events. */
module CallSessionProperties {
  import opened Wrappers
  import opened Base64
  import opened CallSession

  /** The effects a step added to the trace. */
  function Added(s: SessionState, r: SessionState): seq<Effect>
    requires |s.effects| <= |r.effects|
  {
    r.effects[|s.effects|..]
  }

  lemma AddedIs(s: SessionState, r: SessionState, calls: seq<Effect>)
    requires r.effects == s.effects + calls
    ensures |s.effects| <= |r.effects| && Added(s, r) == calls
  {
    assert (s.effects + calls)[|s.effects|..] == calls;
  }

  // ---------------------------------------------------------------------
  // Playback

  /** `stopCurrentAudio` leaves no clip; it pauses the clip that was
      current, and with no clip it changes nothing; a second call changes
      nothing more. */
  lemma StopCurrentAudioCancels(s: SessionState)
    ensures StopCurrentAudio(s).currentAudio.None?
    ensures s.currentAudio.Some? ==>
              && !StopCurrentAudio(s).isPlaying
              && StopCurrentAudio(s).effects == s.effects + [PauseClip(s.currentAudio.value.id)]
    ensures s.currentAudio.None? ==> StopCurrentAudio(s) == s
    ensures StopCurrentAudio(s).(currentAudio := s.currentAudio, isPlaying := s.isPlaying, effects := s.effects) == s
    ensures StopCurrentAudio(StopCurrentAudio(s)) == StopCurrentAudio(s)
  {
  }

  /** `playAudio` pauses the clip it replaces before it plays the new one,
      then holds exactly the new clip, carrying the decoded bytes, with
      `isPlaying` telling whether `play()` resolved. A payload `atob`
      rejects leaves no clip and `isPlaying` false. */
  lemma PlayAudioReplacesClip(s: SessionState, base64Audio: string, played: bool)
    requires Inv(s)
    ensures var r := PlayAudio(s, base64Audio, played);
      match Atob(base64Audio)
      case None =>
        && r.currentAudio.None? && !r.isPlaying
        && r.effects == s.effects + PauseCurrent(s)
      case Some(audioData) =>
        && r.currentAudio.Some?
        && r.currentAudio.value.audio == CharCodes(audioData)
        && r.isPlaying == played
        && r.effects == s.effects + PauseCurrent(s) + [PlayClip(r.currentAudio.value.id)]
        && (s.currentAudio.Some? ==> r.currentAudio.value.id != s.currentAudio.value.id)
    ensures var r := PlayAudio(s, base64Audio, played);
      && Inv(r)
      && r.(currentAudio := s.currentAudio, isPlaying := s.isPlaying,
            nextHandle := s.nextHandle, effects := s.effects) == s
  {
  }

  /** The clip's `onended` and `onerror` both leave no clip and `isPlaying`
      false, call nothing, and touch nothing else. */
  lemma ClipHandlersClear(s: SessionState)
    ensures var r := OnClipDone(s);
      && r.currentAudio.None? && !r.isPlaying
      && r.(currentAudio := s.currentAudio, isPlaying := s.isPlaying) == s
      && (Inv(s) ==> Inv(r))
  {
  }

  /** An audio payload that went out through `btoa` and comes back as a
      `tts_chunk` is played with exactly the bytes that were captured. */
  lemma EchoedChunkPlaysCapturedBytes(s: SessionState, chunk: seq<byte>, played: bool)
    requires Inv(s) && CanSend(s, chunk)
    ensures var sent := OnDataAvailable(s, chunk);
      var echo := Inbound(Some(TtsChunkType), Some(Encode(chunk)));
      var r := OnSocketMessage(sent, Some(echo), played);
      && r.currentAudio.Some?
      && r.currentAudio.value.audio == chunk
  {
    RoundTrip(chunk);
    EncodeOfNonEmpty(chunk);
  }

  lemma EncodeOfNonEmpty(bytes: seq<byte>)
    requires |bytes| > 0
    ensures Encode(bytes) != ""
  {
    DecodeEncodeBody(bytes);
  }

  // ---------------------------------------------------------------------
  // Transport

  /** `onopen` connects and clears the error, `onclose` disconnects and
      keeps the error, `onerror` disconnects and sets the connection
      error; none of them calls into the browser, so none reconnects. */
  lemma SocketEventsNeverReconnect(s: SessionState, id: Handle)
    ensures var r := OnSocketOpen(s, id);
      r.isConnected && r.error.None? && r.effects == s.effects
    ensures var r := OnSocketClose(s, id);
      !r.isConnected && r.error == s.error && r.effects == s.effects
    ensures var r := OnSocketError(s, id);
      !r.isConnected && r.error == Some(ConnectFailedError) && r.effects == s.effects
    ensures var r := OnSocketOpen(s, id);
      (r.ws.Some? <==> s.ws.Some?) && (r.ws.Some? ==> r.ws.value.(readyState := s.ws.value.readyState) == s.ws.value)
    ensures var r := OnSocketClose(s, id);
      (r.ws.Some? <==> s.ws.Some?) && (r.ws.Some? ==> r.ws.value.(readyState := s.ws.value.readyState) == s.ws.value)
    ensures var r := OnSocketError(s, id);
      (r.ws.Some? <==> s.ws.Some?) && (r.ws.Some? ==> r.ws.value.(readyState := s.ws.value.readyState) == s.ws.value)
  {
  }

  /** Once the browser has moved the socket in the slot to CLOSING, and
      before `onclose` runs, a captured chunk is dropped: the clip keeps
      playing and nothing is sent. The step itself changes only the
      ready-state of that socket. */
  lemma ClosingSocketDropsChunks(s: SessionState, chunk: seq<byte>)
    requires s.ws.Some?
    ensures var c := SocketStartsClosing(s, s.ws.value.id);
      && c == s.(ws := Some(s.ws.value.(readyState := Closing)))
      && OnDataAvailable(c, chunk) == c
  {
  }

  /** With an empty or the default URL no socket is created and the
      demo-mode error is shown; otherwise a socket that is still
      connecting, or the constructor's error, and the flags are left. */
  lemma SetupWebSocketOutcomes(s: SessionState, props: Props, thrown: Option<string>)
    ensures var r := SetupWebSocket(s, props, thrown);
      IsDemoUrl(props.websocketUrl) ==> r == s.(error := Some(DemoModeError))
    ensures var r := SetupWebSocket(s, props, thrown);
      !IsDemoUrl(props.websocketUrl) && thrown.Some? ==>
        r == s.(error := Some(SetupErrorPrefix + thrown.value))
    ensures var r := SetupWebSocket(s, props, thrown);
      !IsDemoUrl(props.websocketUrl) && thrown.None? ==>
        r == s.(ws := Some(Socket(s.nextHandle, props.websocketUrl, Connecting)),
                nextHandle := s.nextHandle + 1,
                effects := s.effects + [OpenSocket(s.nextHandle, props.websocketUrl)])
  {
  }

  /** A message starts playback only when it parsed, its `type` is
      `'tts_chunk'` and its `data` is a non-empty string; any other message,
      and one that failed to parse, changes nothing. */
  lemma MessageDispatch(s: SessionState, parsed: Option<Inbound>, played: bool)
    ensures var r := OnSocketMessage(s, parsed, played);
      !(parsed.Some? && IsSpeech(parsed.value)) ==> r == s
    ensures var r := OnSocketMessage(s, parsed, played);
      parsed.Some? && IsSpeech(parsed.value) ==>
        && (r.currentAudio.Some? <==> Atob(parsed.value.data.value).Some?)
        && (r.isPlaying ==> played)
        && r.effects[..|s.effects|] == s.effects
  {
  }

  // ---------------------------------------------------------------------
  // Capture

  /** A captured chunk is sent only when it is not empty and the socket is
      OPEN, and then the current clip is paused first and the one message
      is the chunk's base64 text; otherwise nothing changes. */
  lemma ChunkSendCancelsPlayback(s: SessionState, chunk: seq<byte>)
    requires Inv(s)
    ensures var r := OnDataAvailable(s, chunk);
      CanSend(s, chunk) ==>
        && r.effects == s.effects + PauseCurrent(s)
                        + [Send(s.ws.value.id, Outbound(AudioChunkType, Encode(chunk)))]
        && r.currentAudio.None? && !r.isPlaying
    ensures !CanSend(s, chunk) ==> OnDataAvailable(s, chunk) == s
  {
    BtoaOfBytes(chunk);
  }

  /** When the microphone is refused nothing is kept and the microphone
      error is shown; only a started recorder leaves the recorder running;
      setting up never sets `isRecording`, which waits for `onstart`. */
  lemma SetupRecordingOutcomes(s: SessionState, outcome: CaptureOutcome, tracks: seq<Handle>)
    ensures var r := SetupRecording(s, outcome, tracks);
      outcome == MicrophoneDenied ==>
        && r.stream == s.stream && r.recorder == s.recorder
        && r.error == Some(MicrophoneError)
    ensures var r := SetupRecording(s, outcome, tracks);
      outcome != Capturing ==> r.error == Some(MicrophoneError)
    ensures var r := SetupRecording(s, outcome, tracks);
      outcome == Capturing ==>
        && r.stream == Some(Stream(s.nextHandle, tracks))
        && r.recorder == Some(Recorder(s.nextHandle + 1, s.nextHandle, RecorderMimeType))
        && r.error == s.error
    ensures var r := SetupRecording(s, outcome, tracks);
      r.effects == s.effects + [RequestMicrophone(Microphone)]
                   + (if outcome == Capturing then [StartRecorder(s.nextHandle + 1, ChunkIntervalMs)] else [])
    ensures var r := SetupRecording(s, outcome, tracks);
      && r.isRecording == s.isRecording && r.isConnected == s.isConnected && r.ws == s.ws
      && r.isPlaying == s.isPlaying && r.currentAudio == s.currentAudio
    ensures Inv(s) ==> Inv(SetupRecording(s, outcome, tracks))
  {
  }

  /** `isRecording` is set only by `onstart`, and cleared only by `onstop`
      or `endCall`. */
  lemma RecordingFlagFollowsRecorder(s: SessionState, props: Props, ev: Event)
    ensures Next(s, props, ev).isRecording && !s.isRecording ==> ev.RecorderStarted?
    ensures !Next(s, props, ev).isRecording && s.isRecording ==> ev.RecorderStopped? || ev.CallEnd?
  {
    match ev
    case CallStart(thrown, outcome, tracks) =>
      SetupRecordingOutcomes(SetupWebSocket(s, props, thrown), outcome, tracks);
    case CallEnd =>
    case DataAvailable(chunk) =>
      ChunkSendFrame(s, chunk);
    case SocketMessage(parsed, played) =>
      MessageFrame(s, parsed, played);
    case _ =>
  }

  /** What `ondataavailable` leaves alone. */
  lemma ChunkSendFrame(s: SessionState, chunk: seq<byte>)
    ensures var r := OnDataAvailable(s, chunk);
      && r.ws == s.ws && r.recorder == s.recorder && r.stream == s.stream
      && r.isRecording == s.isRecording && r.isConnected == s.isConnected && r.error == s.error
      && r.nextHandle == s.nextHandle
      && |s.effects| <= |r.effects|
      && forall e :: e in Added(s, r) ==> e.PauseClip? || e.Send?
  {
    var r := OnDataAvailable(s, chunk);
    if CanSend(s, chunk) {
      StopCurrentAudioAdds(s);
      BtoaOfBytes(chunk);
      var sent := [Send(s.ws.value.id, Outbound(AudioChunkType, Encode(chunk)))];
      assert r.effects == s.effects + PauseCurrent(s) + sent;
      AddedIs(s, r, PauseCurrent(s) + sent);
      assert forall e :: e in PauseCurrent(s) + sent ==> e.PauseClip? || e.Send? by {
        SendOnly(s, sent);
      }
    } else {
      assert r == s;
      AddedIs(s, r, []);
    }
  }

  lemma SendOnly(s: SessionState, sent: seq<Effect>)
    requires forall e :: e in sent ==> e.Send?
    ensures forall e :: e in PauseCurrent(s) + sent ==> e.PauseClip? || e.Send?
  {
  }

  /** The calls `playAudio` makes. */
  lemma PlayAudioAdds(s: SessionState, base64Audio: string, played: bool)
    ensures var r := PlayAudio(s, base64Audio, played);
      && r.(currentAudio := s.currentAudio, isPlaying := s.isPlaying, nextHandle := s.nextHandle, effects := s.effects) == s
      && r.effects == s.effects + PauseCurrent(s) + (if Atob(base64Audio).Some? then [PlayClip(s.nextHandle)] else [])
  {
    StopCurrentAudioAdds(s);
  }

  lemma PlaybackOnly(s: SessionState, plays: seq<Effect>)
    requires forall e :: e in plays ==> e.PlayClip?
    ensures forall e :: e in PauseCurrent(s) + plays ==> e.PauseClip? || e.PlayClip?
  {
  }

  /** What `playAudio` leaves alone. */
  lemma PlayAudioFrame(s: SessionState, data: string, played: bool)
    ensures var r := PlayAudio(s, data, played);
      && r.ws == s.ws && r.recorder == s.recorder && r.stream == s.stream
      && r.isRecording == s.isRecording && r.isConnected == s.isConnected && r.error == s.error
      && r.nextHandle >= s.nextHandle
      && |s.effects| <= |r.effects|
      && forall e :: e in Added(s, r) ==> e.PauseClip? || e.PlayClip?
  {
    var r := PlayAudio(s, data, played);
    var plays := if Atob(data).Some? then [PlayClip(s.nextHandle)] else [];
    PlayAudioAdds(s, data, played);
    AddedIs(s, r, PauseCurrent(s) + plays);
    assert forall e :: e in PauseCurrent(s) + plays ==> e.PauseClip? || e.PlayClip? by {
      PlaybackOnly(s, plays);
    }
  }

  /** What `onmessage` leaves alone. */
  lemma MessageFrame(s: SessionState, parsed: Option<Inbound>, played: bool)
    ensures var r := OnSocketMessage(s, parsed, played);
      && r.ws == s.ws && r.recorder == s.recorder && r.stream == s.stream
      && r.isRecording == s.isRecording && r.isConnected == s.isConnected && r.error == s.error
      && r.nextHandle >= s.nextHandle
      && |s.effects| <= |r.effects|
      && forall e :: e in Added(s, r) ==> e.PauseClip? || e.PlayClip?
  {
    var r := OnSocketMessage(s, parsed, played);
    if parsed.Some? && IsSpeech(parsed.value) {
      assert r == PlayAudio(s, parsed.value.data.value, played);
      PlayAudioFrame(s, parsed.value.data.value, played);
    } else {
      assert r == s;
      AddedIs(s, r, []);
    }
  }

  // ---------------------------------------------------------------------
  // Ending the call

  /** The order of teardown calls: recorder, tracks, socket, clip, page. */
  function TeardownRank(e: Effect): nat
  {
    match e
    case StopRecorder(_) => 0
    case StopTrack(_) => 1
    case CloseSocket(_) => 2
    case PauseClip(_) => 3
    case NotifyCallEnd => 4
    case _ => 5
  }

  predicate InTeardownOrder(es: seq<Effect>)
  {
    forall i, j :: 0 <= i < j < |es| ==> TeardownRank(es[i]) <= TeardownRank(es[j])
  }

  predicate RanksBetween(es: seq<Effect>, lo: nat, hi: nat)
  {
    forall i :: 0 <= i < |es| ==> lo <= TeardownRank(es[i]) <= hi
  }

  /** Two ordered runs, the second ranked no lower than the first, make an
      ordered run. */
  lemma OrderedConcat(a: seq<Effect>, b: seq<Effect>, lo: nat, k: nat, hi: nat)
    requires InTeardownOrder(a) && InTeardownOrder(b)
    requires lo <= k <= hi
    requires RanksBetween(a, lo, k) && RanksBetween(b, k, hi)
    ensures InTeardownOrder(a + b) && RanksBetween(a + b, lo, hi)
  {
    var c := a + b;
    forall i, j | 0 <= i < j < |c|
      ensures TeardownRank(c[i]) <= TeardownRank(c[j])
    {
      if j < |a| {
        assert c[i] == a[i] && c[j] == a[j];
      } else if i >= |a| {
        assert c[i] == b[i - |a|] && c[j] == b[j - |a|];
      } else {
        assert c[i] == a[i] && c[j] == b[j - |a|];
      }
    }
    forall i | 0 <= i < |c|
      ensures lo <= TeardownRank(c[i]) <= hi
    {
      if i < |a| {
        assert c[i] == a[i];
      } else {
        assert c[i] == b[i - |a|];
      }
    }
  }

  /** The `stop()` the first block of `endCall` issues. */
  function RecorderStops(s: SessionState): seq<Effect>
  {
    if s.recorder.Some? && s.isRecording then [StopRecorder(s.recorder.value.id)] else []
  }

  /** The `track.stop()` calls of the second block. */
  function TrackStops(s: SessionState): seq<Effect>
  {
    if s.stream.Some? then StopTracks(s.stream.value.tracks) else []
  }

  /** The `close()` of the third block. */
  function SocketCloses(s: SessionState): seq<Effect>
  {
    if s.ws.Some? then [CloseSocket(s.ws.value.id)] else []
  }

  function Notification(props: Props): seq<Effect>
  {
    if props.hasOnCallEnd then [NotifyCallEnd] else []
  }

  /** Every call `endCall` makes, in order. */
  function TeardownCalls(s: SessionState, props: Props): seq<Effect>
  {
    RecorderStops(s) + TrackStops(s) + SocketCloses(s) + PauseCurrent(s) + Notification(props)
  }

  /** The whole state after `endCall`: the stream, socket and clip slots
      are empty, every flag is false, the error is null, the recorder slot
      and the counter are untouched, and the trace grew by the teardown
      calls. */
  lemma EndCallResets(s: SessionState, props: Props)
    ensures EndCall(s, props)
         == s.(ws := None, stream := None, currentAudio := None,
               isRecording := false, isConnected := false, isPlaying := false, error := None,
               effects := s.effects + TeardownCalls(s, props))
  {
    var s1 := StopRecording(s);
    StopRecordingAdds(s);
    var s2 := ReleaseStream(s1);
    ReleaseStreamAdds(s1);
    var s3 := ReleaseSocket(s2);
    ReleaseSocketAdds(s2);
    var s4 := StopCurrentAudio(s3);
    StopCurrentAudioAdds(s3);
    EffectsAssociate(s.effects, RecorderStops(s), TrackStops(s), SocketCloses(s), PauseCurrent(s), Notification(props));
  }

  lemma StopRecordingAdds(s: SessionState)
    ensures StopRecording(s) == s.(effects := s.effects + RecorderStops(s))
  {
  }

  lemma ReleaseStreamAdds(s: SessionState)
    ensures ReleaseStream(s) == s.(stream := None, effects := s.effects + TrackStops(s))
  {
  }

  lemma ReleaseSocketAdds(s: SessionState)
    ensures ReleaseSocket(s) == s.(ws := None, effects := s.effects + SocketCloses(s))
  {
  }

  lemma StopCurrentAudioAdds(s: SessionState)
    ensures StopCurrentAudio(s)
         == s.(currentAudio := None, isPlaying := s.isPlaying && s.currentAudio.None?,
               effects := s.effects + PauseCurrent(s))
  {
  }

  lemma EffectsAssociate3(a: seq<Effect>, b: seq<Effect>, c: seq<Effect>)
    ensures a + b + c == a + (b + c)
  {
  }

  lemma EffectsAssociate(e: seq<Effect>, a: seq<Effect>, b: seq<Effect>, c: seq<Effect>, d: seq<Effect>, n: seq<Effect>)
    ensures e + a + b + c + d + n == e + (a + b + c + d + n)
  {
  }

  lemma AddedByEndCall(s: SessionState, props: Props)
    ensures |s.effects| <= |EndCall(s, props).effects|
    ensures Added(s, EndCall(s, props)) == TeardownCalls(s, props)
  {
    EndCallResets(s, props);
    var calls := TeardownCalls(s, props);
    assert (s.effects + calls)[|s.effects|..] == calls;
  }

  lemma SameRankOrdered(es: seq<Effect>, k: nat)
    requires RanksBetween(es, k, k)
    ensures InTeardownOrder(es)
  {
  }

  lemma RankedRunsOrdered(a: seq<Effect>, b: seq<Effect>, c: seq<Effect>, d: seq<Effect>, e: seq<Effect>)
    requires RanksBetween(a, 0, 0) && RanksBetween(b, 1, 1) && RanksBetween(c, 2, 2)
    requires RanksBetween(d, 3, 3) && RanksBetween(e, 4, 4)
    ensures InTeardownOrder(a + b + c + d + e)
  {
    SameRankOrdered(a, 0);
    SameRankOrdered(b, 1);
    SameRankOrdered(c, 2);
    SameRankOrdered(d, 3);
    SameRankOrdered(e, 4);
    OrderedConcat(a, b, 0, 0, 1);
    OrderedConcat(a + b, c, 0, 2, 2);
    OrderedConcat(a + b + c, d, 0, 3, 3);
    OrderedConcat(a + b + c + d, e, 0, 4, 4);
  }

  lemma TrackStopsRank(s: SessionState)
    ensures RanksBetween(TrackStops(s), 1, 1)
  {
  }

  lemma TeardownInOrder(s: SessionState, props: Props)
    ensures InTeardownOrder(TeardownCalls(s, props))
  {
    TrackStopsRank(s);
    RankedRunsOrdered(RecorderStops(s), TrackStops(s), SocketCloses(s), PauseCurrent(s), Notification(props));
  }

  /** The notification is the last teardown call and the only one. */
  lemma NotifiesLast(s: SessionState, props: Props)
    ensures var calls := TeardownCalls(s, props);
      && (props.hasOnCallEnd <==> NotifyCallEnd in calls)
      && (props.hasOnCallEnd ==> calls[|calls| - 1] == NotifyCallEnd && NotifyCallEnd !in calls[..|calls| - 1])
  {
    var rec, tr, cl, p, n := RecorderStops(s), TrackStops(s), SocketCloses(s), PauseCurrent(s), Notification(props);
    var calls := rec + tr + cl + p + n;
    assert forall e :: e in tr ==> e.StopTrack?;
    assert NotifyCallEnd !in rec + tr + cl + p;
    if props.hasOnCallEnd {
      assert calls[..|calls| - 1] == rec + tr + cl + p;
    }
  }

  /** Each teardown call releases something the state holds. */
  lemma TeardownCallsSound(s: SessionState, props: Props)
    ensures forall e :: e in TeardownCalls(s, props) ==>
      || (e.StopRecorder? && s.recorder.Some? && e.recorder == s.recorder.value.id && s.isRecording)
      || (e.StopTrack? && s.stream.Some? && e.track in s.stream.value.tracks)
      || (e.CloseSocket? && s.ws.Some? && e.socket == s.ws.value.id)
      || (e.PauseClip? && s.currentAudio.Some? && e.clip == s.currentAudio.value.id)
      || e.NotifyCallEnd?
  {
    assert forall e :: e in TrackStops(s) ==> e.StopTrack? && s.stream.Some? && e.track in s.stream.value.tracks;
  }

  /** Everything the state holds is released. */
  lemma TeardownCallsComplete(s: SessionState, props: Props)
    ensures var calls := TeardownCalls(s, props);
      && (s.recorder.Some? && s.isRecording ==> StopRecorder(s.recorder.value.id) in calls)
      && (s.stream.Some? ==> forall t :: t in s.stream.value.tracks ==> StopTrack(t) in calls)
      && (s.ws.Some? ==> CloseSocket(s.ws.value.id) in calls)
      && (s.currentAudio.Some? ==> PauseClip(s.currentAudio.value.id) in calls)
  {
    var rec, tr, cl, p, n := RecorderStops(s), TrackStops(s), SocketCloses(s), PauseCurrent(s), Notification(props);
    var calls := rec + tr + cl + p + n;
    if s.stream.Some? {
      forall t | t in s.stream.value.tracks
        ensures StopTrack(t) in calls
      {
        var k :| 0 <= k < |s.stream.value.tracks| && s.stream.value.tracks[k] == t;
        assert tr[k] == StopTrack(t);
        assert StopTrack(t) in tr;
      }
    }
  }

  /** `endCall` stops the recorder (only when recording), then every track
      of the stream, then closes the socket, then pauses the clip, then
      notifies the page, once, last, and only when it has a callback; it
      makes no other call. Afterwards the stream, socket and clip slots are
      empty, every flag is false and the error is null; the recorder slot
      keeps its recorder. */
  lemma EndCallTearsDown(s: SessionState, props: Props)
    ensures var r := EndCall(s, props);
      && r.ws.None? && r.stream.None? && r.currentAudio.None?
      && !r.isRecording && !r.isConnected && !r.isPlaying && r.error.None?
      && r.recorder == s.recorder
    ensures |s.effects| <= |EndCall(s, props).effects|
    ensures InTeardownOrder(Added(s, EndCall(s, props)))
    ensures var added := Added(s, EndCall(s, props));
      && (props.hasOnCallEnd <==> NotifyCallEnd in added)
      && (props.hasOnCallEnd ==> added[|added| - 1] == NotifyCallEnd && NotifyCallEnd !in added[..|added| - 1])
    ensures forall e :: e in Added(s, EndCall(s, props)) ==>
      || (e.StopRecorder? && s.recorder.Some? && e.recorder == s.recorder.value.id && s.isRecording)
      || (e.StopTrack? && s.stream.Some? && e.track in s.stream.value.tracks)
      || (e.CloseSocket? && s.ws.Some? && e.socket == s.ws.value.id)
      || (e.PauseClip? && s.currentAudio.Some? && e.clip == s.currentAudio.value.id)
      || e.NotifyCallEnd?
    ensures var added := Added(s, EndCall(s, props));
      && (s.recorder.Some? && s.isRecording ==> StopRecorder(s.recorder.value.id) in added)
      && (s.stream.Some? ==> forall t :: t in s.stream.value.tracks ==> StopTrack(t) in added)
      && (s.ws.Some? ==> CloseSocket(s.ws.value.id) in added)
      && (s.currentAudio.Some? ==> PauseClip(s.currentAudio.value.id) in added)
  {
    EndCallResets(s, props);
    AddedByEndCall(s, props);
    TeardownInOrder(s, props);
    NotifiesLast(s, props);
    TeardownCallsSound(s, props);
    TeardownCallsComplete(s, props);
  }

  /** A second `endCall` leaves the same state and calls `onCallEnd`
      again: the only difference is one more notification. */
  lemma EndCallTwice(s: SessionState, props: Props)
    ensures var once := EndCall(s, props);
      EndCall(once, props) == once.(effects := once.effects + Notification(props))
  {
    EndCallResets(s, props);
    var once := EndCall(s, props);
    EndCallResets(once, props);
    assert TeardownCalls(once, props) == Notification(props);
  }

  /** The chunk the recorder delivers after `endCall` stopped it is
      dropped: the socket slot is empty. */
  lemma ChunkAfterEndCallDropped(s: SessionState, props: Props, chunk: seq<byte>)
    ensures OnDataAvailable(EndCall(s, props), chunk) == EndCall(s, props)
  {
    EndCallResets(s, props);
  }

  /** The socket's handlers stay attached after `endCall`: an `onerror`
      that arrives after the call ended shows the connection error again. */
  lemma LateSocketErrorAfterEndCall(s: SessionState, props: Props, id: Handle)
    ensures OnSocketError(EndCall(s, props), id).error == Some(ConnectFailedError)
    ensures OnSocketError(EndCall(s, props), id).ws.None?
  {
    EndCallResets(s, props);
  }

  /** `startCall` has no guard: with a real URL, calling it again creates a
      second socket and replaces the first in the slot without closing it. */
  lemma StartCallHasNoGuard(s: SessionState, props: Props, outcome: CaptureOutcome, tracks: seq<Handle>)
    requires Inv(s) && s.ws.Some? && !IsDemoUrl(props.websocketUrl)
    ensures var r := StartCall(s, props, None, outcome, tracks);
      && |s.effects| <= |r.effects|
      && r.ws.Some? && r.ws.value.id != s.ws.value.id
      && CloseSocket(s.ws.value.id) !in Added(s, r)
  {
    var w := SetupWebSocket(s, props, None);
    SetupRecordingOutcomes(w, outcome, tracks);
    var r := StartCall(s, props, None, outcome, tracks);
    var added := [OpenSocket(s.nextHandle, props.websocketUrl), RequestMicrophone(Microphone)]
                 + (if outcome == Capturing then [StartRecorder(w.nextHandle + 1, ChunkIntervalMs)] else []);
    assert r.effects == s.effects + added;
    assert Added(s, r) == added;
  }

  // ---------------------------------------------------------------------
  // Every event

  lemma InvInitial()
    ensures Inv(Initial())
  {
  }

  lemma InvStartCall(s: SessionState, props: Props, thrown: Option<string>, outcome: CaptureOutcome, tracks: seq<Handle>)
    requires Inv(s)
    ensures Inv(StartCall(s, props, thrown, outcome, tracks))
  {
    var w := SetupWebSocket(s, props, thrown);
    InvSetupWebSocket(s, props, thrown);
    SetupRecordingOutcomes(w, outcome, tracks);
  }

  lemma InvSetupWebSocket(s: SessionState, props: Props, thrown: Option<string>)
    requires Inv(s)
    ensures Inv(SetupWebSocket(s, props, thrown))
  {
    var r := SetupWebSocket(s, props, thrown);
    if IsDemoUrl(props.websocketUrl) || thrown.Some? {
      assert r.(error := s.error) == s;
    } else {
      assert r == s.(ws := Some(Socket(s.nextHandle, props.websocketUrl, Connecting)), nextHandle := s.nextHandle + 1,
                     effects := s.effects + [OpenSocket(s.nextHandle, props.websocketUrl)]);
    }
  }

  lemma InvMessage(s: SessionState, parsed: Option<Inbound>, played: bool)
    requires Inv(s)
    ensures Inv(OnSocketMessage(s, parsed, played))
  {
    if parsed.Some? && IsSpeech(parsed.value) {
      PlayAudioReplacesClip(s, parsed.value.data.value, played);
    }
  }

  lemma InvChunk(s: SessionState, chunk: seq<byte>)
    requires Inv(s)
    ensures Inv(OnDataAvailable(s, chunk))
  {
    ChunkSendFrame(s, chunk);
    ChunkSendCancelsPlayback(s, chunk);
  }

  lemma InvEndCall(s: SessionState, props: Props)
    requires Inv(s)
    ensures Inv(EndCall(s, props))
  {
    EndCallResets(s, props);
  }

  /** Every handler keeps `isPlaying` implying a clip in the slot, and
      every slot holding an object created earlier. */
  lemma InvPreserved(s: SessionState, props: Props, ev: Event)
    requires Inv(s)
    ensures Inv(Next(s, props, ev))
  {
    match ev
    case CallStart(thrown, outcome, tracks) => InvStartCall(s, props, thrown, outcome, tracks);
    case CallEnd => InvEndCall(s, props);
    case SocketMessage(parsed, played) => InvMessage(s, parsed, played);
    case DataAvailable(chunk) => InvChunk(s, chunk);
    case _ =>
  }

  /** No handler but `startCall` ever creates a socket: nothing
      reconnects, and the socket slot never changes to another socket. */
  lemma OnlyStartCallOpensSockets(s: SessionState, props: Props, ev: Event)
    requires !ev.CallStart?
    ensures var r := Next(s, props, ev);
      && |s.effects| <= |r.effects|
      && (forall e :: e in Added(s, r) ==> !e.OpenSocket?)
      && (r.ws.Some? ==> s.ws.Some? && r.ws.value.id == s.ws.value.id && r.ws.value.url == s.ws.value.url)
  {
    match ev
    case CallEnd => EndCallTearsDown(s, props);
    case SocketMessage(parsed, played) => MessageFrame(s, parsed, played);
    case DataAvailable(chunk) => ChunkSendFrame(s, chunk);
    case _ =>
  }

  // ---------------------------------------------------------------------
  // The page as shipped

  /** Nothing has touched the network or the speaker. */
  predicate Offline(s: SessionState)
  {
    && s.ws.None? && !s.isConnected && !s.isPlaying && s.currentAudio.None?
    && forall i :: 0 <= i < |s.effects| ==>
         !s.effects[i].OpenSocket? && !s.effects[i].Send? && !s.effects[i].PlayClip?
  }

  lemma OfflineAfterCalls(s: SessionState, r: SessionState, calls: seq<Effect>)
    requires Offline(s) && r.effects == s.effects + calls
    requires r.ws.None? && !r.isConnected && !r.isPlaying && r.currentAudio.None?
    requires forall e :: e in calls ==> !e.OpenSocket? && !e.Send? && !e.PlayClip?
    ensures Offline(r)
  {
    forall i | 0 <= i < |r.effects|
      ensures !r.effects[i].OpenSocket? && !r.effects[i].Send? && !r.effects[i].PlayClip?
    {
      if i >= |s.effects| {
        assert r.effects[i] == calls[i - |s.effects|];
      }
    }
  }

  lemma OfflineEndCall(s: SessionState, props: Props)
    requires Offline(s)
    ensures Offline(EndCall(s, props))
  {
    EndCallResets(s, props);
    OfflineAfterCalls(s, EndCall(s, props), TeardownCalls(s, props));
  }

  lemma OfflineStartCall(s: SessionState, props: Props, thrown: Option<string>, outcome: CaptureOutcome, tracks: seq<Handle>)
    requires IsDemoUrl(props.websocketUrl) && Offline(s)
    ensures Offline(StartCall(s, props, thrown, outcome, tracks))
  {
    var w := SetupWebSocket(s, props, thrown);
    assert w == s.(error := Some(DemoModeError));
    SetupRecordingOutcomes(w, outcome, tracks);
    OfflineAfterCalls(s, StartCall(s, props, thrown, outcome, tracks), [RequestMicrophone(Microphone)]
      + (if outcome == Capturing then [StartRecorder(w.nextHandle + 1, ChunkIntervalMs)] else []));
  }

  lemma OfflineStep(s: SessionState, props: Props, ev: Event)
    requires IsDemoUrl(props.websocketUrl) && Offline(s) && Possible(s, ev)
    ensures Offline(Next(s, props, ev))
  {
    match ev
    case CallEnd => OfflineEndCall(s, props);
    case CallStart(thrown, outcome, tracks) => OfflineStartCall(s, props, thrown, outcome, tracks);
    case SocketMessage(_, _) => assert false;
    case SocketOpened(_) => assert false;
    case SocketClosing(_) => assert false;
    case SocketClosed(_) => assert false;
    case SocketFailed(_) => assert false;
    case DataAvailable(chunk) => assert OnDataAvailable(s, chunk) == s;
    case RecorderStarted => assert OnRecorderStart(s) == s.(isRecording := true);
    case RecorderStopped => assert OnRecorderStop(s) == s.(isRecording := false);
    case ClipEnded => assert false;
    case ClipFailed => assert false;
  }

  /** With an empty or the default URL, and the page passes the default,
      no sequence of events ever opens a socket, sends audio, connects or
      plays anything. */
  lemma {:induction false} DemoModeStaysOffline(s: SessionState, props: Props, evs: seq<Event>)
    requires IsDemoUrl(props.websocketUrl) && Offline(s) && Feasible(s, props, evs)
    ensures Offline(Run(s, props, evs))
    decreases |evs|
  {
    if evs != [] {
      OfflineStep(s, props, evs[0]);
      DemoModeStaysOffline(Next(s, props, evs[0]), props, evs[1..]);
    }
  }

  lemma ShippedPageStaysOffline(evs: seq<Event>)
    requires Feasible(Initial(), Props(DefaultUrl, true), evs)
    ensures Offline(Run(Initial(), Props(DefaultUrl, true), evs))
  {
    DemoModeStaysOffline(Initial(), Props(DefaultUrl, true), evs);
  }

  // ---------------------------------------------------------------------
  // Scenarios

  lemma RunStep(s: SessionState, props: Props, ev: Event, evs: seq<Event>)
    ensures Run(s, props, [ev] + evs) == Run(Next(s, props, ev), props, evs)
  {
    assert ([ev] + evs)[0] == ev && ([ev] + evs)[1..] == evs;
  }

  lemma FeasibleStep(s: SessionState, props: Props, ev: Event, evs: seq<Event>)
    requires Possible(s, ev) && Feasible(Next(s, props, ev), props, evs)
    ensures Feasible(s, props, [ev] + evs)
  {
    assert ([ev] + evs)[0] == ev && ([ev] + evs)[1..] == evs;
  }

  /** The state of a call started from mount with a real URL and a
      granted microphone: socket 0, stream 1, recorder 2, followed by the
      messages `sent`. */
  function InCall(props: Props, tracks: seq<Handle>, open: bool, recording: bool, sent: seq<Effect>): SessionState
  {
    SessionState(recording, open, false, None,
                 Some(Socket(0, props.websocketUrl, if open then Open else Connecting)),
                 Some(Recorder(2, 1, RecorderMimeType)), Some(Stream(1, tracks)), None, 3,
                 [OpenSocket(0, props.websocketUrl), RequestMicrophone(Microphone), StartRecorder(2, ChunkIntervalMs)] + sent)
  }

  lemma CallStarts(props: Props, tracks: seq<Handle>)
    requires !IsDemoUrl(props.websocketUrl)
    ensures Next(Initial(), props, CallStart(None, Capturing, tracks)) == InCall(props, tracks, false, false, [])
  {
    var w := SetupWebSocket(Initial(), props, None);
    SetupRecordingOutcomes(w, Capturing, tracks);
  }

  lemma ChunkGoesOut(props: Props, tracks: seq<Handle>, sent: seq<Effect>, chunk: seq<byte>)
    requires |chunk| > 0
    ensures OnDataAvailable(InCall(props, tracks, true, true, sent), chunk)
         == InCall(props, tracks, true, true, sent + [Send(0, Outbound(AudioChunkType, Encode(chunk)))])
  {
    var s := InCall(props, tracks, true, true, sent);
    assert Inv(s) && CanSend(s, chunk) && PauseCurrent(s) == [];
    ChunkSendCancelsPlayback(s, chunk);
    ChunkSendFrame(s, chunk);
    var start := [OpenSocket(0, props.websocketUrl), RequestMicrophone(Microphone), StartRecorder(2, ChunkIntervalMs)];
    var msg := [Send(0, Outbound(AudioChunkType, Encode(chunk)))];
    assert start + sent + [] + msg == start + (sent + msg);
  }

  lemma NextChunkGoesOut(props: Props, tracks: seq<Handle>, sent: seq<Effect>, chunk: seq<byte>)
    requires |chunk| > 0
    ensures Next(InCall(props, tracks, true, true, sent), props, DataAvailable(chunk))
         == InCall(props, tracks, true, true, sent + [Send(0, Outbound(AudioChunkType, Encode(chunk)))])
  {
    var s := InCall(props, tracks, true, true, sent);
    NextIsOnDataAvailable(s, props, chunk);
    ChunkGoesOut(props, tracks, sent, chunk);
  }

  lemma NextIsOnDataAvailable(s: SessionState, props: Props, chunk: seq<byte>)
    ensures Next(s, props, DataAvailable(chunk)) == OnDataAvailable(s, chunk)
  {
  }

  /** An empty chunk is dropped: `ondataavailable` changes nothing. */
  lemma EmptyChunkDropped(s: SessionState, props: Props)
    ensures Next(s, props, DataAvailable([])) == s
  {
  }

  /** One chunk in the call: a non-empty chunk adds its message, an empty
      one adds nothing. */
  lemma NextChunk(props: Props, tracks: seq<Handle>, sent: seq<Effect>, chunk: seq<byte>)
    ensures Next(InCall(props, tracks, true, true, sent), props, DataAvailable(chunk))
         == InCall(props, tracks, true, true, sent + MessageOf(chunk))
  {
    if |chunk| > 0 {
      NextChunkGoesOut(props, tracks, sent, chunk);
    } else {
      EmptyChunkDropped(InCall(props, tracks, true, true, sent), props);
      assert chunk == [];
      assert sent + [] == sent;
    }
  }

  lemma SocketOpens(props: Props, tracks: seq<Handle>)
    ensures Next(InCall(props, tracks, false, false, []), props, SocketOpened(0)) == InCall(props, tracks, true, false, [])
  {
  }

  lemma RecorderStarts(props: Props, tracks: seq<Handle>)
    ensures Next(InCall(props, tracks, true, false, []), props, RecorderStarted) == InCall(props, tracks, true, true, [])
  {
  }

  lemma InCallPossible(props: Props, tracks: seq<Handle>, open: bool, recording: bool, sent: seq<Effect>, ev: Event)
    requires ev == SocketOpened(0) || ev.RecorderStarted? || ev.DataAvailable?
    ensures Possible(InCall(props, tracks, open, recording, sent), ev)
  {
    var s := InCall(props, tracks, open, recording, sent);
    assert s.effects[0] == OpenSocket(0, props.websocketUrl);
    assert s.effects[2].StartRecorder?;
  }

  /** One `ondataavailable` per captured chunk, in capture order. */
  function Captures(chunks: seq<seq<byte>>): (evs: seq<Event>)
    ensures |evs| == |chunks|
  {
    if chunks == [] then [] else [DataAvailable(chunks[0])] + Captures(chunks[1..])
  }

  /** The `audio_chunk` message a chunk produces on socket 0: none for an
      empty chunk. */
  function MessageOf(chunk: seq<byte>): seq<Effect>
  {
    if |chunk| > 0 then [Send(0, Outbound(AudioChunkType, Encode(chunk)))] else []
  }

  /** The messages of the chunks, in capture order; empty chunks send none. */
  function Messages(chunks: seq<seq<byte>>): (ms: seq<Effect>)
    ensures |ms| <= |chunks|
    ensures forall i :: 0 <= i < |ms| ==> ms[i].Send?
  {
    if chunks == [] then [] else MessageOf(chunks[0]) + Messages(chunks[1..])
  }

  /** While the call is connected and recording, every non-empty chunk the
      recorder delivers goes out as one message, in the order it was
      captured, and every empty chunk is dropped. */
  lemma {:induction false} ChunksGoOutInOrder(props: Props, tracks: seq<Handle>, sent: seq<Effect>, chunks: seq<seq<byte>>)
    ensures Run(InCall(props, tracks, true, true, sent), props, Captures(chunks))
         == InCall(props, tracks, true, true, sent + Messages(chunks))
    decreases |chunks|
  {
    if chunks == [] {
      assert sent + [] == sent;
    } else {
      var m := MessageOf(chunks[0]);
      var s := InCall(props, tracks, true, true, sent);
      NextChunk(props, tracks, sent, chunks[0]);
      RunStep(s, props, DataAvailable(chunks[0]), Captures(chunks[1..]));
      ChunksGoOutInOrder(props, tracks, sent + m, chunks[1..]);
      assert sent + m + Messages(chunks[1..]) == sent + Messages(chunks) by {
        assert Messages(chunks) == m + Messages(chunks[1..]);
        EffectsAssociate3(sent, m, Messages(chunks[1..]));
      }
    }
  }

  lemma {:induction false} ChunksFeasible(props: Props, tracks: seq<Handle>, sent: seq<Effect>, chunks: seq<seq<byte>>)
    ensures Feasible(InCall(props, tracks, true, true, sent), props, Captures(chunks))
    decreases |chunks|
  {
    if chunks != [] {
      var m := MessageOf(chunks[0]);
      var s := InCall(props, tracks, true, true, sent);
      NextChunk(props, tracks, sent, chunks[0]);
      InCallPossible(props, tracks, true, true, sent, DataAvailable(chunks[0]));
      ChunksFeasible(props, tracks, sent + m, chunks[1..]);
      FeasibleStep(s, props, DataAvailable(chunks[0]), Captures(chunks[1..]));
    }
  }

  /** Start a call, the socket opens, the recorder starts, chunks are
      captured: the calls made are the socket, the microphone, the
      recorder with a 250 ms timeslice, and one message per non-empty chunk in
      capture order; each event comes from an object that exists. */
  lemma HappyPath(props: Props, tracks: seq<Handle>, chunks: seq<seq<byte>>)
    requires !IsDemoUrl(props.websocketUrl)
    ensures var evs := [CallStart(None, Capturing, tracks), SocketOpened(0), RecorderStarted] + Captures(chunks);
      var r := Run(Initial(), props, evs);
      && Feasible(Initial(), props, evs)
      && r.isConnected && r.isRecording && r.error.None?
      && r.effects == [OpenSocket(0, props.websocketUrl), RequestMicrophone(Microphone),
                       StartRecorder(2, ChunkIntervalMs)] + Messages(chunks)
  {
    var e1, e2, e3 := CallStart(None, Capturing, tracks), SocketOpened(0), RecorderStarted;
    var rest := Captures(chunks);
    var s1 := InCall(props, tracks, false, false, []);
    var s2 := InCall(props, tracks, true, false, []);
    var s3 := InCall(props, tracks, true, true, []);
    ChunksGoOutInOrder(props, tracks, [], chunks);
    ChunksFeasible(props, tracks, [], chunks);
    assert [] + Messages(chunks) == Messages(chunks);
    RecorderStarts(props, tracks);
    RunStep(s2, props, e3, rest);
    InCallPossible(props, tracks, true, false, [], e3);
    FeasibleStep(s2, props, e3, rest);
    SocketOpens(props, tracks);
    RunStep(s1, props, e2, [e3] + rest);
    InCallPossible(props, tracks, false, false, [], e2);
    FeasibleStep(s1, props, e2, [e3] + rest);
    CallStarts(props, tracks);
    RunStep(Initial(), props, e1, [e2] + ([e3] + rest));
    FeasibleStep(Initial(), props, e1, [e2] + ([e3] + rest));
    assert [e1, e2, e3] + rest == [e1] + ([e2] + ([e3] + rest));
  }

  /** The microphone is refused at the start of a call: nothing records,
      no stream or recorder is kept, and the microphone error is shown. */
  lemma MicrophoneDeniedScenario(props: Props, thrown: Option<string>)
    ensures var r := StartCall(Initial(), props, thrown, MicrophoneDenied, []);
      && !r.isRecording && r.stream.None? && r.recorder.None?
      && r.error == Some(MicrophoneError)
  {
  }
}
