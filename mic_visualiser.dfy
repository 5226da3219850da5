/** The microphone session behind the live visualiser
    (components/MicVisualiser.tsx): the status machine driven by `startMic` and
    `stopMic`, the two analyser read-outs that reuse their byte buffers, and the
    overlay the component shows for each status.

    The browser's part is abstract: an acquisition either succeeds or throws an
    error with a name at one of its stages; closing the audio context either
    resolves or rejects; the bytes an analyser writes are a parameter. */
module MicVisualiser {
  import opened Optional

  datatype Status = Idle | Starting | Running | Denied | Error

  /** What the component sets on, and reads from, an `AnalyserNode`. */
  datatype Analyser = Analyser(fftSize: nat, smoothingTimeConstant: real) {
    /** `frequencyBinCount`: half the FFT size. */
    function FrequencyBinCount(): (n: nat)
      ensures 2 * n <= fftSize < 2 * n + 2
    {
      fftSize / 2
    }
  }

  const FftSize: nat := 2048
  const SmoothingTimeConstant: real := 0.75
  const DeniedMessage: string := "Microphone access was denied. Please allow mic permissions and try again."
  const FailureMessage: string := "Could not start microphone visualiser."

  /** The step of `startMic` that throws: the permission request, creating the
      audio context, or building and connecting the analyser. */
  datatype Stage = RequestStream | CreateContext | ConnectAnalyser

  /** The outcome of acquiring the microphone; `name` is `err?.name`. */
  datatype Acquisition = Granted | Failed(stage: Stage, name: Option<string>)

  /** The error names that mean the user or the page refused the microphone. */
  predicate IsPermissionError(name: Option<string>)
    ensures IsPermissionError(name) ==> name.Some?
    ensures IsPermissionError(name) <==> name.Some? && name.value in {"NotAllowedError", "SecurityError"}
  {
    name == Some("NotAllowedError") || name == Some("SecurityError")
  }

  /** The status and message a failed acquisition leaves. */
  function FailureOutcome(name: Option<string>): (r: (Status, string))
    ensures r.0 == Denied <==> IsPermissionError(name)
    ensures r.0 == Error <==> !IsPermissionError(name)
    ensures r.1 == if r.0 == Denied then DeniedMessage else FailureMessage
  {
    if IsPermissionError(name) then (Denied, DeniedMessage) else (Error, FailureMessage)
  }

  class Mic {
    var status: Status
    var errorMsg: Option<string>
    /** `analyserRef.current`. */
    var analyser: Option<Analyser>
    /** Whether `audioCtxRef.current` and `streamRef.current` are set. */
    var hasContext: bool
    var hasStream: bool
    /** `freqRef.current` and `timeRef.current`. */
    var freqBuf: array?<bv8>
    var timeBuf: array?<bv8>

    /** The analyser is set exactly while the microphone runs. */
    predicate Consistent()
      reads this
    {
      (status == Running) == analyser.Some?
    }

    constructor ()
      ensures status == Idle && errorMsg == None && analyser == None
      ensures !hasContext && !hasStream && freqBuf == null && timeBuf == null
      ensures Consistent()
    {
      status := Idle;
      errorMsg := None;
      analyser := None;
      hasContext, hasStream := false, false;
      freqBuf, timeBuf := null, null;
    }

    /** `startMic` up to its first `await`: the message is cleared and the
        status is `starting` before anything is requested from the browser. */
    method BeginStart()
      modifies this
      ensures errorMsg == None && status == Starting
      ensures analyser == old(analyser) && hasContext == old(hasContext) && hasStream == old(hasStream)
      ensures freqBuf == old(freqBuf) && timeBuf == old(timeBuf)
    {
      errorMsg := None;
      status := Starting;
    }

    /** The rest of `startMic`, once the browser has answered. On success the
        stream, the context and an analyser with FFT size 2048 and smoothing
        0.75 are in place and the status is `running`. A failure leaves the refs
        set by the steps before it, and ends in `denied` with the permission
        message for NotAllowedError and SecurityError, in `error` with the
        generic message otherwise. */
    method CompleteStart(outcome: Acquisition)
      modifies this
      ensures outcome.Granted? ==> (status == Running && errorMsg == old(errorMsg)
        && analyser == Some(Analyser(FftSize, SmoothingTimeConstant)) && hasStream && hasContext)
      ensures outcome.Failed? ==> (
        status == FailureOutcome(outcome.name).0 && errorMsg == Some(FailureOutcome(outcome.name).1)
        && analyser == old(analyser)
        && hasStream == (old(hasStream) || outcome.stage != RequestStream)
        && hasContext == (old(hasContext) || outcome.stage == ConnectAnalyser))
      ensures freqBuf == old(freqBuf) && timeBuf == old(timeBuf)
    {
      match outcome
      case Granted =>
        hasStream := true;
        hasContext := true;
        var node := Analyser(0, 0.8);
        node := node.(fftSize := FftSize);
        node := node.(smoothingTimeConstant := SmoothingTimeConstant);
        analyser := Some(node);
        status := Running;
      case Failed(stage, name) =>
        if stage != RequestStream {
          hasStream := true;
        }
        if stage == ConnectAnalyser {
          hasContext := true;
        }
        if IsPermissionError(name) {
          status := Denied;
          errorMsg := Some(DeniedMessage);
        } else {
          status := Error;
          errorMsg := Some(FailureMessage);
        }
    }

    /** `startMic` as a whole. Started from any status but `running`, it keeps
        the analyser set exactly while running. */
    method StartMic(outcome: Acquisition)
      modifies this
      ensures outcome.Granted? ==> (status == Running && errorMsg == None
        && analyser == Some(Analyser(FftSize, SmoothingTimeConstant)))
      ensures outcome.Failed? ==> (status == FailureOutcome(outcome.name).0 && analyser == old(analyser)
        && errorMsg == Some(FailureOutcome(outcome.name).1))
      ensures outcome.Granted? ==> hasStream && hasContext
      ensures outcome.Failed? ==> (hasStream == (old(hasStream) || outcome.stage != RequestStream)
        && hasContext == (old(hasContext) || outcome.stage == ConnectAnalyser))
      ensures old(Consistent()) && old(status) != Running ==> Consistent()
      ensures freqBuf == old(freqBuf) && timeBuf == old(timeBuf)
    {
      BeginStart();
      CompleteStart(outcome);
    }

    /** `stopMic` up to its `await`: the analyser ref is cleared first, so a
        frame that reads the analyser while the context closes gets nothing. */
    method BeginStop()
      modifies this
      ensures analyser == None
      ensures status == old(status) && errorMsg == old(errorMsg)
      ensures hasContext == old(hasContext) && hasStream == old(hasStream)
      ensures freqBuf == old(freqBuf) && timeBuf == old(timeBuf)
    {
      analyser := None;
    }

    /** The rest of `stopMic`. The context is closed and dropped, then the
        stream's tracks are stopped and it is dropped; if closing rejects, the
        rest is skipped and the rejection leaves `stopMic` (`rejected`) after
        the `finally` block has set `idle`. */
    method FinishStop(closeResolves: bool) returns (rejected: bool)
      modifies this
      ensures status == Idle && analyser == old(analyser) && errorMsg == old(errorMsg)
      ensures rejected <==> old(hasContext) && !closeResolves
      ensures !rejected ==> !hasContext && !hasStream
      ensures rejected ==> hasContext && hasStream == old(hasStream)
      ensures freqBuf == old(freqBuf) && timeBuf == old(timeBuf)
    {
      if hasContext && !closeResolves {
        status := Idle;
        return true;
      }
      rejected := false;
      hasContext := false;
      hasStream := false;
      status := Idle;
    }

    /** `stopMic` as a whole: always `idle` with no analyser; the refs are
        dropped unless closing the context rejects, and then the rejection
        propagates to the caller. */
    method StopMic(closeResolves: bool) returns (rejected: bool)
      modifies this
      ensures status == Idle && analyser == None && Consistent()
      ensures errorMsg == old(errorMsg)
      ensures rejected <==> old(hasContext) && !closeResolves
      ensures !rejected ==> !hasContext && !hasStream
      ensures rejected ==> hasContext && hasStream == old(hasStream)
      ensures freqBuf == old(freqBuf) && timeBuf == old(timeBuf)
    {
      BeginStop();
      rejected := FinishStop(closeResolves);
    }

    /** `getFrequencyData`: null without an analyser; otherwise the frequency
        buffer, reallocated only when missing or of the wrong length, filled with
        the analyser's `frequencyBinCount` bytes `spectrum`. */
    method GetFrequencyData(spectrum: seq<bv8>) returns (data: array?<bv8>)
      requires analyser.Some? ==> |spectrum| == analyser.value.FrequencyBinCount()
      modifies this, freqBuf
      ensures status == old(status) && analyser == old(analyser) && timeBuf == old(timeBuf)
      ensures errorMsg == old(errorMsg) && hasContext == old(hasContext) && hasStream == old(hasStream)
      ensures analyser.None? <==> data == null
      ensures analyser.None? ==> freqBuf == old(freqBuf) && (freqBuf != null ==> unchanged(freqBuf))
      ensures analyser.Some? ==> data == freqBuf && data[..] == spectrum
      ensures analyser.Some? && old(freqBuf) != null && old(freqBuf.Length) == |spectrum| ==> data == old(freqBuf)
      ensures analyser.Some? && (old(freqBuf) == null || old(freqBuf.Length) != |spectrum|) ==> fresh(data)
    {
      if analyser.None? {
        return null;
      }
      var n := analyser.value.FrequencyBinCount();
      if freqBuf == null || freqBuf.Length != n {
        freqBuf := new bv8[n];
      }
      var buf := freqBuf;
      forall i | 0 <= i < n {
        buf[i] := spectrum[i];
      }
      data := buf;
    }

    /** `getTimeDomainData`: the same rule, with a buffer of `fftSize` bytes. */
    method GetTimeDomainData(waveform: seq<bv8>) returns (data: array?<bv8>)
      requires analyser.Some? ==> |waveform| == analyser.value.fftSize
      modifies this, timeBuf
      ensures status == old(status) && analyser == old(analyser) && freqBuf == old(freqBuf)
      ensures errorMsg == old(errorMsg) && hasContext == old(hasContext) && hasStream == old(hasStream)
      ensures analyser.None? <==> data == null
      ensures analyser.None? ==> timeBuf == old(timeBuf) && (timeBuf != null ==> unchanged(timeBuf))
      ensures analyser.Some? ==> data == timeBuf && data[..] == waveform
      ensures analyser.Some? && old(timeBuf) != null && old(timeBuf.Length) == |waveform| ==> data == old(timeBuf)
      ensures analyser.Some? && (old(timeBuf) == null || old(timeBuf.Length) != |waveform|) ==> fresh(data)
    {
      if analyser.None? {
        return null;
      }
      var n := analyser.value.fftSize;
      if timeBuf == null || timeBuf.Length != n {
        timeBuf := new bv8[n];
      }
      var buf := timeBuf;
      forall i | 0 <= i < n {
        buf[i] := waveform[i];
      }
      data := buf;
    }
  }

  /** What the overlay card shows: heading, explanation and the enable button. */
  datatype Overlay = Overlay(title: string, subtitle: string, buttonLabel: string, buttonDisabled: bool)

  /** The overlay's heading; "Mic Error" is the fallback of the chain. */
  function Title(status: Status): (t: string)
    ensures t == "Starting…" <==> status == Starting
    ensures t == "Mic Permission Needed" <==> status == Denied
    ensures t == "Enable Microphone" <==> status == Idle
    ensures t == "Mic Error" <==> status == Error || status == Running
  {
    match status
    case Idle => "Enable Microphone"
    case Starting => "Starting…"
    case Denied => "Mic Permission Needed"
    case _ => "Mic Error"
  }

  /** The overlay's explanation: fixed texts while idle or starting, the
      stored message (or "Try again.") otherwise. */
  function Subtitle(status: Status, errorMsg: Option<string>): (t: string)
    ensures status == Idle ==> t == "This makes the visualiser react like Windows Media Player."
    ensures status == Starting ==> t == "Waiting for browser permission…"
    ensures status != Idle && status != Starting ==> t == errorMsg.GetOr("Try again.")
  {
    match status
    case Idle => "This makes the visualiser react like Windows Media Player."
    case Starting => "Waiting for browser permission…"
    case _ => errorMsg.GetOr("Try again.")
  }

  /** The overlay for a status: none while running. */
  function OverlayFor(status: Status, errorMsg: Option<string>): (o: Option<Overlay>)
    ensures o.None? <==> status == Running
  {
    if status == Running then None
    else Some(Overlay(Title(status), Subtitle(status, errorMsg),
                      if status == Starting then "Starting…" else "Enable Mic",
                      status == Starting))
  }

  /** Whether the "Stop mic" button is rendered. */
  function StopButtonShown(status: Status): (shown: bool)
    ensures shown <==> status == Running
  {
    status == Running
  }

  /** Exactly one way out is on screen: the overlay with its enable button, or
      the stop button. */
  lemma OverlayOrStopButton(status: Status, errorMsg: Option<string>)
    ensures StopButtonShown(status) <==> OverlayFor(status, errorMsg).None?
    ensures StopButtonShown(status) <==> status == Running
  {
  }

  /** The enable button is disabled, and says "Starting…", exactly while starting. */
  lemma EnableButtonDisabledIffStarting(status: Status, errorMsg: Option<string>)
    requires status != Running
    ensures OverlayFor(status, errorMsg).value.buttonDisabled <==> status == Starting
    ensures OverlayFor(status, errorMsg).value.buttonLabel == if status == Starting then "Starting…" else "Enable Mic"
  {
  }

  /** Every status but `running` has its own title. */
  lemma TitlesDistinct(s: Status, t: Status)
    requires s != Running && t != Running && s != t
    ensures Title(s) != Title(t)
  {
  }

  /** After a failure the overlay explains it with the stored message, and
      says "Try again." when there is none. */
  lemma FailureSubtitle(status: Status, errorMsg: Option<string>)
    requires status == Denied || status == Error
    ensures OverlayFor(status, errorMsg).value.subtitle == errorMsg.GetOr("Try again.")
    ensures errorMsg.None? ==> OverlayFor(status, errorMsg).value.subtitle == "Try again."
  {
  }

  /** A refused permission request, from a fresh component: the overlay asks for
      the permission, shows the permission message and offers the button again. */
  method DeniedFlow(name: string) returns (o: Option<Overlay>, frequencies: array?<bv8>)
    requires name == "NotAllowedError" || name == "SecurityError"
    ensures o == Some(Overlay("Mic Permission Needed", DeniedMessage, "Enable Mic", false))
    ensures frequencies == null
  {
    var m := new Mic();
    m.StartMic(Failed(RequestStream, Some(name)));
    assert IsPermissionError(Some(name));
    assert m.status == Denied && m.errorMsg == Some(DeniedMessage);
    o := OverlayFor(m.status, m.errorMsg);
    frequencies := m.GetFrequencyData([]);
  }

  /** Start, read one spectrum, stop: the read-out has `frequencyBinCount` = 1024
      bytes while running and is null after stopping; the overlay comes back with
      the idle title. */
  method StartReadStop(spectrum: seq<bv8>, closeResolves: bool)
    returns (during: array?<bv8>, after: array?<bv8>, o: Option<Overlay>)
    requires |spectrum| == FftSize / 2
    ensures during != null && during.Length == 1024 && after == null
    ensures o.Some? && o.value.title == "Enable Microphone" && !o.value.buttonDisabled
  {
    var m := new Mic();
    m.StartMic(Granted);
    during := m.GetFrequencyData(spectrum);
    var rejected := m.StopMic(closeResolves);
    after := m.GetFrequencyData(spectrum);
    o := OverlayFor(m.status, m.errorMsg);
  }
}
