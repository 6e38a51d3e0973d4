/** The button-only assistant of pim_zero_button.py: startup, and
    `handle_button_press` with the sounddevice recorder, which searches for
    a microphone and records until ENTER is typed. */
module PimZeroButton {
  import opened Wrappers
  import opened GpioHandler
  import opened PlatformUtils
  import opened Assistant

  /** `AUDIO_INPUT_PATH`. */
  const AudioInputPath: string := "input.wav"

  /** `handle_button_press()`: "listening", the microphone search (no rate
      is passed, so it is `None` before the search), the recording, whose
      stream and file may raise (`recorded`), then the shared response. */
  function ButtonInteract(svc: Services, f: Flags, hasSpeaker: bool, isMac: bool,
                          run: seq<string> -> Result<int>, hex: string,
                          query: Option<seq<Device>>, recorded: Result<()>)
    : (Outcome, seq<Event>)
  {
    var mic := MicChoice(query, None);
    var started := [State("listening"), Stream(mic.0, mic.1)];
    match recorded
    case Err(k) => (Aborted(k), started)
    case Ok(_) =>
      var r := Respond(svc, f, hasSpeaker, isMac, run, hex, AudioInputPath);
      (r.0, started + r.1)
  }

  /** The recording opens the stream on the first qualifying device, at
      its own default rate; with no such device both are left `None`. */
  lemma ButtonInteractStream(svc: Services, f: Flags, hasSpeaker: bool, isMac: bool,
                             run: seq<string> -> Result<int>, hex: string,
                             query: Option<seq<Device>>, recorded: Result<()>)
    ensures var e := ButtonInteract(svc, f, hasSpeaker, isMac, run, hex, query, recorded).1[1];
            e.Stream? && (e.device.Some? <==> e.samplerate.Some?)
            && (e.device.Some? ==> query.Some? && e.device.value < |query.value|
                                   && Qualifies(query.value[e.device.value])
                                   && (forall j :: 0 <= j < e.device.value ==> !Qualifies(query.value[j]))
                                   && e.samplerate.value == Trunc(query.value[e.device.value].defaultSampleRate))
            && (e.device.None? && query.Some? ==> forall j :: 0 <= j < |query.value| ==> !Qualifies(query.value[j]))
  {
    var mic := MicChoice(query, None);
    var started := [State("listening"), Stream(mic.0, mic.1)];
    if recorded.Ok? {
      var r := Respond(svc, f, hasSpeaker, isMac, run, hex, AudioInputPath);
      assert (started + r.1)[1] == started[1];
    }
  }

  /** A press sets "listening" first and never "ready"; one that completes
      sets exactly "listening", "processing", "speaking" and is left in
      "speaking", which the LED loop then turns into "idle". */
  lemma ButtonInteractStates(svc: Services, f: Flags, hasSpeaker: bool, isMac: bool,
                             run: seq<string> -> Result<int>, hex: string,
                             query: Option<seq<Device>>, recorded: Result<()>, init: string)
    ensures var t := ButtonInteract(svc, f, hasSpeaker, isMac, run, hex, query, recorded).1;
            |States(t)| >= 1 && States(t)[0] == "listening" && "ready" !in States(t)
    ensures var r := ButtonInteract(svc, f, hasSpeaker, isMac, run, hex, query, recorded);
            r.0 == Completed ==>
              States(r.1) == ["listening", "processing", "speaking"]
              && LastState(r.1, init) == "speaking"
              && After(LastState(r.1, init), "idle") == "idle"
  {
    var mic := MicChoice(query, None);
    var started := [State("listening"), Stream(mic.0, mic.1)];
    ListeningStates(Stream(mic.0, mic.1), init);
    if recorded.Ok? {
      ListenedResponseStates(started, svc, f, hasSpeaker, isMac, run, hex, AudioInputPath, init);
    }
  }

  /** The program's globals after the `__main__` block reached `pause()`. */
  class PimZeroButton {
    var piModel: string
    var online: bool
    var hasMic: bool
    var hasSpeaker: bool
    var setup: seq<Setup>
    const ind: Indicator
    const flags: LocalFlags

    /** Startup from the probes' answers: /proc/cpuinfo (or `None` if the
        read raised), the connectivity probe and the device query (or
        `None` if it raised). The flags are set only in local mode, and
        the state is "ready" before the button handler is registered. */
    constructor (cpuinfo: Option<string>, isOnline: bool, devices: Option<seq<Device>>)
      ensures piModel == DetectPiModel(cpuinfo) && online == isOnline
      ensures flags.Value() == (if UseLocal(piModel, online) then Flags(true, true, true) else Flags(false, false, false))
      ensures setup == (if flags.stt then [LoadWhisper] else []) + [SetReady, BindButton]
      ensures hasMic == DetectMicrophone(devices) && hasSpeaker == DetectSpeaker(devices)
      ensures ind.state == "ready" && ind.settle == "idle"
      ensures fresh(ind) && fresh(flags)
    {
      var model := DetectPiModel(cpuinfo);
      var local := new LocalFlags();
      local.SetIfLocal(model, isOnline);
      var indicator := new Indicator("idle");
      var steps := if local.stt then [LoadWhisper] else [];
      piModel, online := model, isOnline;
      hasMic := DetectMicrophone(devices);
      hasSpeaker := DetectSpeaker(devices);
      indicator.SetState("ready");
      steps := steps + [SetReady];
      ind, flags := indicator, local;
      setup := steps + [BindButton];
    }

    /** `handle_button_press()`, changing the shared state. */
    method HandleButtonPress(svc: Services, isMac: bool, run: seq<string> -> Result<int>, hex: string,
                             query: Option<seq<Device>>, recorded: Result<()>)
      returns (outcome: Outcome, trace: seq<Event>)
      modifies ind`state
      ensures (outcome, trace) == ButtonInteract(svc, flags.Value(), hasSpeaker, isMac, run, hex, query, recorded)
      ensures ind.state == LastState(trace, old(ind.state))
    {
      ind.SetState("listening");
      var micIndex, rate := SelectMic(query, None);
      trace := [State("listening"), Stream(micIndex, rate)];
      assert trace == [] + [State("listening")] + [Stream(micIndex, rate)];
      LastStateSnoc([], State("listening"), old(ind.state));
      LastStateSnoc([State("listening")], Stream(micIndex, rate), old(ind.state));
      if recorded.Err? {
        return Aborted(recorded.kind), trace;
      }
      var rest;
      outcome, rest := RespondInteraction(ind, svc, flags.Value(), hasSpeaker, isMac, run, hex, AudioInputPath);
      LastStateAppend(trace, rest, old(ind.state));
      trace := trace + rest;
    }
  }
}
