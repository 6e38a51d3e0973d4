/** The button-and-ENTER assistant of pim_io.py: startup, `start_interaction`
    with the `arecord` recorder, and the button callback, which the first
    recording rebinds to its own stop listener. */
module PimIo {
  import opened Wrappers
  import opened GpioHandler
  import opened IoAudio
  import opened PlatformUtils
  import opened Assistant

  /** `AUDIO_INPUT_PATH`. */
  const AudioInputPath: string := "input.wav"

  /** What `button.when_pressed` is bound to. */
  datatype Handler = NoHandler | StartsInteraction | StopsRecording

  /** Where an interaction request comes from: a button press, or a line
      read by `wait_for_enter_key`. */
  datatype Source = Button | Enter

  /** `start_interaction()`: "listening", the recorder until the stop event,
      then the shared response. A `KeyboardInterrupt` in the polling loop
      still terminates and waits for the recorder, and then leaves. */
  function Interact(svc: Services, f: Flags, hasSpeaker: bool, isMac: bool,
                    run: seq<string> -> Result<int>, hex: string, poll: nat -> Poll, budget: nat)
    : (Outcome, seq<Event>)
  {
    var started := [State("listening"), Recorder(Spawn(RecordCommand(AudioInputPath)))];
    var stopped := started + [Recorder(Terminate), Recorder(Wait)];
    match EndOf(poll, budget)
    case StillRecording => (Recording, started)
    case Raised => (Aborted(Interrupt), stopped)
    case Stopped =>
      var r := Respond(svc, f, hasSpeaker, isMac, run, hex, AudioInputPath);
      (r.0, stopped + r.1)
  }

  /** An interaction sets "listening" first and never "ready"; one that
      completes sets exactly "listening", "processing", "speaking" and is
      left in "speaking", which the LED loop then turns into "idle". */
  lemma InteractStates(svc: Services, f: Flags, hasSpeaker: bool, isMac: bool,
                       run: seq<string> -> Result<int>, hex: string, poll: nat -> Poll, budget: nat,
                       init: string)
    ensures var t := Interact(svc, f, hasSpeaker, isMac, run, hex, poll, budget).1;
            |States(t)| >= 1 && States(t)[0] == "listening" && "ready" !in States(t)
    ensures var r := Interact(svc, f, hasSpeaker, isMac, run, hex, poll, budget);
            r.0 == Completed ==>
              States(r.1) == ["listening", "processing", "speaking"]
              && LastState(r.1, init) == "speaking"
              && After(LastState(r.1, init), "idle") == "idle"
  {
    var spawn := Recorder(Spawn(RecordCommand(AudioInputPath)));
    var started := [State("listening"), spawn];
    var stopped := started + [Recorder(Terminate), Recorder(Wait)];
    ListeningStates(spawn, init);
    if EndOf(poll, budget) != StillRecording {
      assert stopped == started + [Recorder(Terminate)] + [Recorder(Wait)];
      StatesAppend(started, [Recorder(Terminate), Recorder(Wait)]);
      StatesCons(Recorder(Terminate), [Recorder(Wait)]);
      StatesCons(Recorder(Wait), []);
      assert [Recorder(Terminate), Recorder(Wait)] == [Recorder(Terminate)] + [Recorder(Wait)];
      assert [Recorder(Wait)] == [Recorder(Wait)] + [];
      LastStateSnoc(started, Recorder(Terminate), init);
      LastStateSnoc(started + [Recorder(Terminate)], Recorder(Wait), init);
      if EndOf(poll, budget) == Stopped {
        ListenedResponseStates(stopped, svc, f, hasSpeaker, isMac, run, hex, AudioInputPath, init);
      }
    }
  }

  /** The program's globals after the `__main__` block reached `pause()`. */
  class PimIo {
    var piModel: string
    var online: bool
    var whisperLoaded: bool
    var hasMic: bool
    var hasSpeaker: bool
    var handler: Handler
    var setup: seq<Setup>
    const ind: Indicator
    const flags: LocalFlags

    /** Startup from the probes' answers: /proc/cpuinfo (or `None` if the
        read raised), the connectivity probe and the device query (or
        `None` if it raised). The flags are set only in local mode, Whisper
        is loaded only for local transcription, and the button is bound to
        `start_interaction` after the state became "ready". */
    constructor (cpuinfo: Option<string>, isOnline: bool, devices: Option<seq<Device>>)
      ensures piModel == DetectPiModel(cpuinfo) && online == isOnline
      ensures flags.Value() == (if UseLocal(piModel, online) then Flags(true, true, true) else Flags(false, false, false))
      ensures whisperLoaded == flags.stt
      ensures hasMic == DetectMicrophone(devices) && hasSpeaker == DetectSpeaker(devices)
      ensures ind.state == "ready" && ind.settle == "idle"
      ensures handler == StartsInteraction
      ensures setup == (if whisperLoaded then [LoadWhisper] else []) + [SetReady, BindButton, StartEnterListener]
      ensures fresh(ind) && fresh(flags)
    {
      var model := DetectPiModel(cpuinfo);
      var local := new LocalFlags();
      local.SetIfLocal(model, isOnline);
      var indicator := new Indicator("idle");
      piModel, online := model, isOnline;
      whisperLoaded := local.stt;
      var steps := if local.stt then [LoadWhisper] else [];
      hasMic := DetectMicrophone(devices);
      hasSpeaker := DetectSpeaker(devices);
      indicator.SetState("ready");
      steps := steps + [SetReady];
      ind, flags := indicator, local;
      handler := StartsInteraction;
      steps := steps + [BindButton];
      setup := steps + [StartEnterListener];
    }

    /** `start_interaction()`, changing the shared state and, from inside
        `record_audio_interactive`, the button binding. */
    method StartInteraction(svc: Services, isMac: bool, run: seq<string> -> Result<int>, hex: string,
                            poll: nat -> Poll, budget: nat)
      returns (outcome: Outcome, trace: seq<Event>)
      modifies ind`state, this`handler
      ensures (outcome, trace) == Interact(svc, flags.Value(), hasSpeaker, isMac, run, hex, poll, budget)
      ensures ind.state == LastState(trace, old(ind.state))
      ensures handler == StopsRecording
    {
      ind.SetState("listening");
      handler := StopsRecording;
      var end, _, _, procs := RecordInteractive(AudioInputPath, poll, budget);
      var started := [State("listening"), Recorder(Spawn(RecordCommand(AudioInputPath)))];
      assert started == [] + [State("listening")] + [Recorder(Spawn(RecordCommand(AudioInputPath)))];
      LastStateSnoc([], State("listening"), old(ind.state));
      LastStateSnoc([State("listening")], Recorder(Spawn(RecordCommand(AudioInputPath))), old(ind.state));
      if end == StillRecording {
        return Recording, started;
      }
      trace := started + [Recorder(Terminate), Recorder(Wait)];
      assert trace == started + [Recorder(Terminate)] + [Recorder(Wait)];
      LastStateSnoc(started, Recorder(Terminate), old(ind.state));
      LastStateSnoc(started + [Recorder(Terminate)], Recorder(Wait), old(ind.state));
      if end == Raised {
        return Aborted(Interrupt), trace;
      }
      var rest;
      outcome, rest := RespondInteraction(ind, svc, flags.Value(), hasSpeaker, isMac, run, hex, AudioInputPath);
      LastStateAppend(trace, rest, old(ind.state));
      trace := trace + rest;
    }

    /** A button press: whatever `when_pressed` holds runs. Once a recording
        has rebound it, a press outside a recording only sets the stale stop
        event of the recording before, which nothing waits on. */
    method ButtonPressed(svc: Services, isMac: bool, run: seq<string> -> Result<int>, hex: string,
                         poll: nat -> Poll, budget: nat)
      returns (started: bool, outcome: Outcome, trace: seq<Event>)
      modifies ind`state, this`handler
      ensures started <==> old(handler) == StartsInteraction
      ensures started ==> (outcome, trace) == Interact(svc, flags.Value(), hasSpeaker, isMac, run, hex, poll, budget)
                          && ind.state == LastState(trace, old(ind.state)) && handler == StopsRecording
      ensures !started ==> trace == [] && ind.state == old(ind.state) && handler == old(handler)
    {
      if handler == StartsInteraction {
        started := true;
        outcome, trace := StartInteraction(svc, isMac, run, hex, poll, budget);
      } else {
        started, outcome, trace := false, Completed, [];
      }
    }

    /** Requests one after the other, the k-th interaction seeing the polls
        `polls(k)`. ENTER always starts an interaction; the button does so
        only for the very first request, since the first recording, from
        either source, takes the button over for good. */
    method Session(inputs: seq<Source>, svc: Services, isMac: bool, run: seq<string> -> Result<int>,
                   hex: string, polls: nat -> nat -> Poll, budget: nat)
      returns (started: seq<bool>)
      requires handler == StartsInteraction
      modifies ind`state, this`handler
      ensures |started| == |inputs|
      ensures forall i :: 0 <= i < |inputs| ==> (started[i] <==> i == 0 || inputs[i] == Enter)
      ensures handler == if inputs == [] then StartsInteraction else StopsRecording
    {
      started := [];
      var i := 0;
      while i < |inputs|
        invariant 0 <= i <= |inputs| && |started| == i
        invariant forall j :: 0 <= j < i ==> (started[j] <==> j == 0 || inputs[j] == Enter)
        invariant handler == if i == 0 then StartsInteraction else StopsRecording
      {
        var s, o, t;
        if inputs[i] == Enter {
          var _, _ := StartInteraction(svc, isMac, run, hex, polls(i), budget);
          s := true;
        } else {
          s, o, t := ButtonPressed(svc, isMac, run, hex, polls(i), budget);
        }
        started := started + [s];
        i := i + 1;
      }
    }
  }
}
