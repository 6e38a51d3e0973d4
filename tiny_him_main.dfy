/** The tiny_him entry point (tiny_him/main.py): the local/online decision,
    startup, and the button handler that admits one interaction at a time
    through a non-blocking lock. */
module TinyHimMain {
  import opened Wrappers
  import opened GpioHandler
  import opened IoAudio
  import opened Interaction
  import opened PlatformUtils

  /** `interaction_lock` and `stop_event`, as the button handler and
      `wrapped_interaction` see them, one call at a time. */
  class Admission {
    var locked: bool
    var stopSet: bool

    constructor ()
      ensures !locked && !stopSet
    {
      locked := false;
      stopSet := false;
    }

    /** One pass of the `while True` body of `button_handler` after
        `wait_for_press()`: a press while the lock is held changes nothing
        and starts nothing; otherwise the lock is taken, the event cleared
        and one interaction started, followed by a 300 ms pause. */
    method Press() returns (started: bool, waitMs: nat)
      modifies this
      ensures started == !old(locked)
      ensures started ==> locked && !stopSet && waitMs == 300
      ensures !started ==> locked == old(locked) && stopSet == old(stopSet) && waitMs == 0
    {
      if locked {
        return false, 0;
      }
      locked := true;
      stopSet := false;
      started := true;
      waitMs := 300;
    }

    /** The `finally: interaction_lock.release()` of `wrapped_interaction`. */
    method Finish()
      requires locked
      modifies this`locked
      ensures !locked
    {
      locked := false;
    }

    /** `stop_event.is_set()` at every poll of the recording loop: nothing
        in the program sets the event, so it reads what the last `clear()`
        left. */
    function Polls(): nat -> Poll
      reads this
    {
      var isSet := stopSet;
      (k: nat) => if isSet then StopSet else Clear
    }
  }

  /** The event is never set, so every poll finds it clear and the
      recording loop cannot end within any number of polls. */
  lemma NeverStopped(c: Config, online: bool, onlineB: Backend, offlineB: Backend,
                      isMac: bool, run: Runner, poll: nat -> Poll, budget: nat, init: string)
    requires forall k :: poll(k) == Clear
    ensures EndOf(poll, budget) == StillRecording
    ensures Run(c, online, onlineB, offlineB, isMac, run, poll, budget).0 == Recording
    ensures LastState(Run(c, online, onlineB, offlineB, isMac, run, poll, budget).1, init) == "listening"
  {
    var k := FirstSignal(poll, budget);
    assert poll(k) == Clear;
    var started := [State("listening"), Recorder(Spawn(RecordCommand(c.audioInputPath)))];
    assert started == [State("listening")] + [Recorder(Spawn(RecordCommand(c.audioInputPath)))];
    LastStateSnoc([State("listening")], Recorder(Spawn(RecordCommand(c.audioInputPath))), init);
    LastStateSnoc([], State("listening"), init);
    assert [] + [State("listening")] == [State("listening")];
  }

  /** `wrapped_interaction`: run one interaction with `online = not
      USE_LOCAL` and release the lock on every way out of it, an exception
      included. An interaction still recording has not left, so it still
      holds the lock. */
  method WrappedInteraction(adm: Admission, ind: Indicator, c: Config, useLocal: bool,
                            onlineB: Backend, offlineB: Backend, isMac: bool, run: Runner, budget: nat)
    returns (outcome: Outcome, trace: seq<Event>)
    requires adm.locked
    modifies adm`locked, ind`state
    ensures (outcome, trace) == Run(c, !useLocal, onlineB, offlineB, isMac, run, old(adm.Polls()), budget)
    ensures ind.state == LastState(trace, old(ind.state))
    ensures adm.locked <==> outcome == Recording
  {
    outcome, trace := RunInteraction(ind, c, !useLocal, onlineB, offlineB, isMac, run, adm.Polls(), budget);
    if outcome != Recording {
      adm.Finish();
    }
  }

  /** What startup does, in order. */
  datatype Boot = LoadWhisper | SetReady | StartLedThread | StartButtonThread

  /** The program's globals after the module code ran up to `pause()`. */
  class TinyHim {
    var piModel: string
    var online: bool
    var useLocal: bool
    var whisperLoaded: bool
    var hasMic: bool
    var hasSpeaker: bool
    var boot: seq<Boot>
    const ind: Indicator
    const adm: Admission

    /** Startup from the probes' answers: /proc/cpuinfo (or `None` if the
        read raised), the connectivity probe and the device list. Whisper
        is loaded only in local mode, and the state is "ready" before the
        LED thread and the button thread start. */
    constructor (cpuinfo: Option<string>, isOnline: bool, devices: Option<seq<Device>>)
      ensures piModel == DetectPiModel(cpuinfo) && online == isOnline
      ensures useLocal == UseLocal(piModel, online)
      ensures whisperLoaded == useLocal
      ensures hasMic == DetectMicrophone(devices) && hasSpeaker == DetectSpeaker(devices)
      ensures boot == (if useLocal then [LoadWhisper] else []) + [SetReady, StartLedThread, StartButtonThread]
      ensures ind.state == "ready" && ind.settle == "ready" && !ind.led
      ensures !adm.locked && !adm.stopSet
      ensures fresh(ind) && fresh(adm)
    {
      var model := DetectPiModel(cpuinfo);
      var local := UseLocal(model, isOnline);
      piModel, online, useLocal := model, isOnline, local;
      var steps := [];
      whisperLoaded := false;
      if local {
        whisperLoaded := true;
        steps := steps + [LoadWhisper];
      }
      hasMic := DetectMicrophone(devices);
      hasSpeaker := DetectSpeaker(devices);
      var indicator := new Indicator("ready");
      adm := new Admission();
      indicator.SetState("ready");
      ind := indicator;
      boot := steps + [SetReady, StartLedThread, StartButtonThread];
    }

    /** `presses` button presses one after the other, each admitted press
        running its interaction to the end of the modelled polls. The first
        press is admitted; as nothing sets the stop event, its recording
        never ends, the lock is never released and every later press is
        dropped. */
    method Presses(presses: nat, c: Config, onlineB: Backend, offlineB: Backend,
                   isMac: bool, run: Runner, budget: nat)
      returns (admitted: nat, outcomes: seq<Outcome>)
      requires !adm.locked && !adm.stopSet
      modifies adm, ind`state
      ensures admitted == (if presses == 0 then 0 else 1)
      ensures outcomes == (if presses == 0 then [] else [Recording])
      ensures presses > 0 ==> adm.locked && ind.state == "listening"
    {
      admitted, outcomes := 0, [];
      var i := 0;
      while i < presses
        invariant 0 <= i <= presses
        invariant !adm.stopSet
        invariant admitted == (if i == 0 then 0 else 1)
        invariant outcomes == (if i == 0 then [] else [Recording])
        invariant adm.locked <==> i > 0
        invariant i > 0 ==> ind.state == "listening"
      {
        var started, _ := adm.Press();
        if started {
          assert forall k :: adm.Polls()(k) == Clear;
          NeverStopped(c, !useLocal, onlineB, offlineB, isMac, run, adm.Polls(), budget, ind.state);
          var outcome, trace := WrappedInteraction(adm, ind, c, useLocal, onlineB, offlineB, isMac, run, budget);
          admitted := admitted + 1;
          outcomes := outcomes + [outcome];
        }
        i := i + 1;
      }
    }
  }

  /** Offline on a board that is not a Pi 5, `USE_LOCAL` is false and the
      interaction is handed `online=True`: it uses the online services
      even though the connectivity probe failed. */
  lemma OfflineNonPiFiveGoesOnline(piModel: string, onlineB: Backend, offlineB: Backend)
    requires piModel != "Pi 5"
    ensures !UseLocal(piModel, false)
    ensures Chosen(!UseLocal(piModel, false), onlineB, offlineB) == onlineB
  {
  }
}
