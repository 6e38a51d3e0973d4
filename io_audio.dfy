/** Recording with `arecord` until a stop signal, and the choice of playback
    command (tiny_him/io_audio.py; the same recorder loop is in pim_io.py
    and the same `play_audio` choice in pim_io.py, pim_zero.py and
    pim_zero_button.py). */
module IoAudio {
  import opened Text

  /** The command `play_audio(path)` runs: `afplay` on a Mac, otherwise
      `aplay` for a `.wav` file and `mpg123` for anything else. */
  function PlayCommand(isMac: bool, path: string): seq<string> {
    if isMac then ["afplay", path]
    else if EndsWith(path, ".wav") then ["aplay", path]
    else ["mpg123", path]
  }

  /** The player is chosen by the platform first and the suffix second,
      and always gets the path as its one argument. */
  lemma PlayCommandChoice(isMac: bool, path: string)
    ensures |PlayCommand(isMac, path)| == 2 && PlayCommand(isMac, path)[1] == path
    ensures isMac ==> PlayCommand(isMac, path)[0] == "afplay"
    ensures !isMac ==> (PlayCommand(isMac, path)[0] == "aplay" <==> EndsWith(path, ".wav"))
    ensures !isMac ==> (PlayCommand(isMac, path)[0] == "mpg123" <==> !EndsWith(path, ".wav"))
  {
  }

  /** The recorder command: `arecord -D plughw:2,0 -f cd <path>`. */
  function RecordCommand(path: string): seq<string> {
    ["arecord", "-D", "plughw:2,0", "-f", "cd", path]
  }

  /** What the k-th test of `while not stop_event.is_set(): time.sleep(0.1)`
      meets: the event still clear (sleep and test again), the event set
      (leave the loop), or the event clear and the sleep raising. */
  datatype Poll = Clear | StopSet | Interrupted

  /** How the polling loop ended within the modelled number of polls. */
  datatype RecordEnd = Stopped | Raised | StillRecording

  /** Calls made on the recorder process. */
  datatype Proc = Spawn(argv: seq<string>) | Terminate | Wait

  /** The first poll at or after `from` that is not `Clear`, or `budget`
      when the first `budget` polls are all clear. */
  function FirstSignalFrom(poll: nat -> Poll, from: nat, budget: nat): (k: nat)
    requires from <= budget
    ensures from <= k <= budget
    ensures forall j :: from <= j < k ==> poll(j) == Clear
    ensures k < budget ==> poll(k) != Clear
    decreases budget - from
  {
    if from == budget || poll(from) != Clear then from
    else FirstSignalFrom(poll, from + 1, budget)
  }

  /** The number of polls that find the event clear before the loop ends. */
  function FirstSignal(poll: nat -> Poll, budget: nat): (k: nat)
    ensures k <= budget
    ensures forall j :: 0 <= j < k ==> poll(j) == Clear
    ensures k < budget ==> poll(k) != Clear
  {
    FirstSignalFrom(poll, 0, budget)
  }

  /** How the loop ends, given the polls. */
  function EndOf(poll: nat -> Poll, budget: nat): RecordEnd {
    var k := FirstSignal(poll, budget);
    if k == budget then StillRecording
    else if poll(k) == StopSet then Stopped
    else Raised
  }

  /** The loop can only end with the event set, or by an exception. */
  lemma EndOfMeaning(poll: nat -> Poll, budget: nat)
    ensures EndOf(poll, budget) == Stopped <==>
      exists k :: 0 <= k < budget && poll(k) == StopSet && forall j :: 0 <= j < k ==> poll(j) == Clear
    ensures EndOf(poll, budget) == StillRecording <==> forall j :: 0 <= j < budget ==> poll(j) == Clear
  {
    var k := FirstSignal(poll, budget);
    if EndOf(poll, budget) != Stopped {
      forall k' | 0 <= k' < budget && poll(k') == StopSet
        ensures exists j :: 0 <= j < k' && poll(j) != Clear
      {
        assert 0 <= k < k' && poll(k) != Clear;
      }
    }
  }

  /** `record_audio_interactive(output_path, stop_event)`: start `arecord`,
      poll every 100 ms until the stop event is set, and terminate and wait
      for the recorder on every way out of the loop. At most `budget` polls
      are modelled; a run that is still polling then reports StillRecording
      with the recorder still running. */
  method RecordInteractive(path: string, poll: nat -> Poll, budget: nat)
    returns (end: RecordEnd, polls: nat, elapsedMs: nat, procs: seq<Proc>)
    ensures polls == FirstSignal(poll, budget) && end == EndOf(poll, budget)
    ensures elapsedMs == 100 * polls
    ensures procs == [Spawn(RecordCommand(path))] + (if end == StillRecording then [] else [Terminate, Wait])
  {
    procs := [Spawn(RecordCommand(path))];
    polls, elapsedMs := 0, 0;
    end := StillRecording;
    while polls < budget
      invariant polls <= budget
      invariant forall j :: 0 <= j < polls ==> poll(j) == Clear
      invariant elapsedMs == 100 * polls
    {
      var p := poll(polls);
      if p == StopSet {
        end := Stopped;
        break;
      } else if p == Interrupted {
        end := Raised;
        break;
      }
      elapsedMs := elapsedMs + 100;
      polls := polls + 1;
    }
    if end != StillRecording {
      // the finally: block
      procs := procs + [Terminate, Wait];
    }
  }
}
