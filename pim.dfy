/** The one-shot assistant of pim.py: the two device probes, whose loops
    return at the first matching device, and `main()`, which takes one
    question from the microphone or the keyboard, asks the model, prints the
    reply and plays it when an output device exists. No exception is caught
    after startup: the first one ends the program. */
module Pim {
  import opened Wrappers
  import opened Text
  import opened PlatformUtils
  import opened Assistant
  import IoAudio

  /** `AUDIO_INPUT_PATH`. */
  const AudioInputPath: string := "input.wav"

  /** The default `samplerate` of `record_audio_interactive`. */
  const RecordRate: int := 16000

  /** What `query_chatgpt` puts before the question. */
  const QueryPrefix: string := "Answer concisely the following question: "

  /** Some device has an output channel (no exclusion by name). */
  function AnyOutput(ds: seq<Device>): (r: bool)
    ensures r <==> exists i :: 0 <= i < |ds| && ds[i].maxOutputChannels > 0
    decreases |ds|
  {
    if ds == [] then false
    else ds[0].maxOutputChannels > 0 || AnyOutput(ds[1..])
  }

  /** What `detect_speaker()` computes, `None` standing for a device query
      that raised. */
  function DetectOutput(query: Option<seq<Device>>): (r: bool)
    ensures r <==> query.Some? && exists i :: 0 <= i < |query.value| && query.value[i].maxOutputChannels > 0
  {
    query.Some? && AnyOutput(query.value)
  }

  /** `detect_microphone()`: the devices in order, true at the first one
      with an input channel, false after the last or when the query raised. */
  method ScanMicrophone(query: Option<seq<Device>>) returns (found: bool)
    ensures found == DetectMicrophone(query)
  {
    if query.None? {
      return false;
    }
    var devices := query.value;
    for i := 0 to |devices|
      invariant forall j :: 0 <= j < i ==> devices[j].maxInputChannels <= 0
    {
      if devices[i].maxInputChannels > 0 {
        return true;
      }
    }
    return false;
  }

  /** `detect_speaker()`: the same search for an output channel. */
  method ScanSpeaker(query: Option<seq<Device>>) returns (found: bool)
    ensures found == DetectOutput(query)
  {
    if query.None? {
      return false;
    }
    var devices := query.value;
    for i := 0 to |devices|
      invariant forall j :: 0 <= j < i ==> devices[j].maxOutputChannels <= 0
    {
      if devices[i].maxOutputChannels > 0 {
        return true;
      }
    }
    return false;
  }

  /** This probe accepts every device the shared speaker test accepts, and
      also a "Dummy Output" device, which the shared test rejects. */
  lemma OutputProbeLooser(query: Option<seq<Device>>, rate: real)
    ensures DetectSpeaker(query) ==> DetectOutput(query)
    ensures var dummy := Some([Device("Dummy Output", 0, 2, rate)]);
            DetectOutput(dummy) && !DetectSpeaker(dummy)
  {
    var d := Device("Dummy Output", 0, 2, rate);
    DummyIsNoSpeaker(2, rate);
    assert [d][0] == d;
    if DetectSpeaker(query) {
      var i :| 0 <= i < |query.value| && IsSpeaker(query.value[i]);
    }
  }

  /** `play_audio(path)`: `afplay` on a Mac, `mpg123` otherwise. */
  function PlayCommand(isMac: bool, path: string): seq<string> {
    if isMac then ["afplay", path] else ["mpg123", path]
  }

  /** The player depends on the platform alone, never on the suffix, and
      gets the path as its one argument. Unlike the shared `play_audio`,
      a `.wav` file off a Mac goes to `mpg123`; on anything else the two
      agree. */
  lemma PlayCommandChoice(isMac: bool, path: string, other: string)
    ensures |PlayCommand(isMac, path)| == 2 && PlayCommand(isMac, path)[1] == path
    ensures PlayCommand(isMac, path)[0] == PlayCommand(isMac, other)[0]
    ensures PlayCommand(isMac, path)[0] == (if isMac then "afplay" else "mpg123")
    ensures !isMac && EndsWith(path, ".wav") ==> PlayCommand(isMac, path) != IoAudio.PlayCommand(isMac, path)
    ensures isMac || !EndsWith(path, ".wav") ==> PlayCommand(isMac, path) == IoAudio.PlayCommand(isMac, path)
  {
    assert ["aplay", path][0] == "aplay";
  }

  /** `play_audio` runs the player unguarded: its exit status is ignored,
      and anything it raises (a missing player, Ctrl+C) propagates. */
  function PlayAudio(isMac: bool, path: string, run: seq<string> -> Result<int>): (r: Result<()>)
    ensures r.Ok? <==> run(PlayCommand(isMac, path)).Ok?
    ensures r.Err? ==> r.kind == run(PlayCommand(isMac, path)).kind
  {
    match run(PlayCommand(isMac, path))
    case Ok(_) => Ok(())
    case Err(k) => Err(k)
  }

  /** `query_chatgpt(prompt)`: the question goes to the model behind the
      fixed prefix, and the reply comes back stripped. */
  function QueryChatgpt(svc: Services, prompt: string): (r: Result<string>)
    ensures r.Err? <==> svc.chat(QueryPrefix + prompt).Err?
    ensures r.Err? ==> r == svc.chat(QueryPrefix + prompt)
    ensures r.Ok? ==> r.value == [] || (!IsSpace(r.value[0]) && !IsSpace(r.value[|r.value| - 1]))
    ensures r.Ok? ==> |r.value| <= |svc.chat(QueryPrefix + prompt).value|
    ensures svc.chat(QueryPrefix + prompt).Ok? ==> r == Ok(Strip(svc.chat(QueryPrefix + prompt).value))
  {
    match svc.chat(QueryPrefix + prompt)
    case Ok(raw) => Ok(Strip(raw))
    case Err(k) => Err(k)
  }

  /** `synthesize_speech(text, output_path)` with gTTS only: the file is
      saved to the given path, or to the default name when none is given. */
  function SynthesizeSpeech(svc: Services, text: string, outputPath: Option<string>, hex: string): (r: Result<string>)
    ensures r.Err? <==> svc.gtts(text, TargetPath(outputPath, hex)).Err?
    ensures r.Err? ==> r.kind == svc.gtts(text, TargetPath(outputPath, hex)).kind
    ensures r.Ok? ==> r.value == TargetPath(outputPath, hex) && r.value != []
  {
    var path := TargetPath(outputPath, hex);
    match svc.gtts(text, path)
    case Ok(_) => Ok(path)
    case Err(k) => Err(k)
  }

  /** `# Input: Mic or keyboard`: with a microphone, the recording on the
      default device at 16000 Hz (which may raise), then the local Whisper
      transcription; without one, the typed line as typed. */
  function Question(svc: Services, hasMic: bool, recorded: Result<()>, typed: Result<string>)
    : (Result<string>, seq<Event>)
  {
    if hasMic then
      var stream := [Stream(None, Some(RecordRate))];
      match recorded
      case Err(k) => (Err(k), stream)
      case Ok(_) => (svc.transcribeLocal(AudioInputPath), stream + [Transcribe(true, AudioInputPath)])
    else (typed, [])
  }

  /** `# GPT + TTS` and `# Output`: the reply is printed once synthesis
      returned, and played exactly when there is an output device. */
  function Answer(svc: Services, hasSpeaker: bool, isMac: bool, run: seq<string> -> Result<int>,
                  hex: string, question: string): (Result<()>, seq<Event>)
  {
    var asked := [Query(false, question)];
    match QueryChatgpt(svc, question)
    case Err(k) => (Err(k), asked)
    case Ok(reply) =>
      var made := asked + [Synthesize(false, reply)];
      match SynthesizeSpeech(svc, reply, None, hex)
      case Err(k) => (Err(k), made)
      case Ok(path) =>
        if hasSpeaker then (PlayAudio(isMac, path, run), made + [Output(reply), Play(PlayCommand(isMac, path))])
        else (Ok(()), made + [Output(reply), Muted])
  }

  /** `main()` after loading the key and the Whisper model, from the device
      query (or `None` if it raised), the recording's outcome, the typed
      line and the hex digits of the default audio name. */
  function Run(svc: Services, devices: Option<seq<Device>>, isMac: bool, run: seq<string> -> Result<int>,
               recorded: Result<()>, typed: Result<string>, hex: string): (Result<()>, seq<Event>)
  {
    var q := Question(svc, DetectMicrophone(devices), recorded, typed);
    match q.0
    case Err(k) => (Err(k), q.1)
    case Ok(text) =>
      var a := Answer(svc, DetectOutput(devices), isMac, run, hex, text);
      (a.0, q.1 + a.1)
  }

  /** `main()` with its two probe loops: `HAS_MIC` and `HAS_SPEAKER` are
      set from the scans, and the rest runs as `Run` says. */
  method RunProgram(svc: Services, devices: Option<seq<Device>>, isMac: bool, run: seq<string> -> Result<int>,
               recorded: Result<()>, typed: Result<string>, hex: string)
    returns (hasMic: bool, hasSpeaker: bool, result: Result<()>, trace: seq<Event>)
    ensures hasMic == DetectMicrophone(devices) && hasSpeaker == DetectOutput(devices)
    ensures (result, trace) == Run(svc, devices, isMac, run, recorded, typed, hex)
  {
    hasMic := ScanMicrophone(devices);
    hasSpeaker := ScanSpeaker(devices);
    var q := Question(svc, hasMic, recorded, typed);
    if q.0.Err? {
      return hasMic, hasSpeaker, Err(q.0.kind), q.1;
    }
    var a := Answer(svc, hasSpeaker, isMac, run, hex, q.0.value);
    result, trace := a.0, q.1 + a.1;
  }

  /** The question comes from the recording and its transcription exactly
      when a microphone was found; otherwise the typed line goes to the
      model unchanged, and nothing is recorded or transcribed. */
  lemma InputBranch(svc: Services, devices: Option<seq<Device>>, isMac: bool, run: seq<string> -> Result<int>,
                    recorded: Result<()>, typed: Result<string>, hex: string)
    ensures var t := Run(svc, devices, isMac, run, recorded, typed, hex).1;
            (|t| >= 1 && t[0] == Stream(None, Some(RecordRate))) <==> DetectMicrophone(devices)
    ensures var t := Run(svc, devices, isMac, run, recorded, typed, hex).1;
            DetectMicrophone(devices) && recorded.Ok? ==>
              |t| >= 2 && t[1] == Transcribe(true, AudioInputPath)
              && (svc.transcribeLocal(AudioInputPath).Ok? ==>
                    |t| >= 3 && t[2] == Query(false, svc.transcribeLocal(AudioInputPath).value))
    ensures var t := Run(svc, devices, isMac, run, recorded, typed, hex).1;
            !DetectMicrophone(devices) ==>
              (forall j :: 0 <= j < |t| ==> !t[j].Stream? && !t[j].Transcribe?)
              && (typed.Ok? ==> |t| >= 1 && t[0] == Query(false, typed.value))
              && (typed.Err? ==> t == [])
  {
    var hasMic := DetectMicrophone(devices);
    var q := Question(svc, hasMic, recorded, typed);
    if q.0.Ok? {
      var a := Answer(svc, DetectOutput(devices), isMac, run, hex, q.0.value);
      AnswerShape(svc, DetectOutput(devices), isMac, run, hex, q.0.value);
      assert (q.1 + a.1)[..|q.1|] == q.1;
      assert (q.1 + a.1)[|q.1|] == a.1[0];
      if !hasMic {
        assert q.1 + a.1 == a.1;
      }
    }
  }

  /** The events of `Answer`: always the query first, then at most the
      synthesis, the printed reply and the playback decision; no recording
      and no transcription. */
  lemma AnswerShape(svc: Services, hasSpeaker: bool, isMac: bool, run: seq<string> -> Result<int>,
                    hex: string, question: string)
    ensures var t := Answer(svc, hasSpeaker, isMac, run, hex, question).1;
            1 <= |t| <= 4 && t[0] == Query(false, question)
            && forall j :: 0 <= j < |t| ==> !t[j].Stream? && !t[j].Transcribe?
  {
    var t := Answer(svc, hasSpeaker, isMac, run, hex, question).1;
    match QueryChatgpt(svc, question)
    case Err(_) =>
      assert t == [Query(false, question)];
    case Ok(reply) =>
      match SynthesizeSpeech(svc, reply, None, hex)
      case Err(_) =>
        assert t == [Query(false, question), Synthesize(false, reply)];
      case Ok(path) =>
        if hasSpeaker {
          assert t == [Query(false, question), Synthesize(false, reply), Output(reply), Play(PlayCommand(isMac, path))];
        } else {
          assert t == [Query(false, question), Synthesize(false, reply), Output(reply), Muted];
        }
  }

  /** Once synthesis returned, the reply is printed whatever the devices,
      and it is played, by the platform's player on the default `.mp3`
      file, exactly when an output device was found. */
  lemma OutputBranch(svc: Services, devices: Option<seq<Device>>, isMac: bool, run: seq<string> -> Result<int>,
                     recorded: Result<()>, typed: Result<string>, hex: string)
    requires Question(svc, DetectMicrophone(devices), recorded, typed).0.Ok?
    requires QueryChatgpt(svc, Question(svc, DetectMicrophone(devices), recorded, typed).0.value).Ok?
    requires SynthesizeSpeech(svc, QueryChatgpt(svc, Question(svc, DetectMicrophone(devices), recorded, typed).0.value).value,
                              None, hex).Ok?
    ensures var q := Question(svc, DetectMicrophone(devices), recorded, typed);
            var reply := QueryChatgpt(svc, q.0.value).value;
            var t := Run(svc, devices, isMac, run, recorded, typed, hex).1;
            |t| == |q.1| + 4 && t[|q.1| + 2] == Output(reply)
            && (t[|q.1| + 3].Play? <==> DetectOutput(devices))
            && (t[|q.1| + 3].Play? ==> t[|q.1| + 3].argv == [if isMac then "afplay" else "mpg123", DefaultPath(hex)])
  {
    var q := Question(svc, DetectMicrophone(devices), recorded, typed);
    var a := Answer(svc, DetectOutput(devices), isMac, run, hex, q.0.value);
    assert (q.1 + a.1)[|q.1| + 2] == a.1[2] && (q.1 + a.1)[|q.1| + 3] == a.1[3];
  }

  /** The program finishes normally exactly when every step returned:
      the question, the model, the synthesis and, with an output device,
      the player; otherwise it ends with what the first failing step raised. */
  lemma FinishesIffAllReturn(svc: Services, devices: Option<seq<Device>>, isMac: bool, run: seq<string> -> Result<int>,
                             recorded: Result<()>, typed: Result<string>, hex: string)
    ensures var q := Question(svc, DetectMicrophone(devices), recorded, typed).0;
            Run(svc, devices, isMac, run, recorded, typed, hex).0.Ok? <==>
              q.Ok? && QueryChatgpt(svc, q.value).Ok?
              && SynthesizeSpeech(svc, QueryChatgpt(svc, q.value).value, None, hex).Ok?
              && (DetectOutput(devices) ==> run(PlayCommand(isMac, DefaultPath(hex))).Ok?)
    ensures var q := Question(svc, DetectMicrophone(devices), recorded, typed).0;
            q.Err? ==> Run(svc, devices, isMac, run, recorded, typed, hex).0 == Err(q.kind)
  {
  }

  /** With a single device that has outputs but no inputs, the typed
      question is answered and a synthesised reply is played. */
  lemma OutputOnlyDevicePlays(svc: Services, d: Device, isMac: bool, run: seq<string> -> Result<int>,
                              recorded: Result<()>, typed: Result<string>, hex: string)
    requires d.maxInputChannels <= 0 < d.maxOutputChannels
    requires typed.Ok? && QueryChatgpt(svc, typed.value).Ok?
    requires SynthesizeSpeech(svc, QueryChatgpt(svc, typed.value).value, None, hex).Ok?
    ensures var t := Run(svc, Some([d]), isMac, run, recorded, typed, hex).1;
            |t| == 4 && t[0] == Query(false, typed.value) && t[3].Play?
  {
    assert [d][0] == d;
    assert !DetectMicrophone(Some([d]));
    assert DetectOutput(Some([d]));
    OutputBranch(svc, Some([d]), isMac, run, recorded, typed, hex);
  }

  /** So a "Dummy Output" device, on which the shared speaker test finds
      no speaker, still gets the reply played. */
  lemma DummyDevicePlays(svc: Services, isMac: bool, run: seq<string> -> Result<int>,
                         recorded: Result<()>, typed: Result<string>, hex: string, rate: real)
    requires typed.Ok? && QueryChatgpt(svc, typed.value).Ok?
    requires SynthesizeSpeech(svc, QueryChatgpt(svc, typed.value).value, None, hex).Ok?
    ensures var devices := Some([Device("Dummy Output", 0, 2, rate)]);
            var t := Run(svc, devices, isMac, run, recorded, typed, hex).1;
            !DetectSpeaker(devices) && |t| == 4 && t[3].Play?
  {
    var d := Device("Dummy Output", 0, 2, rate);
    OutputProbeLooser(Some([d]), rate);
    OutputOnlyDevicePlays(svc, d, isMac, run, recorded, typed, hex);
  }
}
