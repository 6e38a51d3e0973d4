/** The helpers pim_io.py, pim_zero.py and pim_zero_button.py share word
    for word: the local-mode flags, `query_llm`, `synthesize_speech`, the
    guarded `play_audio`, the microphone search of the sounddevice recorder,
    and the part of an interaction after the recording. */
module Assistant {
  import opened Wrappers
  import opened Text
  import opened GpioHandler
  import opened IoAudio
  import opened PlatformUtils

  /** The prompt prefix of the local language model. */
  const LocalSystemPrompt: string := "You are a helpful assistant. Answer concisely:\n"

  /** The reply when the local language model fails. */
  const OfflineReply: string := "I'm offline and unable to respond."

  /** The foreign services, each of which may raise:
      `whisper_model.transcribe(path)["text"]`, the OpenAI transcription,
      the raw text of `Llama(...)(prompt)`, the raw content of the chat
      completion for one user message, `subprocess.run(["espeak", text,
      "-w", path])` and `gTTS(text).save(path)`. */
  datatype Services = Services(
    transcribeLocal: string -> Result<string>,
    transcribeOpenai: string -> Result<string>,
    llama: string -> Result<string>,
    chat: string -> Result<string>,
    espeak: (string, string) -> Result<int>,
    gtts: (string, string) -> Result<()>)

  /** `USE_LOCAL_STT`, `USE_LOCAL_LLM`, `USE_LOCAL_TTS`. */
  datatype Flags = Flags(stt: bool, llm: bool, tts: bool)

  /** The three module globals, which start `False`. */
  class LocalFlags {
    var stt: bool
    var llm: bool
    var tts: bool

    constructor ()
      ensures !stt && !llm && !tts
    {
      stt, llm, tts := false, false, false;
    }

    function Value(): Flags
      reads this
    {
      Flags(stt, llm, tts)
    }

    /** The `__main__` block of pim_io.py and pim_zero_button.py: the flags
        are set only when local mode applies, and are left alone otherwise. */
    method SetIfLocal(piModel: string, online: bool)
      modifies this
      ensures UseLocal(piModel, online) ==> stt && llm && tts
      ensures !UseLocal(piModel, online) ==> stt == old(stt) && llm == old(llm) && tts == old(tts)
    {
      if piModel == "Pi 5" && !online {
        stt := true;
        llm := true;
        tts := true;
      }
    }

    /** `main()` of pim_zero.py: both branches assign, so the flags always
        end up equal to the rule, whatever they were. */
    method SetFromRule(piModel: string, online: bool)
      modifies this
      ensures stt == UseLocal(piModel, online) && llm == stt && tts == stt
    {
      if piModel == "Pi 5" && !online {
        stt, llm, tts := true, true, true;
      } else {
        stt, llm, tts := false, false, false;
      }
    }
  }

  /** What the `__main__` block of a button program does after the probes,
      in order: load Whisper, set "ready", bind the button's handler, start
      the ENTER listener. */
  datatype Setup = LoadWhisper | SetReady | BindButton | StartEnterListener

  /** `transcribe_audio_local(whisper_model, path)` or
      `transcribe_audio_openai(client, path)`, as `USE_LOCAL_STT` says. */
  function TranscribeAudio(svc: Services, local: bool, path: string): Result<string> {
    if local then svc.transcribeLocal(path) else svc.transcribeOpenai(path)
  }

  /** The fixed offline reply has no surrounding whitespace either. */
  lemma OfflineReplyStripped()
    ensures !IsSpace(OfflineReply[0]) && !IsSpace(OfflineReply[|OfflineReply| - 1])
  {
  }

  /** `query_llm(client, prompt, model, use_local)`. Locally the prompt gets
      the fixed system prefix and any `Exception` becomes the offline reply;
      online the prompt goes alone and exceptions propagate. A
      `KeyboardInterrupt` is never caught. */
  function QueryLlm(svc: Services, prompt: string, useLocal: bool): (r: Result<string>)
    ensures r.Ok? ==> r.value == [] || (!IsSpace(r.value[0]) && !IsSpace(r.value[|r.value| - 1]))
    ensures useLocal ==> r.Ok? || r == Err(Interrupt)
    ensures !useLocal ==> (r.Err? <==> svc.chat(prompt).Err?) && (r.Err? ==> r == svc.chat(prompt))
    ensures !useLocal && svc.chat(prompt).Ok? ==> r == Ok(Strip(svc.chat(prompt).value))
    ensures useLocal && svc.llama(LocalSystemPrompt + prompt).Ok? ==>
              r == Ok(Strip(svc.llama(LocalSystemPrompt + prompt).value))
  {
    if useLocal then
      match svc.llama(LocalSystemPrompt + prompt)
      case Ok(raw) => Ok(Strip(raw))
      case Err(Interrupt) => Err(Interrupt)
      case Err(Failure) => OfflineReplyStripped(); Ok(OfflineReply)
    else
      match svc.chat(prompt)
      case Ok(raw) => Ok(Strip(raw))
      case Err(e) => Err(e)
  }

  /** A failing local model gives exactly the offline reply. */
  lemma LocalFailureReply(svc: Services, prompt: string)
    requires svc.llama(LocalSystemPrompt + prompt) == Err(Failure)
    ensures QueryLlm(svc, prompt, true) == Ok(OfflineReply)
  {
  }

  /** `f"response_{uuid.uuid4().hex}.mp3"`, the hex digits given. */
  function DefaultPath(hex: string): string {
    "response_" + hex + ".mp3"
  }

  /** `output_path`, or the default when it is `None` or empty. */
  function TargetPath(outputPath: Option<string>, hex: string): (p: string)
    ensures p != []
    ensures outputPath.Some? && outputPath.value != [] ==> p == outputPath.value
  {
    if outputPath.None? || outputPath.value == [] then DefaultPath(hex) else outputPath.value
  }

  /** A non-empty text stays non-empty under a replacement by a non-empty string. */
  lemma ReplaceNonEmpty(s: string, pat: string, rep: string)
    requires s != [] && pat != [] && rep != []
    ensures Replace(s, pat, rep) != []
  {
  }

  /** `synthesize_speech(text, output_path, use_local)`: the path of the
      audio it wrote, `None` when espeak raised an `Exception`, or the
      exception that left it. Locally the file name has every ".mp3"
      replaced by ".wav"; online gTTS writes to the name itself. */
  function SynthesizeSpeech(svc: Services, text: string, outputPath: Option<string>, hex: string,
                            useLocal: bool): (r: Result<Option<string>>)
    ensures r.Ok? && r.value.Some? ==> r.value.value != []
    ensures useLocal ==> r.Err? ==> r.kind == Interrupt
    ensures !useLocal ==> (r.Ok? <==> svc.gtts(text, TargetPath(outputPath, hex)).Ok?)
    ensures !useLocal && r.Ok? ==> r.value == Some(TargetPath(outputPath, hex))
    ensures useLocal ==> var wav := Replace(TargetPath(outputPath, hex), ".mp3", ".wav");
              (svc.espeak(text, wav).Ok? ==> r == Ok(Some(wav)))
              && (svc.espeak(text, wav) == Err(Failure) <==> r == Ok(None))
  {
    var path := TargetPath(outputPath, hex);
    if useLocal then
      var wav := Replace(path, ".mp3", ".wav");
      ReplaceNonEmpty(path, ".mp3", ".wav");
      match svc.espeak(text, wav)
      case Ok(_) => Ok(Some(wav))
      case Err(Interrupt) => Err(Interrupt)
      case Err(Failure) => Ok(None)
    else
      match svc.gtts(text, path)
      case Ok(_) => Ok(Some(path))
      case Err(e) => Err(e)
  }

  /** The default name is turned into a `.wav` name by local synthesis (the
      hex digits hold no '.'), which `play_audio` then hands to `aplay` off
      a Mac, while the online default stays `.mp3` and goes to `mpg123`. */
  lemma DefaultPathPlayers(hex: string)
    requires '.' !in hex
    ensures Replace(DefaultPath(hex), ".mp3", ".wav") == "response_" + hex + ".wav"
    ensures PlayCommand(false, "response_" + hex + ".wav") == ["aplay", "response_" + hex + ".wav"]
    ensures PlayCommand(false, DefaultPath(hex)) == ["mpg123", DefaultPath(hex)]
  {
    var pre := "response_" + hex;
    assert '.' !in "response_";
    assert '.' !in pre by {
      forall i | 0 <= i < |pre|
        ensures pre[i] != '.'
      {
        if i >= 9 {
          assert pre[i] == hex[i - 9];
        }
      }
    }
    ReplaceSkip(pre, ".mp3", ".mp3", ".wav");
    assert ".mp3"[4..] == [];
    assert Replace([], ".mp3", ".wav") == [];
    assert Replace(".mp3", ".mp3", ".wav") == ".wav" + Replace([], ".mp3", ".wav");
    assert DefaultPath(hex) == pre + ".mp3";
    var wav := pre + ".wav";
    assert wav[|wav| - 4..] == ".wav";
    var mp3 := pre + ".mp3";
    assert mp3[|mp3| - 4..] == ".mp3";
  }

  /** A name without ".mp3" is used as it is by local synthesis. */
  lemma LocalKeepsOtherNames(svc: Services, text: string, path: string, hex: string)
    requires path != [] && !Contains(path, ".mp3")
    requires svc.espeak(text, path).Ok?
    ensures SynthesizeSpeech(svc, text, Some(path), hex, true) == Ok(Some(path))
  {
    ReplaceAbsent(path, ".mp3", ".wav");
  }

  /** `play_audio(path)` with its `try`: the player of `PlayCommand`, and
      every `Exception` (a player that is not installed, say) reported and
      swallowed; only a `KeyboardInterrupt` leaves it. */
  function PlayAudio(isMac: bool, path: string, run: seq<string> -> Result<int>): (r: Result<()>)
    ensures r.Ok? || r == Err(Interrupt)
    ensures r == Err(Interrupt) <==> run(PlayCommand(isMac, path)) == Err(Interrupt)
  {
    match run(PlayCommand(isMac, path))
    case Err(Interrupt) => Err(Interrupt)
    case _ => Ok(())
  }

  /** `if has_speaker and audio_path:` (an empty path is false too). */
  predicate ShouldPlay(hasSpeaker: bool, audioPath: Option<string>) {
    hasSpeaker && audioPath.Some? && audioPath.value != []
  }

  /** With a speaker, audio is played exactly when synthesis gave a file:
      every path synthesis returns is non-empty. */
  lemma PlaysIffSynthesized(svc: Services, text: string, outputPath: Option<string>, hex: string,
                            useLocal: bool, hasSpeaker: bool)
    requires SynthesizeSpeech(svc, text, outputPath, hex, useLocal).Ok?
    ensures ShouldPlay(hasSpeaker, SynthesizeSpeech(svc, text, outputPath, hex, useLocal).value)
            <==> hasSpeaker && SynthesizeSpeech(svc, text, outputPath, hex, useLocal).value.Some?
  {
  }

  // ---------------------------------------------------------------------
  // The microphone search of the sounddevice recorder
  // ---------------------------------------------------------------------

  /** An input device that is neither a monitor nor a dummy. */
  predicate Qualifies(d: Device) {
    d.maxInputChannels > 0 && !Contains(Lower(d.name), "monitor") && !Contains(Lower(d.name), "dummy")
  }

  /** `int(x)` for a float: truncation toward zero. */
  function Trunc(x: real): (r: int)
    ensures x >= 0.0 ==> r as real <= x < r as real + 1.0
    ensures x < 0.0 ==> r as real - 1.0 < x <= r as real
  {
    if x >= 0.0 then x.Floor else -((-x).Floor)
  }

  /** The first qualifying device at or after `from`. */
  function FirstQualifying(ds: seq<Device>, from: nat): (r: Option<nat>)
    requires from <= |ds|
    ensures r.Some? ==> from <= r.value < |ds| && Qualifies(ds[r.value])
                        && forall j :: from <= j < r.value ==> !Qualifies(ds[j])
    ensures r.None? ==> forall j :: from <= j < |ds| ==> !Qualifies(ds[j])
    decreases |ds| - from
  {
    if from == |ds| then None
    else if Qualifies(ds[from]) then Some(from)
    else FirstQualifying(ds, from + 1)
  }

  /** The microphone index and sample rate the recorder ends up with. */
  function MicChoice(query: Option<seq<Device>>, samplerate: Option<int>): (Option<nat>, Option<int>) {
    if query.None? then (None, samplerate)
    else
      match FirstQualifying(query.value, 0)
      case None => (None, samplerate)
      case Some(i) =>
        (Some(i), if samplerate.None? then Some(Trunc(query.value[i].defaultSampleRate)) else samplerate)
  }

  /** The `for idx, dev in enumerate(devices): ... break` search: the first
      qualifying device, whose default rate is taken only when no rate was
      given; with no qualifying device, or a query that raised, the index
      stays `None` and the rate as it was. */
  method SelectMic(query: Option<seq<Device>>, samplerate: Option<int>)
    returns (micIndex: Option<nat>, rate: Option<int>)
    ensures micIndex.Some? ==> query.Some? && micIndex.value < |query.value|
                               && Qualifies(query.value[micIndex.value])
                               && (forall j :: 0 <= j < micIndex.value ==> !Qualifies(query.value[j]))
    ensures micIndex.Some? ==> rate == if samplerate.None? then Some(Trunc(query.value[micIndex.value].defaultSampleRate)) else samplerate
    ensures micIndex.None? ==> rate == samplerate && (query.Some? ==> forall j :: 0 <= j < |query.value| ==> !Qualifies(query.value[j]))
    ensures (micIndex, rate) == MicChoice(query, samplerate)
  {
    micIndex, rate := None, samplerate;
    if query.None? {
      return;
    }
    var devices := query.value;
    var idx := 0;
    while idx < |devices|
      invariant 0 <= idx <= |devices|
      invariant forall j :: 0 <= j < idx ==> !Qualifies(devices[j])
      invariant micIndex.None? && rate == samplerate
      invariant FirstQualifying(devices, 0) == FirstQualifying(devices, idx)
    {
      var dev := devices[idx];
      var name := Lower(dev.name);
      if dev.maxInputChannels > 0 && !Contains(name, "monitor") && !Contains(name, "dummy") {
        micIndex := Some(idx);
        if samplerate.None? {
          rate := Some(Trunc(dev.defaultSampleRate));
        }
        return;
      }
      idx := idx + 1;
    }
  }

  // ---------------------------------------------------------------------
  // After the recording: start_interaction / handle_button_press
  // ---------------------------------------------------------------------

  /** What a pim interaction does that can be observed, in order. */
  datatype Event =
    | State(name: string)
    | Recorder(call: Proc)
    | Stream(device: Option<nat>, samplerate: Option<int>)
    | Transcribe(local: bool, path: string)
    | Query(local: bool, prompt: string)
    | Synthesize(local: bool, text: string)
    | Output(text: string)
    | Play(argv: seq<string>)
    | Muted

  /** How an interaction ends: it returns, an exception of the given kind
      leaves it, or it is still recording after the modelled polls. */
  datatype Outcome = Completed | Aborted(kind: ErrorKind) | Recording

  /** The names passed to `set_state`, in order. */
  function States(trace: seq<Event>): seq<string>
    decreases |trace|
  {
    if trace == [] then []
    else (if trace[0].State? then [trace[0].name] else []) + States(trace[1..])
  }

  lemma StatesCons(e: Event, rest: seq<Event>)
    ensures States([e] + rest) == (if e.State? then [e.name] else []) + States(rest)
  {
    assert ([e] + rest)[1..] == rest;
  }

  lemma {:induction false} StatesAppend(a: seq<Event>, b: seq<Event>)
    ensures States(a + b) == States(a) + States(b)
    decreases |a|
  {
    if a == [] {
      assert a + b == b;
    } else {
      assert (a + b)[1..] == a[1..] + b;
      StatesAppend(a[1..], b);
    }
  }

  /** The state after `trace`, having been `init` before it. */
  function LastState(trace: seq<Event>, init: string): string
    decreases |trace|
  {
    if trace == [] then init
    else if trace[|trace| - 1].State? then trace[|trace| - 1].name
    else LastState(trace[..|trace| - 1], init)
  }

  lemma LastStateSnoc(trace: seq<Event>, e: Event, init: string)
    ensures LastState(trace + [e], init) == if e.State? then e.name else LastState(trace, init)
  {
    assert (trace + [e])[..|trace|] == trace;
  }

  /** No event of `s` sets the state. */
  predicate SetsNoState(s: seq<Event>) {
    forall i :: 0 <= i < |s| ==> !s[i].State?
  }

  /** The part of a response after `set_state("processing")`: events that
      set no state, possibly ending with "speaking" and one more such event,
      and always so when the response completed. */
  predicate AfterProcessing(o: Outcome, s: seq<Event>) {
    (o != Completed && SetsNoState(s))
    || (|s| >= 2 && SetsNoState(s[..|s| - 2]) && s[|s| - 2] == State("speaking") && !s[|s| - 1].State?)
  }

  /** An event that sets no state can go in front. */
  lemma AfterProcessingCons(e: Event, o: Outcome, s: seq<Event>)
    requires !e.State? && AfterProcessing(o, s)
    ensures AfterProcessing(o, [e] + s)
  {
    var t := [e] + s;
    if o != Completed && SetsNoState(s) {
      assert forall i :: 0 < i < |t| ==> t[i] == s[i - 1];
    } else {
      assert t[..|t| - 2] == [e] + s[..|s| - 2];
      assert t[|t| - 2] == s[|s| - 2] && t[|t| - 1] == s[|s| - 1];
    }
  }

  /** From `set_state("processing")` to the end: transcribe, ask, synthesize
      with no output path, `set_state("speaking")`, then play when there is
      a speaker and a file. Nothing here catches an exception, except what
      `query_llm`, `synthesize_speech` and `play_audio` catch themselves. */
  function Respond(svc: Services, f: Flags, hasSpeaker: bool, isMac: bool,
                   run: seq<string> -> Result<int>, hex: string, inputPath: string): (r: (Outcome, seq<Event>))
    ensures |r.1| >= 2 && r.1[..2] == [State("processing"), Transcribe(f.stt, inputPath)]
    ensures AfterProcessing(r.0, r.1[2..])
  {
    var heard := [State("processing"), Transcribe(f.stt, inputPath)];
    match TranscribeAudio(svc, f.stt, inputPath)
    case Err(k) => (Aborted(k), heard)
    case Ok(userText) =>
      var a := Answer(svc, f, hasSpeaker, isMac, run, hex, userText);
      assert (heard + a.1)[2..] == a.1;
      (a.0, heard + a.1)
  }

  /** The response from `query_llm` on. */
  function Answer(svc: Services, f: Flags, hasSpeaker: bool, isMac: bool,
                  run: seq<string> -> Result<int>, hex: string, userText: string): (r: (Outcome, seq<Event>))
    ensures |r.1| >= 1 && r.1[0] == Query(f.llm, userText)
    ensures AfterProcessing(r.0, r.1)
  {
    var asked := [Query(f.llm, userText)];
    match QueryLlm(svc, userText, f.llm)
    case Err(k) => (Aborted(k), asked)
    case Ok(reply) =>
      var v := Voice(svc, f, hasSpeaker, isMac, run, hex, reply);
      AfterProcessingCons(asked[0], v.0, v.1);
      (v.0, asked + v.1)
  }

  /** The response from `synthesize_speech` on. */
  function Voice(svc: Services, f: Flags, hasSpeaker: bool, isMac: bool,
                 run: seq<string> -> Result<int>, hex: string, reply: string): (r: (Outcome, seq<Event>))
    ensures |r.1| >= 1 && r.1[0] == Synthesize(f.tts, reply)
    ensures AfterProcessing(r.0, r.1)
  {
    var spoken := [Synthesize(f.tts, reply)];
    match SynthesizeSpeech(svc, reply, None, hex, f.tts)
    case Err(k) => (Aborted(k), spoken)
    case Ok(audio) =>
      var sp := Speak(hasSpeaker, isMac, run, audio);
      AfterProcessingCons(spoken[0], sp.0, sp.1);
      (sp.0, spoken + sp.1)
  }

  /** `set_state("speaking")` and the playback decision. */
  function Speak(hasSpeaker: bool, isMac: bool, run: seq<string> -> Result<int>,
                 audio: Option<string>): (r: (Outcome, seq<Event>))
    ensures |r.1| == 2 && r.1[0] == State("speaking") && !r.1[1].State?
    ensures r.1[1].Play? <==> ShouldPlay(hasSpeaker, audio)
    ensures r.1[1].Play? ==> r.1[1].argv == PlayCommand(isMac, audio.value)
    ensures r.0 != Completed <==> r.1[1].Play? && run(PlayCommand(isMac, audio.value)) == Err(Interrupt)
  {
    if ShouldPlay(hasSpeaker, audio) then
      var played := [State("speaking"), Play(PlayCommand(isMac, audio.value))];
      match PlayAudio(isMac, audio.value, run)
      case Err(k) => (Aborted(k), played)
      case Ok(_) => (Completed, played)
    else (Completed, [State("speaking"), Muted])
  }

  /** The state after two traces in a row. */
  lemma {:induction false} LastStateAppend(a: seq<Event>, b: seq<Event>, init: string)
    ensures LastState(a + b, init) == LastState(b, LastState(a, init))
    decreases |b|
  {
    if b == [] {
      assert a + b == a;
    } else {
      var front, last := b[..|b| - 1], b[|b| - 1];
      assert b == front + [last];
      assert a + b == (a + front) + [last];
      LastStateAppend(a, front, init);
      LastStateSnoc(a + front, last, init);
      LastStateSnoc(front, last, LastState(a, init));
    }
  }

  /** Events that set no state leave the state alone. */
  lemma {:induction false} NoStates(s: seq<Event>, init: string)
    requires SetsNoState(s)
    ensures States(s) == [] && LastState(s, init) == init
    decreases |s|
  {
    if s != [] {
      assert s == [s[0]] + s[1..];
      StatesCons(s[0], s[1..]);
      NoStates(s[1..], init);
      assert s == s[..|s| - 1] + [s[|s| - 1]];
      LastStateSnoc(s[..|s| - 1], s[|s| - 1], init);
      NoStates(s[..|s| - 1], init);
    }
  }

  /** A trace of the response's shape: "processing", events that set no
      state, and possibly "speaking" and one more such event. */
  lemma ShapeStates(mid: seq<Event>, tail: seq<Event>, init: string)
    requires SetsNoState(mid)
    requires tail == [] || (|tail| == 2 && tail[0] == State("speaking") && !tail[1].State?)
    ensures States([State("processing")] + mid + tail) == ["processing"] + (if tail == [] then [] else ["speaking"])
    ensures LastState([State("processing")] + mid + tail, init) == if tail == [] then "processing" else "speaking"
  {
    var p := [State("processing")];
    NoStates(mid, "processing");
    StatesAppend(p + mid, tail);
    StatesAppend(p, mid);
    StatesCons(State("processing"), []);
    assert p == p + [];
    LastStateAppend(p + mid, tail, init);
    LastStateAppend(p, mid, init);
    LastStateSnoc([], State("processing"), init);
    assert [] + p == p;
    if tail != [] {
      assert tail == [tail[0]] + [tail[1]];
      StatesCons(tail[0], [tail[1]]);
      StatesCons(tail[1], []);
      assert [tail[1]] == [tail[1]] + [];
      assert tail == [] + [tail[0]] + [tail[1]];
      LastStateSnoc([], tail[0], "processing");
      LastStateSnoc([tail[0]], tail[1], "processing");
    }
  }

  /** The states of a trace that starts as every response does. */
  lemma ProcessingStates(o: Outcome, t: seq<Event>, init: string)
    requires |t| >= 2 && t[0] == State("processing") && !t[1].State?
    requires AfterProcessing(o, t[2..])
    ensures States(t) == ["processing"] || States(t) == ["processing", "speaking"]
    ensures LastState(t, init) == States(t)[|States(t)| - 1]
    ensures o == Completed ==> States(t) == ["processing", "speaking"]
  {
    var rest := t[2..];
    if o != Completed && SetsNoState(rest) {
      var mid := t[1..];
      assert forall i :: 0 < i < |mid| ==> mid[i] == rest[i - 1];
      assert t == [State("processing")] + mid + [];
      ShapeStates(mid, [], init);
    } else {
      var mid := t[1..|t| - 2];
      assert forall i :: 0 < i < |mid| ==> mid[i] == rest[..|rest| - 2][i - 1];
      var tail := rest[|rest| - 2..];
      assert t == [State("processing")] + mid + tail;
      ShapeStates(mid, tail, init);
    }
  }

  /** The response sets "processing" and, when it gets there, "speaking";
      never "ready". The state it leaves is the last one it set, and a
      response that completes has set both. */
  lemma RespondStates(svc: Services, f: Flags, hasSpeaker: bool, isMac: bool,
                      run: seq<string> -> Result<int>, hex: string, inputPath: string, init: string)
    ensures var t := Respond(svc, f, hasSpeaker, isMac, run, hex, inputPath).1;
            States(t) == ["processing"] || States(t) == ["processing", "speaking"]
    ensures var t := Respond(svc, f, hasSpeaker, isMac, run, hex, inputPath).1;
            LastState(t, init) == States(t)[|States(t)| - 1]
    ensures Respond(svc, f, hasSpeaker, isMac, run, hex, inputPath).0 == Completed ==>
            States(Respond(svc, f, hasSpeaker, isMac, run, hex, inputPath).1) == ["processing", "speaking"]
  {
    var r := Respond(svc, f, hasSpeaker, isMac, run, hex, inputPath);
    assert r.1[..2][0] == r.1[0] && r.1[..2][1] == r.1[1];
    ProcessingStates(r.0, r.1, init);
  }

  /** "listening" followed by one event that sets no state. */
  lemma ListeningStates(e: Event, init: string)
    requires !e.State?
    ensures States([State("listening"), e]) == ["listening"]
    ensures LastState([State("listening"), e], init) == "listening"
  {
    StatesCons(State("listening"), [e]);
    StatesCons(e, []);
    assert [State("listening"), e] == [State("listening")] + [e];
    assert [e] == [e] + [];
    LastStateSnoc([], State("listening"), init);
    assert [] + [State("listening")] == [State("listening")];
    LastStateSnoc([State("listening")], e, init);
  }

  /** A recording that set only "listening", followed by a response: the
      states are "listening" and the response's, never "ready"; a completed
      one ends in "speaking", which an LED loop settling on "idle" turns
      into "idle". */
  lemma {:induction false} ListenedResponseStates(pre: seq<Event>, svc: Services, f: Flags, hasSpeaker: bool,
                                                  isMac: bool, run: seq<string> -> Result<int>, hex: string,
                                                  inputPath: string, init: string)
    requires States(pre) == ["listening"] && LastState(pre, init) == "listening"
    ensures var r := Respond(svc, f, hasSpeaker, isMac, run, hex, inputPath);
            |States(pre + r.1)| >= 1 && States(pre + r.1)[0] == "listening" && "ready" !in States(pre + r.1)
    ensures var r := Respond(svc, f, hasSpeaker, isMac, run, hex, inputPath);
            r.0 == Completed ==>
              States(pre + r.1) == ["listening", "processing", "speaking"]
              && LastState(pre + r.1, init) == "speaking"
              && After(LastState(pre + r.1, init), "idle") == "idle"
  {
    var r := Respond(svc, f, hasSpeaker, isMac, run, hex, inputPath);
    RespondStates(svc, f, hasSpeaker, isMac, run, hex, inputPath, "listening");
    AfterListening(pre, r.1, r.0 == Completed, init);
  }

  /** "listening" and then a trace of the response's states. */
  lemma AfterListening(pre: seq<Event>, t: seq<Event>, completed: bool, init: string)
    requires States(pre) == ["listening"] && LastState(pre, init) == "listening"
    requires States(t) == ["processing"] || States(t) == ["processing", "speaking"]
    requires LastState(t, "listening") == States(t)[|States(t)| - 1]
    requires completed ==> States(t) == ["processing", "speaking"]
    ensures |States(pre + t)| >= 1 && States(pre + t)[0] == "listening" && "ready" !in States(pre + t)
    ensures completed ==>
              States(pre + t) == ["listening", "processing", "speaking"]
              && LastState(pre + t, init) == "speaking"
  {
    StatesAppend(pre, t);
    LastStateAppend(pre, t, init);
    if States(t) == ["processing"] {
      assert States(pre + t) == ["listening", "processing"];
    } else {
      assert States(pre + t) == ["listening", "processing", "speaking"];
    }
  }

  /** `Respond`, changing the shared state through `ind`. */
  method RespondInteraction(ind: Indicator, svc: Services, f: Flags, hasSpeaker: bool, isMac: bool,
                            run: seq<string> -> Result<int>, hex: string, inputPath: string)
    returns (outcome: Outcome, trace: seq<Event>)
    modifies ind`state
    ensures (outcome, trace) == Respond(svc, f, hasSpeaker, isMac, run, hex, inputPath)
    ensures ind.state == LastState(trace, old(ind.state))
  {
    ind.SetState("processing");
    trace := [State("processing"), Transcribe(f.stt, inputPath)];
    assert trace == [] + [State("processing")] + [Transcribe(f.stt, inputPath)];
    LastStateSnoc([], State("processing"), old(ind.state));
    LastStateSnoc([State("processing")], Transcribe(f.stt, inputPath), old(ind.state));
    var heard := TranscribeAudio(svc, f.stt, inputPath);
    if heard.Err? {
      return Aborted(heard.kind), trace;
    }
    var rest;
    outcome, rest := AnswerInteraction(ind, svc, f, hasSpeaker, isMac, run, hex, heard.value);
    LastStateAppend(trace, rest, old(ind.state));
    trace := trace + rest;
  }

  /** `Answer`, changing the shared state through `ind`. */
  method AnswerInteraction(ind: Indicator, svc: Services, f: Flags, hasSpeaker: bool, isMac: bool,
                           run: seq<string> -> Result<int>, hex: string, userText: string)
    returns (outcome: Outcome, trace: seq<Event>)
    modifies ind`state
    ensures (outcome, trace) == Answer(svc, f, hasSpeaker, isMac, run, hex, userText)
    ensures ind.state == LastState(trace, old(ind.state))
  {
    trace := [Query(f.llm, userText)];
    LastStateSnoc([], Query(f.llm, userText), old(ind.state));
    assert [] + trace == trace;
    var answered := QueryLlm(svc, userText, f.llm);
    if answered.Err? {
      return Aborted(answered.kind), trace;
    }
    var rest;
    outcome, rest := VoiceInteraction(ind, svc, f, hasSpeaker, isMac, run, hex, answered.value);
    LastStateAppend(trace, rest, old(ind.state));
    trace := trace + rest;
  }

  /** `Voice`, changing the shared state through `ind`. */
  method VoiceInteraction(ind: Indicator, svc: Services, f: Flags, hasSpeaker: bool, isMac: bool,
                          run: seq<string> -> Result<int>, hex: string, reply: string)
    returns (outcome: Outcome, trace: seq<Event>)
    modifies ind`state
    ensures (outcome, trace) == Voice(svc, f, hasSpeaker, isMac, run, hex, reply)
    ensures ind.state == LastState(trace, old(ind.state))
  {
    trace := [Synthesize(f.tts, reply)];
    LastStateSnoc([], Synthesize(f.tts, reply), old(ind.state));
    assert [] + trace == trace;
    var synthesized := SynthesizeSpeech(svc, reply, None, hex, f.tts);
    if synthesized.Err? {
      return Aborted(synthesized.kind), trace;
    }
    var audioPath := synthesized.value;
    ind.SetState("speaking");
    var last;
    if ShouldPlay(hasSpeaker, audioPath) {
      last := Play(PlayCommand(isMac, audioPath.value));
      var played := PlayAudio(isMac, audioPath.value, run);
      outcome := if played.Err? then Aborted(played.kind) else Completed;
    } else {
      last := Muted;
      outcome := Completed;
    }
    LastStateSnoc(trace, State("speaking"), old(ind.state));
    LastStateSnoc(trace + [State("speaking")], last, old(ind.state));
    assert trace + [State("speaking")] + [last] == trace + [State("speaking"), last];
    trace := trace + [State("speaking"), last];
  }
}
