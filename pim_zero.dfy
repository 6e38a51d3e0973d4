/** The console assistant of pim_zero.py: `main()` sets the local-mode flags
    from the rule, then loops over turns, each taking a question from the
    microphone or the keyboard, leaving on an exit word or Ctrl+C and going
    on after any other exception. */
module PimZero {
  import opened Wrappers
  import opened Text
  import IoAudio
  import opened PlatformUtils
  import opened Assistant

  /** `AUDIO_INPUT_PATH`. */
  const AudioInputPath: string := "input.wav"

  /** The words that end the loop. */
  const ExitWords: seq<string> := ["exit", "quit", "bye"]

  /** `user_text.strip().lower()`. */
  function Normalize(text: string): (r: string)
    ensures |r| <= |text|
    ensures r == [] || (!IsSpace(r[0]) && !IsSpace(r[|r| - 1]))
    ensures |r| == |Strip(text)| && forall k :: 0 <= k < |r| ==> r[k] == LowerChar(Strip(text)[k])
  {
    var s := Strip(text);
    assert forall i :: 0 <= i < |s| ==> IsSpace(LowerChar(s[i])) == IsSpace(s[i]);
    Lower(s)
  }

  /** `user_text in ["exit", "quit", "bye"]`, after normalising. */
  predicate IsExit(text: string) {
    Normalize(text) in ExitWords
  }

  /** A string whose characters lower-case to `t`'s is `t` once normalised. */
  lemma NormalizeTo(s: string, t: string)
    requires s == [] || (!IsSpace(s[0]) && !IsSpace(s[|s| - 1]))
    requires |s| == |t| && forall i :: 0 <= i < |s| ==> LowerChar(s[i]) == t[i]
    ensures Normalize(s) == t
  {
    StripClean(s);
  }

  /** The normal forms of three sample inputs. */
  lemma ExitNormal() ensures Normalize("exit") == "exit" { NormalizeTo("exit", "exit"); }
  lemma ByeNormal() ensures Normalize("Bye") == "bye" { NormalizeTo("Bye", "bye"); }
  lemma QuitNormal() ensures Normalize("QUIT") == "quit" { NormalizeTo("QUIT", "quit"); }

  /** The three exit words are listed. */
  lemma Words() ensures "exit" in ExitWords && "bye" in ExitWords && "quit" in ExitWords
  {
    assert ExitWords[0] == "exit" && ExitWords[1] == "quit" && ExitWords[2] == "bye";
  }

  /** Case is ignored. */
  lemma ExitWordsAccepted()
    ensures IsExit("exit") && IsExit("Bye") && IsExit("QUIT")
  {
    ExitNormal();
    ByeNormal();
    QuitNormal();
    Words();
  }

  /** Only the exact words count: punctuation or a longer word does not. */
  lemma ExitWordsExact()
    ensures !IsExit("exit.") && !IsExit("goodbye")
  {
    LongNotExit("exit.");
    LongNotExit("goodbye");
  }

  /** No exit word is longer than four characters, so neither is any text
      without whitespace at its ends that ends the loop. */
  lemma LongNotExit(s: string)
    requires s == [] || (!IsSpace(s[0]) && !IsSpace(s[|s| - 1]))
    requires |s| > 4
    ensures !IsExit(s)
  {
    StripClean(s);
    assert |Normalize(s)| == |s|;
    assert forall w :: w in ExitWords ==> |w| <= 4;
  }

  /** What one turn provides from outside: the device query of the
      microphone search (or `None` if it raised), whether the recording
      (the ENTER prompts, the file and the stream) finished or what it
      raised, the typed question (or what `input()` raised), and the hex
      digits of the default audio name. */
  datatype Turn = Turn(query: Option<seq<Device>>, recorded: Result<()>, typed: Result<string>, hex: string)

  /** How a turn ends: the loop goes on, says goodbye, or leaves on Ctrl+C. */
  datatype TurnEnd = Continue | Exit | Interrupted

  /** `except KeyboardInterrupt: break` and `except Exception: print`. */
  function EndOn(k: ErrorKind): (e: TurnEnd)
    ensures e.Interrupted? <==> k.Interrupt?
    ensures e.Continue? <==> k.Failure?
  {
    if k == Interrupt then Interrupted else Continue
  }

  /** `# Get input`: with a microphone, the recording and its transcription;
      without one, the typed line. */
  function Heard(svc: Services, f: Flags, hasMic: bool, t: Turn): (Result<string>, seq<Event>) {
    if hasMic then
      var mic := MicChoice(t.query, None);
      var recorded := [Stream(mic.0, mic.1)];
      match t.recorded
      case Err(k) => (Err(k), recorded)
      case Ok(_) => (TranscribeAudio(svc, f.stt, AudioInputPath), recorded + [Transcribe(f.stt, AudioInputPath)])
    else (t.typed, [])
  }

  /** `# Get reply`, then `Spoken`. */
  function Reply(svc: Services, f: Flags, hasSpeaker: bool, isMac: bool, run: seq<string> -> Result<int>,
                 hex: string, prompt: string): (r: (TurnEnd, seq<Event>))
    ensures r.0 != Exit
    ensures 1 <= |r.1| <= 4 && r.1[0] == Query(f.llm, prompt)
    ensures forall j :: 0 <= j < |r.1| ==> !r.1[j].Stream? && !r.1[j].Transcribe?
    ensures QueryLlm(svc, prompt, f.llm).Ok? ==>
              r == (Spoken(svc, f, hasSpeaker, isMac, run, hex, QueryLlm(svc, prompt, f.llm).value).0,
                    [Query(f.llm, prompt)] + Spoken(svc, f, hasSpeaker, isMac, run, hex, QueryLlm(svc, prompt, f.llm).value).1)
  {
    var asked := [Query(f.llm, prompt)];
    match QueryLlm(svc, prompt, f.llm)
    case Err(k) => (EndOn(k), asked)
    case Ok(reply) =>
      var v := Spoken(svc, f, hasSpeaker, isMac, run, hex, reply);
      assert forall j :: 1 <= j < |asked + v.1| ==> (asked + v.1)[j] == v.1[j - 1];
      (v.0, asked + v.1)
  }

  /** `# Generate audio` and `# Output`: the reply is printed once
      synthesis returned, and played exactly when there is a speaker and a
      file. */
  function Spoken(svc: Services, f: Flags, hasSpeaker: bool, isMac: bool, run: seq<string> -> Result<int>,
                  hex: string, reply: string): (r: (TurnEnd, seq<Event>))
    ensures r.0 != Exit
    ensures 1 <= |r.1| <= 3 && r.1[0] == Synthesize(f.tts, reply)
    ensures forall j :: 0 <= j < |r.1| ==> !r.1[j].Stream? && !r.1[j].Transcribe?
    ensures var audio := SynthesizeSpeech(svc, reply, None, hex, f.tts);
            audio.Ok? ==>
              |r.1| == 3 && r.1[1] == Output(reply)
              && (r.1[2].Play? <==> ShouldPlay(hasSpeaker, audio.value))
              && (r.1[2].Play? ==> r.1[2].argv == IoAudio.PlayCommand(isMac, audio.value.value))
    ensures SynthesizeSpeech(svc, reply, None, hex, f.tts).Err? ==>
              r == (EndOn(SynthesizeSpeech(svc, reply, None, hex, f.tts).kind), [Synthesize(f.tts, reply)])
  {
    var synthesized := [Synthesize(f.tts, reply)];
    match SynthesizeSpeech(svc, reply, None, hex, f.tts)
    case Err(k) => (EndOn(k), synthesized)
    case Ok(audio) =>
      if ShouldPlay(hasSpeaker, audio) then
        var argv := IoAudio.PlayCommand(isMac, audio.value);
        var played := synthesized + [Output(reply), Play(argv)];
        match PlayAudio(isMac, audio.value, run)
        case Err(k) => (EndOn(k), played)
        case Ok(_) => (Continue, played)
      else (Continue, synthesized + [Output(reply), Muted])
  }

  /** One pass of the `while True` body. */
  function TurnOf(svc: Services, f: Flags, hasMic: bool, hasSpeaker: bool, isMac: bool,
                  run: seq<string> -> Result<int>, t: Turn): (TurnEnd, seq<Event>)
  {
    var h := Heard(svc, f, hasMic, t);
    match h.0
    case Err(k) => (EndOn(k), h.1)
    case Ok(text) =>
      if IsExit(text) then (Exit, h.1)
      else
        var r := Reply(svc, f, hasSpeaker, isMac, run, t.hex, Normalize(text));
        (r.0, h.1 + r.1)
  }

  /** A turn says goodbye exactly when a question was obtained and it is an
      exit word once normalised; no failure and no reply ends it that way. */
  lemma ExitIff(svc: Services, f: Flags, hasMic: bool, hasSpeaker: bool, isMac: bool,
                run: seq<string> -> Result<int>, t: Turn)
    ensures var h := Heard(svc, f, hasMic, t);
            TurnOf(svc, f, hasMic, hasSpeaker, isMac, run, t).0 == Exit <==> h.0.Ok? && IsExit(h.0.value)
  {
    var h := Heard(svc, f, hasMic, t);
    if h.0.Err? {
      assert EndOn(h.0.kind) != Exit;
    } else if !IsExit(h.0.value) {
      var r := Reply(svc, f, hasSpeaker, isMac, run, t.hex, Normalize(h.0.value));
      assert TurnOf(svc, f, hasMic, hasSpeaker, isMac, run, t).0 == r.0;
    }
  }

  /** Why the loop stopped: an exit word, Ctrl+C, or the modelled turns ran out. */
  datatype LoopEnd = Goodbye | CtrlC | OutOfTurns

  /** What each turn would do, in order. */
  function Turns(svc: Services, f: Flags, hasMic: bool, hasSpeaker: bool, isMac: bool,
                 run: seq<string> -> Result<int>, turns: seq<Turn>): (r: seq<(TurnEnd, seq<Event>)>)
    ensures |r| == |turns|
    ensures forall j :: 0 <= j < |turns| ==> r[j] == TurnOf(svc, f, hasMic, hasSpeaker, isMac, run, turns[j])
  {
    seq(|turns|, j requires 0 <= j < |turns| => TurnOf(svc, f, hasMic, hasSpeaker, isMac, run, turns[j]))
  }

  /** The loop over turns that end as `outs` says: how it stopped, how
      many turns it ran, and what they did. */
  function Loop(outs: seq<(TurnEnd, seq<Event>)>): (r: (LoopEnd, nat, seq<Event>))
    ensures r.1 <= |outs|
    decreases |outs|
  {
    if outs == [] then (OutOfTurns, 0, [])
    else
      match outs[0].0
      case Exit => (Goodbye, 1, outs[0].1)
      case Interrupted => (CtrlC, 1, outs[0].1)
      case Continue =>
        var rest := Loop(outs[1..]);
        (rest.0, 1 + rest.1, outs[0].1 + rest.2)
  }

  /** The loop stops at the first turn that does not continue, and only
      there: every turn before the last one it ran continued, and it ran
      out of turns exactly when all of them did. */
  lemma {:induction false} LoopMeaning(outs: seq<(TurnEnd, seq<Event>)>)
    ensures var r := Loop(outs);
            forall j :: 0 <= j < r.1 - 1 ==> outs[j].0 == Continue
    ensures var r := Loop(outs);
            r.0 == OutOfTurns <==> r.1 == |outs| && forall j :: 0 <= j < |outs| ==> outs[j].0 == Continue
    ensures var r := Loop(outs);
            r.0 == Goodbye ==> r.1 >= 1 && outs[r.1 - 1].0 == Exit
    ensures var r := Loop(outs);
            r.0 == CtrlC ==> r.1 >= 1 && outs[r.1 - 1].0 == Interrupted
    decreases |outs|
  {
    if outs != [] && outs[0].0 == Continue {
      LoopMeaning(outs[1..]);
      assert forall j :: 1 <= j < |outs| ==> outs[j] == outs[1..][j - 1];
    }
  }

  /** The loop over the given turns. */
  function Session(svc: Services, f: Flags, hasMic: bool, hasSpeaker: bool, isMac: bool,
                   run: seq<string> -> Result<int>, turns: seq<Turn>): (LoopEnd, nat, seq<Event>)
  {
    Loop(Turns(svc, f, hasMic, hasSpeaker, isMac, run, turns))
  }

  /** The loop stops exactly at the first turn that says goodbye or is
      interrupted: if every turn before `i` continued and turn `i` does not,
      the loop ran `i + 1` turns and stopped for that turn's reason. */
  lemma {:induction false} LoopStopsAtFirst(outs: seq<(TurnEnd, seq<Event>)>, i: nat)
    requires i < |outs|
    requires forall j :: 0 <= j < i ==> outs[j].0 == Continue
    requires outs[i].0 != Continue
    ensures Loop(outs).1 == i + 1
    ensures Loop(outs).0 == if outs[i].0 == Exit then Goodbye else CtrlC
    decreases i
  {
    if i > 0 {
      assert outs[0].0 == Continue;
      assert forall j :: 0 <= j < |outs| - 1 ==> outs[1..][j] == outs[j + 1];
      LoopStopsAtFirst(outs[1..], i - 1);
    }
  }

  /** One turn of the loop, from turn `i` on. */
  lemma LoopStep(outs: seq<(TurnEnd, seq<Event>)>, i: nat)
    requires i < |outs|
    ensures Loop(outs[i..]) ==
            match outs[i].0
            case Exit => (Goodbye, 1, outs[i].1)
            case Interrupted => (CtrlC, 1, outs[i].1)
            case Continue => (Loop(outs[i + 1..]).0, 1 + Loop(outs[i + 1..]).1, outs[i].1 + Loop(outs[i + 1..]).2)
  {
    assert outs[i..][0] == outs[i] && outs[i..][1..] == outs[i + 1..];
  }

  /** The same for the turns of a session. */
  lemma SessionStopsAtFirst(svc: Services, f: Flags, hasMic: bool, hasSpeaker: bool, isMac: bool,
                            run: seq<string> -> Result<int>, turns: seq<Turn>, i: nat)
    requires i < |turns|
    requires forall j :: 0 <= j < i ==> TurnOf(svc, f, hasMic, hasSpeaker, isMac, run, turns[j]).0 == Continue
    requires TurnOf(svc, f, hasMic, hasSpeaker, isMac, run, turns[i]).0 != Continue
    ensures Session(svc, f, hasMic, hasSpeaker, isMac, run, turns).1 == i + 1
    ensures Session(svc, f, hasMic, hasSpeaker, isMac, run, turns).0 ==
            if TurnOf(svc, f, hasMic, hasSpeaker, isMac, run, turns[i]).0 == Exit then Goodbye else CtrlC
  {
    LoopStopsAtFirst(Turns(svc, f, hasMic, hasSpeaker, isMac, run, turns), i);
  }

  /** With a microphone a turn starts with the recording stream and never
      reads the keyboard; without one it records and transcribes nothing. */
  lemma InputSource(svc: Services, f: Flags, hasMic: bool, hasSpeaker: bool, isMac: bool,
                    run: seq<string> -> Result<int>, t: Turn)
    ensures var r := TurnOf(svc, f, hasMic, hasSpeaker, isMac, run, t).1;
            hasMic ==> |r| >= 1 && r[0] == Stream(MicChoice(t.query, None).0, MicChoice(t.query, None).1)
    ensures var r := TurnOf(svc, f, hasMic, hasSpeaker, isMac, run, t).1;
            !hasMic ==> forall j :: 0 <= j < |r| ==> !r[j].Stream? && !r[j].Transcribe?
    ensures hasMic ==> TurnOf(svc, f, hasMic, hasSpeaker, isMac, run, t) ==
                       TurnOf(svc, f, hasMic, hasSpeaker, isMac, run, t.(typed := Err(Failure)))
  {
    var h := Heard(svc, f, hasMic, t);
    if hasMic {
      if h.0.Ok? && !IsExit(h.0.value) {
        var r := Reply(svc, f, hasSpeaker, isMac, run, t.hex, Normalize(h.0.value));
        assert (h.1 + r.1)[0] == h.1[0];
      }
    } else if h.0.Ok? && !IsExit(h.0.value) {
      var r := Reply(svc, f, hasSpeaker, isMac, run, t.hex, Normalize(h.0.value));
      assert h.1 + r.1 == r.1;
    }
  }

  /** A question that is not an exit word goes to the model normalised;
      its reply is printed whenever synthesis returned, and played exactly
      when there is a speaker and a file. */
  lemma QuestionAnswered(svc: Services, f: Flags, hasMic: bool, hasSpeaker: bool, isMac: bool,
                         run: seq<string> -> Result<int>, t: Turn)
    requires Heard(svc, f, hasMic, t).0.Ok? && !IsExit(Heard(svc, f, hasMic, t).0.value)
    ensures var h := Heard(svc, f, hasMic, t);
            var r := TurnOf(svc, f, hasMic, hasSpeaker, isMac, run, t).1;
            |r| > |h.1| && r[|h.1|] == Query(f.llm, Normalize(h.0.value))
    ensures var h := Heard(svc, f, hasMic, t);
            var prompt := Normalize(h.0.value);
            var reply := QueryLlm(svc, prompt, f.llm);
            var r := TurnOf(svc, f, hasMic, hasSpeaker, isMac, run, t).1;
            reply.Ok? && SynthesizeSpeech(svc, reply.value, None, t.hex, f.tts).Ok? ==>
              |r| == |h.1| + 4 && r[|h.1| + 2] == Output(reply.value)
              && (r[|h.1| + 3].Play? <==> ShouldPlay(hasSpeaker, SynthesizeSpeech(svc, reply.value, None, t.hex, f.tts).value))
  {
    var h := Heard(svc, f, hasMic, t);
    var prompt := Normalize(h.0.value);
    var r := Reply(svc, f, hasSpeaker, isMac, run, t.hex, prompt);
    var all := h.1 + r.1;
    assert TurnOf(svc, f, hasMic, hasSpeaker, isMac, run, t).1 == all;
    assert all[|h.1|] == r.1[0];
    var reply := QueryLlm(svc, prompt, f.llm);
    if reply.Ok? && SynthesizeSpeech(svc, reply.value, None, t.hex, f.tts).Ok? {
      var sp := Spoken(svc, f, hasSpeaker, isMac, run, t.hex, reply.value);
      assert r.1 == [Query(f.llm, prompt)] + sp.1;
      assert all[|h.1| + 2] == sp.1[1] && all[|h.1| + 3] == sp.1[2];
    }
  }

  /** Typed input that raises an ordinary exception is reported and the
      loop goes on; Ctrl+C leaves it. */
  lemma KeyboardErrors(svc: Services, f: Flags, hasSpeaker: bool, isMac: bool,
                       run: seq<string> -> Result<int>, t: Turn)
    requires t.typed.Err?
    ensures TurnOf(svc, f, false, hasSpeaker, isMac, run, t) ==
            (if t.typed.kind == Failure then Continue else Interrupted, [])
  {
  }

  /** The `while True` loop of `main()` over turns that end as `outs`
      says: it runs them in order and stops after the first one that does
      not continue. */
  method RunTurns(outs: seq<(TurnEnd, seq<Event>)>) returns (end: LoopEnd, ran: nat, trace: seq<Event>)
    ensures (end, ran, trace) == Loop(outs)
  {
    end, ran, trace := OutOfTurns, 0, [];
    assert outs[0..] == outs;
    assert [] + Loop(outs).2 == Loop(outs).2;
    while ran < |outs|
      invariant ran <= |outs|
      invariant Loop(outs) == (Loop(outs[ran..]).0, ran + Loop(outs[ran..]).1, trace + Loop(outs[ran..]).2)
    {
      var t := outs[ran];
      LoopStep(outs, ran);
      if t.0 != Continue {
        end := if t.0 == Exit then Goodbye else CtrlC;
        ran, trace := ran + 1, trace + t.1;
        return;
      }
      ghost var next := Loop(outs[ran + 1..]);
      assert trace + (t.1 + next.2) == (trace + t.1) + next.2;
      trace := trace + t.1;
      ran := ran + 1;
    }
    assert outs[ran..] == [];
    assert trace + [] == trace;
  }

  /** The loop of `main()` over the modelled turns. */
  method RunLoop(svc: Services, f: Flags, hasMic: bool, hasSpeaker: bool, isMac: bool,
                 run: seq<string> -> Result<int>, turns: seq<Turn>)
    returns (end: LoopEnd, ran: nat, trace: seq<Event>)
    ensures (end, ran, trace) == Session(svc, f, hasMic, hasSpeaker, isMac, run, turns)
  {
    var outs := Turns(svc, f, hasMic, hasSpeaker, isMac, run, turns);
    end, ran, trace := RunTurns(outs);
  }

  /** `main()`: the flags are assigned in both branches of the rule, the
      devices probed, Whisper loaded only for local transcription, and then
      the loop runs. */
  method RunMain(flags: LocalFlags, cpuinfo: Option<string>, isOnline: bool, devices: Option<seq<Device>>,
              svc: Services, isMac: bool, run: seq<string> -> Result<int>, turns: seq<Turn>)
    returns (whisperLoaded: bool, end: LoopEnd, ran: nat, trace: seq<Event>)
    modifies flags
    ensures var u := UseLocal(DetectPiModel(cpuinfo), isOnline); flags.Value() == Flags(u, u, u)
    ensures whisperLoaded == flags.stt
    ensures (end, ran, trace) ==
            Session(svc, flags.Value(), DetectMicrophone(devices), DetectSpeaker(devices), isMac, run, turns)
  {
    var piModel := DetectPiModel(cpuinfo);
    flags.SetFromRule(piModel, isOnline);
    var hasMic := DetectMicrophone(devices);
    var hasSpeaker := DetectSpeaker(devices);
    whisperLoaded := flags.stt;
    end, ran, trace := RunLoop(svc, flags.Value(), hasMic, hasSpeaker, isMac, run, turns);
  }
}
