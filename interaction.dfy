/** One voice interaction of tiny_him (tiny_him/interaction.py): the state
    moves listening, processing, speaking, ready around a recording and the
    three backend steps of the online or the offline implementation. */
module Interaction {
  import opened Wrappers
  import opened GpioHandler
  import opened IoAudio

  /** One implementation of the three backend steps: transcribe the recorded
      file, ask a language model (user text, system prompt), synthesize the
      reply into an audio file and give its path. The online one wraps the
      OpenAI client (tiny_him/online_logic.py), the offline one whisper,
      llama_cpp and espeak (tiny_him/offline_logic.py); any step may raise. */
  datatype Backend = Backend(
    transcribe: string -> Result<string>,
    query: (string, string) -> Result<string>,
    synthesize: string -> Result<string>)

  /** The `config` values a run reads. */
  datatype Config = Config(audioInputPath: string, systemPrompt: string)

  /** What a run does that can be observed, in order. */
  datatype Event =
    | State(name: string)
    | Recorder(call: Proc)
    | Transcribe(online: bool, path: string)
    | Query(online: bool, text: string, systemPrompt: string)
    | Synthesize(online: bool, text: string)
    | Play(argv: seq<string>)

  /** How `run_interaction` ends: it returns, an exception leaves it, or it
      is still in the recording loop after the modelled polls. */
  datatype Outcome = Completed | Aborted | Recording

  /** The subprocess launcher: `subprocess.run(argv)` gives the exit status,
      or raises (for one, when the program is not installed). */
  type Runner = seq<string> -> Result<int>

  /** The names passed to `set_state`, in order. */
  function States(trace: seq<Event>): seq<string>
    decreases |trace|
  {
    if trace == [] then []
    else (if trace[0].State? then [trace[0].name] else []) + States(trace[1..])
  }

  lemma {:induction false} StatesAppend(a: seq<Event>, b: seq<Event>)
    ensures States(a + b) == States(a) + States(b)
    decreases |a|
  {
    if a == [] {
      assert a + b == b;
    } else {
      assert (a + b)[1..] == a[1..] + b;
      StatesAppend(a[1..], b);
    }
  }

  lemma StatesCons(e: Event, rest: seq<Event>)
    ensures States([e] + rest) == (if e.State? then [e.name] else []) + States(rest)
  {
    assert ([e] + rest)[1..] == rest;
  }

  lemma StatesOne(e: Event)
    ensures States([e]) == if e.State? then [e.name] else []
  {
    assert [e] == [e] + [];
    StatesCons(e, []);
  }

  /** The state after `trace`, having been `init` before it. */
  function LastState(trace: seq<Event>, init: string): string
    decreases |trace|
  {
    if trace == [] then init
    else if trace[|trace| - 1].State? then trace[|trace| - 1].name
    else LastState(trace[..|trace| - 1], init)
  }

  /** One more event changes the state only if it is a `set_state`. */
  lemma LastStateSnoc(trace: seq<Event>, e: Event, init: string)
    ensures LastState(trace + [e], init) == if e.State? then e.name else LastState(trace, init)
  {
    assert (trace + [e])[..|trace|] == trace;
  }

  /** The backend `online` selects. */
  function Chosen(online: bool, onlineB: Backend, offlineB: Backend): Backend {
    if online then onlineB else offlineB
  }

  /** What `run_interaction` does, as an outcome and a trace. */
  function Run(c: Config, online: bool, onlineB: Backend, offlineB: Backend,
               isMac: bool, run: Runner, poll: nat -> Poll, budget: nat): (Outcome, seq<Event>)
  {
    var b := Chosen(online, onlineB, offlineB);
    var started := [State("listening"), Recorder(Spawn(RecordCommand(c.audioInputPath)))];
    var recorded := started + [Recorder(Terminate), Recorder(Wait)];
    match EndOf(poll, budget)
    case StillRecording => (Recording, started)
    case Raised => (Aborted, recorded)
    case Stopped => Process(c, online, b, isMac, run, recorded)
  }

  /** The part of `run_interaction` after the recording stopped, following
      the events `recorded`. */
  function Process(c: Config, online: bool, b: Backend, isMac: bool, run: Runner,
                   recorded: seq<Event>): (Outcome, seq<Event>)
  {
    var heard := recorded + [State("processing"), Transcribe(online, c.audioInputPath)];
    match b.transcribe(c.audioInputPath)
    case Err(_) => (Aborted, heard)
    case Ok(userText) =>
      var asked := heard + [Query(online, userText, c.systemPrompt)];
      match b.query(userText, c.systemPrompt)
      case Err(_) => (Aborted, asked)
      case Ok(reply) =>
        var spoken := asked + [Synthesize(online, reply)];
        match b.synthesize(reply)
        case Err(_) => (Aborted, spoken)
        case Ok(path) => Speak(isMac, run, path, spoken)
  }

  /** The end of `run_interaction`: "speaking", the playback of `path` and
      "ready", following the events `spoken`. */
  function Speak(isMac: bool, run: Runner, path: string, spoken: seq<Event>): (Outcome, seq<Event>) {
    var played := spoken + [State("speaking"), Play(PlayCommand(isMac, path))];
    match run(PlayCommand(isMac, path))
    case Err(_) => (Aborted, played)
    case Ok(_) => (Completed, played + [State("ready")])
  }

  /** The events of a run that returns, with the transcript `u`, the reply
      `r` and the synthesized path `p`. */
  function CompletedTrace(c: Config, online: bool, isMac: bool, u: string, r: string, p: string): seq<Event> {
    [State("listening"), Recorder(Spawn(RecordCommand(c.audioInputPath))),
     Recorder(Terminate), Recorder(Wait), State("processing"), Transcribe(online, c.audioInputPath),
     Query(online, u, c.systemPrompt), Synthesize(online, r),
     State("speaking"), Play(PlayCommand(isMac, p)), State("ready")]
  }

  /** The names set along a returning run. */
  lemma {:induction false} CompletedTraceStates(c: Config, online: bool, isMac: bool, u: string, r: string, p: string)
    ensures States(CompletedTrace(c, online, isMac, u, r, p)) == ["listening", "processing", "speaking", "ready"]
  {
    var t := CompletedTrace(c, online, isMac, u, r, p);
    var i := 11;
    while i > 0
      invariant 0 <= i <= 11
      invariant States(t[i..]) == if i == 0 then ["listening", "processing", "speaking", "ready"]
                                  else if i <= 4 then ["processing", "speaking", "ready"]
                                  else if i <= 8 then ["speaking", "ready"]
                                  else if i <= 10 then ["ready"]
                                  else []
    {
      i := i - 1;
      StatesCons(t[i], t[i + 1..]);
      assert t[i..] == [t[i]] + t[i + 1..];
    }
  }

  /** A run that returns sets exactly listening, processing, speaking, ready
      and leaves the state "ready". */
  lemma CompletedStates(c: Config, online: bool, onlineB: Backend, offlineB: Backend,
                        isMac: bool, run: Runner, poll: nat -> Poll, budget: nat, init: string)
    requires Run(c, online, onlineB, offlineB, isMac, run, poll, budget).0 == Completed
    ensures States(Run(c, online, onlineB, offlineB, isMac, run, poll, budget).1)
            == ["listening", "processing", "speaking", "ready"]
    ensures LastState(Run(c, online, onlineB, offlineB, isMac, run, poll, budget).1, init) == "ready"
  {
    var t := Run(c, online, onlineB, offlineB, isMac, run, poll, budget).1;
    var b := Chosen(online, onlineB, offlineB);
    var u := b.transcribe(c.audioInputPath).value;
    var r := b.query(u, c.systemPrompt).value;
    var p := b.synthesize(r).value;
    assert t == CompletedTrace(c, online, isMac, u, r, p);
    CompletedTraceStates(c, online, isMac, u, r, p);
    assert t == t[..|t| - 1] + [State("ready")];
    LastStateSnoc(t[..|t| - 1], State("ready"), init);
  }

  /** The state becomes "processing" only after the recorder was terminated
      and waited for. */
  lemma RecordingBeforeProcessing(c: Config, online: bool, onlineB: Backend, offlineB: Backend,
                                  isMac: bool, run: Runner, poll: nat -> Poll, budget: nat, i: nat)
    requires i < |Run(c, online, onlineB, offlineB, isMac, run, poll, budget).1|
    requires Run(c, online, onlineB, offlineB, isMac, run, poll, budget).1[i] == State("processing")
    ensures i == 4
    ensures Run(c, online, onlineB, offlineB, isMac, run, poll, budget).1[..i]
            == [State("listening"), Recorder(Spawn(RecordCommand(c.audioInputPath))), Recorder(Terminate), Recorder(Wait)]
  {
  }

  /** `online=True` calls only the online backend and `online=False` only
      the offline one; both hand the same system prompt to the query. */
  lemma OnlyChosenBackend(c: Config, online: bool, onlineB: Backend, offlineB: Backend,
                          isMac: bool, run: Runner, poll: nat -> Poll, budget: nat, e: Event)
    requires e in Run(c, online, onlineB, offlineB, isMac, run, poll, budget).1
    ensures (e.Transcribe? || e.Query? || e.Synthesize?) ==> e.online == online
    ensures e.Query? ==> e.systemPrompt == c.systemPrompt
  {
  }

  /** The data flows in a chain: the transcript is the query input, the
      reply is what is synthesized and the synthesized path is what is played. */
  lemma DataChain(c: Config, online: bool, onlineB: Backend, offlineB: Backend,
                  isMac: bool, run: Runner, poll: nat -> Poll, budget: nat, e: Event)
    requires e in Run(c, online, onlineB, offlineB, isMac, run, poll, budget).1
    ensures e.Query? ==> Chosen(online, onlineB, offlineB).transcribe(c.audioInputPath) == Ok(e.text)
    ensures e.Synthesize? ==> exists u :: Chosen(online, onlineB, offlineB).transcribe(c.audioInputPath) == Ok(u)
                                     && Chosen(online, onlineB, offlineB).query(u, c.systemPrompt) == Ok(e.text)
    ensures e.Play? ==> exists r :: Query(online, Chosen(online, onlineB, offlineB).transcribe(c.audioInputPath).value, c.systemPrompt)
                                      in Run(c, online, onlineB, offlineB, isMac, run, poll, budget).1
                                  && Synthesize(online, r) in Run(c, online, onlineB, offlineB, isMac, run, poll, budget).1
                                  && Chosen(online, onlineB, offlineB).synthesize(r).Ok?
                                  && e.argv == PlayCommand(isMac, Chosen(online, onlineB, offlineB).synthesize(r).value)
  {
    var t := Run(c, online, onlineB, offlineB, isMac, run, poll, budget).1;
    var b := Chosen(online, onlineB, offlineB);
    var recorded := [State("listening"), Recorder(Spawn(RecordCommand(c.audioInputPath))),
                     Recorder(Terminate), Recorder(Wait)];
    var heard := recorded + [State("processing"), Transcribe(online, c.audioInputPath)];
    if EndOf(poll, budget) != Stopped || b.transcribe(c.audioInputPath).Err? {
      assert e in heard;
    } else {
      var u := b.transcribe(c.audioInputPath).value;
      var asked := heard + [Query(online, u, c.systemPrompt)];
      if b.query(u, c.systemPrompt).Err? {
        assert e in asked;
      } else {
        var r := b.query(u, c.systemPrompt).value;
        var spoken := asked + [Synthesize(online, r)];
        if b.synthesize(r).Err? {
          assert e in spoken;
        } else {
          var played := spoken + [State("speaking"), Play(PlayCommand(isMac, b.synthesize(r).value))];
          assert t == Speak(isMac, run, b.synthesize(r).value, spoken).1;
          assert e in played || e == State("ready");
          assert Query(online, u, c.systemPrompt) in t && Synthesize(online, r) in t;
        }
      }
    }
  }

  /** There is no exception handling: when a backend step raises, the run
      is aborted in "processing" and neither "speaking" nor "ready" is set. */
  lemma BackendFailureStaysProcessing(c: Config, online: bool, onlineB: Backend, offlineB: Backend,
                                      isMac: bool, run: Runner, poll: nat -> Poll, budget: nat, init: string)
    requires EndOf(poll, budget) == Stopped
    requires var b := Chosen(online, onlineB, offlineB);
             b.transcribe(c.audioInputPath).Err?
             || b.query(b.transcribe(c.audioInputPath).value, c.systemPrompt).Err?
             || b.synthesize(b.query(b.transcribe(c.audioInputPath).value, c.systemPrompt).value).Err?
    ensures Run(c, online, onlineB, offlineB, isMac, run, poll, budget).0 == Aborted
    ensures LastState(Run(c, online, onlineB, offlineB, isMac, run, poll, budget).1, init) == "processing"
    ensures State("speaking") !in Run(c, online, onlineB, offlineB, isMac, run, poll, budget).1
    ensures State("ready") !in Run(c, online, onlineB, offlineB, isMac, run, poll, budget).1
  {
    var t := Run(c, online, onlineB, offlineB, isMac, run, poll, budget).1;
    var b := Chosen(online, onlineB, offlineB);
    var recorded := [State("listening"), Recorder(Spawn(RecordCommand(c.audioInputPath))),
                     Recorder(Terminate), Recorder(Wait), State("processing")];
    LastStateSnoc(recorded[..4], State("processing"), init);
    assert recorded == recorded[..4] + [State("processing")];
    var heard := recorded + [Transcribe(online, c.audioInputPath)];
    LastStateSnoc(recorded, Transcribe(online, c.audioInputPath), init);
    if b.transcribe(c.audioInputPath).Ok? {
      var userText := b.transcribe(c.audioInputPath).value;
      var asked := heard + [Query(online, userText, c.systemPrompt)];
      LastStateSnoc(heard, Query(online, userText, c.systemPrompt), init);
      if b.query(userText, c.systemPrompt).Ok? {
        var reply := b.query(userText, c.systemPrompt).value;
        LastStateSnoc(asked, Synthesize(online, reply), init);
        assert t == asked + [Synthesize(online, reply)];
      } else {
        assert t == asked;
      }
    } else {
      assert t == heard;
    }
  }

  /** `run_interaction(client, config, stop_event, whisper_model, online)`,
      changing the shared state through `ind` and reporting what it did. */
  method RunInteraction(ind: Indicator, c: Config, online: bool, onlineB: Backend, offlineB: Backend,
                        isMac: bool, run: Runner, poll: nat -> Poll, budget: nat)
    returns (outcome: Outcome, trace: seq<Event>)
    modifies ind`state
    ensures (outcome, trace) == Run(c, online, onlineB, offlineB, isMac, run, poll, budget)
    ensures ind.state == LastState(trace, old(ind.state))
  {
    trace := [];
    ind.SetState("listening");
    LastStateSnoc(trace, State("listening"), old(ind.state));
    trace := trace + [State("listening")];
    var end, _, _, procs := RecordInteractive(c.audioInputPath, poll, budget);
    LastStateSnoc(trace, Recorder(procs[0]), old(ind.state));
    trace := trace + [Recorder(procs[0])];
    ghost var started := [State("listening"), Recorder(Spawn(RecordCommand(c.audioInputPath)))];
    assert trace == started;
    if end == StillRecording {
      return Recording, trace;
    }
    assert procs == [Spawn(RecordCommand(c.audioInputPath)), Terminate, Wait];
    LastStateSnoc(trace, Recorder(procs[1]), old(ind.state));
    trace := trace + [Recorder(procs[1])];
    LastStateSnoc(trace, Recorder(procs[2]), old(ind.state));
    trace := trace + [Recorder(procs[2])];
    assert trace == started + [Recorder(Terminate), Recorder(Wait)];
    if end == Raised {
      return Aborted, trace;
    }

    outcome, trace := ProcessInteraction(ind, c, online, Chosen(online, onlineB, offlineB), isMac, run,
                                         trace, old(ind.state));
  }

  /** `Process`, changing the shared state through `ind`. */
  method ProcessInteraction(ind: Indicator, c: Config, online: bool, b: Backend, isMac: bool, run: Runner,
                            recorded: seq<Event>, ghost init: string)
    returns (outcome: Outcome, trace: seq<Event>)
    modifies ind`state
    requires ind.state == LastState(recorded, init)
    ensures (outcome, trace) == Process(c, online, b, isMac, run, recorded)
    ensures ind.state == LastState(trace, init)
  {
    trace := recorded;
    ind.SetState("processing");
    LastStateSnoc(trace, State("processing"), init);
    trace := trace + [State("processing")];
    LastStateSnoc(trace, Transcribe(online, c.audioInputPath), init);
    trace := trace + [Transcribe(online, c.audioInputPath)];
    assert trace == recorded + [State("processing"), Transcribe(online, c.audioInputPath)];
    var heard := b.transcribe(c.audioInputPath);
    if heard.Err? {
      return Aborted, trace;
    }
    var userText := heard.value;
    LastStateSnoc(trace, Query(online, userText, c.systemPrompt), init);
    trace := trace + [Query(online, userText, c.systemPrompt)];
    var answered := b.query(userText, c.systemPrompt);
    if answered.Err? {
      return Aborted, trace;
    }
    var replyText := answered.value;
    LastStateSnoc(trace, Synthesize(online, replyText), init);
    trace := trace + [Synthesize(online, replyText)];
    var synthesized := b.synthesize(replyText);
    if synthesized.Err? {
      return Aborted, trace;
    }
    outcome, trace := SpeakInteraction(ind, isMac, run, synthesized.value, trace, init);
  }

  /** `Speak`, changing the shared state through `ind`. */
  method SpeakInteraction(ind: Indicator, isMac: bool, run: Runner, audioPath: string,
                          spoken: seq<Event>, ghost init: string)
    returns (outcome: Outcome, trace: seq<Event>)
    modifies ind`state
    requires ind.state == LastState(spoken, init)
    ensures (outcome, trace) == Speak(isMac, run, audioPath, spoken)
    ensures ind.state == LastState(trace, init)
  {
    ind.SetState("speaking");
    LastStateSnoc(spoken, State("speaking"), init);
    trace := spoken + [State("speaking")];
    var argv := PlayCommand(isMac, audioPath);
    LastStateSnoc(trace, Play(argv), init);
    trace := trace + [Play(argv)];
    assert trace == spoken + [State("speaking"), Play(argv)];
    var played := run(argv);
    if played.Err? {
      return Aborted, trace;
    }
    ind.SetState("ready");
    LastStateSnoc(trace, State("ready"), init);
    trace := trace + [State("ready")];
    outcome := Completed;
  }
}
