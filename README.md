# pim in Dafny

A model of the voice assistants of the `pim` repository, with proofs about
that model. The repository holds five programs for a Raspberry Pi (or a Mac)
that all do the same thing: they record a question, transcribe it, ask a
language model, synthesise the reply and play it. A status LED shows the
interaction state. The programs differ in four ways:

- how an interaction starts: a GPIO button, the ENTER key, a console loop,
  or a single run;
- how audio is recorded: `arecord`, or a sounddevice stream;
- which services answer: online (OpenAI, gTTS) or a local fall-back
  (Whisper, llama_cpp, espeak);
- how exceptions are handled.

Each one:

| program | module | what is modelled |
|---|---|---|
| `tiny_him/` | `GpioHandler`, `IoAudio`, `Interaction`, `PlatformUtils`, `TinyHimMain` | the LED loop and the state, the `arecord` recorder and its polling loop, one interaction, the board and device probes, the single-flight button handler |
| `pim_io.py` | `PimIo` | startup, `start_interaction`, the button binding that the first recording takes over, ENTER requests |
| `pim_zero_button.py` | `PimZeroButton` | startup and `handle_button_press` with the sounddevice recorder's microphone search |
| `pim_zero.py` | `PimZero` | `main()`: the flags rule, the console turn loop with exit words, Ctrl+C and error-continue |
| `pim.py` | `Pim` | the probe loops, `play_audio` and the one-shot `main()` |

Three files are shared by the last four programs:

- `Assistant` holds the helpers those files repeat word for word, mostly:
  - the local-mode flags;
  - `query_llm` and `synthesize_speech`;
  - the guarded `play_audio`;
  - the microphone search;
  - everything an interaction does after the recording.
- `Text` models the Python `str` operations the code uses, on ASCII text.
- `Wrappers` holds `Option` and `Result`. An exception is an `Err` of kind
  `Interrupt` (`KeyboardInterrupt`) or `Failure` (any other `Exception`).

Everything outside the programs enters as a parameter:

- The services are function-typed parameters, each of which may fail.
- The contents of `/proc/cpuinfo` and the device list are an `Option`. `None`
  means that reading them raised.
- The connectivity probe is a boolean.
- The subprocess launcher is a function from argv to an exit status or an
  exception.
- Each poll of a stop event is read through a function of the poll's index.

Each operation returns an outcome and a trace of the events an observer
could see (`set_state` names, recorder process calls, service calls, the
printed reply, the playback command). Methods that change shared state
(`state`, the flags, the button binding, the lock) are written as classes
with those fields. These are proved equal to the trace functions, and the
functions carry the lemmas.

Three facts about the code that shape the model:

- A finished flash sequence falls back to state "ready" in tiny_him but to
  "idle" in pim_io.py and pim_zero_button.py. The LED loop itself writes
  this state.
- No inactivity timeout moves "ready" to "idle". The initial state is
  "idle".
- In tiny_him nothing sets the stop event, so the first admitted recording
  never ends and keeps the lock for good.

## Model

| member | source | states |
|---|---|---|
| `GpioHandler.Indicator.constructor` | tiny_him/gpio_handler.py:9 | The state starts as "idle" with the LED off. The state that follows "speaking" is fixed per program. |
| `GpioHandler.Indicator.SetState` | tiny_him/gpio_handler.py:12-15 | The state becomes exactly the new value. The LED is untouched. |
| `GpioHandler.Indicator.Step` | tiny_him/gpio_handler.py:19-32 | One loop iteration: its calls are the pattern of the old state, the LED ends where those calls leave it, and only "speaking" changes the state, to the fall-back. |
| `GpioHandler.Pattern` | tiny_him/gpio_handler.py:20-32 | Definition: the LED calls and sleeps of one iteration for each state, unknown names included. |
| `GpioHandler.After` | tiny_him/gpio_handler.py:28-30 | Definition: "speaking" moves to the fall-back state, every other state stays. |
| `GpioHandler.LevelAppend` | tiny_him/gpio_handler.py:19-32 | Running two call sequences one after the other leaves the LED as their concatenation does. |
| `GpioHandler.FlashesEndOff` | tiny_him/gpio_handler.py:29 | After one or more flashes the LED is off, whatever it was before. |
| `GpioHandler.SpeakingFlashesThrice` | tiny_him/gpio_handler.py:28-29 | "speaking" is exactly three flashes of 100 ms on and 100 ms off: 600 ms, no toggles, LED off at the end. |
| `GpioHandler.OnlySpeakingMoves` | tiny_him/gpio_handler.py:19-32 | An iteration changes the state only in "speaking", and then to the fall-back. Every other state, unknown names included, stays. |
| `GpioHandler.ToggleStates` | tiny_him/gpio_handler.py:24-27 | "listening" and "processing" each flip the LED once. They differ only in the wait: 100 ms against 500 ms. |
| `GpioHandler.LevelAfterIteration` | tiny_him/gpio_handler.py:20-32 | Where an iteration leaves the LED in each state. An unknown name turns it off and waits 100 ms. |
| `IoAudio.PlayCommandChoice` | tiny_him/io_audio.py:21-28 | The player is picked by platform first (`afplay` on a Mac), then by suffix (`aplay` for `.wav`, otherwise `mpg123`). The path is its one argument. |
| `IoAudio.PlayCommand` | tiny_him/io_audio.py:21-28 | Definition: `afplay` on a Mac, else `aplay` for ".wav", else `mpg123`, on the path. |
| `IoAudio.RecordCommand` | tiny_him/io_audio.py:11 | Definition: `arecord -D plughw:2,0 -f cd <path>`. |
| `IoAudio.EndOf` | tiny_him/io_audio.py:13-18 | Definition: how the polling loop ends within the budget, from its first signal. |
| `IoAudio.FirstSignalFrom` | tiny_him/io_audio.py:14-15 | The first poll from a given index that does not find the event clear, bounded by the budget. |
| `IoAudio.FirstSignal` | tiny_him/io_audio.py:14-15 | The number of polls that find the event clear before the loop ends. |
| `IoAudio.EndOfMeaning` | tiny_him/io_audio.py:13-18 | The loop stops normally exactly when a poll finds the event set after only clear ones. It is still recording exactly when every modelled poll was clear. |
| `IoAudio.RecordInteractive` | tiny_him/io_audio.py:9-19 | Starts `arecord -D plughw:2,0 -f cd <path>` and polls every 100 ms. On any way out of the loop the recorder is terminated and then waited for. |
| `Interaction.Run` | tiny_him/interaction.py:5-23 | Definition: the outcome and the events of `run_interaction`, from the recording's end and the chosen backend's answers. |
| `Interaction.Process` | tiny_him/interaction.py:9-19 | Definition: "processing", then transcription, query and synthesis with the chosen backend, stopping at the first that raises. |
| `Interaction.Chosen` | tiny_him/interaction.py:10-19 | Definition: the online backend when `online`, otherwise the offline one. |
| `Interaction.Speak` | tiny_him/interaction.py:21-23 | Definition: "speaking", the playback (which may raise) and "ready". |
| `Interaction.StatesAppend` | tiny_him/interaction.py:5-23 | The states set by two traces in a row are the states of each, concatenated. |
| `Interaction.CompletedTraceStates` | tiny_him/interaction.py:6-23 | A returning run sets "listening", "processing", "speaking", "ready", in that order. |
| `Interaction.CompletedStates` | tiny_him/interaction.py:5-23 | A run that returns sets exactly those four states and ends in "ready". |
| `Interaction.RecordingBeforeProcessing` | tiny_him/interaction.py:6-9 | "processing" is set only at position 4, after the recorder was spawned, terminated and waited for. |
| `Interaction.OnlyChosenBackend` | tiny_him/interaction.py:10-19 | Every service event uses the backend chosen by `online`, and the query gets the configured system prompt. |
| `Interaction.DataChain` | tiny_him/interaction.py:12-22 | The transcript is what is asked, the reply is what is synthesised, and the synthesised path is what is played. |
| `Interaction.BackendFailureStaysProcessing` | tiny_him/interaction.py:9-21 | A failing backend step aborts the run in "processing". Neither "speaking" nor "ready" is ever set. |
| `Interaction.RunInteraction` | tiny_him/interaction.py:5-23 | The imperative run equals the trace function, and leaves the shared state at the trace's last `set_state`. |
| `Interaction.ProcessInteraction` | tiny_him/interaction.py:9-19 | From "processing" to the synthesised file, the imperative steps equal the trace function `Process`, and the shared state is the last one set. |
| `Interaction.SpeakInteraction` | tiny_him/interaction.py:21-23 | "speaking", the playback and "ready" equal the trace function `Speak`, and the shared state is the last one set. |
| `TinyHimMain.Admission.constructor` | tiny_him/main.py:32-33 | The lock starts free and the event clear. |
| `TinyHimMain.Admission.Press` | tiny_him/main.py:38-43 | A press while the lock is held changes and starts nothing. Otherwise it takes the lock, clears the event, starts one interaction and waits 300 ms. |
| `TinyHimMain.Admission.Finish` | tiny_him/main.py:48-49 | The lock is released. |
| `TinyHimMain.NeverStopped` | tiny_him/main.py:41-47 | With the event never set, the recording loop never ends within any budget, and the state stays "listening". |
| `TinyHimMain.WrappedInteraction` | tiny_him/main.py:45-49 | The interaction runs with `online = not USE_LOCAL`. The lock is released on every exit, exceptions included. Only a run still recording keeps it. |
| `TinyHimMain.TinyHim.constructor` | tiny_him/main.py:19-53 | The local-mode rule; Whisper is loaded only in local mode. The devices are probed, then the state is set to "ready" before the LED and button threads start. |
| `TinyHimMain.TinyHim.Presses` | tiny_him/main.py:35-49 | Over any number of presses, exactly the first is admitted. Its recording never ends, so the lock stays held and every later press is dropped. |
| `TinyHimMain.OfflineNonPiFiveGoesOnline` | tiny_him/main.py:22-47 | Offline on a board that is not a Pi 5, the interaction still gets the online backend. |
| `PlatformUtils.SpaceRun` | tiny_him/platform_utils.py:12 | The maximal run of whitespace at a position. |
| `PlatformUtils.SpaceRunExact` | tiny_him/platform_utils.py:12 | That run is determined by where it stops. |
| `PlatformUtils.LineEnd` | tiny_him/platform_utils.py:12 | Where `.+` stops: the first newline or the end. |
| `PlatformUtils.LineEndExact` | tiny_him/platform_utils.py:12 | That end is determined by its defining properties. |
| `PlatformUtils.GroupStart` | tiny_him/platform_utils.py:12 | Backtracking of the greedy `\s+` before `(.+)`: the capture starts at a non-newline character. |
| `PlatformUtils.MatchPrefix` | tiny_him/platform_utils.py:12 | Definition: `Model\s+:\s+(.+)` anchored at the start of the text, with its capture. |
| `PlatformUtils.SearchFrom` | tiny_him/platform_utils.py:12 | Definition: the first position from `i` at which the pattern matches. |
| `PlatformUtils.ModelCapture` | tiny_him/platform_utils.py:12-14 | Definition: `re.search(...).group(1)`, or none. |
| `PlatformUtils.MatchPrefixShape` | tiny_him/platform_utils.py:12-14 | A capture of `Model\s+:\s+(.+)` is a non-empty piece of one line. |
| `PlatformUtils.MatchPrefixLine` | tiny_him/platform_utils.py:12-14 | A `Model` line given by positions captures exactly the text after the blanks, up to the line end. |
| `PlatformUtils.SearchLeftmost` | tiny_him/platform_utils.py:12 | `re.search` reports the match at the leftmost matching position. |
| `PlatformUtils.SearchNone` | tiny_him/platform_utils.py:12-13 | `re.search` finds nothing exactly when the pattern matches at no position. |
| `PlatformUtils.CaptureShape` | tiny_him/platform_utils.py:12-14 | Any capture of the search is a non-empty piece of one line. |
| `PlatformUtils.ContainsAt` | tiny_him/platform_utils.py:15-17 | A substring found at a position is contained. |
| `PlatformUtils.NotContainsFirst` | tiny_him/platform_utils.py:15-17 | A substring whose first character does not occur is not contained. |
| `PlatformUtils.NoMatchBefore` | tiny_him/platform_utils.py:12 | Text before the `Model` line that does not contain "Model" has no match. |
| `PlatformUtils.ModelLineCapture` | tiny_him/platform_utils.py:12-14 | The capture of a cpuinfo text whose first `Model` line is well formed is that line's model string. |
| `PlatformUtils.Classify` | tiny_him/platform_utils.py:15-18 | "Zero" anywhere gives "Pi Zero". Otherwise a "5" anywhere gives "Pi 5". Otherwise the result is "Unknown". |
| `PlatformUtils.DetectPiModel` | tiny_him/platform_utils.py:8-21 | The answer is one of "Pi Zero", "Pi 5" or "Unknown". |
| `PlatformUtils.DetectPiModelCases` | tiny_him/platform_utils.py:8-21 | Each answer holds exactly for its inputs. An unreadable file or no match gives "Unknown". |
| `PlatformUtils.BoardLine` | tiny_him/platform_utils.py:12-14 | The kernel's `Model\t\t: <model>` line captures `<model>`. |
| `PlatformUtils.PiFiveBoardClassified` | tiny_him/platform_utils.py:15-18 | "Raspberry Pi 5 Model B Rev 1.0" classifies as "Pi 5". |
| `PlatformUtils.PiFiveBoard` | tiny_him/platform_utils.py:8-18 | A Pi 5 cpuinfo detects as "Pi 5". |
| `PlatformUtils.PiZeroBoardClassified` | tiny_him/platform_utils.py:15-16 | "Raspberry Pi Zero 2 W Rev 1.0" classifies as "Pi Zero". |
| `PlatformUtils.PiZeroBoard` | tiny_him/platform_utils.py:8-16 | A Zero cpuinfo detects as "Pi Zero". |
| `PlatformUtils.RevisionFiveIsPiFiveClassified` | tiny_him/platform_utils.py:17-18 | A Pi 4 of revision 1.5 classifies as "Pi 5", because any "5" counts. |
| `PlatformUtils.RevisionFiveIsPiFive` | tiny_him/platform_utils.py:8-18 | Such a cpuinfo detects as "Pi 5". |
| `PlatformUtils.PiFourBoardClassified` | tiny_him/platform_utils.py:15-21 | A Pi 4 of revision 1.4 classifies as "Unknown". |
| `PlatformUtils.PiFourBoard` | tiny_him/platform_utils.py:8-21 | Such a cpuinfo detects as "Unknown". |
| `PlatformUtils.UseLocal` | tiny_him/main.py:22 | Definition: local mode is a Pi 5 without a connection. |
| `PlatformUtils.UseLocalFromCpuinfo` | tiny_him/main.py:20-22 | Traced back to cpuinfo: local mode needs an offline board whose model has a "5" and no "Zero". |
| `PlatformUtils.AnyInput` | tiny_him/platform_utils.py:34 | True exactly when some device has an input channel. |
| `PlatformUtils.AnySpeaker` | tiny_him/platform_utils.py:41 | True exactly when some device has an output channel and no "dummy" in its lower-cased name. |
| `PlatformUtils.DetectMicrophone` | tiny_him/platform_utils.py:31-36 | True exactly when the query returned and has an input device. False when the query raised. |
| `PlatformUtils.DetectSpeaker` | tiny_him/platform_utils.py:38-43 | True exactly when the query returned and has a speaker. False when the query raised. |
| `PlatformUtils.DetectMonotone` | tiny_him/platform_utils.py:31-43 | Adding devices never turns either probe from true to false. |
| `PlatformUtils.DummyIsNoSpeaker` | tiny_him/platform_utils.py:41 | A "Dummy Output" device is no speaker, whatever its channels. |
| `PlatformUtils.DummyPrefixIsNoSpeaker` | tiny_him/platform_utils.py:41 | Any device whose name starts with "Dummy" is no speaker, whatever its channels. |
| `Text.LowerChar` | pim_zero.py:256 | `A`-`Z` map to `a`-`z`. Every other character is unchanged. |
| `Text.Lower` | pim_zero.py:256 | Same length, each character lower-cased. |
| `Text.StripLeft` | pim_zero.py:256 | Every character removed is whitespace, and what is left does not start with whitespace. |
| `Text.StripRight` | pim_zero.py:256 | Every character removed is whitespace, and what is left does not end with whitespace. |
| `Text.StripLeftSuffix` | pim_zero.py:256 | What `lstrip()` leaves is a suffix of its argument. |
| `Text.StripRightPrefix` | pim_zero.py:256 | What `rstrip()` leaves is a prefix of its argument. |
| `Text.Strip` | pim_zero.py:256 | The result is the piece of the input between its leading and its trailing whitespace: character for character the input from the end of `lstrip()`, with only whitespace before and after it, and no whitespace at either of its ends. |
| `Text.StripClean` | pim_zero.py:256 | A string with no whitespace at its ends is its own `strip()`. |
| `Text.ReplaceAbsent` | pim_io.py:226 | A string not containing the pattern is left unchanged by `replace`. |
| `Text.ReplaceSkip` | pim_io.py:226 | A prefix that does not contain the pattern's first character passes through `replace` unchanged. |
| `Text.Replace` | pim_io.py:226 | Definition: `str.replace`, left to right and non-overlapping, with Python's rule for an empty pattern. |
| `Assistant.LocalFlags.constructor` | pim_io.py:31-33 | The three flags start false. |
| `Assistant.LocalFlags.SetIfLocal` | pim_io.py:288-291 | The flags are all set in local mode and otherwise left as they were. |
| `Assistant.LocalFlags.SetFromRule` | pim_zero.py:220-227 | Both branches assign, so the flags always equal the rule. |
| `Assistant.TranscribeAudio` | pim_io.py:259-263 | Definition: the local Whisper model or the OpenAI service, as `USE_LOCAL_STT` says. |
| `Assistant.OfflineReplyStripped` | pim_io.py:209 | The offline reply has no whitespace at either end. |
| `Assistant.QueryLlm` | pim_io.py:196-218 | Locally, the reply is `strip()` of the local model's answer to the prompt behind the fixed system text; any `Exception` becomes the offline reply and only Ctrl+C leaves. Online, the reply is `strip()` of the chat service's answer to the prompt alone, and exactly its exception propagates. |
| `Assistant.LocalFailureReply` | pim_io.py:207-209 | A failing local model gives exactly "I'm offline and unable to respond.". |
| `Assistant.TargetPath` | pim_io.py:221-222 | A given non-empty path is kept, otherwise the `response_<hex>.mp3` default is used. Never empty. |
| `Assistant.ReplaceNonEmpty` | pim_io.py:226 | Replacing in a non-empty name by a non-empty string leaves it non-empty. |
| `Assistant.SynthesizeSpeech` | pim_io.py:220-237 | Online: the target path exactly when gTTS returned, otherwise its exception. Locally: espeak writes to the target path with every ".mp3" replaced by ".wav" and that name is returned; an `Exception` of espeak gives `None`, and only Ctrl+C leaves. Every path returned is non-empty. |
| `Assistant.DefaultPathPlayers` | pim_io.py:220-247 | Local synthesis turns the default name into `.wav`, which `aplay` plays off a Mac. The online `.mp3` goes to `mpg123`. |
| `Assistant.LocalKeepsOtherNames` | pim_io.py:224-229 | Local synthesis keeps a name without ".mp3" as it is. |
| `Assistant.PlayAudio` | pim_io.py:239-249 | Every `Exception` of the player is swallowed. It fails exactly when the player raised Ctrl+C. |
| `Assistant.PlaysIffSynthesized` | pim_io.py:269-272 | With a speaker, playback happens exactly when synthesis gave a file. |
| `Assistant.ShouldPlay` | pim_io.py:269 | Definition: `has_speaker and audio_path`, an empty path counting as false. |
| `Assistant.Trunc` | pim_zero_button.py:133 | `int(x)` truncates toward zero. |
| `Assistant.FirstQualifying` | pim_zero_button.py:130-134 | The first input device that is neither a monitor nor a dummy, or none, with no qualifying device before it. |
| `Assistant.Qualifies` | pim_zero_button.py:131 | Definition: input channels, and neither "monitor" nor "dummy" in the lower-cased name. |
| `Assistant.SelectMic` | pim_zero_button.py:127-136 | The search loop picks that first device. It takes the device's rate only when no rate was given. With no device, or a query that raised, it gives `None` and the rate unchanged. |
| `Assistant.MicChoice` | pim_zero_button.py:127-136 | Definition: the first qualifying device and the rate, or no device when the query raised or none qualifies. |
| `Assistant.StatesCons` | pim_io.py:253-272 | The states of an event followed by a trace. |
| `Assistant.StatesAppend` | pim_io.py:253-272 | The states of a concatenation. |
| `Assistant.LastStateSnoc` | pim_io.py:74-77 | A further event changes the state only if it is a `set_state`. |
| `Assistant.LastStateAppend` | pim_io.py:74-77 | The state after two traces is the second's, starting from the first's. |
| `Assistant.NoStates` | pim_io.py:259-266 | Events that set no state leave it alone. |
| `Assistant.AfterProcessingCons` | pim_io.py:259-272 | An event that sets no state keeps the shape of a response tail. |
| `Assistant.ShapeStates` | pim_io.py:259-272 | "processing", then stateless events, then possibly "speaking" and one event, sets exactly those states. |
| `Assistant.Respond` | pim_io.py:259-272 | A response starts with "processing" and the transcription with the chosen service. Afterwards it sets only "speaking", and only just before the playback decision. |
| `Assistant.Answer` | pim_io.py:265-272 | The rest of a response starts by asking the chosen model for the transcript. |
| `Assistant.Voice` | pim_io.py:266-272 | It starts by synthesising the reply with the chosen engine. |
| `Assistant.Speak` | pim_io.py:268-272 | It plays exactly when there is a speaker and a file, with the platform's player. It fails only when the player raised Ctrl+C. |
| `Assistant.ProcessingStates` | pim_io.py:259-272 | A response sets "processing", or "processing" then "speaking", and is left in the last one. A completed response sets both. |
| `Assistant.RespondStates` | pim_io.py:259-272 | The same for every response. |
| `Assistant.ListeningStates` | pim_io.py:256-257 | "listening" and one stateless event set only "listening". |
| `Assistant.ListenedResponseStates` | pim_io.py:256-272 | A recording followed by a response starts with "listening" and never sets "ready". If it completes, it sets exactly "listening", "processing" and "speaking", and the LED loop then turns that into "idle". |
| `Assistant.AfterListening` | pim_io.py:256-272 | A trace that set only "listening", followed by the response's states, starts with "listening" and never sets "ready"; if the response completes, the states are "listening", "processing", "speaking" and the last is "speaking". |
| `Assistant.RespondInteraction` | pim_io.py:259-272 | The imperative response equals `Respond`, and leaves the shared state at its last `set_state`. |
| `Assistant.AnswerInteraction` | pim_io.py:265-272 | The same for `Answer`. |
| `Assistant.VoiceInteraction` | pim_io.py:266-272 | The same for `Voice`. |
| `PimIo.InteractStates` | pim_io.py:253-272 | An interaction starts with "listening" and never sets "ready". A completed one sets exactly "listening", "processing" and "speaking", and then falls back to "idle". |
| `PimIo.Interact` | pim_io.py:253-272 | Definition: "listening", the recording and, once it stopped, the shared response. |
| `PimIo.PimIo.constructor` | pim_io.py:283-307 | The flags are set only in local mode. Whisper is loaded only for local transcription. The devices are probed. The startup steps run in order: Whisper (locally), "ready", the button bound to `start_interaction`, then the ENTER listener. |
| `PimIo.PimIo.StartInteraction` | pim_io.py:253-272 | Equals the interaction function, leaves the state at its last `set_state`, and rebinds the button to the recording's stop listener. |
| `PimIo.PimIo.ButtonPressed` | pim_io.py:152-159 | A press starts an interaction only while the button is still bound to `start_interaction`. Otherwise it changes nothing observable. |
| `PimIo.PimIo.Session` | pim_io.py:276-307 | ENTER always starts an interaction. The button does so only as the first request ever. |
| `PimZeroButton.ButtonInteractStream` | pim_zero_button.py:127-144 | The stream opens on the first qualifying device at that device's default rate. With none, the device and the rate are both `None`. |
| `PimZeroButton.ButtonInteractStates` | pim_zero_button.py:232-251 | A press starts with "listening" and never sets "ready". A completed one sets exactly "listening", "processing" and "speaking", then falls back to "idle". |
| `PimZeroButton.ButtonInteract` | pim_zero_button.py:232-251 | Definition: "listening", the stream on the chosen microphone and, once the recording returned, the shared response. |
| `PimZeroButton.PimZeroButton.constructor` | pim_zero_button.py:255-277 | The flags are set only in local mode. Whisper is loaded only for local transcription. The state is "ready" before the handler is registered. |
| `PimZeroButton.PimZeroButton.HandleButtonPress` | pim_zero_button.py:232-251 | The imperative press, with the search loop, equals the press function and leaves the state at its last `set_state`. |
| `PimZero.Normalize` | pim_zero.py:256 | The result has the length of `strip()` of the input, each character the lower-cased character of that stripped text, and no whitespace at either end. |
| `PimZero.IsExit` | pim_zero.py:256-257 | Definition: the normalised text is one of "exit", "quit", "bye". |
| `PimZero.NormalizeTo` | pim_zero.py:256 | A trimmed string normalises to its lower-cased characters. |
| `PimZero.ExitWordsAccepted` | pim_zero.py:256-257 | "exit", "Bye" and "QUIT" are exit words: case does not matter. |
| `PimZero.ExitWordsExact` | pim_zero.py:256-257 | "exit." and "goodbye" are not exit words: only the exact words are. |
| `PimZero.LongNotExit` | pim_zero.py:256-257 | A text longer than four characters, with no whitespace at either end, is never an exit word. |
| `PimZero.EndOn` | pim_zero.py:274-278 | Ctrl+C leaves the loop. Any other exception continues it. |
| `PimZero.Heard` | pim_zero.py:246-254 | Definition: with a microphone the stream, the recording and its transcription; otherwise the typed line. |
| `PimZero.TurnOf` | pim_zero.py:245-278 | Definition: one turn of the loop: the question, the exit test, the reply, and how an exception ends it. |
| `PimZero.ExitIff` | pim_zero.py:245-259 | A turn ends with goodbye exactly when a question was obtained and it is an exit word once normalised. With `LoopStopsAtFirst`, the loop says goodbye at the first such turn. |
| `PimZero.Reply` | pim_zero.py:261-272 | The normalised question is asked first. A model that raised ends the turn. A reply continues to synthesis. Nothing is recorded here, and no outcome is a goodbye. |
| `PimZero.Spoken` | pim_zero.py:264-272 | Once synthesis returned, the reply is printed. It is played exactly when there is a speaker and a file. No outcome is a goodbye. |
| `PimZero.Loop` | pim_zero.py:244-278 | The loop never runs more turns than there are. |
| `PimZero.LoopMeaning` | pim_zero.py:244-278 | Every turn before the last one run continued. The turns run out exactly when all of them continue. Goodbye and Ctrl+C come from the last turn run. |
| `PimZero.LoopStopsAtFirst` | pim_zero.py:257-276 | The loop stops exactly at the first turn with an exit word or Ctrl+C, for that turn's reason. |
| `PimZero.LoopStep` | pim_zero.py:244-278 | One turn of the loop unfolded. |
| `PimZero.SessionStopsAtFirst` | pim_zero.py:244-278 | The same for the turns of a session. |
| `PimZero.Session` | pim_zero.py:244-278 | Definition: the `while True` loop over the given turns, each turn by `TurnOf`. |
| `PimZero.InputSource` | pim_zero.py:246-254 | With a microphone a turn starts with the recording stream and ignores the keyboard. Without one, nothing is recorded or transcribed. |
| `PimZero.QuestionAnswered` | pim_zero.py:256-272 | A question that is not an exit word goes to the model normalised. Its reply is printed once synthesis returned, and played exactly when there is a speaker and a file. |
| `PimZero.KeyboardErrors` | pim_zero.py:253-278 | A typed-input exception continues the loop. Ctrl+C leaves it. |
| `PimZero.RunTurns` | pim_zero.py:244-278 | The imperative loop equals `Loop` over the turns' outcomes. |
| `PimZero.RunLoop` | pim_zero.py:244-278 | The loop over the given turns equals the session. |
| `PimZero.RunMain` | pim_zero.py:211-244 | The flags always equal the rule. Whisper is loaded only for local transcription. The loop then runs with the probed devices. |
| `Pim.AnyOutput` | pim.py:49-51 | True exactly when some device has an output channel. |
| `Pim.DetectOutput` | pim.py:46-54 | The same, and false when the query raised. |
| `Pim.ScanMicrophone` | pim.py:35-43 | The early-return loop gives exactly the microphone probe's answer. |
| `Pim.ScanSpeaker` | pim.py:46-54 | The early-return loop gives exactly the output probe's answer, with no "dummy" exclusion. |
| `Pim.OutputProbeLooser` | pim.py:46-54 | This probe accepts every speaker of the shared test, and also a "Dummy Output" device the shared test rejects. |
| `Pim.PlayCommandChoice` | pim.py:119-124 | `afplay` on a Mac, `mpg123` otherwise, whatever the suffix. Off a Mac a `.wav` file differs from the shared `play_audio`; in every other case the two agree. |
| `Pim.PlayAudio` | pim.py:119-124 | The exit status is ignored. Whatever the player raises propagates. |
| `Pim.QueryChatgpt` | pim.py:98-107 | The question is sent behind "Answer concisely the following question: ". The reply is `strip()` of the service's answer, and the service's exception propagates. |
| `Pim.SynthesizeSpeech` | pim.py:110-116 | gTTS writes to the given or the default path and returns it. Its exception propagates. |
| `Pim.PlayCommand` | pim.py:119-124 | Definition: `afplay` on a Mac, otherwise `mpg123`, on the path. |
| `Pim.Question` | pim.py:141-146 | Definition: the 16000 Hz recording and its local transcription with a microphone, otherwise the typed line. |
| `Pim.Run` | pim.py:129-157 | Definition: the question, then the answer, stopping at the first exception. |
| `Pim.RunProgram` | pim.py:129-157 | `HAS_MIC` and `HAS_SPEAKER` come from the two scans. The rest equals the run function. |
| `Pim.InputBranch` | pim.py:141-146 | The question comes from the 16000 Hz recording and the local Whisper transcription exactly when a microphone was found. Otherwise it is the typed line, unchanged. |
| `Pim.AnswerShape` | pim.py:148-157 | The question is asked first. At most the synthesis, the printed reply and the playback decision follow. |
| `Pim.Answer` | pim.py:148-157 | Definition: the query, the synthesis, the printed reply and then playback or the muted message, stopping at the first exception. |
| `Pim.OutputBranch` | pim.py:152-157 | Once synthesis returned, the reply is always printed. It is played on the default `.mp3` with the platform's player exactly when an output device exists. |
| `Pim.FinishesIffAllReturn` | pim.py:129-157 | The program finishes exactly when every step returned. Otherwise it ends with the first exception. |
| `Pim.OutputOnlyDevicePlays` | pim.py:129-157 | With one device that has outputs and no inputs, the typed question is answered and played. |
| `Pim.DummyDevicePlays` | pim.py:129-157 | A "Dummy Output" device gets the reply played, though the shared speaker test finds no speaker there. |

## Left out

- Threads and races are not modelled. The ENTER listener and the button of
  pim_io.py run one after the other, and so do gpiozero callbacks and the
  recorder's stopper thread. The LED loop is a step method that a caller
  runs between other steps.
- Timing: sleeps are integer milliseconds in the LED patterns and the
  polling loop. The 300 ms ENTER de-bounce of pim_io.py is not modelled.
- The recording loops are bounded by a poll budget. A recording still
  polling after it reports that it is still recording.
- The pim_zero.py loop runs over a given finite sequence of turns, so a
  session that never says goodbye stops when they run out.
- The services (OpenAI, Whisper, llama_cpp, espeak, gTTS) are
  uninterpreted, possibly failing functions. What they return is not
  modelled.
- Hardware and I/O enter only as parameters:
  - GPIO pins and `force_gpio_release`;
  - sounddevice streams and soundfile writes;
  - `arecord` and the players;
  - the socket probe (a boolean) and the `/proc/cpuinfo` read (an optional
    string);
  - the API-key files and `sys.exit` when they are missing;
  - `GPIO.cleanup` and `pause()`.
- A sounddevice recording is reduced to whether it finished or raised.
  Queued frames and file contents are not modelled.
- RecordInteractive (`IoAudio.RecordInteractive`): starting `arecord`
  always succeeds. In tiny_him/io_audio.py the `Popen` comes before the
  `try`, so if it raised (no `arecord` installed, say) there would be no
  terminate and no wait, and the exception would be an ordinary error.
- Run (`Interaction.Run`): inherits that gap; every run that got past the
  recording spawned, terminated and waited for `arecord`, and a run cannot
  fail while starting it.
- Interact (`PimIo.Interact`): the same gap for the `Popen` of pim_io.py's
  recorder; a failure to start it, with no terminate or wait, is not
  modelled.
- ButtonInteract (`PimZeroButton.ButtonInteract`): a recording that raised
  is recorded after its stream event, although the sound file opens before
  the stream and can fail first; where the recording raised is not
  recorded.
- Question (`Pim.Question`): a recording that raised is recorded after the
  16000 Hz stream event, although the ENTER prompt and the sound file come
  before the stream and can raise first; where the recording raised is not
  recorded.
- PimZero.Heard: a recording that raised is always recorded after its
  stream event. In pim_zero.py the first ENTER prompt can raise before the
  device search and the stream, and the file can fail to open before the
  stream; the model does not record where the recording raised.
- Printed messages are left out. The one exception is the printed reply of
  pim_zero.py and pim.py, which is an event.
- Text is ASCII. `str.lower` and `str.isspace` are modelled on ASCII only.
- A `KeyboardInterrupt` during startup or during `pause()` is not
  modelled. The model starts after startup completed.
- The LED loop of pim_zero_button.py calls `time.sleep` without importing
  `time`, so in the code that thread stops at its first sleep. The model
  follows the intended loop, with "idle" after "speaking".
- Pim.QueryChatgpt: the reply is the stripped text the chat service
  returns. The code reads `choices` from the result of
  `client.responses.create`. Whether that object has this attribute depends
  on the OpenAI library, which is not part of this model.
- The context files are not modelled: the hardware smoke tests (`button*.py`,
  `LED_test*.py`, `tiny_him/test_audio.py`) and the thin service wrappers
  `tiny_him/online_logic.py` and `tiny_him/offline_logic.py` (they are the
  `Backend` parameter).
