/** Platform classification (tiny_him/platform_utils.py; the same
    `detect_pi_model`, `detect_microphone` and `detect_speaker` are repeated
    in pim_io.py, pim_zero.py and pim_zero_button.py). The contents of
    /proc/cpuinfo and the device list come in as values: `None` when reading
    them raised. */
module PlatformUtils {
  import opened Wrappers
  import opened Text

  // ---------------------------------------------------------------------
  // re.search(r"Model\s+:\s+(.+)", cpuinfo)
  // ---------------------------------------------------------------------

  /** How many whitespace characters start at `i`. */
  function SpaceRun(s: string, i: nat): (n: nat)
    requires i <= |s|
    ensures i + n <= |s|
    ensures forall j :: i <= j < i + n ==> IsSpace(s[j])
    ensures i + n == |s| || !IsSpace(s[i + n])
    decreases |s| - i
  {
    if i < |s| && IsSpace(s[i]) then 1 + SpaceRun(s, i + 1) else 0
  }

  /** The whitespace run is determined by where it stops. */
  lemma {:induction false} SpaceRunExact(s: string, i: nat, n: nat)
    requires i + n <= |s|
    requires forall j :: i <= j < i + n ==> IsSpace(s[j])
    requires i + n == |s| || !IsSpace(s[i + n])
    ensures SpaceRun(s, i) == n
    decreases n
  {
    if n > 0 {
      SpaceRunExact(s, i + 1, n - 1);
    }
  }

  /** Where `.+` starting at `p` stops: the first newline at or after `p`,
      or the end of the text. */
  function LineEnd(s: string, p: nat): (e: nat)
    requires p <= |s|
    ensures p <= e <= |s|
    ensures forall j :: p <= j < e ==> s[j] != '\n'
    ensures e == |s| || s[e] == '\n'
    decreases |s| - p
  {
    if p == |s| || s[p] == '\n' then p else LineEnd(s, p + 1)
  }

  lemma {:induction false} LineEndExact(s: string, p: nat, e: nat)
    requires p <= e <= |s|
    requires forall j :: p <= j < e ==> s[j] != '\n'
    requires e == |s| || s[e] == '\n'
    ensures LineEnd(s, p) == e
    decreases e - p
  {
    if p < e {
      LineEndExact(s, p + 1, e);
    }
  }

  /** The greedy `\s+` in front of `(.+)` backtracking: of the `t`
      whitespace characters at `k`, it keeps the longest non-empty prefix
      that is followed by a character `.` can match (anything but a newline). */
  function GroupStart(s: string, k: nat, t: nat): (r: Option<nat>)
    requires k + t <= |s|
    ensures r.Some? ==> 1 <= r.value <= t && k + r.value < |s| && s[k + r.value] != '\n'
    ensures r.Some? ==> forall j :: k + r.value < j <= k + t ==> j == |s| || s[j] == '\n'
    ensures r.None? ==> forall j :: k < j <= k + t ==> j == |s| || s[j] == '\n'
    decreases t
  {
    if t == 0 then None
    else if k + t < |s| && s[k + t] != '\n' then Some(t)
    else GroupStart(s, k, t - 1)
  }

  /** The capture of a match of `Model\s+:\s+(.+)` at the very start of
      `t`, if there is one. The first `\s+` has to stop at the `:`, which is
      not whitespace, so only its longest run can succeed. */
  function MatchPrefix(t: string): Option<string> {
    if !("Model" <= t) then None
    else
      var a := SpaceRun(t, 5);
      if a == 0 || 5 + a == |t| || t[5 + a] != ':' then None
      else
        var k := 5 + a + 1;
        match GroupStart(t, k, SpaceRun(t, k))
        case None => None
        case Some(g) => Some(t[k + g..LineEnd(t, k + g)])
  }

  /** A capture is a non-empty piece of one line. */
  lemma MatchPrefixShape(t: string)
    requires MatchPrefix(t).Some?
    ensures |MatchPrefix(t).value| > 0
    ensures forall j :: 0 <= j < |MatchPrefix(t).value| ==> MatchPrefix(t).value[j] != '\n'
  {
    var k := 5 + SpaceRun(t, 5) + 1;
    var g := GroupStart(t, k, SpaceRun(t, k)).value;
    assert MatchPrefix(t).value == t[k + g..LineEnd(t, k + g)];
  }

  /** A `Model` line read off by positions: `a` blanks, the colon, `b`
      blanks, a non-blank at `p` and the capture up to the end of that line. */
  lemma MatchPrefixLine(t: string, a: nat, b: nat, e: nat)
    requires "Model" <= t && a > 0 && b > 0
    requires 5 + a + 1 + b < |t| && 5 + a + 1 + b <= e <= |t|
    requires forall j :: 5 <= j < 5 + a ==> IsSpace(t[j])
    requires t[5 + a] == ':'
    requires forall j :: 5 + a + 1 <= j < 5 + a + 1 + b ==> IsSpace(t[j])
    requires !IsSpace(t[5 + a + 1 + b])
    requires forall j :: 5 + a + 1 + b <= j < e ==> t[j] != '\n'
    requires e == |t| || t[e] == '\n'
    ensures MatchPrefix(t) == Some(t[5 + a + 1 + b..e])
  {
    SpaceRunExact(t, 5, a);
    SpaceRunExact(t, 5 + a + 1, b);
    LineEndExact(t, 5 + a + 1 + b, e);
  }

  /** `re.search`: the match starting leftmost, from `i` on. */
  function SearchFrom(s: string, i: nat): Option<string>
    requires i <= |s|
    decreases |s| - i
  {
    if MatchPrefix(s[i..]).Some? then MatchPrefix(s[i..])
    else if i == |s| then None
    else SearchFrom(s, i + 1)
  }

  /** `model_match.group(1)`, or `None` when nothing matches. */
  function ModelCapture(cpuinfo: string): Option<string> {
    SearchFrom(cpuinfo, 0)
  }

  /** `re.search` reports the leftmost position where the pattern matches. */
  lemma {:induction false} SearchLeftmost(s: string, i: nat, j: nat)
    requires i <= j <= |s|
    requires MatchPrefix(s[j..]).Some?
    requires forall p :: i <= p < j ==> MatchPrefix(s[p..]).None?
    ensures SearchFrom(s, i) == MatchPrefix(s[j..])
    decreases j - i
  {
    if i < j {
      SearchLeftmost(s, i + 1, j);
    }
  }

  /** `re.search` finds nothing exactly when the pattern matches nowhere. */
  lemma {:induction false} SearchNone(s: string, i: nat)
    requires i <= |s|
    ensures SearchFrom(s, i).None? <==> forall p :: i <= p <= |s| ==> MatchPrefix(s[p..]).None?
    decreases |s| - i
  {
    if i < |s| {
      SearchNone(s, i + 1);
    }
  }

  /** Whatever `re.search` captures is a non-empty piece of one line. */
  lemma {:induction false} CaptureShape(s: string, i: nat)
    requires i <= |s| && SearchFrom(s, i).Some?
    ensures |SearchFrom(s, i).value| > 0
    ensures forall j :: 0 <= j < |SearchFrom(s, i).value| ==> SearchFrom(s, i).value[j] != '\n'
    decreases |s| - i
  {
    if MatchPrefix(s[i..]).Some? {
      MatchPrefixShape(s[i..]);
    } else {
      CaptureShape(s, i + 1);
    }
  }

  lemma ContainsAt(s: string, sub: string, i: nat)
    requires i <= |s| && sub <= s[i..]
    ensures Contains(s, sub)
  {
  }

  /** A non-empty `sub` whose first character does not occur is not contained. */
  lemma NotContainsFirst(s: string, sub: string)
    requires sub != [] && sub[0] !in s
    ensures !Contains(s, sub)
  {
    forall i | 0 <= i <= |s| - |sub|
      ensures !(sub <= s[i..])
    {
      assert s[i] in s;
    }
  }

  /** Before the `Model` line, a text not containing "Model" has no match:
      "Model" does not overlap itself, so no occurrence can start inside it
      and run into the line. */
  lemma NoMatchBefore(pre: string, line: string, p: nat)
    requires !Contains(pre, "Model") && "Model" <= line
    requires p < |pre|
    ensures !("Model" <= (pre + line)[p..])
  {
    var t := (pre + line)[p..];
    if p + 5 <= |pre| {
      assert pre[p..][..5] == t[..5];
    } else {
      assert t[|pre| - p] == line[0];
    }
  }

  /** The line /proc/cpuinfo carries, `Model<ws>:<ws><model>` ending at a
      newline or at the end of the text, yields exactly `<model>`, provided
      nothing before it contains "Model". */
  lemma ModelLineCapture(pre: string, line: string, a: nat, b: nat, e: nat)
    requires !Contains(pre, "Model")
    requires "Model" <= line && a > 0 && b > 0
    requires 5 + a + 1 + b < |line| && 5 + a + 1 + b <= e <= |line|
    requires forall j :: 5 <= j < 5 + a ==> IsSpace(line[j])
    requires line[5 + a] == ':'
    requires forall j :: 5 + a + 1 <= j < 5 + a + 1 + b ==> IsSpace(line[j])
    requires !IsSpace(line[5 + a + 1 + b])
    requires forall j :: 5 + a + 1 + b <= j < e ==> line[j] != '\n'
    requires e == |line| || line[e] == '\n'
    ensures ModelCapture(pre + line) == Some(line[5 + a + 1 + b..e])
  {
    var s := pre + line;
    assert s[|pre|..] == line;
    MatchPrefixLine(line, a, b, e);
    forall q | 0 <= q < |pre|
      ensures MatchPrefix(s[q..]).None?
    {
      NoMatchBefore(pre, line, q);
      assert !("Model" <= s[q..]);
    }
    SearchLeftmost(s, 0, |pre|);
  }

  // ---------------------------------------------------------------------
  // detect_pi_model()
  // ---------------------------------------------------------------------

  /** The ordered substring tests on the captured model string. */
  function Classify(model: string): (r: string)
    ensures Contains(model, "Zero") ==> r == "Pi Zero"
    ensures !Contains(model, "Zero") && Contains(model, "5") ==> r == "Pi 5"
    ensures !Contains(model, "Zero") && !Contains(model, "5") ==> r == "Unknown"
  {
    if Contains(model, "Zero") then "Pi Zero"
    else if Contains(model, "5") then "Pi 5"
    else "Unknown"
  }

  /** `detect_pi_model()`, given /proc/cpuinfo or `None` if reading it raised. */
  function DetectPiModel(cpuinfo: Option<string>): (r: string)
    ensures r == "Pi Zero" || r == "Pi 5" || r == "Unknown"
  {
    match cpuinfo
    case None => "Unknown"
    case Some(text) =>
      match ModelCapture(text)
      case None => "Unknown"
      case Some(model) => Classify(model)
  }

  /** Each answer, and the exact inputs that give it: "Pi Zero" wins over
      "Pi 5" because it is tested first, and a read error, a missing
      `Model` line or a model with neither substring give "Unknown". */
  lemma DetectPiModelCases(cpuinfo: Option<string>)
    ensures DetectPiModel(cpuinfo) == "Pi Zero" <==>
      cpuinfo.Some? && ModelCapture(cpuinfo.value).Some? && Contains(ModelCapture(cpuinfo.value).value, "Zero")
    ensures DetectPiModel(cpuinfo) == "Pi 5" <==>
      cpuinfo.Some? && ModelCapture(cpuinfo.value).Some?
      && !Contains(ModelCapture(cpuinfo.value).value, "Zero") && Contains(ModelCapture(cpuinfo.value).value, "5")
    ensures DetectPiModel(cpuinfo) == "Unknown" <==>
      cpuinfo.None? || ModelCapture(cpuinfo.value).None?
      || (!Contains(ModelCapture(cpuinfo.value).value, "Zero") && !Contains(ModelCapture(cpuinfo.value).value, "5"))
  {
  }

  /** The line as the kernel writes it, `Model\t\t: <model>`. */
  lemma BoardLine(pre: string, m: string, tail: string)
    requires !Contains(pre, "Model") && (tail == [] || tail[0] == '\n')
    requires m != [] && !IsSpace(m[0]) && forall j :: 0 <= j < |m| ==> m[j] != '\n'
    ensures ModelCapture(pre + ("Model\t\t: " + m + tail)) == Some(m)
  {
    var line := "Model\t\t: " + m + tail;
    var e := 9 + |m|;
    assert line[..5] == "Model";
    assert line[5] == '\t' && line[6] == '\t' && line[7] == ':' && line[8] == ' ';
    assert line[9..e] == m;
    forall j | 9 <= j < e
      ensures line[j] != '\n'
    {
      assert line[j] == m[j - 9];
    }
    assert e == |line| || line[e] == tail[0];
    ModelLineCapture(pre, line, 2, 1, e);
  }

  /** A Pi 5 board line classifies as "Pi 5". */
  lemma PiFiveBoardClassified()
    ensures Classify("Raspberry Pi 5 Model B Rev 1.0") == "Pi 5"
  {
    var m := "Raspberry Pi 5 Model B Rev 1.0";
    NotContainsFirst(m, "Zero");
    ContainsAt(m, "5", 13);
  }

  lemma PiFiveBoard(pre: string, tail: string)
    requires !Contains(pre, "Model") && (tail == [] || tail[0] == '\n')
    ensures DetectPiModel(Some(pre + ("Model\t\t: " + "Raspberry Pi 5 Model B Rev 1.0" + tail))) == "Pi 5"
  {
    var m := "Raspberry Pi 5 Model B Rev 1.0";
    BoardLine(pre, m, tail);
    PiFiveBoardClassified();
  }

  /** A Zero board line classifies as "Pi Zero". */
  lemma PiZeroBoardClassified()
    ensures Classify("Raspberry Pi Zero 2 W Rev 1.0") == "Pi Zero"
  {
    var m := "Raspberry Pi Zero 2 W Rev 1.0";
    ContainsAt(m, "Zero", 13);
  }

  lemma PiZeroBoard(pre: string, tail: string)
    requires !Contains(pre, "Model") && (tail == [] || tail[0] == '\n')
    ensures DetectPiModel(Some(pre + ("Model\t\t: " + "Raspberry Pi Zero 2 W Rev 1.0" + tail))) == "Pi Zero"
  {
    var m := "Raspberry Pi Zero 2 W Rev 1.0";
    BoardLine(pre, m, tail);
    PiZeroBoardClassified();
  }

  /** Any "5" counts, so a Pi 4 of board revision 1.5 is taken for a Pi 5:
      the substring test does not look at the model number alone. */
  lemma RevisionFiveIsPiFiveClassified()
    ensures Classify("Raspberry Pi 4 Model B Rev 1.5") == "Pi 5"
  {
    var m := "Raspberry Pi 4 Model B Rev 1.5";
    NotContainsFirst(m, "Zero");
    ContainsAt(m, "5", 29);
  }

  lemma RevisionFiveIsPiFive(pre: string, tail: string)
    requires !Contains(pre, "Model") && (tail == [] || tail[0] == '\n')
    ensures DetectPiModel(Some(pre + ("Model\t\t: " + "Raspberry Pi 4 Model B Rev 1.5" + tail))) == "Pi 5"
  {
    var m := "Raspberry Pi 4 Model B Rev 1.5";
    BoardLine(pre, m, tail);
    RevisionFiveIsPiFiveClassified();
  }

  /** A Pi 4 of another revision has neither substring: "Unknown". */
  lemma PiFourBoardClassified()
    ensures Classify("Raspberry Pi 4 Model B Rev 1.4") == "Unknown"
  {
    var m := "Raspberry Pi 4 Model B Rev 1.4";
    NotContainsFirst(m, "Zero");
    NotContainsFirst(m, "5");
  }

  lemma PiFourBoard(pre: string, tail: string)
    requires !Contains(pre, "Model") && (tail == [] || tail[0] == '\n')
    ensures DetectPiModel(Some(pre + ("Model\t\t: " + "Raspberry Pi 4 Model B Rev 1.4" + tail))) == "Unknown"
  {
    var m := "Raspberry Pi 4 Model B Rev 1.4";
    BoardLine(pre, m, tail);
    PiFourBoardClassified();
  }

  /** `USE_LOCAL = (pi_model == "Pi 5" and not online)`: the offline
      backends are used only on a Pi 5 without a connection. */
  predicate UseLocal(piModel: string, online: bool) {
    piModel == "Pi 5" && !online
  }

  /** Traced back to /proc/cpuinfo: local mode needs a readable `Model`
      line whose capture has a "5" and no "Zero", and no connection. */
  lemma UseLocalFromCpuinfo(cpuinfo: Option<string>, online: bool)
    ensures UseLocal(DetectPiModel(cpuinfo), online) <==>
      !online && cpuinfo.Some? && ModelCapture(cpuinfo.value).Some?
      && !Contains(ModelCapture(cpuinfo.value).value, "Zero") && Contains(ModelCapture(cpuinfo.value).value, "5")
  {
    DetectPiModelCases(cpuinfo);
  }

  // ---------------------------------------------------------------------
  // detect_microphone() / detect_speaker()
  // ---------------------------------------------------------------------

  /** The fields of a `sd.query_devices()` entry the programs read. */
  datatype Device = Device(name: string, maxInputChannels: int, maxOutputChannels: int, defaultSampleRate: real)

  /** `any(d['max_input_channels'] > 0 for d in devices)`, in list order. */
  function AnyInput(ds: seq<Device>): (r: bool)
    ensures r <==> exists i :: 0 <= i < |ds| && ds[i].maxInputChannels > 0
    decreases |ds|
  {
    if ds == [] then false
    else ds[0].maxInputChannels > 0 || AnyInput(ds[1..])
  }

  /** The speaker test: an output channel and no "dummy" in the lower-cased name. */
  predicate IsSpeaker(d: Device) {
    d.maxOutputChannels > 0 && !Contains(Lower(d.name), "dummy")
  }

  /** `any(d['max_output_channels'] > 0 and 'dummy' not in d['name'].lower() ...)`. */
  function AnySpeaker(ds: seq<Device>): (r: bool)
    ensures r <==> exists i :: 0 <= i < |ds| && IsSpeaker(ds[i])
    decreases |ds|
  {
    if ds == [] then false
    else IsSpeaker(ds[0]) || AnySpeaker(ds[1..])
  }

  /** `detect_microphone()`, `None` standing for a device query that raised. */
  function DetectMicrophone(query: Option<seq<Device>>): (r: bool)
    ensures r <==> query.Some? && exists i :: 0 <= i < |query.value| && query.value[i].maxInputChannels > 0
  {
    query.Some? && AnyInput(query.value)
  }

  /** `detect_speaker()`, `None` standing for a device query that raised. */
  function DetectSpeaker(query: Option<seq<Device>>): (r: bool)
    ensures r <==> query.Some? && exists i :: 0 <= i < |query.value| && IsSpeaker(query.value[i])
  {
    query.Some? && AnySpeaker(query.value)
  }

  /** Neither predicate can be turned from true to false by more devices. */
  lemma DetectMonotone(ds: seq<Device>, more: seq<Device>)
    requires forall i :: 0 <= i < |ds| ==> ds[i] in more
    ensures DetectMicrophone(Some(ds)) ==> DetectMicrophone(Some(more))
    ensures DetectSpeaker(Some(ds)) ==> DetectSpeaker(Some(more))
  {
    if DetectMicrophone(Some(ds)) {
      var i :| 0 <= i < |ds| && ds[i].maxInputChannels > 0;
      var j :| 0 <= j < |more| && more[j] == ds[i];
      assert more[j].maxInputChannels > 0;
    }
    if DetectSpeaker(Some(ds)) {
      var i :| 0 <= i < |ds| && IsSpeaker(ds[i]);
      var j :| 0 <= j < |more| && more[j] == ds[i];
      assert IsSpeaker(more[j]);
    }
  }

  /** A device whose name is "Dummy Output" in any casing is never a
      speaker, however many output channels it has. */
  lemma DummyIsNoSpeaker(channels: int, rate: real)
    ensures !IsSpeaker(Device("Dummy Output", 0, channels, rate))
  {
    var name := "Dummy Output";
    assert name[..5] == "Dummy";
    DummyPrefixIsNoSpeaker(Device(name, 0, channels, rate));
  }

  /** A device whose name starts with "Dummy" is no speaker. */
  lemma DummyPrefixIsNoSpeaker(d: Device)
    requires "Dummy" <= d.name
    ensures !IsSpeaker(d)
  {
    var low := Lower(d.name);
    assert d.name[0] == 'D' && d.name[1] == 'u' && d.name[2] == 'm' && d.name[3] == 'm' && d.name[4] == 'y';
    assert low[..5] == "dummy";
    ContainsAt(low, "dummy", 0);
  }
}
