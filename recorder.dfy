/** The speech-to-text recorder command: one action that starts a capture
    process writing `~/Downloads/recording-<timestamp>.wav`, and, while it
    records, stops it with SIGINT. The process is an opaque handle; what the
    command does to the outside world is kept as a log of effects. */
module Recorder {
  import opened Wrappers
  import opened Paths

  // ---------------------------------------------------------------------------
  // Decimal rendering of the timestamp in the file name

  function DigitChar(d: nat): char
    requires d < 10
  {
    ('0' as int + d) as char
  }

  function DigitValue(c: char): int
  {
    c as int - '0' as int
  }

  predicate IsDigit(c: char)
  {
    '0' <= c <= '9'
  }

  /** The decimal digits of `n`, as JavaScript prints a non-negative integer. */
  function NatToDecimal(n: nat): (s: string)
    ensures s != [] && forall i :: 0 <= i < |s| ==> IsDigit(s[i])
  {
    if n < 10 then [DigitChar(n)] else NatToDecimal(n / 10) + [DigitChar(n % 10)]
  }

  /** An integer as JavaScript's template literal prints it (a leading '-'
      for negative values). */
  function IntToDecimal(n: int): (s: string)
    ensures s != [] && forall i :: 0 <= i < |s| ==> IsDigit(s[i]) || s[i] == '-'
  {
    if n < 0 then "-" + NatToDecimal(-n) else NatToDecimal(n)
  }

  /** Reads a run of decimal digits back. */
  function ParseNat(s: string): int
  {
    if s == [] then 0 else ParseNat(s[..|s| - 1]) * 10 + DigitValue(s[|s| - 1])
  }

  /** Reads an optionally negative decimal integer back. */
  function ParseInt(s: string): int
  {
    if s != [] && s[0] == '-' then -ParseNat(s[1..]) else ParseNat(s)
  }

  lemma {:induction false} NatDecimalRoundTrip(n: nat)
    ensures ParseNat(NatToDecimal(n)) == n
  {
    if n >= 10 {
      NatDecimalRoundTrip(n / 10);
      var s := NatToDecimal(n);
      assert s[..|s| - 1] == NatToDecimal(n / 10);
    }
  }

  /** The printed timestamp reads back as the timestamp. */
  lemma IntDecimalRoundTrip(n: int)
    ensures ParseInt(IntToDecimal(n)) == n
  {
    if n < 0 {
      NatDecimalRoundTrip(-n);
      assert IntToDecimal(n)[1..] == NatToDecimal(-n);
    } else {
      NatDecimalRoundTrip(n);
      assert IsDigit(NatToDecimal(n)[0]);
    }
  }

  // ---------------------------------------------------------------------------
  // The capture command

  const SoxPath := "/opt/homebrew/bin/sox"
  const Interrupt := "SIGINT"

  function RecordingFileName(timestamp: int): string
  {
    "recording-" + IntToDecimal(timestamp) + ".wav"
  }

  /** Where a recording started at `timestamp` (milliseconds) is written. */
  function OutputPath(home: string, timestamp: int): string
  {
    Join(Join(home, "Downloads"), RecordingFileName(timestamp))
  }

  /** Default input device, 16 kHz, mono, 16-bit, into `outputPath`. */
  function CaptureArgs(outputPath: string): seq<string>
  {
    ["-d", "-r", "16000", "-c", "1", "-b", "16", outputPath]
  }

  /** The output file lies in the Downloads folder of the home directory. */
  lemma OutputPathInDownloads(home: string, timestamp: int)
    ensures Dirname(OutputPath(home, timestamp)) == Join(home, "Downloads")
  {
    var name := RecordingFileName(timestamp);
    var digits := IntToDecimal(timestamp);
    forall i | 0 <= i < |name|
      ensures name[i] != '/'
    {
      if 10 <= i < 10 + |digits| {
        assert name[i] == digits[i - 10];
      }
    }
    DirnameOfJoin(Join(home, "Downloads"), name);
  }

  /** Recordings started at different times get different files. */
  lemma OutputPathInjective(home: string, t1: int, t2: int)
    ensures OutputPath(home, t1) == OutputPath(home, t2) <==> t1 == t2
  {
    if OutputPath(home, t1) == OutputPath(home, t2) {
      var n1, n2 := RecordingFileName(t1), RecordingFileName(t2);
      JoinInjective(Join(home, "Downloads"), n1, n2);
      assert IntToDecimal(t1) == n1[10..|n1| - 4];
      assert IntToDecimal(t2) == n2[10..|n2| - 4];
      IntDecimalRoundTrip(t1);
      IntDecimalRoundTrip(t2);
    }
  }

  /** The capture arguments fix the audio profile and end with the file. */
  lemma CaptureArgsProfile(outputPath: string)
    ensures var args := CaptureArgs(outputPath);
            && |args| == 8 && args[|args| - 1] == outputPath
            && args[..7] == ["-d", "-r", "16000", "-c", "1", "-b", "16"]
  {
  }

  // ---------------------------------------------------------------------------
  // The recorder's state machine

  /** An opaque handle on a spawned process. */
  datatype ProcessHandle = ProcessHandle(pid: nat)

  /** What the command does to the outside world. */
  datatype Effect =
    | Spawn(program: string, args: seq<string>, process: ProcessHandle)
    | Signal(process: ProcessHandle, signal: string)

  /** The command's state: the recording flag, the held process handle (null
      as None), the output path, and the effects so far. */
  datatype RecorderState = RecorderState(
    isRecording: bool,
    process: Option<ProcessHandle>,
    outputFile: string,
    effects: seq<Effect>)

  function Initial(): RecorderState
  {
    RecorderState(false, None, "", [])
  }

  /** First half of start: the output path is computed and stored, then the
      handler awaits a toast. The flag is still clear during that wait. */
  function BeginStart(s: RecorderState, home: string, timestamp: int): RecorderState
  {
    s.(outputFile := OutputPath(home, timestamp))
  }

  /** Second half of start: the capture of `path`, the path this press
      computed, is spawned; only when the spawn returns a handle is it held
      and the flag set. `spawned` is None when the spawn throws. */
  function CompleteStart(s: RecorderState, path: string, spawned: Option<ProcessHandle>): RecorderState
  {
    match spawned
    case None => s
    case Some(h) => s.(isRecording := true, process := Some(h), effects := s.effects + [Spawn(SoxPath, CaptureArgs(path), h)])
  }

  /** Start, when nothing runs between its two halves. */
  function Started(s: RecorderState, home: string, timestamp: int, spawned: Option<ProcessHandle>): RecorderState
  {
    CompleteStart(BeginStart(s, home, timestamp), OutputPath(home, timestamp), spawned)
  }

  /** Stop: a held process is sent SIGINT and released; the flag is cleared. */
  function Stopped(s: RecorderState): RecorderState
  {
    var signals := if s.process.Some? then [Signal(s.process.value, Interrupt)] else [];
    s.(isRecording := false, process := None, effects := s.effects + signals)
  }

  /** The form's one action: start when idle, stop while recording. */
  function Toggle(s: RecorderState, home: string, timestamp: int, spawned: Option<ProcessHandle>): RecorderState
  {
    if !s.isRecording then Started(s, home, timestamp, spawned) else Stopped(s)
  }

  /** The handles of the processes spawned, in order. */
  function Spawned(effects: seq<Effect>): seq<ProcessHandle>
  {
    if effects == [] then []
    else Spawned(effects[..|effects| - 1]) +
         (if effects[|effects| - 1].Spawn? then [effects[|effects| - 1].process] else [])
  }

  /** The handles that were sent SIGINT, in order. */
  function Interrupted(effects: seq<Effect>): seq<ProcessHandle>
  {
    if effects == [] then []
    else Interrupted(effects[..|effects| - 1]) +
         (if effects[|effects| - 1].Signal? && effects[|effects| - 1].signal == Interrupt
          then [effects[|effects| - 1].process] else [])
  }

  /** The flag is set exactly when a handle is held. */
  predicate Consistent(s: RecorderState)
  {
    s.isRecording <==> s.process.Some?
  }

  /** Every spawned capture is either the one held or has been interrupted. */
  predicate Accounted(s: RecorderState)
  {
    forall h :: h in Spawned(s.effects) ==> s.process == Some(h) || h in Interrupted(s.effects)
  }

  lemma AppendEffect(effects: seq<Effect>, e: Effect)
    ensures Spawned(effects + [e]) == Spawned(effects) + (if e.Spawn? then [e.process] else [])
    ensures Interrupted(effects + [e]) ==
            Interrupted(effects) + (if e.Signal? && e.signal == Interrupt then [e.process] else [])
  {
    assert (effects + [e])[..|effects|] == effects;
  }

  /** A successful start holds the new handle, sets the flag and spawns
      exactly one capture, of the output file in Downloads; a failed start
      changes only the output path. */
  lemma StartEffect(s: RecorderState, home: string, timestamp: int, spawned: Option<ProcessHandle>)
    ensures var t := Started(s, home, timestamp, spawned);
            && t.outputFile == OutputPath(home, timestamp)
            && Dirname(t.outputFile) == Join(home, "Downloads")
            && (spawned.Some? ==>
                  && t.isRecording && t.process == spawned
                  && t.effects == s.effects + [Spawn(SoxPath, CaptureArgs(t.outputFile), spawned.value)]
                  && Spawned(t.effects) == Spawned(s.effects) + [spawned.value]
                  && Interrupted(t.effects) == Interrupted(s.effects))
            && (spawned.None? ==> t == s.(outputFile := OutputPath(home, timestamp)))
  {
    OutputPathInDownloads(home, timestamp);
    if spawned.Some? {
      AppendEffect(s.effects, Spawn(SoxPath, CaptureArgs(OutputPath(home, timestamp)), spawned.value));
    }
  }

  /** Stop interrupts the held process, and only it, releases it and clears
      the flag; it spawns nothing and keeps the output path to report. */
  lemma StopEffect(s: RecorderState)
    ensures var t := Stopped(s);
            && !t.isRecording && t.process.None? && t.outputFile == s.outputFile
            && t.effects == s.effects + (if s.process.Some? then [Signal(s.process.value, Interrupt)] else [])
            && Spawned(t.effects) == Spawned(s.effects)
            && Interrupted(t.effects) == Interrupted(s.effects) + (if s.process.Some? then [s.process.value] else [])
  {
    if s.process.Some? {
      AppendEffect(s.effects, Signal(s.process.value, Interrupt));
    } else {
      assert Stopped(s).effects == s.effects;
    }
  }

  /** Stopping twice is stopping once: the second stop finds no handle,
      sends nothing and changes nothing. */
  lemma StopIdempotent(s: RecorderState)
    ensures Stopped(Stopped(s)) == Stopped(s)
  {
    assert Stopped(s).effects + [] == Stopped(s).effects;
  }

  /** Starting and stopping keep the flag and the handle in step. */
  lemma TransitionsKeepConsistent(s: RecorderState, home: string, timestamp: int, spawned: Option<ProcessHandle>)
    requires Consistent(s)
    ensures Consistent(Started(s, home, timestamp, spawned))
    ensures Consistent(Stopped(s))
  {
  }

  /** Driven through its one action, one press at a time (each start
      completes before the next press), the command never loses a capture
      process: each one spawned is held until it is interrupted. */
  lemma {:induction false} ToggleKeepsCapturesAccounted(s: RecorderState, home: string, timestamp: int, spawned: Option<ProcessHandle>)
    requires Consistent(s) && Accounted(s)
    ensures Consistent(Toggle(s, home, timestamp, spawned)) && Accounted(Toggle(s, home, timestamp, spawned))
  {
    if s.isRecording {
      StopEffect(s);
    } else {
      StartEffect(s, home, timestamp, spawned);
    }
  }

  /** Starting while a capture is held replaces its handle, so that capture
      is never interrupted by a later stop. */
  lemma StartWhileRecordingLosesHandle(s: RecorderState, home: string, timestamp: int, h: ProcessHandle)
    requires s.process.Some? && s.process.value !in Interrupted(s.effects) && h != s.process.value
    ensures var t := Stopped(Started(s, home, timestamp, Some(h)));
            s.process.value in Spawned(s.effects) ==> !Accounted(t)
  {
    var old_h := s.process.value;
    var t1 := Started(s, home, timestamp, Some(h));
    StartEffect(s, home, timestamp, Some(h));
    StopEffect(t1);
    var t := Stopped(t1);
    if old_h in Spawned(s.effects) {
      assert old_h in Spawned(t.effects);
      assert Interrupted(t.effects) == Interrupted(s.effects) + [h];
      assert old_h !in Interrupted(t.effects);
    }
  }

  /** Two presses of start that overlap: the second press comes while the
      first awaits its toast, when the flag is still clear and the form still
      offers start. Both captures are spawned, the second handle overwrites
      the first, and the stop that follows interrupts only the second; the
      first capture is never stopped, and the path reported is the second's. */
  lemma OverlappingStartsLoseCapture(home: string, t1: int, t2: int, h1: ProcessHandle, h2: ProcessHandle)
    requires h1 != h2
    ensures var first := BeginStart(Initial(), home, t1);
            var second := BeginStart(first, home, t2);
            var t := Stopped(CompleteStart(CompleteStart(second, OutputPath(home, t1), Some(h1)),
                                           OutputPath(home, t2), Some(h2)));
            && !Initial().isRecording && !first.isRecording
            && Spawned(t.effects) == [h1, h2] && Interrupted(t.effects) == [h2]
            && t.outputFile == OutputPath(home, t2)
            && !Accounted(t)
  {
    var first := BeginStart(Initial(), home, t1);
    var second := BeginStart(first, home, t2);
    var c1 := CompleteStart(second, OutputPath(home, t1), Some(h1));
    var c2 := CompleteStart(c1, OutputPath(home, t2), Some(h2));
    AppendEffect([], Spawn(SoxPath, CaptureArgs(OutputPath(home, t1)), h1));
    AppendEffect(c1.effects, Spawn(SoxPath, CaptureArgs(OutputPath(home, t2)), h2));
    AppendEffect(c2.effects, Signal(h2, Interrupt));
    var t := Stopped(c2);
    assert h1 in Spawned(t.effects) && h1 !in Interrupted(t.effects);
  }

  /** A whole session from a fresh command: one capture of the file named
      after the start time, one SIGINT to that capture, and the path it
      reports is that file. */
  lemma RecordingSession(home: string, timestamp: int, h: ProcessHandle)
    ensures var t := Stopped(Started(Initial(), home, timestamp, Some(h)));
            && !t.isRecording && t.process.None?
            && t.outputFile == OutputPath(home, timestamp)
            && t.effects == [Spawn(SoxPath, CaptureArgs(OutputPath(home, timestamp)), h), Signal(h, Interrupt)]
  {
  }

  // ---------------------------------------------------------------------------
  // The command, with its state held in mutable references

  class RecorderCommand {
    var isRecording: bool
    var process: Option<ProcessHandle>
    var outputFile: string
    var effects: seq<Effect>

    function State(): RecorderState
      reads this
    {
      RecorderState(isRecording, process, outputFile, effects)
    }

    ghost predicate Valid()
      reads this
    {
      Consistent(State()) && Accounted(State())
    }

    constructor ()
      ensures State() == Initial() && Valid()
    {
      isRecording := false;
      process := None;
      outputFile := "";
      effects := [];
    }

    /** Starts a capture; `spawned` is the handle the spawn returns, or None
        when the spawn throws. Both halves run here without a break. */
    method StartRecording(home: string, timestamp: int, spawned: Option<ProcessHandle>)
      modifies this
      ensures State() == Started(old(State()), home, timestamp, spawned)
    {
      var outputPath := OutputPath(home, timestamp);
      outputFile := outputPath;
      if spawned.None? {
        return;
      }
      process := spawned;
      effects := effects + [Spawn(SoxPath, CaptureArgs(outputPath), spawned.value)];
      isRecording := true;
    }

    /** Stops the capture, if one is held, and reports the output path. */
    method StopRecording() returns (reported: string)
      modifies this
      ensures State() == Stopped(old(State()))
      ensures reported == old(outputFile)
    {
      if process.Some? {
        effects := effects + [Signal(process.value, Interrupt)];
        process := None;
      }
      isRecording := false;
      reported := outputFile;
    }

    /** The form's primary action, for a press made after the previous one
        has completed. */
    method PrimaryAction(home: string, timestamp: int, spawned: Option<ProcessHandle>)
      requires Valid()
      modifies this
      ensures Valid()
      ensures State() == Toggle(old(State()), home, timestamp, spawned)
    {
      ToggleKeepsCapturesAccounted(State(), home, timestamp, spawned);
      if !isRecording {
        StartRecording(home, timestamp, spawned);
      } else {
        var _ := StopRecording();
      }
    }
  }
}
