// The MATLAB gateway (src/handler.ts): identifier validation, script
// persistence into the temp directory, the shell commands it issues, and the
// way each subprocess outcome becomes an `{output, error}` record.
//
// The temp directory is a map from file name to content; the shell is
// represented by the commands handed to it (`issued`) and by the outcome each
// run produces, which the caller supplies.

module Handler {
  import opened Wrappers
  import opened Text

  /** The resolved MatlabConfig. `separator` is the platform's path separator used by `path.join`. */
  datatype Config = Config(executablePath: string, tempDir: string, pauseTime: int, separator: char)

  /** What a subprocess run produced: it exited normally, or it was rejected with a message. */
  datatype ExecOutcome = Ok(stdout: string, stderr: string) | Failed(message: string)

  /** `{ output: string, error?: string }` */
  datatype ExecResult = ExecResult(output: string, error: Option<string>)

  /** `{ success: boolean, error?: string }` */
  datatype CloseResult = CloseResult(success: bool, error: Option<string>)

  /** `{ code: string, scriptPath?: string }` */
  datatype Generated = Generated(code: string, scriptPath: string)

  const ScriptExtension := ".m"
  const MaxIdentifierLength := 63
  const InvalidNameMessage := "Script name must be a valid MATLAB identifier"
  const WriteFailurePrefix := "Failed to create MATLAB script: "
  const TimeoutMessage := "MATLAB execution timed out"
  const NoOutputPlaceholder := "Execution completed (no output captured)"
  const ExecutableNotFoundPrefix := "MATLAB executable not found: "

  // ---------------------------------------------------------------------
  // Identifier validation: /^[a-zA-Z][a-zA-Z0-9_]{0,62}$/

  predicate IsAsciiLetter(c: char) {
    'a' <= c <= 'z' || 'A' <= c <= 'Z'
  }

  predicate IsWordChar(c: char) {
    IsAsciiLetter(c) || '0' <= c <= '9' || c == '_'
  }

  /** Matches `[a-zA-Z0-9_]{0,budget}$` against the whole of `s`, one character at a time. */
  function MatchWordRun(s: string, budget: nat): (ok: bool)
    ensures ok <==> |s| <= budget && forall i :: 0 <= i < |s| ==> IsWordChar(s[i])
  {
    if s == [] then true else budget > 0 && IsWordChar(s[0]) && MatchWordRun(s[1..], budget - 1)
  }

  /** The regular expression, run as an anchored scan: a letter, then at most 62 word characters. */
  function IsValidMatlabIdentifier(name: string): (ok: bool)
    ensures ok <==>
      && 1 <= |name| <= MaxIdentifierLength
      && IsAsciiLetter(name[0])
      && forall i :: 1 <= i < |name| ==> IsWordChar(name[i])
  {
    |name| >= 1 && IsAsciiLetter(name[0]) && MatchWordRun(name[1..], MaxIdentifierLength - 1)
  }

  /** The literal cases: "plot1" passes; "1plot", "a-b", "_x", "" and a 64-letter name do not. */
  lemma IdentifierExamples()
    ensures IsValidMatlabIdentifier("plot1")
    ensures !IsValidMatlabIdentifier("1plot")
    ensures !IsValidMatlabIdentifier("a-b")
    ensures !IsValidMatlabIdentifier("_x")
    ensures !IsValidMatlabIdentifier("")
    ensures forall s: string :: |s| == 64 ==> !IsValidMatlabIdentifier(s)
  {
    assert "a-b"[1] == '-';
  }

  /** A valid identifier names a script file: it cannot contain a dot, a separator or a line break. */
  lemma IdentifierCharacters(name: string)
    requires IsValidMatlabIdentifier(name)
    ensures MatchesDotPlus(name)
    ensures '.' !in name && '/' !in name && '\\' !in name
  {
  }

  // ---------------------------------------------------------------------
  // Paths

  /** `${name}.m` */
  function ScriptFile(name: string): (f: string)
    ensures EndsWith(f, ScriptExtension) && f[..|f| - 2] == name
  {
    name + ScriptExtension
  }

  /** `path.join(tempDir, file)`, without normalisation. */
  function TempPath(config: Config, file: string): string {
    config.tempDir + [config.separator] + file
  }

  function ScriptPath(config: Config, name: string): string {
    TempPath(config, ScriptFile(name))
  }

  /** `temp_script_${Date.now()}.m`, the scratch file of an inline run. */
  function TempScriptFile(stamp: nat): (f: string)
    ensures EndsWith(f, ScriptExtension)
  {
    "temp_script_" + NatToString(stamp) + ScriptExtension
  }

  /** Two inline runs share a scratch file only when their clock readings coincide. */
  lemma TempScriptFileInjective(m: nat, n: nat)
    ensures TempScriptFile(m) == TempScriptFile(n) <==> m == n
  {
    if TempScriptFile(m) == TempScriptFile(n) {
      var a, b := NatToString(m), NatToString(n);
      assert |a| == |b|;
      assert a == TempScriptFile(m)[12..12 + |a|];
      assert b == TempScriptFile(n)[12..12 + |b|];
      NatToStringInjective(m, n);
    }
  }

  // ---------------------------------------------------------------------
  // Shell commands

  /** The executable path in double quotes, as every command starts. */
  function Quoted(exe: string): string {
    "\"" + exe + "\""
  }

  /** `"<exe>" -nosplash  -batch "<statement>"` */
  function Batch(exe: string, statement: string): (cmd: string)
    ensures StartsWith(cmd, Quoted(exe) + " -nosplash  -batch \"")
    ensures EndsWith(cmd, statement + "\"")
  {
    var head := Quoted(exe) + " -nosplash  -batch \"";
    assert (head + statement + "\"")[..|head|] == head;
    assert (head + statement + "\"")[|head|..] == statement + "\"";
    head + statement + "\""
  }

  /** `run('<path with / separators>');` */
  function RunStatement(path: string): (s: string)
    ensures '\\' !in s
    ensures |s| == |path| + 8 && s[5..5 + |path|] == Slashed(path)
  {
    "run('" + Slashed(path) + "');"
  }

  /** The command of executeCode: run the scratch file in batch mode. */
  function CodeCommand(config: Config, path: string): (cmd: string)
    ensures StartsWith(cmd, Quoted(config.executablePath) + " -nosplash  -batch \"")
    ensures EndsWith(cmd, "run('" + Slashed(path) + "');\"")
  {
    Batch(config.executablePath, RunStatement(path))
  }

  /** ` pause(<seconds>); exit;`, what executeScript appends after the run statement. */
  function PauseAndExit(pauseTime: int): string {
    " pause(" + IntToString(pauseTime) + "); exit;"
  }

  /** The command of executeScript: run the script, then pause and exit. */
  function ScriptCommand(config: Config, path: string): (cmd: string)
    ensures StartsWith(cmd, Quoted(config.executablePath) + " -nosplash  -batch \"")
    ensures EndsWith(cmd, "run('" + Slashed(path) + "'); pause(" + IntToString(config.pauseTime) + "); exit;\"")
  {
    var statement := RunStatement(path) + PauseAndExit(config.pauseTime);
    assert statement + "\"" == "run('" + Slashed(path) + "'); pause(" + IntToString(config.pauseTime) + "); exit;\"";
    Batch(config.executablePath, statement)
  }

  /** `"<exe>" -nosplash -nodesktop -r "<statement>"`, the interactive form of a command. */
  function Interactive(exe: string, statement: string): (cmd: string)
    ensures StartsWith(cmd, Quoted(exe) + " -nosplash -nodesktop -r \"")
    ensures EndsWith(cmd, statement + "\"")
  {
    var head := Quoted(exe) + " -nosplash -nodesktop -r \"";
    assert (head + statement + "\"")[..|head|] == head;
    assert (head + statement + "\"")[|head|..] == statement + "\"";
    head + statement + "\""
  }

  /** The availability probe: display a line and exit. */
  function ProbeCommand(config: Config): (cmd: string)
    ensures StartsWith(cmd, Quoted(config.executablePath) + " -nosplash -nodesktop -r \"")
    ensures EndsWith(cmd, "disp('MATLAB is available'); exit;\"")
  {
    Interactive(config.executablePath, "disp('MATLAB is available'); exit;")
  }

  /** The command of closeMatlabWindows: force every instance to quit. */
  function QuitCommand(config: Config): (cmd: string)
    ensures StartsWith(cmd, Quoted(config.executablePath) + " -nosplash -nodesktop -r \"")
    ensures EndsWith(cmd, "quit force; exit;\"")
  {
    Interactive(config.executablePath, "quit force; exit;")
  }

  /** A run command is never the availability probe: they part at the flag after `-nosplash`. */
  lemma ScriptCommandIsNotProbe(config: Config, path: string)
    ensures ScriptCommand(config, path) != ProbeCommand(config)
  {
    var q := |Quoted(config.executablePath)|;
    var batch := Quoted(config.executablePath) + " -nosplash  -batch \"";
    var interactive := Quoted(config.executablePath) + " -nosplash -nodesktop -r \"";
    assert ScriptCommand(config, path)[q + 11] == batch[q + 11] == ' ';
    assert ProbeCommand(config)[q + 11] == interactive[q + 11] == '-';
  }

  /** Under one configuration, two batch commands are equal exactly when their statements are. */
  lemma BatchInjective(exe: string, s1: string, s2: string)
    ensures Batch(exe, s1) == Batch(exe, s2) <==> s1 == s2
  {
    var head := Quoted(exe) + " -nosplash  -batch \"";
    assert Batch(exe, s1) == head + s1 + "\"";
    assert Batch(exe, s2) == head + s2 + "\"";
    if Batch(exe, s1) == Batch(exe, s2) {
      assert s1 == Batch(exe, s1)[|head|..|head| + |s1|];
    }
  }

  /** The run statement determines the rewritten path and nothing else. */
  lemma RunStatementInjective(p1: string, p2: string)
    ensures RunStatement(p1) == RunStatement(p2) <==> Slashed(p1) == Slashed(p2)
  {
    if RunStatement(p1) == RunStatement(p2) {
      assert Slashed(p1) == RunStatement(p1)[5..5 + |p1|];
    }
  }

  lemma AppendCancel(a: string, b: string, t: string)
    ensures a + t == b + t <==> a == b
  {
    if a + t == b + t {
      assert a == (a + t)[..|a|];
    }
  }

  /**
   * The two run commands tell scripts apart by their paths up to the
   * separator rewrite.
   */
  lemma CommandsIdentifyPath(config: Config, p1: string, p2: string)
    ensures CodeCommand(config, p1) == CodeCommand(config, p2) <==> Slashed(p1) == Slashed(p2)
    ensures ScriptCommand(config, p1) == ScriptCommand(config, p2) <==> Slashed(p1) == Slashed(p2)
  {
    var tail := PauseAndExit(config.pauseTime);
    RunStatementInjective(p1, p2);
    BatchInjective(config.executablePath, RunStatement(p1), RunStatement(p2));
    BatchInjective(config.executablePath, RunStatement(p1) + tail, RunStatement(p2) + tail);
    AppendCancel(RunStatement(p1), RunStatement(p2), tail);
  }

  /**
   * Both run commands carry the run statement for the rewritten path, and the
   * named-run command is the inline command with the pause and the exit
   * inserted after that statement, before the closing quote.
   */
  lemma CommandShapes(config: Config, path: string)
    ensures Contains(CodeCommand(config, path), RunStatement(path))
    ensures Contains(ScriptCommand(config, path), RunStatement(path) + PauseAndExit(config.pauseTime))
    ensures var code := CodeCommand(config, path);
            ScriptCommand(config, path) == code[..|code| - 1] + PauseAndExit(config.pauseTime) + "\""
  {
    var head := Quoted(config.executablePath) + " -nosplash  -batch \"";
    var run, tail := RunStatement(path), PauseAndExit(config.pauseTime);
    BatchForm(config.executablePath, run);
    BatchForm(config.executablePath, run + tail);
    ContainsInfix(head, run, "\"");
    ContainsInfix(head, run + tail, "\"");
    InsertBeforeLast(head, run, tail, '"');
  }

  lemma BatchForm(exe: string, statement: string)
    ensures Batch(exe, statement) == Quoted(exe) + " -nosplash  -batch \"" + statement + "\""
  {
  }

  lemma InsertBeforeLast(h: string, r: string, t: string, c: char)
    ensures var w := h + r + [c]; h + (r + t) + [c] == w[..|w| - 1] + t + [c]
  {
    var w := h + r + [c];
    assert w[..|w| - 1] == h + r;
  }

  // ---------------------------------------------------------------------
  // Outcome classification

  /**
   * executeCode's result: the timer winning the race or a rejected run gives
   * no output and the failure message; a completed run gives its standard
   * output (or a placeholder when there was none) and its standard error when
   * there was some.
   */
  function CodeResult(outcome: ExecOutcome, timedOut: bool): (r: ExecResult)
    ensures r.output == "" <==> timedOut || outcome.Failed?
    ensures r.error == None <==> !timedOut && outcome.Ok? && outcome.stderr == ""
    ensures timedOut ==> r.error == Some(TimeoutMessage)
    ensures !timedOut && outcome.Failed? ==> r.error == Some(outcome.message)
    ensures !timedOut && outcome.Ok? ==> r.output == (if outcome.stdout == "" then NoOutputPlaceholder else outcome.stdout)
    ensures !timedOut && outcome.Ok? && outcome.stderr != "" ==> r.error == Some(outcome.stderr)
  {
    if timedOut then ExecResult("", Some(TimeoutMessage))
    else match outcome
      case Ok(out, err) =>
        ExecResult(if out == "" then NoOutputPlaceholder else out, if err == "" then None else Some(err))
      case Failed(msg) => ExecResult("", Some(msg))
  }

  /** executeScript's result: like CodeResult but with no timer and no placeholder. */
  function ScriptResult(outcome: ExecOutcome): (r: ExecResult)
    ensures outcome.Failed? ==> r == ExecResult("", Some(outcome.message))
    ensures outcome.Ok? ==> r.output == outcome.stdout
    ensures outcome.Ok? ==> (r.error == None <==> outcome.stderr == "")
    ensures outcome.Ok? && outcome.stderr != "" ==> r.error == Some(outcome.stderr)
  {
    match outcome
    case Ok(out, err) => ExecResult(out, if err == "" then None else Some(err))
    case Failed(msg) => ExecResult("", Some(msg))
  }

  /** The failure message says, in any letter case, that the executable is missing. */
  predicate MentionsMissingExecutable(message: string) {
    Contains(Lower(message), "not found") || Contains(Lower(message), "not recognized")
  }

  /**
   * closeMatlabWindows: only a failure whose message mentions a missing
   * executable is reported; every other failure counts as success.
   */
  function ClassifyClose(outcome: ExecOutcome): (r: CloseResult)
    ensures !r.success <==> outcome.Failed? && MentionsMissingExecutable(outcome.message)
    ensures r.success <==> r.error == None
    ensures !r.success ==> r.error == Some(ExecutableNotFoundPrefix + outcome.message)
  {
    match outcome
    case Ok(_, _) => CloseResult(true, None)
    case Failed(msg) =>
      if MentionsMissingExecutable(msg) then CloseResult(false, Some(ExecutableNotFoundPrefix + msg))
      else CloseResult(true, None)
  }

  /** The classification ignores letter case: "NOT FOUND" is reported like "not found". */
  lemma {:induction false} ClassifyCloseIgnoresCase(message: string, other: string)
    requires Lower(message) == Lower(other)
    ensures ClassifyClose(Failed(message)).success == ClassifyClose(Failed(other)).success
  {
  }

  /** Whatever surrounds it, a message containing "not found" in any case is a real failure. */
  lemma {:induction false} MissingExecutableIsFailure(before: string, word: string, after: string)
    requires Lower(word) == "not found" || Lower(word) == "not recognized"
    ensures !ClassifyClose(Failed(before + word + after)).success
  {
    ContainsInfix(before, word, after);
    LowerPreservesContains(before + word + after, word);
  }

  // ---------------------------------------------------------------------
  // The operations as functions of the directory

  /** What generateCode returns and the directory it leaves. */
  datatype GenerateStep = GenerateStep(result: Result<Generated>, files: map<string, string>)

  /**
   * generateCode: an invalid name or a failed write leaves the directory as
   * it was; a successful write puts `code` under `<name>.m`, replacing any
   * earlier content, and touches no other entry.
   */
  function GenerateSpec(config: Config, files: map<string, string>, name: string, code: string, fault: Option<string>): (s: GenerateStep)
    ensures !IsValidMatlabIdentifier(name) ==> s.result == Failure(InvalidNameMessage)
    ensures IsValidMatlabIdentifier(name) && fault.Some? ==> s.result == Failure(WriteFailurePrefix + fault.value)
    ensures s.result.Success? <==> IsValidMatlabIdentifier(name) && fault.None?
    ensures s.result.Failure? ==> s.files == files
    ensures s.result.Success? ==> s.result.value == Generated(code, ScriptPath(config, name))
    ensures s.result.Success? ==>
      && s.files.Keys == files.Keys + {ScriptFile(name)}
      && s.files[ScriptFile(name)] == code
      && forall f :: f in files && f != ScriptFile(name) ==> s.files[f] == files[f]
  {
    if !IsValidMatlabIdentifier(name) then GenerateStep(Failure(InvalidNameMessage), files)
    else if fault.Some? then GenerateStep(Failure(WriteFailurePrefix + fault.value), files)
    else GenerateStep(Success(Generated(code, ScriptPath(config, name))), files[ScriptFile(name) := code])
  }

  /** Generating the same name twice keeps only the second text, never a concatenation. */
  lemma GenerateOverwrites(config: Config, files: map<string, string>, name: string, c1: string, c2: string)
    requires IsValidMatlabIdentifier(name)
    ensures var once := GenerateSpec(config, files, name, c1, None).files;
            var twice := GenerateSpec(config, once, name, c2, None).files;
            twice == GenerateSpec(config, files, name, c2, None).files && twice[ScriptFile(name)] == c2
  {
  }

  /** What an inline run returns, the directory it leaves and the command it issues, if any. */
  datatype InlineStep = InlineStep(result: ExecResult, files: map<string, string>, command: Option<string>)

  /**
   * executeCode: a failed write of the scratch file is reported as an error
   * and runs nothing; otherwise the scratch file holds the code, the batch
   * command runs it, and the outcome is classified by CodeResult. It never
   * fails: every path yields a result, and the output is empty exactly when
   * something went wrong.
   */
  function InlineRunSpec(config: Config, files: map<string, string>, code: string, stamp: nat,
                         fault: Option<string>, outcome: ExecOutcome, timedOut: bool): (s: InlineStep)
    ensures fault.Some? ==> s == InlineStep(ExecResult("", Some(fault.value)), files, None)
    ensures fault.None? ==>
      && s.files == files[TempScriptFile(stamp) := code]
      && s.command == Some(CodeCommand(config, TempPath(config, TempScriptFile(stamp))))
      && s.result == CodeResult(outcome, timedOut)
    ensures s.result.output == "" <==> fault.Some? || timedOut || outcome.Failed?
    ensures s.result.output == "" ==> s.result.error.Some?
  {
    if fault.Some? then InlineStep(ExecResult("", Some(fault.value)), files, None)
    else
      var file := TempScriptFile(stamp);
      InlineStep(CodeResult(outcome, timedOut), files[file := code], Some(CodeCommand(config, TempPath(config, file))))
  }

  /** What a named-script run returns and the command it issues, if any. */
  datatype ScriptStep = ScriptStep(result: ExecResult, command: Option<string>)

  /** executeScript's message when `<name>.m` is absent. */
  function NotFoundMessage(config: Config, name: string): (m: string)
    ensures Contains(m, "not found")
  {
    var front := "Script " + ScriptFile(name) + " ";
    var back := " in " + config.tempDir;
    ContainsInfix(front, "not found", back);
    front + "not found" + back
  }

  /**
   * executeScript: a missing script file is reported as an error and runs
   * nothing; a present one is run with the pause-and-exit command and its
   * outcome classified by ScriptResult.
   */
  function ScriptRunSpec(config: Config, files: map<string, string>, name: string, outcome: ExecOutcome): (s: ScriptStep)
    ensures s.command.None? <==> ScriptFile(name) !in files
    ensures s.command.None? ==> s.result == ExecResult("", Some(NotFoundMessage(config, name)))
    ensures s.command.Some? ==>
      && s.command.value == ScriptCommand(config, ScriptPath(config, name))
      && s.result == ScriptResult(outcome)
  {
    if ScriptFile(name) !in files then ScriptStep(ExecResult("", Some(NotFoundMessage(config, name))), None)
    else ScriptStep(ScriptResult(outcome), Some(ScriptCommand(config, ScriptPath(config, name))))
  }

  /** A script saved by generateCode can then be run by name. */
  lemma GeneratedScriptRuns(config: Config, files: map<string, string>, name: string, code: string, outcome: ExecOutcome)
    requires GenerateSpec(config, files, name, code, None).result.Success?
    ensures ScriptRunSpec(config, GenerateSpec(config, files, name, code, None).files, name, outcome)
            == ScriptStep(ScriptResult(outcome), Some(ScriptCommand(config, ScriptPath(config, name))))
  {
  }

  // ---------------------------------------------------------------------
  // The handler object

  class MatlabHandler {
    const config: Config
    /** The temp directory: file name to content. */
    var files: map<string, string>
    /** The commands handed to the shell so far, oldest first. */
    var issued: seq<string>

    /** A handler over a temp directory that already exists and may hold earlier scripts. */
    constructor (config: Config, existing: map<string, string>)
      ensures this.config == config && files == existing && issued == []
    {
      this.config := config;
      files := existing;
      issued := [];
    }

    method GetTempDir() returns (dir: string)
      ensures dir == config.tempDir
    {
      dir := config.tempDir;
    }

    method GenerateCode(scriptName: string, code: string, fault: Option<string>) returns (r: Result<Generated>)
      modifies this`files
      ensures GenerateStep(r, files) == GenerateSpec(config, old(files), scriptName, code, fault)
    {
      if !IsValidMatlabIdentifier(scriptName) {
        return Failure(InvalidNameMessage);
      }
      var scriptPath := ScriptPath(config, scriptName);
      if fault.Some? {
        return Failure(WriteFailurePrefix + fault.value);
      }
      files := files[ScriptFile(scriptName) := code];
      r := Success(Generated(code, scriptPath));
    }

    method ExecuteCode(code: string, stamp: nat, fault: Option<string>, outcome: ExecOutcome, timedOut: bool)
      returns (r: ExecResult)
      modifies this`files, this`issued
      ensures var s := InlineRunSpec(config, old(files), code, stamp, fault, outcome, timedOut);
              r == s.result && files == s.files && issued == old(issued) + Log(s.command)
    {
      var scriptPath := TempPath(config, TempScriptFile(stamp));
      if fault.Some? {
        return ExecResult("", Some(fault.value));
      }
      files := files[TempScriptFile(stamp) := code];
      var command := CodeCommand(config, scriptPath);
      issued := issued + [command];
      if timedOut {
        return ExecResult("", Some(TimeoutMessage));
      }
      match outcome {
        case Ok(stdout, stderr) =>
          r := ExecResult(if stdout == "" then NoOutputPlaceholder else stdout, if stderr == "" then None else Some(stderr));
        case Failed(message) =>
          r := ExecResult("", Some(message));
      }
    }

    method ExecuteScript(scriptName: string, outcome: ExecOutcome) returns (r: ExecResult)
      modifies this`issued
      ensures var s := ScriptRunSpec(config, files, scriptName, outcome);
              r == s.result && issued == old(issued) + Log(s.command)
    {
      var scriptPath := ScriptPath(config, scriptName);
      if ScriptFile(scriptName) !in files {
        return ExecResult("", Some(NotFoundMessage(config, scriptName)));
      }
      var command := ScriptCommand(config, scriptPath);
      issued := issued + [command];
      match outcome {
        case Ok(stdout, stderr) =>
          r := ExecResult(stdout, if stderr == "" then None else Some(stderr));
        case Failed(message) =>
          r := ExecResult("", Some(message));
      }
    }

    method CheckMatlabAvailability(outcome: ExecOutcome) returns (available: bool)
      modifies this`issued
      ensures available <==> outcome.Ok?
      ensures issued == old(issued) + [ProbeCommand(config)]
    {
      issued := issued + [ProbeCommand(config)];
      available := outcome.Ok?;
    }

    method CloseMatlabWindows(outcome: ExecOutcome) returns (r: CloseResult)
      modifies this`issued
      ensures r == ClassifyClose(outcome)
      ensures issued == old(issued) + [QuitCommand(config)]
    {
      issued := issued + [QuitCommand(config)];
      match outcome {
        case Ok(_, _) =>
          r := CloseResult(true, None);
        case Failed(message) =>
          var lowered := Lower(message);
          if Contains(lowered, "not found") || Contains(lowered, "not recognized") {
            r := CloseResult(false, Some(ExecutableNotFoundPrefix + message));
          } else {
            r := CloseResult(true, None);
          }
      }
    }
  }
}
