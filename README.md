# matlab-mcp in Dafny

A model of the decision logic of the matlab-mcp server: an MCP server that lets
an assistant save MATLAB scripts into a temp directory, run them (or run inline
code) through the MATLAB command line, and read saved scripts back as
`matlab://scripts/<name>` resources.

The model has three modules.

- `Handler` (`handler.dfy`) is the MATLAB gateway, `MatlabHandler`. It covers
  identifier validation, saving a script, and the shell commands for inline
  runs, named runs, the availability probe and the quit command. It also
  classifies each subprocess outcome into `{output, error}` or
  `{success, error}`. The temp directory is a `map<string, string>` from file
  name to content. The class keeps the commands it handed to the shell in
  `issued`, so "runs nothing" can be stated. Each operation is a method on the
  class, proved equal to a function of the old directory (`GenerateSpec`,
  `InlineRunSpec`, `ScriptRunSpec`, `ClassifyClose`). The lemmas are about
  those functions.
- `Server` (`server.dfy`) is the MCP request layer, `MatlabMcpServer`. It
  covers the resource list built from a directory listing, the resolution of a
  resource URI, and tool dispatch. Dispatch includes the argument checks, the
  unknown-tool error, the reply texts with their `isError` flag, and the
  availability flag that is probed while it is unset. One call is specified by
  `CallSpec` and a sequence of calls by `RunSession`, a fold of `CallStep`;
  `CallTool` and `CallTools` are proved against them.
- `Text` and `Wrappers` (`text.dfy`) hold the string operations the two rely
  on: `startsWith`/`endsWith`/`includes`, ASCII lower-casing, the
  backslash-to-slash rewrite, and decimal rendering of numbers. They also hold
  `Option` and `Result`, and `Count`, the number of occurrences of a command
  in a log.

The subprocess is not run. Each run's outcome is a parameter,
`Ok(stdout, stderr)` or `Failed(message)`. The 30-second timer of an inline run
is a boolean saying whether the timer settled first. A failed file write or
file read is an optional message parameter. The directory listing is the
sequence `readdirSync` returned, or `None` when it threw. The clock reading in
the inline scratch file name is a `nat` parameter.

## Model

| member | source | states |
|---|---|---|
| `Text.Slashed` | src/handler.ts:95 | every backslash of the path becomes `/` and every other character is kept, so the result has no backslash and the same length |
| `Text.SlashedFixpoint` | src/handler.ts:135 | the rewrite is idempotent, and it leaves a path unchanged exactly when the path has no backslash |
| `Text.Lower` | src/handler.ts:204-205 | lower-casing maps each character separately and keeps the length |
| `Text.LowerIsLower` | src/handler.ts:204-205 | a lower-cased message has no upper-case ASCII letter, and lower-casing twice changes nothing more |
| `Text.LowerPreservesContains` | src/handler.ts:204-205 | if a message contains a word, its lower-cased form contains the lower-cased word |
| `Text.Contains` | src/handler.ts:204-205 | `includes` holds when the text starts with the word, and only when the word is no longer than the text |
| `Text.ContainsInfix` | src/handler.ts:204-205 | `includes` finds a word whatever text surrounds it |
| `Text.ContainsOccurs` | src/handler.ts:204-205 | `includes` holds iff the word occurs at some position of the text (OccursAt) |
| `Text.NatToString` | src/handler.ts:90 | a clock reading renders as a non-empty string of digits with no leading zero |
| `Text.ParseNatToString` | src/handler.ts:90 | reading the rendered numeral back gives the number |
| `Text.NatToStringInjective` | src/handler.ts:90 | two numbers render the same exactly when they are equal |
| `Text.IntToString` | src/handler.ts:135 | the pause time renders as a non-empty numeral that starts with `-` exactly when it is negative, and whose digits (after the sign) read back as its magnitude |
| `Handler.MatchWordRun` | src/handler.ts:163 | the `[a-zA-Z0-9_]{0,n}$` scan accepts exactly the strings of at most n word characters |
| `Handler.IsValidMatlabIdentifier` | src/handler.ts:158-165 | a name is accepted iff its length is 1..63, its first character is an ASCII letter, and every later character is a letter, digit or `_` |
| `Handler.IdentifierExamples` | src/handler.ts:163 | "plot1" is accepted; "1plot", "a-b", "_x", "" and every 64-character name are rejected |
| `Handler.IdentifierCharacters` | src/handler.ts:163 | a valid name has no dot, separator or line terminator, so it is capturable by the scripts URI pattern |
| `Handler.ScriptFile` | src/handler.ts:58 | `<name>.m` ends in `.m`, and dropping the extension gives the name back |
| `Handler.TempScriptFile` | src/handler.ts:90 | the inline scratch file is a `.m` file |
| `Handler.TempScriptFileInjective` | src/handler.ts:90 | two inline runs share a scratch file only when their clock readings are equal |
| `Handler.RunStatement` | src/handler.ts:95 | the `run('…');` statement holds the rewritten path at a fixed offset and contains no backslash |
| `Handler.BatchInjective` | src/handler.ts:95 | for one executable, two batch commands are equal iff their statements are equal |
| `Handler.RunStatementInjective` | src/handler.ts:95 | two run statements are equal iff the rewritten paths are equal |
| `Handler.Batch` | src/handler.ts:95 | a batch command starts with the quoted executable and `-nosplash  -batch "`, and ends with the statement and the closing quote |
| `Handler.CodeCommand` | src/handler.ts:95 | the inline command is a batch command for the quoted executable ending in `run('<path with / separators>');"` |
| `Handler.ScriptCommand` | src/handler.ts:135 | the named-run command is a batch command for the quoted executable ending in `run('<path with / separators>'); pause(<pauseTime>); exit;"` |
| `Handler.Interactive` | src/handler.ts:173-189 | an interactive command starts with the quoted executable and `-nosplash -nodesktop -r "`, and ends with the statement and the closing quote |
| `Handler.ProbeCommand` | src/handler.ts:173 | the probe is an interactive command ending in `disp('MATLAB is available'); exit;"` |
| `Handler.ScriptCommandIsNotProbe` | src/handler.ts:135-173 | no named-run command equals the probe command, so probes in a log are told apart from script runs |
| `Handler.QuitCommand` | src/handler.ts:189 | the quit command is an interactive command ending in `quit force; exit;"` |
| `Handler.CommandsIdentifyPath` | src/handler.ts:95-135 | the inline and named-run commands determine the script path up to the separator rewrite, and are determined by it |
| `Handler.CommandShapes` | src/handler.ts:95-135 | both run commands contain `run('<path with / separators>');`; the named-run command is the inline command with ` pause(<pauseTime>); exit;` inserted after the run statement, before the closing quote |
| `Handler.CodeResult` | src/handler.ts:97-114 | an inline run's output is empty iff the timer won or the run failed; the timeout gives `MATLAB execution timed out`; a failure gives its message; a completed run gives its stdout, or `Execution completed (no output captured)` when stdout is empty, and its stderr as the error only when that is non-empty |
| `Handler.ScriptResult` | src/handler.ts:137-150 | a named run gives `("", message)` on failure; on success it gives stdout as is, and an error iff stderr is non-empty |
| `Handler.ClassifyClose` | src/handler.ts:191-216 | the quit is reported as failed iff the run failed and its lower-cased message contains "not found" or "not recognized"; only then is there an error, `MATLAB executable not found: <message>` |
| `Handler.ClassifyCloseIgnoresCase` | src/handler.ts:204-205 | two messages equal up to letter case are classified alike |
| `Handler.MissingExecutableIsFailure` | src/handler.ts:203-210 | a message with "not found" or "not recognized" in any letter case, anywhere, is a real failure |
| `Handler.GenerateSpec` | src/handler.ts:52-72 | an invalid name fails with the identifier message, and a failed write fails with `Failed to create MATLAB script: …`; both leave the directory unchanged; a success returns `{code, scriptPath}`, sets `<name>.m` to exactly the code and keeps every other entry |
| `Handler.GenerateOverwrites` | src/handler.ts:62 | saving the same name twice leaves only the second text, as if the first save had not happened |
| `Handler.InlineRunSpec` | src/handler.ts:79-115 | a failed scratch write yields `("", message)` and runs nothing; otherwise the scratch file holds the code, the batch command for it is issued, and the result is CodeResult; output is empty exactly when something failed, and then there is an error |
| `Handler.NotFoundMessage` | src/handler.ts:133 | the missing-script message mentions "not found" |
| `Handler.ScriptRunSpec` | src/handler.ts:123-151 | a command is issued iff `<name>.m` exists; when it is absent the result is `("", not-found message)`; when it is present the pause-and-exit command for its path is issued and the result is ScriptResult |
| `Handler.GeneratedScriptRuns` | src/handler.ts:58-137 | a script saved by generateCode can then be run by name |
| `Handler.MatlabHandler.constructor` | src/handler.ts:24-36 | the handler starts over the existing temp directory with nothing issued |
| `Handler.MatlabHandler.GetTempDir` | src/handler.ts:42-44 | returns the configured temp directory |
| `Handler.MatlabHandler.GenerateCode` | src/handler.ts:52-72 | the returned value and the new directory are those of GenerateSpec on the old directory; nothing is issued |
| `Handler.MatlabHandler.ExecuteCode` | src/handler.ts:79-115 | result, new directory and newly issued commands are those of InlineRunSpec |
| `Handler.MatlabHandler.ExecuteScript` | src/handler.ts:123-151 | result and newly issued commands are those of ScriptRunSpec; the directory is unchanged |
| `Handler.MatlabHandler.CheckMatlabAvailability` | src/handler.ts:171-180 | issues the probe command and answers true iff the probe run succeeded |
| `Handler.MatlabHandler.CloseMatlabWindows` | src/handler.ts:186-217 | issues the quit command and answers ClassifyClose of its outcome |
| `Server.DocDescriptor` | src/server.ts:58-65 | the documentation entry is the markdown resource at `matlab://documentation/getting-started` |
| `Server.DocDescriptorReadable` | src/server.ts:58-223 | the listed documentation URI is rejected by the scripts pattern, resolved to `getting-started` by the documentation pattern, and reads back as the guide in markdown |
| `Server.ScriptDescriptor` | src/server.ts:76-81 | a script's descriptor has uri `matlab://scripts/<stem>` |
| `Server.Stem` | src/server.ts:75 | the stem of a `.m` entry is the name whose script file is that entry |
| `Server.MFiles` | src/server.ts:72 | the filter keeps only entries ending in `.m`, and never more entries than were listed |
| `Server.MFilesMembers` | src/server.ts:72 | an entry is kept iff it is listed and ends in `.m` |
| `Server.MFilesAppend` | src/server.ts:72 | filtering a concatenation is the concatenation of the filtered parts, so the filter keeps the listing's order |
| `Server.MFilesSingle` | src/server.ts:72 | a one-entry listing keeps its entry iff it ends in `.m` |
| `Server.MIndices` | src/server.ts:72 | the j-th kept entry is the entry at position `MIndices[j]`; these positions strictly increase and include every `.m` entry, so each `.m` entry is kept once, in listing order |
| `Server.Describe` | src/server.ts:74-82 | one descriptor per `.m` file, at the same position |
| `Server.ResourceList` | src/server.ts:57-90 | the documentation descriptor comes first; a failed listing adds nothing; otherwise descriptor j+1 is that of the j-th `.m` entry |
| `Server.ScriptIsNotDoc` | src/server.ts:58-82 | no script descriptor equals the documentation descriptor |
| `Server.ListingCorrespondence` | src/server.ts:71-82 | the documentation descriptor appears only in front; descriptor j names the `.m` entry at the j-th increasing position of the listing; every `.m` entry is named |
| `Server.DescriptorsDistinct` | src/server.ts:74-81 | two different `.m` entries get different descriptors |
| `Server.ListingHasNoRepeats` | src/server.ts:69-82 | a listing without repeated entries yields a resource list without repeated descriptors |
| `Server.GeneratedScriptListed` | src/server.ts:69-82 | when the listing enumerates the directory, a script saved by generateCode is listed |
| `Server.MatchScripts` | src/server.ts:97-99 | a match captures the non-empty, line-terminator-free rest after `matlab://scripts/` |
| `Server.MatchDocs` | src/server.ts:137-139 | a match captures the non-empty, line-terminator-free rest after `matlab://documentation/` |
| `Server.UriPatterns` | src/server.ts:97-141 | prefixing a name and matching recovers the name iff `.+` can capture it; no URI matches both patterns |
| `Server.ReadResource` | src/server.ts:93-225 | the content keeps the request URI; the only errors are InvalidRequest and InternalError; InternalError arises iff an existing script's read fails; an absent script is InvalidRequest "Script <name>.m not found"; a present one gives its text verbatim as `text/x-matlab`; a URI matching neither pattern is "Invalid URI format"; documentation type `getting-started` gives the guide as `text/markdown`, and any other type is InvalidRequest "Documentation not found: <type>" |
| `Server.ReadAfterGenerate` | src/server.ts:101-123 | reading `matlab://scripts/<name>` after saving `<name>` gives exactly the saved code |
| `Server.ListedScriptReadable` | src/server.ts:74-123 | a listed script reads back as its file content when its stem is capturable; the entry `.m` is listed but its URI is rejected as malformed |
| `Server.ListTools` | src/server.ts:233-282 | two distinct tools are advertised, `generate_matlab_script` and `execute_matlab_script`; `execute_matlab_code` is not |
| `Server.RouteTool` | src/server.ts:303-396 | a call reaches generateCode iff the tool is `generate_matlab_script` with a non-empty `scriptName`, and it passes `code` or ""; it reaches executeScript iff the tool is `execute_matlab_script` with a non-empty `script_name`; any other call is InvalidParams for a listed tool and MethodNotFound otherwise |
| `Server.GatedToolIsUnknown` | src/server.ts:287-395 | past the availability guard, `execute_matlab_code` is an unknown tool |
| `Server.GenerateReply` | src/server.ts:322-347 | the reply is an error iff saving failed, with text `Error generating MATLAB code: <message>`; otherwise it carries the code in a matlab block and ends with the saved path |
| `Server.ExecuteReply` | src/server.ts:364-376 | `isError` is true iff the result's error is present and non-empty; the text then ends with the error, and otherwise with the output |
| `Server.Dispatch` | src/server.ts:303-397 | only a rejected call throws, and it changes no file and runs nothing; a generate call saves as GenerateSpec does and replies GenerateReply of its result, issuing nothing; an execute call of an existing script issues the named-run command for its path and replies ExecuteReply of ScriptResult; only a generate call can change the directory, and then the reply is not an error; only an execute call of an existing script issues a command |
| `Server.MissingScriptReported` | src/server.ts:361-376 | executing an unsaved script is an error reply ending in the not-found message, and runs nothing |
| `Server.ProbesIssued` | src/server.ts:287-288 | a session probes at most once per call, and at least once when it starts unset and makes a call |
| `Server.NoProbeOnceAvailable` | src/server.ts:287-288 | once the flag is set, no later call probes |
| `Server.ProbesUntilFirstSuccess` | src/server.ts:287-301 | starting unset, a session probes on every call up to and including the first successful probe, and never after |
| `Server.ProbesIssuedSnoc` | src/server.ts:287-288 | one more call adds a probe exactly when the flag started unset and no earlier probe succeeded |
| `Server.CallSpec` | src/server.ts:285-397 | one call sets the flag iff it was set or the probe succeeded; it issues one probe command, first, exactly when the flag was unset, and no other probe command |
| `Server.GatedCallAnswered` | src/server.ts:286-300 | `execute_matlab_code` changes no file and issues at most the probe; it gets the not-available error reply when unavailable and the unknown-tool error otherwise |
| `Server.UngatedCallDispatches` | src/server.ts:286-397 | every other tool gets the reply, directory and commands of Dispatch of its route whatever the probe said, after the probe if the flag was unset |
| `Server.CallStep` | src/server.ts:285-397 | one more call adds one reply, sets the flag iff it was set or the probe succeeded, and adds one probe command to the log exactly when the flag was unset |
| `Server.RunSession` | src/server.ts:285-397 | a session of n calls adds n replies, ends with the flag set iff it started set or some probe succeeded, and adds ProbesIssued probe commands to the log |
| `Server.MatlabMcpServer.constructor` | src/server.ts:22-42 | the server owns a fresh handler and starts with the flag unset |
| `Server.MatlabMcpServer.ListResources` | src/server.ts:57-90 | the array built by pushing in the loop is ResourceList of the listing |
| `Server.MatlabMcpServer.CallTool` | src/server.ts:285-397 | the new flag, directory and reply, and the commands appended to the log, are exactly those CallSpec gives for the call from the old flag and directory |
| `Server.MatlabMcpServer.Perform` | src/server.ts:303-396 | running a chosen route answers, saves and issues commands exactly as Dispatch says |
| `Server.MatlabMcpServer.CallTools` | src/server.ts:285-397 | handling the calls in order leaves the replies, flag, directory and appended log that RunSession gives, and the probe commands among the appended log number ProbesIssued of the probe outcomes |

## Left out

- Running MATLAB: `exec`/`execAsync`, the engine, and the real-time race of `Promise.race` against `setTimeout`. These are foreign calls and timing. A run's outcome and "the timer settled first" are parameters. Killing or leaking the losing child process is not modelled.
- The real filesystem: `existsSync`, `readdirSync`, `readFileSync`, `writeFileSync`, `mkdirSync`. The temp directory is a map that always exists. Deleting it from outside the process is not modelled, so the create-if-missing step in executeCode and the existence check in the listing have no effect here. A failed write or read is a message parameter. A failed write is assumed to leave the file untouched.
- Handler.TempPath: `path.join` is modelled as directory + separator + file name. No normalisation of `..`, repeated separators or names with separators. As a result, a script name or URI holding a `/` addresses a flat map key, not a subdirectory.
- Server.Stem: models `path.basename(file, '.m')` only for directory entries, which hold no separator.
- `Date.now()` in the scratch file name is a `nat` parameter. It is a clock reading.
- Configuration resolution from `MATLAB_PATH`, `MATLAB_TEMP_DIR` and `process.argv[2]` (`parseInt`, including a NaN pause time). This is environment I/O. The handler takes a resolved `Config`.
- MCP SDK wiring, the transport, `run()`, the SIGINT handler and `console.error` logging. These are protocol and runtime plumbing. Replies are plain datatypes, not SDK objects.
- Server.GettingStartedGuide: keeps only the guide's title line. The rest of the markdown is static text.
- Text.Lower: lower-cases ASCII letters only. `toLowerCase` also maps non-ASCII letters, which cannot turn a message into one containing the ASCII words tested for, except through rare case mappings that are not modelled.
- Text.IntToString: renders every integer in plain decimal. JavaScript writes a number of magnitude 1e21 or more in exponent form (`1e+21`), and renders a NaN pause time as `NaN`; pause times that large, and NaN, are not modelled.
- Server.Argument: arguments are modelled as strings. The coercion `String(x || '')` of a non-string value, for example a number or `0`, is not modelled.
- The `catch` around `executeScript` in the execute_matlab_script tool (src/server.ts:378-388) is unreachable because executeScript never throws. It has no counterpart.
- Concurrency: tool calls are modelled as handled one at a time, each to completion. The SDK may run async handlers interleaved at their `await` points (src/server.ts:287-288). Then two calls in flight while the flag is unset both probe, the "never after" half of ProbesUntilFirstSuccess and the probe count of CallTools hold only for sequential sessions, and a resource listing may observe a directory while a save is in progress.
- src/index.ts, eslint.config.mjs and tsup.config.ts have no logic and are not part of this model.
