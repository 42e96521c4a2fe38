// The MCP request handlers (src/server.ts): the resource list built from the
// temp directory, resolution of a resource URI, and tool dispatch with its
// argument checks, availability flag and response shaping.

module Server {
  import opened Wrappers
  import opened Text
  import opened Handler

  /** The protocol error codes the handlers raise. */
  datatype ErrorCode = InvalidRequest | InvalidParams | MethodNotFound | InternalError

  /** A thrown `McpError`. */
  datatype McpError = McpError(code: ErrorCode, message: string)

  /** One entry of the `resources` array. */
  datatype Resource = Resource(uri: string, name: string, mimeType: string, description: string)

  /** The single entry of `contents` in a read response. */
  datatype ResourceContent = ResourceContent(uri: string, mimeType: string, text: string)

  /** A read request answers with content or throws. */
  datatype ReadOutcome = Contents(content: ResourceContent) | ReadRaised(error: McpError)

  /** A tool call answers with one text block and an `isError` flag (absent reads as false), or throws. */
  datatype ToolReply = Reply(text: string, isError: bool) | Raised(error: McpError)

  const ScriptsPrefix := "matlab://scripts/"
  const DocsPrefix := "matlab://documentation/"
  const GettingStarted := "getting-started"
  const MatlabMime := "text/x-matlab"
  const MarkdownMime := "text/markdown"
  /** The markdown guide; its body is static text and only its title is kept here. */
  const GettingStartedGuide := "# MATLAB MCP Server - Getting Started\n"

  const GenerateTool := "generate_matlab_script"
  const ExecuteTool := "execute_matlab_script"
  /** The name the availability check guards; no tool of this name is listed or dispatched. */
  const GatedTool := "execute_matlab_code"
  const NotAvailableText :=
    "Error: MATLAB is not available. Please make sure MATLAB is installed and the path is correctly set in the environment variable MATLAB_PATH."

  // ---------------------------------------------------------------------
  // Listing resources

  /** The documentation entry. */
  function DocDescriptor(): (r: Resource)
    ensures r.mimeType == MarkdownMime && r.uri == DocsPrefix + GettingStarted
  {
    Resource(DocsPrefix + GettingStarted, "MATLAB Getting Started Guide", MarkdownMime,
             "Basic guide for getting started with MATLAB through the MCP server")
  }

  function ScriptDescriptor(stem: string): (r: Resource)
    ensures r.uri == ScriptsPrefix + stem
  {
    Resource(ScriptsPrefix + stem, "MATLAB Script: " + stem, MatlabMime, "Content of MATLAB script " + stem + ".m")
  }

  /** `file.endsWith('.m')` */
  predicate IsMFile(entry: string) {
    EndsWith(entry, ScriptExtension)
  }

  /** `path.basename(file, '.m')` for a directory entry (which holds no separator). */
  function Stem(entry: string): (stem: string)
    requires IsMFile(entry)
    ensures ScriptFile(stem) == entry
  {
    entry[..|entry| - 2]
  }

  /** `files.filter(file => file.endsWith('.m'))`, keeping the directory's order. */
  function MFiles(entries: seq<string>): (ms: seq<string>)
    ensures forall m :: m in ms ==> IsMFile(m)
    ensures |ms| <= |entries|
  {
    if entries == [] then []
    else (if IsMFile(entries[0]) then [entries[0]] else []) + MFiles(entries[1..])
  }

  /** Filtering distributes over concatenation: each part keeps its `.m` entries, in order. */
  lemma {:induction false} MFilesAppend(a: seq<string>, b: seq<string>)
    ensures MFiles(a + b) == MFiles(a) + MFiles(b)
    ensures MFiles([]) == []
    decreases |a|
  {
    if a == [] {
      assert a + b == b;
    } else {
      var front := if IsMFile(a[0]) then [a[0]] else [];
      MFilesAppend(a[1..], b);
      assert (a + b)[0] == a[0] && (a + b)[1..] == a[1..] + b;
      calc {
        MFiles(a + b);
        front + MFiles(a[1..] + b);
        front + (MFiles(a[1..]) + MFiles(b));
        (front + MFiles(a[1..])) + MFiles(b);
        MFiles(a) + MFiles(b);
      }
    }
  }

  /** A single entry is kept exactly when it is a `.m` file. */
  lemma MFilesSingle(e: string)
    ensures MFiles([e]) == if IsMFile(e) then [e] else []
  {
    assert [e][1..] == [];
  }

  /** Every position, one further on. */
  function Shift(s: seq<nat>): (r: seq<nat>)
    ensures |r| == |s| && forall j :: 0 <= j < |s| ==> r[j] == s[j] + 1
  {
    seq(|s|, j requires 0 <= j < |s| => s[j] + 1)
  }

  /**
   * Where each kept entry sits in the listing: strictly increasing positions
   * of `.m` entries, covering every one of them, so the filter keeps each
   * `.m` entry once and in the listing's order.
   */
  function MIndices(entries: seq<string>): (idx: seq<nat>)
    ensures |idx| == |MFiles(entries)|
    ensures forall j :: 0 <= j < |idx| ==> idx[j] < |entries| && MFiles(entries)[j] == entries[idx[j]]
    ensures forall j, k :: 0 <= j < k < |idx| ==> idx[j] < idx[k]
    ensures forall i :: 0 <= i < |entries| && IsMFile(entries[i]) ==> i in idx
    decreases |entries|
  {
    if entries == [] then []
    else
      var rest := MIndices(entries[1..]);
      var keep := IsMFile(entries[0]);
      ExtendPositions(entries, keep, rest, MFiles(entries[1..]), MFiles(entries));
      (if keep then [0] else []) + Shift(rest)
  }

  /** The induction step of MIndices: put the first entry in front and shift the rest's positions by one. */
  lemma ExtendPositions(entries: seq<string>, keep: bool, rest: seq<nat>, tailMs: seq<string>, ms: seq<string>)
    requires |entries| > 0 && keep == IsMFile(entries[0])
    requires |rest| == |tailMs|
    requires forall q :: 0 <= q < |rest| ==> rest[q] < |entries| - 1 && tailMs[q] == entries[1..][rest[q]]
    requires forall q, r :: 0 <= q < r < |rest| ==> rest[q] < rest[r]
    requires forall i :: 0 <= i < |entries| - 1 && IsMFile(entries[1..][i]) ==> i in rest
    requires ms == (if keep then [entries[0]] else []) + tailMs
    ensures var idx := (if keep then [0] else []) + Shift(rest);
      && |idx| == |ms|
      && (forall j :: 0 <= j < |idx| ==> idx[j] < |entries| && ms[j] == entries[idx[j]])
      && (forall j, k :: 0 <= j < k < |idx| ==> idx[j] < idx[k])
      && (forall i :: 0 <= i < |entries| && IsMFile(entries[i]) ==> i in idx)
  {
    var front: seq<nat> := if keep then [0] else [];
    ShiftedMatch(entries, front, rest, tailMs, ms);
    ShiftedIncrease(front, rest);
    ShiftedCover(entries, keep, front, rest);
  }

  lemma ShiftedMatch(entries: seq<string>, front: seq<nat>, rest: seq<nat>, tailMs: seq<string>, ms: seq<string>)
    requires |entries| > 0 && |rest| == |tailMs|
    requires forall q :: 0 <= q < |rest| ==> rest[q] < |entries| - 1 && tailMs[q] == entries[1..][rest[q]]
    requires (front == [] && ms == tailMs) || (front == [0] && ms == [entries[0]] + tailMs)
    ensures var idx := front + Shift(rest);
      |idx| == |ms| && forall j :: 0 <= j < |idx| ==> idx[j] < |entries| && ms[j] == entries[idx[j]]
  {
    var idx := front + Shift(rest);
    forall j | 0 <= j < |idx|
      ensures idx[j] < |entries| && ms[j] == entries[idx[j]]
    {
      if j >= |front| {
        var q := j - |front|;
        assert idx[j] == rest[q] + 1;
        assert ms[j] == tailMs[q] == entries[1..][rest[q]];
      }
    }
  }

  lemma ShiftedIncrease(front: seq<nat>, rest: seq<nat>)
    requires front == [] || front == [0]
    requires forall q, r :: 0 <= q < r < |rest| ==> rest[q] < rest[r]
    ensures var idx := front + Shift(rest);
      forall j, k :: 0 <= j < k < |idx| ==> idx[j] < idx[k]
  {
    var idx := front + Shift(rest);
    forall j, k | 0 <= j < k < |idx|
      ensures idx[j] < idx[k]
    {
      assert idx[k] == rest[k - |front|] + 1;
      if j >= |front| {
        assert idx[j] == rest[j - |front|] + 1;
      }
    }
  }

  lemma ShiftedCover(entries: seq<string>, keep: bool, front: seq<nat>, rest: seq<nat>)
    requires |entries| > 0 && keep == IsMFile(entries[0])
    requires front == if keep then [0] else []
    requires forall i :: 0 <= i < |entries| - 1 && IsMFile(entries[1..][i]) ==> i in rest
    ensures var idx := front + Shift(rest);
      forall i :: 0 <= i < |entries| && IsMFile(entries[i]) ==> i in idx
  {
    var idx := front + Shift(rest);
    forall i | 0 <= i < |entries| && IsMFile(entries[i])
      ensures i in idx
    {
      if i == 0 {
        assert idx[0] == 0;
      } else {
        assert entries[1..][i - 1] == entries[i];
        var q :| 0 <= q < |rest| && rest[q] == i - 1;
        assert idx[|front| + q] == i;
      }
    }
  }

  /** The filter keeps exactly the listed entries that end in `.m`. */
  lemma MFilesMembers(entries: seq<string>)
    ensures forall m :: m in MFiles(entries) <==> m in entries && IsMFile(m)
  {
    var ms, idx := MFiles(entries), MIndices(entries);
    forall m | m in ms
      ensures m in entries
    {
      var j :| 0 <= j < |ms| && ms[j] == m;
      assert m == entries[idx[j]];
    }
    forall m | m in entries && IsMFile(m)
      ensures m in ms
    {
      var i :| 0 <= i < |entries| && entries[i] == m;
      var j :| 0 <= j < |idx| && idx[j] == i;
      assert ms[j] == m;
    }
  }

  /** One script descriptor per `.m` file, in order. */
  function Describe(ms: seq<string>): (rs: seq<Resource>)
    requires forall m :: m in ms ==> IsMFile(m)
    ensures |rs| == |ms|
    ensures forall j :: 0 <= j < |ms| ==> rs[j] == ScriptDescriptor(Stem(ms[j]))
  {
    if ms == [] then [] else Describe(ms[..|ms| - 1]) + [ScriptDescriptor(Stem(ms[|ms| - 1]))]
  }

  /**
   * The resource list for a directory listing (None when reading the
   * directory failed, which the handler swallows): the documentation
   * descriptor first, then one script descriptor per `.m` entry, in order.
   */
  function ResourceList(listing: Option<seq<string>>): (rs: seq<Resource>)
    ensures |rs| >= 1 && rs[0] == DocDescriptor()
    ensures listing.None? ==> rs == [DocDescriptor()]
    ensures listing.Some? ==>
      && |rs| == 1 + |MFiles(listing.value)|
      && forall j :: 1 <= j < |rs| ==> rs[j] == ScriptDescriptor(Stem(MFiles(listing.value)[j - 1]))
  {
    [DocDescriptor()] + match listing
      case None => []
      case Some(entries) => Describe(MFiles(entries))
  }

  /** A script descriptor never coincides with the documentation descriptor. */
  lemma ScriptIsNotDoc(stem: string)
    ensures ScriptDescriptor(stem) != DocDescriptor()
  {
    assert ScriptDescriptor(stem).uri[9] == 's';
    assert DocDescriptor().uri[9] == 'd';
  }

  /**
   * The documentation descriptor appears exactly once, in front; descriptor
   * j (from 1) names the `.m` entry at position `MIndices(entries)[j - 1]`,
   * so descriptors follow the listing's order; and every `.m` entry is named
   * by one.
   */
  lemma ListingCorrespondence(entries: seq<string>)
    ensures var rs := ResourceList(Some(entries));
            var idx := MIndices(entries);
      && |rs| == 1 + |idx|
      && (forall j :: 1 <= j < |rs| ==> rs[j] != DocDescriptor())
      && (forall j :: 1 <= j < |rs| ==> IsMFile(entries[idx[j - 1]]) && rs[j] == ScriptDescriptor(Stem(entries[idx[j - 1]])))
      && (forall e :: e in entries && IsMFile(e) ==> ScriptDescriptor(Stem(e)) in rs)
  {
    var rs := ResourceList(Some(entries));
    forall j | 1 <= j < |rs|
      ensures rs[j] != DocDescriptor()
      ensures IsMFile(entries[MIndices(entries)[j - 1]])
      ensures rs[j] == ScriptDescriptor(Stem(entries[MIndices(entries)[j - 1]]))
    {
      DescriptorAt(entries, j);
    }
    forall e | e in entries && IsMFile(e)
      ensures ScriptDescriptor(Stem(e)) in rs
    {
      EntryListed(entries, e);
    }
  }

  /** Descriptor j of a listing's resource list, for one j. */
  lemma DescriptorAt(entries: seq<string>, j: nat)
    requires 1 <= j < |ResourceList(Some(entries))|
    ensures var rs := ResourceList(Some(entries));
            var idx := MIndices(entries);
      && rs[j] != DocDescriptor()
      && IsMFile(entries[idx[j - 1]])
      && rs[j] == ScriptDescriptor(Stem(entries[idx[j - 1]]))
  {
    var ms := MFiles(entries);
    ScriptIsNotDoc(Stem(ms[j - 1]));
    assert ms[j - 1] == entries[MIndices(entries)[j - 1]];
  }

  /** A `.m` entry of a listing is named in its resource list. */
  lemma EntryListed(entries: seq<string>, e: string)
    requires e in entries && IsMFile(e)
    ensures ScriptDescriptor(Stem(e)) in ResourceList(Some(entries))
  {
    var ms := MFiles(entries);
    MFilesMembers(entries);
    var k :| 0 <= k < |ms| && ms[k] == e;
    assert ResourceList(Some(entries))[k + 1] == ScriptDescriptor(Stem(e));
  }

  /** Distinct `.m` entries have distinct descriptors. */
  lemma DescriptorsDistinct(e1: string, e2: string)
    requires IsMFile(e1) && IsMFile(e2) && e1 != e2
    ensures ScriptDescriptor(Stem(e1)) != ScriptDescriptor(Stem(e2))
  {
    var a, b := Stem(e1), Stem(e2);
    assert (ScriptsPrefix + a)[|ScriptsPrefix|..] == a;
    assert (ScriptsPrefix + b)[|ScriptsPrefix|..] == b;
  }

  /** A listing without repeated entries gives a resource list without repeated descriptors. */
  lemma ListingHasNoRepeats(entries: seq<string>)
    requires forall i, k :: 0 <= i < k < |entries| ==> entries[i] != entries[k]
    ensures var rs := ResourceList(Some(entries));
      forall j, k :: 0 <= j < k < |rs| ==> rs[j] != rs[k]
  {
    forall j, k | 0 <= j < k < |ResourceList(Some(entries))|
      ensures ResourceList(Some(entries))[j] != ResourceList(Some(entries))[k]
    {
      DescriptorsAtDiffer(entries, j, k);
    }
  }

  /** Descriptors j < k of a listing without repeated entries differ. */
  lemma DescriptorsAtDiffer(entries: seq<string>, j: nat, k: nat)
    requires forall i, k :: 0 <= i < k < |entries| ==> entries[i] != entries[k]
    requires j < k < |ResourceList(Some(entries))|
    ensures ResourceList(Some(entries))[j] != ResourceList(Some(entries))[k]
  {
    var idx := MIndices(entries);
    DescriptorAt(entries, k);
    if j > 0 {
      DescriptorAt(entries, j);
      var a, b := idx[j - 1], idx[k - 1];
      assert a < b < |entries|;
      DescriptorsDistinct(entries[a], entries[b]);
    }
  }

  /** When the listing enumerates the directory, every script generateCode saved is listed. */
  lemma GeneratedScriptListed(config: Config, files: map<string, string>, name: string, code: string, entries: seq<string>)
    requires GenerateSpec(config, files, name, code, None).result.Success?
    requires forall f :: f in entries <==> f in GenerateSpec(config, files, name, code, None).files
    ensures ScriptDescriptor(name) in ResourceList(Some(entries))
  {
    ListingCorrespondence(entries);
    assert ScriptFile(name) in entries;
    assert Stem(ScriptFile(name)) == name;
  }

  // ---------------------------------------------------------------------
  // Reading a resource

  /** `uri.match(/^matlab:\/\/scripts\/(.+)$/)`, giving the captured name. */
  function MatchScripts(uri: string): (name: Option<string>)
    ensures name.Some? ==> uri == ScriptsPrefix + name.value && MatchesDotPlus(name.value)
  {
    if StartsWith(uri, ScriptsPrefix) && MatchesDotPlus(uri[|ScriptsPrefix|..]) then Some(uri[|ScriptsPrefix|..]) else None
  }

  /** `uri.match(/^matlab:\/\/documentation\/(.+)$/)`, giving the captured type. */
  function MatchDocs(uri: string): (docType: Option<string>)
    ensures docType.Some? ==> uri == DocsPrefix + docType.value && MatchesDotPlus(docType.value)
  {
    if StartsWith(uri, DocsPrefix) && MatchesDotPlus(uri[|DocsPrefix|..]) then Some(uri[|DocsPrefix|..]) else None
  }

  /** The scripts pattern recovers exactly the names it can capture, and no URI matches both patterns. */
  lemma UriPatterns(name: string, uri: string)
    ensures MatchScripts(ScriptsPrefix + name) == (if MatchesDotPlus(name) then Some(name) else None)
    ensures MatchDocs(DocsPrefix + name) == (if MatchesDotPlus(name) then Some(name) else None)
    ensures MatchScripts(uri).None? || MatchDocs(uri).None?
  {
    assert (ScriptsPrefix + name)[..|ScriptsPrefix|] == ScriptsPrefix;
    assert (ScriptsPrefix + name)[|ScriptsPrefix|..] == name;
    assert (DocsPrefix + name)[..|DocsPrefix|] == DocsPrefix;
    assert (DocsPrefix + name)[|DocsPrefix|..] == name;
    if StartsWith(uri, ScriptsPrefix) {
      assert uri[9] == 's';
    }
  }

  /** The listed documentation URI resolves, and reads back as the guide. */
  lemma DocDescriptorReadable(files: map<string, string>, readFault: Option<string>)
    ensures MatchScripts(DocDescriptor().uri) == None && MatchDocs(DocDescriptor().uri) == Some(GettingStarted)
    ensures ReadResource(DocDescriptor().uri, files, readFault)
            == Contents(ResourceContent(DocDescriptor().uri, MarkdownMime, GettingStartedGuide))
  {
    UriPatterns(GettingStarted, DocDescriptor().uri);
  }

  /**
   * The ReadResource handler over the temp directory. A script URI answers
   * with the file's text, or InvalidRequest when it is absent, or
   * InternalError when reading it failed (`readFault`); any other URI goes to
   * the documentation branch, which knows only `getting-started`.
   */
  function ReadResource(uri: string, files: map<string, string>, readFault: Option<string>): (r: ReadOutcome)
    ensures r.Contents? ==> r.content.uri == uri
    ensures r.ReadRaised? ==> r.error.code == InvalidRequest || r.error.code == InternalError
    ensures r.ReadRaised? && r.error.code == InternalError <==>
      MatchScripts(uri).Some? && ScriptFile(MatchScripts(uri).value) in files && readFault.Some?
    ensures MatchScripts(uri).Some? && ScriptFile(MatchScripts(uri).value) !in files ==>
      r == ReadRaised(McpError(InvalidRequest, "Script " + ScriptFile(MatchScripts(uri).value) + " not found"))
    ensures MatchScripts(uri).Some? && ScriptFile(MatchScripts(uri).value) in files && readFault.None? ==>
      r == Contents(ResourceContent(uri, MatlabMime, files[ScriptFile(MatchScripts(uri).value)]))
    ensures MatchScripts(uri).None? && MatchDocs(uri).None? ==>
      r == ReadRaised(McpError(InvalidRequest, "Invalid URI format: " + uri))
    ensures MatchScripts(uri).None? && MatchDocs(uri).Some? ==>
      (r.Contents? <==> MatchDocs(uri).value == GettingStarted)
    ensures MatchScripts(uri).None? && MatchDocs(uri) == Some(GettingStarted) ==>
      r == Contents(ResourceContent(uri, MarkdownMime, GettingStartedGuide))
    ensures MatchScripts(uri).None? && MatchDocs(uri).Some? && MatchDocs(uri).value != GettingStarted ==>
      r == ReadRaised(McpError(InvalidRequest, "Documentation not found: " + MatchDocs(uri).value))
  {
    match MatchScripts(uri)
    case Some(name) =>
      if ScriptFile(name) !in files then
        ReadRaised(McpError(InvalidRequest, "Script " + ScriptFile(name) + " not found"))
      else if readFault.Some? then
        ReadRaised(McpError(InternalError, "Error reading script " + name + ": " + readFault.value))
      else
        Contents(ResourceContent(uri, MatlabMime, files[ScriptFile(name)]))
    case None =>
      match MatchDocs(uri)
      case None => ReadRaised(McpError(InvalidRequest, "Invalid URI format: " + uri))
      case Some(docType) =>
        if docType == GettingStarted then Contents(ResourceContent(uri, MarkdownMime, GettingStartedGuide))
        else ReadRaised(McpError(InvalidRequest, "Documentation not found: " + docType))
  }

  /** Reading back a script generateCode saved yields exactly its code. */
  lemma ReadAfterGenerate(config: Config, files: map<string, string>, name: string, code: string)
    requires GenerateSpec(config, files, name, code, None).result.Success?
    ensures ReadResource(ScriptsPrefix + name, GenerateSpec(config, files, name, code, None).files, None)
            == Contents(ResourceContent(ScriptsPrefix + name, MatlabMime, code))
  {
    IdentifierCharacters(name);
    UriPatterns(name, ScriptsPrefix + name);
  }

  /**
   * A listed script reads back as its file's content, provided its stem is
   * one the scripts pattern can capture; the entry `.m` is listed with an
   * empty stem whose URI is rejected as malformed.
   */
  lemma ListedScriptReadable(files: map<string, string>, entry: string)
    requires entry in files && IsMFile(entry)
    ensures MatchesDotPlus(Stem(entry)) ==>
      ReadResource(ScriptDescriptor(Stem(entry)).uri, files, None)
        == Contents(ResourceContent(ScriptDescriptor(Stem(entry)).uri, MatlabMime, files[entry]))
    ensures Stem(entry) == "" ==>
      ReadResource(ScriptDescriptor(Stem(entry)).uri, files, None)
        == ReadRaised(McpError(InvalidRequest, "Invalid URI format: " + ScriptsPrefix))
  {
    UriPatterns(Stem(entry), ScriptDescriptor(Stem(entry)).uri);
    if Stem(entry) == "" {
      assert ScriptDescriptor("").uri == ScriptsPrefix;
      assert !StartsWith(ScriptsPrefix, DocsPrefix) by {
        assert ScriptsPrefix[9] != DocsPrefix[9];
      }
    }
  }

  // ---------------------------------------------------------------------
  // Tool dispatch

  /** The tools ListTools advertises. */
  function ListTools(): (names: seq<string>)
    ensures |names| == 2 && names[0] != names[1]
    ensures GenerateTool in names && ExecuteTool in names && GatedTool !in names
  {
    assert GatedTool[8] != GenerateTool[8];
    assert GatedTool[15] != ExecuteTool[15];
    assert GenerateTool[0] != ExecuteTool[0];
    [GenerateTool, ExecuteTool]
  }

  /** `String(request.params.arguments?.key || '')` for a string-valued argument. */
  function Argument(args: map<string, string>, key: string): string {
    if key in args then args[key] else ""
  }

  /** Which handler a call reaches, or the error thrown before any handler runs. */
  datatype Route = GenerateRoute(scriptName: string, code: string) | ExecuteRoute(scriptName: string) | Rejected(error: McpError)

  /**
   * The `switch` on the tool name: a listed tool whose required name argument
   * is empty or missing is rejected with InvalidParams, an unlisted name with
   * MethodNotFound; `code` is not checked and defaults to the empty string.
   */
  function RouteTool(name: string, args: map<string, string>): (r: Route)
    ensures r.GenerateRoute? <==> name == GenerateTool && Argument(args, "scriptName") != ""
    ensures r.ExecuteRoute? <==> name == ExecuteTool && Argument(args, "script_name") != ""
    ensures r.GenerateRoute? ==> r == GenerateRoute(args["scriptName"], Argument(args, "code"))
    ensures r.ExecuteRoute? ==> r == ExecuteRoute(args["script_name"])
    ensures r.Rejected? ==> r.error.code == (if name in ListTools() then InvalidParams else MethodNotFound)
  {
    if name == GenerateTool then
      var scriptName := Argument(args, "scriptName");
      if scriptName == "" then Rejected(McpError(InvalidParams, "scriptName is required"))
      else GenerateRoute(scriptName, Argument(args, "code"))
    else if name == ExecuteTool then
      var scriptName := Argument(args, "script_name");
      if scriptName == "" then Rejected(McpError(InvalidParams, "Script name is required"))
      else ExecuteRoute(scriptName)
    else Rejected(McpError(MethodNotFound, "Unknown tool: " + name))
  }

  /** The guarded name is not advertised and, once past the guard, is an unknown tool. */
  lemma GatedToolIsUnknown(args: map<string, string>)
    ensures RouteTool(GatedTool, args) == Rejected(McpError(MethodNotFound, "Unknown tool: " + GatedTool))
  {
    assert GatedTool[8] != GenerateTool[8];
    assert GatedTool[15] != ExecuteTool[15];
  }

  /** The reply of generate_matlab_script: the code and the saved path, or the failure as an error reply. */
  function GenerateReply(scriptName: string, result: Result<Generated>): (reply: ToolReply)
    ensures reply.Reply?
    ensures reply.isError <==> result.Failure?
    ensures result.Failure? ==> reply.text == "Error generating MATLAB code: " + result.error
    ensures result.Success? ==> Contains(reply.text, "```matlab\n" + result.value.code + "\n```")
    ensures result.Success? && result.value.scriptPath != "" ==> EndsWith(reply.text, result.value.scriptPath)
  {
    match result
    case Failure(message) => Reply("Error generating MATLAB code: " + message, true)
    case Success(generated) =>
      var head := "Generated MATLAB script for: \"" + scriptName + "\"\n\n";
      var block := "```matlab\n" + generated.code + "\n```";
      var saved := if generated.scriptPath != "" then "\n\nGenerated MATLAB script saved to: " + generated.scriptPath else "";
      ContainsInfix(head, block, saved);
      Reply(head + block + saved, false)
  }

  /** The reply of execute_matlab_script: an error reply exactly when the result carries a non-empty error. */
  function ExecuteReply(scriptName: string, result: ExecResult): (reply: ToolReply)
    ensures reply.Reply?
    ensures reply.isError <==> result.error.Some? && result.error.value != ""
    ensures reply.isError ==> EndsWith(reply.text, result.error.value)
    ensures !reply.isError ==> EndsWith(reply.text, result.output)
  {
    if result.error.Some? && result.error.value != "" then
      Reply("Error executing MATLAB script \"" + scriptName + "\":\n" + result.error.value, true)
    else
      Reply("MATLAB script \"" + scriptName + "\" execution result:\n" + result.output, false)
  }

  /** What a routed call answers, the directory it leaves and the command it issues, if any. */
  datatype DispatchStep = DispatchStep(reply: ToolReply, files: map<string, string>, command: Option<string>)

  /**
   * Runs the handler a route selects. Only a rejected route throws: a
   * rejection touches nothing and runs nothing, and every handler failure
   * comes back as an error reply instead.
   */
  function Dispatch(route: Route, config: Config, files: map<string, string>,
                    writeFault: Option<string>, outcome: ExecOutcome): (d: DispatchStep)
    ensures d.reply.Raised? <==> route.Rejected?
    ensures route.Rejected? ==> d == DispatchStep(Raised(route.error), files, None)
    ensures d.files != files ==> route.GenerateRoute? && d.reply == Reply(d.reply.text, false)
    ensures d.command.Some? ==> route.ExecuteRoute? && ScriptFile(route.scriptName) in files
    ensures route.ExecuteRoute? ==> d.files == files
    ensures route.GenerateRoute? ==>
      var g := GenerateSpec(config, files, route.scriptName, route.code, writeFault);
      d == DispatchStep(GenerateReply(route.scriptName, g.result), g.files, None)
    ensures route.ExecuteRoute? && ScriptFile(route.scriptName) in files ==>
      d == DispatchStep(ExecuteReply(route.scriptName, ScriptResult(outcome)), files,
                        Some(ScriptCommand(config, ScriptPath(config, route.scriptName))))
  {
    match route
    case Rejected(error) => DispatchStep(Raised(error), files, None)
    case GenerateRoute(name, code) =>
      var g := GenerateSpec(config, files, name, code, writeFault);
      DispatchStep(GenerateReply(name, g.result), g.files, None)
    case ExecuteRoute(name) =>
      var s := ScriptRunSpec(config, files, name, outcome);
      DispatchStep(ExecuteReply(name, s.result), files, s.command)
  }

  /** Running a script that was never saved is an error reply that says so, and runs nothing. */
  lemma MissingScriptReported(config: Config, files: map<string, string>, name: string,
                              writeFault: Option<string>, outcome: ExecOutcome)
    requires ScriptFile(name) !in files
    ensures var d := Dispatch(ExecuteRoute(name), config, files, writeFault, outcome);
            d.reply.Reply? && d.reply.isError && d.command == None && EndsWith(d.reply.text, NotFoundMessage(config, name))
  {
  }

  // ---------------------------------------------------------------------
  // The availability flag across a session

  /**
   * The number of availability probes over a session of tool calls, where
   * call i's probe (if it runs one) succeeds when `probeOks[i]`.
   */
  function ProbesIssued(available: bool, probeOks: seq<bool>): (n: nat)
    ensures n <= |probeOks|
    ensures !available && |probeOks| > 0 ==> n >= 1
    decreases |probeOks|
  {
    if probeOks == [] then 0
    else (if available then 0 else 1) + ProbesIssued(available || probeOks[0], probeOks[1..])
  }

  /** The position of the first successful probe. */
  function FirstSuccess(probeOks: seq<bool>): (k: nat)
    requires true in probeOks
    ensures k < |probeOks| && probeOks[k] && forall i :: 0 <= i < k ==> !probeOks[i]
  {
    if probeOks[0] then 0 else 1 + FirstSuccess(probeOks[1..])
  }

  /** Once the flag is set, no call probes again. */
  lemma {:induction false} NoProbeOnceAvailable(probeOks: seq<bool>)
    ensures ProbesIssued(true, probeOks) == 0
    decreases |probeOks|
  {
    if probeOks != [] {
      NoProbeOnceAvailable(probeOks[1..]);
    }
  }

  /** Starting unset, every call probes up to and including the first successful probe, and none after. */
  lemma {:induction false} ProbesUntilFirstSuccess(probeOks: seq<bool>)
    ensures ProbesIssued(false, probeOks) == if true in probeOks then FirstSuccess(probeOks) + 1 else |probeOks|
    decreases |probeOks|
  {
    if probeOks != [] {
      if probeOks[0] {
        NoProbeOnceAvailable(probeOks[1..]);
      } else {
        ProbesUntilFirstSuccess(probeOks[1..]);
        assert true in probeOks <==> true in probeOks[1..];
      }
    }
  }

  /** One more call adds a probe exactly when no earlier probe succeeded and the flag started unset. */
  lemma {:induction false} ProbesIssuedSnoc(available: bool, probeOks: seq<bool>, ok: bool)
    ensures ProbesIssued(available, probeOks + [ok])
            == ProbesIssued(available, probeOks) + (if available || true in probeOks then 0 else 1)
    decreases |probeOks|
  {
    if probeOks == [] {
      assert [ok][1..] == [];
    } else {
      ProbesIssuedSnoc(available || probeOks[0], probeOks[1..], ok);
      assert (probeOks + [ok])[1..] == probeOks[1..] + [ok];
      assert true in probeOks <==> probeOks[0] || true in probeOks[1..];
    }
  }

  /** One tools/call request together with what its environment does: probe, save and run outcomes. */
  datatype ToolCall = ToolCall(name: string, args: map<string, string>, probe: ExecOutcome,
                               writeFault: Option<string>, outcome: ExecOutcome)

  /** Whether each call's availability probe would succeed. */
  function ProbeOks(calls: seq<ToolCall>): (oks: seq<bool>)
    ensures |oks| == |calls|
    ensures forall i :: 0 <= i < |calls| ==> oks[i] == calls[i].probe.Ok?
  {
    seq(|calls|, i requires 0 <= i < |calls| => calls[i].probe.Ok?)
  }

  /** What one call does: the flag afterwards, the directory, the commands it issues in order, and its reply. */
  datatype CallOutcome = CallOutcome(available: bool, files: map<string, string>, commands: seq<string>, reply: ToolReply)

  /**
   * One CallTool request from a flag and a directory: probe while the flag
   * is unset, answer an unavailable `execute_matlab_code` with the
   * not-available reply, and dispatch every other call. The probe is the
   * only probe command issued, and it is issued first.
   */
  function CallSpec(available: bool, files: map<string, string>, config: Config, c: ToolCall): (r: CallOutcome)
    ensures r.available <==> available || c.probe.Ok?
    ensures Count(ProbeCommand(config), r.commands) == (if available then 0 else 1)
    ensures !available ==> |r.commands| >= 1 && r.commands[0] == ProbeCommand(config)
  {
    var probes := if available then [] else [ProbeCommand(config)];
    var flag := available || c.probe.Ok?;
    if !flag && c.name == GatedTool then
      CallOutcome(flag, files, probes, Reply(NotAvailableText, true))
    else
      var route := RouteTool(c.name, c.args);
      var d := Dispatch(route, config, files, c.writeFault, c.outcome);
      CountAppend(ProbeCommand(config), probes, Log(d.command));
      if d.command.Some? then
        ScriptCommandIsNotProbe(config, ScriptPath(config, route.scriptName));
        CallOutcome(flag, d.files, probes + Log(d.command), d.reply)
      else
        CallOutcome(flag, d.files, probes + Log(d.command), d.reply)
  }

  /**
   * `execute_matlab_code` never saves or runs anything: while MATLAB is
   * unavailable it gets the not-available reply, and once available it is
   * an unknown tool. Only the probe may be issued.
   */
  lemma GatedCallAnswered(available: bool, files: map<string, string>, config: Config, c: ToolCall)
    requires c.name == GatedTool
    ensures var r := CallSpec(available, files, config, c);
            && r.files == files
            && r.commands == (if available then [] else [ProbeCommand(config)])
            && r.reply == (if available || c.probe.Ok? then Raised(McpError(MethodNotFound, "Unknown tool: " + GatedTool))
                           else Reply(NotAvailableText, true))
  {
    GatedToolIsUnknown(c.args);
  }

  /**
   * Every other tool is served whatever the probe says: the reply, the
   * directory and the commands after the probe are those of Dispatch.
   */
  lemma UngatedCallDispatches(available: bool, files: map<string, string>, config: Config, c: ToolCall)
    requires c.name != GatedTool
    ensures var r := CallSpec(available, files, config, c);
            var d := Dispatch(RouteTool(c.name, c.args), config, files, c.writeFault, c.outcome);
            && r.reply == d.reply && r.files == d.files
            && r.commands == (if available then [] else [ProbeCommand(config)]) + Log(d.command)
  {
  }

  /** What a session of calls has produced so far: the flag, the directory, the commands issued and the replies. */
  datatype Session = Session(available: bool, files: map<string, string>, log: seq<string>, replies: seq<ToolReply>)

  /** A session after one more call. */
  function CallStep(s: Session, config: Config, c: ToolCall): (t: Session)
    ensures |t.replies| == |s.replies| + 1
    ensures t.available <==> s.available || c.probe.Ok?
    ensures Count(ProbeCommand(config), t.log) == Count(ProbeCommand(config), s.log) + (if s.available then 0 else 1)
  {
    var r := CallSpec(s.available, s.files, config, c);
    CountAppend(ProbeCommand(config), s.log, r.commands);
    Session(r.available, r.files, s.log + r.commands, s.replies + [r.reply])
  }

  /**
   * A session of calls handled one after another, from state `s`: one reply
   * per call; the flag ends set iff it started set or some probe succeeded;
   * and the probe commands added to the log number exactly ProbesIssued.
   */
  function RunSession(s: Session, config: Config, calls: seq<ToolCall>): (t: Session)
    ensures |t.replies| == |s.replies| + |calls|
    ensures t.available <==> s.available || true in ProbeOks(calls)
    ensures Count(ProbeCommand(config), t.log) == Count(ProbeCommand(config), s.log) + ProbesIssued(s.available, ProbeOks(calls))
    decreases |calls|
  {
    if calls == [] then s
    else
      var n := |calls| - 1;
      var prev := RunSession(s, config, calls[..n]);
      var ok := calls[n].probe.Ok?;
      var t := CallStep(prev, config, calls[n]);
      ProbeOksSnoc(calls);
      var probe := ProbeCommand(config);
      ProbeCountStep(s.available, ProbeOks(calls[..n]), ok, prev.available,
                     Count(probe, s.log), Count(probe, prev.log), Count(probe, t.log));
      t
  }

  /** A session over the first i + 1 calls is the session over the first i followed by call i. */
  lemma RunSessionSnoc(s: Session, config: Config, calls: seq<ToolCall>, i: nat)
    requires i < |calls|
    ensures RunSession(s, config, calls[..i + 1]) == CallStep(RunSession(s, config, calls[..i]), config, calls[i])
  {
    assert calls[..i + 1][..i] == calls[..i];
  }

  /** A session over the first i + 1 calls extends the session over the first i by what call i does. */
  lemma SessionAdvance(s: Session, config: Config, calls: seq<ToolCall>, i: nat)
    requires i < |calls|
    ensures var prev := RunSession(s, config, calls[..i]);
            var r := CallSpec(prev.available, prev.files, config, calls[i]);
            RunSession(s, config, calls[..i + 1]) == Session(r.available, r.files, prev.log + r.commands, prev.replies + [r.reply])
  {
    RunSessionSnoc(s, config, calls, i);
  }

  /** Regrouping a log extended twice; CallTools needs it stated apart from its loop. */
  lemma AppendAssoc(a: seq<string>, b: seq<string>, c: seq<string>)
    ensures a + b + c == a + (b + c)
  {
  }

  /** The probe outcomes of a session with one more call. */
  lemma ProbeOksSnoc(calls: seq<ToolCall>)
    requires calls != []
    ensures ProbeOks(calls) == ProbeOks(calls[..|calls| - 1]) + [calls[|calls| - 1].probe.Ok?]
  {
  }

  /** The arithmetic of one more call in RunSession's probe count. */
  lemma ProbeCountStep(available: bool, oks: seq<bool>, ok: bool, prevAvailable: bool, before: nat, mid: nat, after: nat)
    requires prevAvailable <==> available || true in oks
    requires mid == before + ProbesIssued(available, oks)
    requires after == mid + (if prevAvailable then 0 else 1)
    ensures after == before + ProbesIssued(available, oks + [ok])
    ensures (prevAvailable || ok) <==> available || true in oks + [ok]
  {
    ProbesIssuedSnoc(available, oks, ok);
  }

  // ---------------------------------------------------------------------
  // The server object

  class MatlabMcpServer {
    const handler: MatlabHandler
    var matlabAvailable: bool

    constructor (config: Config, existing: map<string, string>)
      ensures fresh(handler) && handler.config == config && handler.files == existing && handler.issued == []
      ensures !matlabAvailable
    {
      handler := new MatlabHandler(config, existing);
      matlabAvailable := false;
    }

    /** ListResources, given what reading the temp directory returned. */
    method ListResources(listing: Option<seq<string>>) returns (resources: seq<Resource>)
      ensures resources == ResourceList(listing)
    {
      resources := [DocDescriptor()];
      if listing.Some? {
        var mFiles := MFiles(listing.value);
        for i := 0 to |mFiles|
          invariant resources == [DocDescriptor()] + Describe(mFiles[..i])
        {
          assert mFiles[..i + 1][..i] == mFiles[..i];
          resources := resources + [ScriptDescriptor(Stem(mFiles[i]))];
        }
        assert mFiles[..|mFiles|] == mFiles;
      }
    }

    /**
     * CallTool. `probe` is the outcome of the availability probe (run only
     * while the flag is unset), `writeFault` the failure of saving a script,
     * if any, and `outcome` that of running one.
     */
    method CallTool(name: string, args: map<string, string>, probe: ExecOutcome,
                    writeFault: Option<string>, outcome: ExecOutcome) returns (reply: ToolReply)
      modifies this`matlabAvailable, handler`files, handler`issued
      ensures var r := CallSpec(old(matlabAvailable), old(handler.files), handler.config, ToolCall(name, args, probe, writeFault, outcome));
              && matlabAvailable == r.available && handler.files == r.files && reply == r.reply
              && handler.issued == old(handler.issued) + r.commands
    {
      ghost var probes := if matlabAvailable then [] else [ProbeCommand(handler.config)];
      if !matlabAvailable {
        matlabAvailable := handler.CheckMatlabAvailability(probe);
        if !matlabAvailable && name == GatedTool {
          return Reply(NotAvailableText, true);
        }
      }
      ghost var d := Dispatch(RouteTool(name, args), handler.config, handler.files, writeFault, outcome);
      reply := Perform(RouteTool(name, args), writeFault, outcome);
      AppendAssoc(old(handler.issued), probes, Log(d.command));
    }

    /** The `switch` body of CallTool once a route is chosen: runs the handler the route selects. */
    method Perform(route: Route, writeFault: Option<string>, outcome: ExecOutcome) returns (reply: ToolReply)
      modifies handler`files, handler`issued
      ensures var d := Dispatch(route, handler.config, old(handler.files), writeFault, outcome);
              reply == d.reply && handler.files == d.files && handler.issued == old(handler.issued) + Log(d.command)
    {
      match route {
        case Rejected(error) =>
          reply := Raised(error);
        case GenerateRoute(scriptName, code) =>
          var result := handler.GenerateCode(scriptName, code, writeFault);
          reply := GenerateReply(scriptName, result);
        case ExecuteRoute(scriptName) =>
          var result := handler.ExecuteScript(scriptName, outcome);
          reply := ExecuteReply(scriptName, result);
      }
    }

    /**
     * A session of CallTool requests handled in order: the replies, the flag,
     * the directory and the commands issued are those of RunSession, so the
     * probe commands issued number exactly ProbesIssued.
     */
    method CallTools(calls: seq<ToolCall>) returns (replies: seq<ToolReply>)
      modifies this`matlabAvailable, handler`files, handler`issued
      ensures var t := RunSession(Session(old(matlabAvailable), old(handler.files), [], []), handler.config, calls);
              && replies == t.replies && matlabAvailable == t.available && handler.files == t.files
              && handler.issued == old(handler.issued) + t.log
      ensures Count(ProbeCommand(handler.config), handler.issued[|old(handler.issued)|..])
              == ProbesIssued(old(matlabAvailable), ProbeOks(calls))
    {
      ghost var start := Session(matlabAvailable, handler.files, [], []);
      replies := [];
      for i := 0 to |calls|
        invariant var t := RunSession(start, handler.config, calls[..i]);
                  && replies == t.replies && matlabAvailable == t.available && handler.files == t.files
                  && handler.issued == old(handler.issued) + t.log
      {
        ghost var prev := RunSession(start, handler.config, calls[..i]);
        var c := calls[i];
        assert ToolCall(c.name, c.args, c.probe, c.writeFault, c.outcome) == c;
        ghost var r := CallSpec(matlabAvailable, handler.files, handler.config, c);
        ghost var before := handler.issued;
        var reply := CallTool(c.name, c.args, c.probe, c.writeFault, c.outcome);
        replies := replies + [reply];
        assert handler.issued == before + r.commands;
        SessionAdvance(start, handler.config, calls, i);
        AppendAssoc(old(handler.issued), prev.log, r.commands);
      }
      assert calls[..|calls|] == calls;
      ghost var t := RunSession(start, handler.config, calls);
      assert handler.issued[|old(handler.issued)|..] == t.log;
    }
  }
}
