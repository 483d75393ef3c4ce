/**
 * The assistant's tool layer: the registry of tool definitions, dispatch by
 * name, binary fallback, the file tools over an abstract file system, window
 * control and the path cleaning of `list_files`.
 *
 * JSON decoding of a tool's arguments is abstract: the file tools take the
 * decoded fields, and dispatch passes the raw argument text on untouched.
 */
module Tools {
  import opened Wrappers
  import opened Text
  import opened Utf8

  // ---------------------------------------------------------------------
  // Registry and dispatch

  datatype ToolKind =
    | ReadFileTool | ListFilesTool | RunCommandTool | InitProjectTool
    | WriteFileTool | EditFileTool | ManageWindowTool

  /** A tool's name and description; `kind` stands for its Go handler. */
  datatype ToolDefinition = ToolDefinition(name: string, description: string, kind: ToolKind)

  const ReadFileDefinition := ToolDefinition("read_file",
    "Read the contents of a given relative file path.", ReadFileTool)
  const ListFilesDefinition := ToolDefinition("list_files",
    "List files in the project. Respects .gitignore.", ListFilesTool)
  const RunCommandDefinition := ToolDefinition("run_command",
    "Run a shell command. Use this for git commands like 'git diff', 'git status', 'git log'.",
    RunCommandTool)
  const InitProjectDefinition := ToolDefinition("init_project",
    "Initialize a new git project with a README and .gitignore. Can create a new directory.",
    InitProjectTool)
  const WriteFileDefinition := ToolDefinition("write_file",
    "Write content to a file. Creates the file if it doesn't exist, or overwrites it if it does.",
    WriteFileTool)
  const EditFileDefinition := ToolDefinition("edit_file",
    "Edit a file by replacing a specific block of text with new text. Uses exact string matching.",
    EditFileTool)
  const ManageWindowDefinition := ToolDefinition("manage_window",
    "Control the interface layout, such as opening or closing the sidebar to show terminal output.",
    ManageWindowTool)

  /** `GetAllToolDefinitions`: the seven tools in registration order. */
  function AllToolDefinitions(): (defs: seq<ToolDefinition>)
    ensures |defs| == 7
  {
    [ReadFileDefinition, ListFilesDefinition, RunCommandDefinition,
     InitProjectDefinition, WriteFileDefinition, EditFileDefinition, ManageWindowDefinition]
  }

  /** Where each handler sits in the registry. */
  function KindIndex(k: ToolKind): (i: nat)
    ensures i < 7
  {
    match k
    case ReadFileTool => 0
    case ListFilesTool => 1
    case RunCommandTool => 2
    case InitProjectTool => 3
    case WriteFileTool => 4
    case EditFileTool => 5
    case ManageWindowTool => 6
  }

  /** The registry holds one definition per handler, with pairwise distinct names. */
  lemma RegistryDistinct()
    ensures var defs := AllToolDefinitions();
      (forall i, j :: 0 <= i < j < |defs| ==> defs[i].name != defs[j].name)
      && (forall i, j :: 0 <= i < j < |defs| ==> defs[i].kind != defs[j].kind)
      && (forall k: ToolKind :: defs[KindIndex(k)].kind == k)
  {
  }

  /** The definition registered under `name`, if any. */
  function Lookup(name: string): Option<ToolDefinition> {
    LookupIn(AllToolDefinitions(), name)
  }

  /** The first definition in `defs` named `name`. */
  function LookupIn(defs: seq<ToolDefinition>, name: string): Option<ToolDefinition> {
    if defs == [] then None
    else if defs[0].name == name then Some(defs[0])
    else LookupIn(defs[1..], name)
  }

  /** A lookup finds a definition of that name, and fails only when there is none. */
  lemma {:induction false} LookupInSpec(defs: seq<ToolDefinition>, name: string)
    ensures LookupIn(defs, name).Some? ==>
      LookupIn(defs, name).value in defs && LookupIn(defs, name).value.name == name
    ensures LookupIn(defs, name).None? <==> forall i :: 0 <= i < |defs| ==> defs[i].name != name
  {
    if defs != [] && defs[0].name != name {
      LookupInSpec(defs[1..], name);
      assert forall i :: 1 <= i < |defs| ==> defs[i] == defs[1..][i - 1];
    }
  }

  /** The handler registered under `name`, if any, by the registered names. */
  function KindOf(name: string): Option<ToolKind> {
    if name == "read_file" then Some(ReadFileTool)
    else if name == "list_files" then Some(ListFilesTool)
    else if name == "run_command" then Some(RunCommandTool)
    else if name == "init_project" then Some(InitProjectTool)
    else if name == "write_file" then Some(WriteFileTool)
    else if name == "edit_file" then Some(EditFileTool)
    else if name == "manage_window" then Some(ManageWindowTool)
    else None
  }

  /** Each registered name names its own handler. */
  lemma KindOfName(i: nat)
    requires i < |AllToolDefinitions()|
    ensures KindOf(AllToolDefinitions()[i].name) == Some(AllToolDefinitions()[i].kind)
  {
    var defs := AllToolDefinitions();
    if i == 0 {
    } else if i == 1 {
    } else if i == 2 {
    } else if i == 3 {
    } else if i == 4 {
    } else if i == 5 {
    } else {
      assert defs[6] == ManageWindowDefinition;
    }
  }

  /** A name `KindOf` knows is the registered name of that handler. */
  lemma NameOfKind(name: string)
    requires KindOf(name).Some?
    ensures AllToolDefinitions()[KindIndex(KindOf(name).value)].name == name
  {
  }

  /** Looking a name up in the registry finds the handler `KindOf` names. */
  lemma LookupKind(name: string)
    ensures Lookup(name).Some? <==> KindOf(name).Some?
    ensures Lookup(name).Some? ==> Lookup(name).value.kind == KindOf(name).value
  {
    var defs := AllToolDefinitions();
    if KindOf(name).Some? {
      var i := KindIndex(KindOf(name).value);
      NameOfKind(name);
      LookupByName(i);
      RegistryDistinct();
    } else {
      forall i | 0 <= i < |defs|
        ensures defs[i].name != name
      {
        KindOfName(i);
      }
      LookupInSpec(defs, name);
    }
  }

  /** A tool's name finds that tool's own definition. */
  lemma LookupByName(i: nat)
    requires i < |AllToolDefinitions()|
    ensures Lookup(AllToolDefinitions()[i].name) == Some(AllToolDefinitions()[i])
  {
    var defs := AllToolDefinitions();
    LookupInSpec(defs, defs[i].name);
    RegistryDistinct();
    var d := Lookup(defs[i].name);
    var j :| 0 <= j < |defs| && defs[j] == d.value;
    assert i == j;
  }

  function UnknownTool(name: string): string {
    "unknown tool: " + name
  }

  /** `ExecuteToolByName`: runs the handler of the tool named `name` on the
      raw arguments; `run` stands for the handlers themselves. */
  method ExecuteToolByName(name: string, args: string, run: (ToolKind, string) -> Result<string>)
    returns (r: Result<string>)
    ensures KindOf(name).Some? ==> r == run(KindOf(name).value, args)
    ensures KindOf(name).None? ==> r == Fail(UnknownTool(name))
  {
    LookupKind(name);
    var defs := AllToolDefinitions();
    for i := 0 to |defs|
      invariant LookupIn(defs[i..], name) == Lookup(name)
    {
      assert defs[i..][1..] == defs[i + 1..];
      if defs[i].name == name {
        return run(defs[i].kind, args);
      }
    }
    return Fail(UnknownTool(name));
  }

  // ---------------------------------------------------------------------
  // Binary fallback

  /** `ResolveBinary`: `bin` if it is on the path; otherwise "python3" for
      "python" and "pip3" for "pip" when those are; otherwise `bin`. */
  function ResolveBinary(bin: string, available: set<string>): (r: string)
    ensures bin in available ==> r == bin
    ensures r == bin || r in available
    ensures r != bin <==>
      bin !in available && ((bin == "python" && "python3" in available) || (bin == "pip" && "pip3" in available))
    ensures r != bin ==> (bin == "python" && r == "python3") || (bin == "pip" && r == "pip3")
  {
    if bin in available then bin
    else if bin == "python" && "python3" in available then "python3"
    else if bin == "pip" && "pip3" in available then "pip3"
    else bin
  }

  // ---------------------------------------------------------------------
  // File tools over an abstract file system

  /** The working directory's regular files, by path. */
  type FileSystem = map<string, seq<byte>>

  /** The 100 KiB limit of `read_file`. */
  const MaxReadSize: nat := 100 * 1024

  const Denied := "access denied: .env files are protected"
  const TooLarge := "skipped: file too large (>100KB)"
  const Binary := "skipped: appears to be binary"

  /** The `.env` guard: any path that ends in ".env". */
  predicate Protected(path: string) {
    HasSuffix(path, ".env")
  }

  function NotFound(op: string, path: string): string {
    op + " " + path + ": no such file or directory"
  }

  /** What `read_file` reports: the header fields and the content. */
  datatype ReadReport = ReadReport(path: string, size: nat, lines: nat, content: seq<byte>)

  /** The text `read_file` returns for a report. */
  function Render(r: ReadReport): string {
    "File: " + r.path + "\nSize: " + NatToString(r.size) + " bytes\nLines: "
      + NatToString(r.lines) + "\n\n"
  }

  /** `ReadFile`: the `.env` guard, then the stat, then the size limit, then
      the UTF-8 check; on success the size in bytes and one more line than
      there are newline bytes. */
  function ReadFile(path: string, fs: FileSystem): (r: Result<ReadReport>)
    ensures Protected(path) ==> r == Fail(Denied)
    ensures !Protected(path) && path !in fs ==> r == Fail(NotFound("stat", path))
    ensures !Protected(path) && path in fs && |fs[path]| > MaxReadSize ==> r == Fail(TooLarge)
    ensures !Protected(path) && path in fs && |fs[path]| <= MaxReadSize && !Valid(fs[path]) ==> r == Fail(Binary)
    ensures r.Ok? <==> !Protected(path) && path in fs && |fs[path]| <= MaxReadSize && Valid(fs[path])
    ensures r.Ok? ==> r.value == ReadReport(path, |fs[path]|, CountOf(fs[path], 10) + 1, fs[path])
  {
    if Protected(path) then Fail(Denied)
    else if path !in fs then Fail(NotFound("stat", path))
    else
      var content := fs[path];
      if |content| > MaxReadSize then Fail(TooLarge)
      else if !Valid(content) then Fail(Binary)
      else Ok(ReadReport(path, |content|, CountOf(content, 10) + 1, content))
  }

  function SearchNotFound(path: string): string {
    "search block not found in " + path + ". Ensure exact match (including whitespace)."
  }

  /** `EditFile`: replaces the first occurrence of the UTF-8 encoding of
      `search` in the file by that of `replacement`; `writeError` stands for
      a failing write. The file system changes only on success. */
  function EditFile(path: string, search: string, replacement: string, writeError: Option<string>,
    fs: FileSystem): (r: (Result<string>, FileSystem))
    ensures Protected(path) ==> r.0 == Fail(Denied)
    ensures !Protected(path) && path !in fs ==> r.0 == Fail("failed to read file: " + NotFound("open", path))
    ensures !Protected(path) && path in fs && !Contains(fs[path], Encode(search)) ==>
      r.0 == Fail(SearchNotFound(path))
    ensures r.0.Ok? <==>
      !Protected(path) && path in fs && Contains(fs[path], Encode(search)) && writeError.None?
    ensures r.0.Ok? ==> (r.0.value == "Successfully edited " + path
      && r.1 == fs[path := ReplaceFirst(fs[path], Encode(search), Encode(replacement))])
    ensures r.0.Fail? ==> r.1 == fs
  {
    if Protected(path) then (Fail(Denied), fs)
    else if path !in fs then (Fail("failed to read file: " + NotFound("open", path)), fs)
    else
      var content := fs[path];
      var pattern := Encode(search);
      if !Contains(content, pattern) then (Fail(SearchNotFound(path)), fs)
      else
        var edited := ReplaceFirst(content, pattern, Encode(replacement));
        if writeError.Some? then (Fail("failed to write file: " + writeError.value), fs)
        else (Ok("Successfully edited " + path), fs[path := edited])
  }

  /** `WriteFile`: creates the parent directory (`mkdirError` stands for a
      failure there) and replaces the file's content. The reported length is
      the number of bytes, which Go's `len` of a string counts. */
  function WriteFile(path: string, content: string, mkdirError: Option<string>,
    writeError: Option<string>, fs: FileSystem): (r: (Result<string>, FileSystem))
    ensures Protected(path) ==> r.0 == Fail(Denied)
    ensures !Protected(path) && mkdirError.Some? ==>
      r.0 == Fail("failed to create directory: " + mkdirError.value)
    ensures r.0.Ok? <==> !Protected(path) && mkdirError.None? && writeError.None?
    ensures r.0.Ok? ==> (r.1 == fs[path := Encode(content)]
      && r.0.value == "Successfully wrote to " + path + " (Length: "
        + NatToString(|Encode(content)|) + " characters)")
    ensures r.0.Fail? ==> r.1 == fs
  {
    if Protected(path) then (Fail(Denied), fs)
    else if mkdirError.Some? then (Fail("failed to create directory: " + mkdirError.value), fs)
    else if writeError.Some? then (Fail("failed to write file: " + writeError.value), fs)
    else
      var bytes := Encode(content);
      (Ok("Successfully wrote to " + path + " (Length: " + NatToString(|bytes|) + " characters)"),
       fs[path := bytes])
  }

  /** What `write_file` stores, `read_file` gives back, up to the size limit. */
  lemma WriteThenRead(path: string, content: string, fs: FileSystem)
    requires !Protected(path) && |Encode(content)| <= MaxReadSize
    ensures var w := WriteFile(path, content, None, None, fs);
      ReadFile(path, w.1) == Ok(ReadReport(path, |Encode(content)|,
        CountOf(Encode(content), 10) + 1, Encode(content)))
  {
    var bytes := Encode(content);
    var w := WriteFile(path, content, None, None, fs);
    assert w.0.Ok?;
    var stored := fs[path := bytes];
    assert w.1 == stored;
    EncodeValid(content);
    ReadStored(path, stored);
  }

  lemma ReadStored(path: string, fs: FileSystem)
    requires !Protected(path) && path in fs && |fs[path]| <= MaxReadSize && Valid(fs[path])
    ensures ReadFile(path, fs) == Ok(ReadReport(path, |fs[path]|, CountOf(fs[path], 10) + 1, fs[path]))
  {
  }

  /** No file tool reads or changes a protected path. */
  lemma ProtectedUntouched(path: string, search: string, replacement: string, content: string,
    mkdirError: Option<string>, writeError: Option<string>, fs: FileSystem)
    requires Protected(path)
    ensures ReadFile(path, fs).Fail?
    ensures EditFile(path, search, replacement, writeError, fs).1 == fs
    ensures WriteFile(path, content, mkdirError, writeError, fs).1 == fs
  {
  }

  // ---------------------------------------------------------------------
  // Window control

  /** `ManageWindow`: only "open" and "close" are accepted. */
  function ManageWindow(action: string, target: string): (r: Result<string>)
    ensures r.Ok? <==> action == "open" || action == "close"
    ensures r.Fail? ==> r.error == "invalid action: " + action
    ensures r.Ok? ==> r.value == "Window action '" + action + "' triggered for target '" + target + "'"
  {
    if action != "open" && action != "close" then Fail("invalid action: " + action)
    else Ok("Window action '" + action + "' triggered for target '" + target + "'")
  }

  // ---------------------------------------------------------------------
  // Path cleaning of `list_files`

  /** The paths `list_files` never shows, whatever produced the listing. */
  predicate Excluded(path: string) {
    HasPrefix(path, ".git/") || HasPrefix(path, "bin/")
    || path == "agent" || path == "trace" || path == ".env"
  }

  predicate Keep(path: string) {
    path != "" && !Excluded(path)
  }

  /** The trimmed paths that survive the filter, in listing order. */
  function Clean(paths: seq<string>): (r: seq<string>)
    ensures |r| <= |paths|
    ensures forall k :: 0 <= k < |r| ==> Keep(r[k]) && TrimSpace(r[k]) == r[k]
  {
    if paths == [] then []
    else
      var rest := Clean(paths[..|paths| - 1]);
      var p := TrimSpace(paths[|paths| - 1]);
      TrimSpaceIdempotent(paths[|paths| - 1]);
      if Keep(p) then rest + [p] else rest
  }

  /** Every listed line, trimmed. */
  function TrimAll(paths: seq<string>): (r: seq<string>)
    ensures |r| == |paths| && forall i :: 0 <= i < |paths| ==> r[i] == TrimSpace(paths[i])
  {
    if paths == [] then [] else TrimAll(paths[..|paths| - 1]) + [TrimSpace(paths[|paths| - 1])]
  }

  /** A path is kept exactly when some listed line trims to it and it passes the filter. */
  lemma {:induction false} CleanMembers(paths: seq<string>, x: string)
    ensures x in Clean(paths) <==> Keep(x) && x in TrimAll(paths)
  {
    if paths != [] {
      var init := paths[..|paths| - 1];
      CleanMembers(init, x);
      CleanStep(paths);
    }
  }

  lemma CleanStep(paths: seq<string>)
    requires paths != []
    ensures var p := TrimSpace(paths[|paths| - 1]);
      Clean(paths) == Clean(paths[..|paths| - 1]) + (if Keep(p) then [p] else [])
    ensures TrimAll(paths) == TrimAll(paths[..|paths| - 1]) + [TrimSpace(paths[|paths| - 1])]
  {
  }

  lemma CleanPrefix(paths: seq<string>, i: nat)
    requires i < |paths|
    ensures var p := TrimSpace(paths[i]);
      Clean(paths[..i + 1]) == Clean(paths[..i]) + (if Keep(p) then [p] else [])
  {
    assert paths[..i + 1][..i] == paths[..i];
    assert paths[..i + 1][i] == paths[i];
  }

  /** The cleaning loop of `ListFiles`, then `sort.Strings`. */
  method CleanAndSort(paths: seq<string>) returns (r: seq<string>)
    ensures r == SortStrings(Clean(paths))
    ensures Sorted(r) && multiset(r) == multiset(Clean(paths))
  {
    var clean: seq<string> := [];
    for i := 0 to |paths|
      invariant clean == Clean(paths[..i])
    {
      CleanPrefix(paths, i);
      var path := TrimSpace(paths[i]);
      if path == "" {
        continue;
      }
      if HasPrefix(path, ".git/") || HasPrefix(path, "bin/")
        || path == "agent" || path == "trace" || path == ".env" {
        continue;
      }
      clean := clean + [path];
    }
    assert paths[..|paths|] == paths;
    SortStringsSpec(clean);
    r := SortStrings(clean);
  }
}
