/**
 * Start-up of the program: the client configuration read from the
 * environment, the project's file list taken from `git ls-files`, the
 * system prompt, and the initial UI model built from them. The environment
 * is a map of variables to values; the git run and the prompt file read
 * are parameters holding what they produced.
 */
module Startup {
  import opened Wrappers
  import opened Text
  import Session
  import Ui

  /** `os.Getenv`: the value of a variable, or "" when it is unset. */
  function Getenv(env: map<string, string>, name: string): string {
    if name in env then env[name] else ""
  }

  // ---------------------------------------------------------------------
  // Client configuration

  /** The credential the client sends: `PROVIDER_API_KEY`, or else
      `PROVIDER_AUTH_TOKEN`. */
  function ApiKey(apiKey: string, authToken: string): (key: string)
    ensures apiKey != "" ==> key == apiKey
    ensures apiKey == "" ==> key == authToken
    ensures key == "" <==> apiKey == "" && authToken == ""
  {
    if apiKey == "" && authToken != "" then authToken else apiKey
  }

  /** The endpoint: `PROVIDER_BASE_URL` when it is set and non-empty,
      otherwise the client library's default. */
  function BaseUrl(defaultUrl: string, override: string): (url: string)
    ensures override != "" ==> url == override
    ensures override == "" ==> url == defaultUrl
  {
    if override != "" then override else defaultUrl
  }

  datatype Config = Config(apiKey: string, baseUrl: string)

  /** The configuration built from the environment. */
  function Configure(env: map<string, string>, defaultUrl: string): (c: Config)
    ensures c.apiKey == ApiKey(Getenv(env, "PROVIDER_API_KEY"), Getenv(env, "PROVIDER_AUTH_TOKEN"))
    ensures c.baseUrl == BaseUrl(defaultUrl, Getenv(env, "PROVIDER_BASE_URL"))
  {
    Config(ApiKey(Getenv(env, "PROVIDER_API_KEY"), Getenv(env, "PROVIDER_AUTH_TOKEN")),
           BaseUrl(defaultUrl, Getenv(env, "PROVIDER_BASE_URL")))
  }

  /** An environment that sets the API key keeps it, whatever the token. */
  lemma ApiKeyWins(env: map<string, string>, defaultUrl: string)
    requires "PROVIDER_API_KEY" in env && env["PROVIDER_API_KEY"] != ""
    ensures Configure(env, defaultUrl).apiKey == env["PROVIDER_API_KEY"]
  {
  }

  /** With the API key unset or empty, the token is used, and with neither
      the credential is empty. */
  lemma TokenFallback(env: map<string, string>, defaultUrl: string)
    requires Getenv(env, "PROVIDER_API_KEY") == ""
    ensures Configure(env, defaultUrl).apiKey == Getenv(env, "PROVIDER_AUTH_TOKEN")
  {
  }

  /** An unset or empty `PROVIDER_BASE_URL` leaves the default endpoint. */
  lemma DefaultEndpoint(env: map<string, string>, defaultUrl: string)
    requires Getenv(env, "PROVIDER_BASE_URL") == ""
    ensures Configure(env, defaultUrl).baseUrl == defaultUrl
  {
  }

  // ---------------------------------------------------------------------
  // System prompt

  const DefaultPrompt := "You are Trace, a helpful AI coding assistant."

  /** The prompt read from `system_prompt.md`, or the built-in one when the
      read fails. */
  function SystemPrompt(read: Result<string>): (p: string)
    ensures read.Ok? ==> p == read.value
    ensures read.Fail? ==> p == DefaultPrompt
  {
    if read.Ok? then read.value else DefaultPrompt
  }

  // ---------------------------------------------------------------------
  // `listProjectFiles`

  /** A trimmed line that names a project file: not empty, not git's own
      files (any name starting with ".git", ".gitignore" among them), not
      the built binaries and not the secrets file. */
  predicate Kept(l: string) {
    l != "" && !HasPrefix(l, ".git") && l != "agent" && l != "trace" && !HasPrefix(l, "bin/") && l != ".env"
  }

  /** The lines of git's output, trimmed and filtered, in their order. */
  function Clean(lines: seq<string>): seq<string> {
    if lines == [] then []
    else
      var l := TrimSpace(lines[|lines| - 1]);
      Clean(lines[..|lines| - 1]) + (if Kept(l) then [l] else [])
  }

  /** `listProjectFiles`: git's output split into lines and cleaned, or the
      empty list with git's error. */
  method ListProjectFiles(git: Result<string>) returns (files: seq<string>, err: Option<string>)
    ensures git.Fail? ==> files == [] && err == Some(git.error)
    ensures git.Ok? ==> files == Clean(Split(git.value, '\n')) && err == None
  {
    if git.Fail? {
      return [], Some(git.error);
    }
    var lines := Split(git.value, '\n');
    var clean: seq<string> := [];
    for i := 0 to |lines|
      invariant clean == Clean(lines[..i])
    {
      var l := TrimSpace(lines[i]);
      assert lines[..i + 1][..i] == lines[..i];
      if Kept(l) {
        clean := clean + [l];
      }
    }
    assert lines[..|lines|] == lines;
    return clean, None;
  }

  /** Every listed entry is trimmed and passes the filter. */
  lemma {:induction false} CleanEntries(lines: seq<string>)
    ensures forall k :: 0 <= k < |Clean(lines)| ==>
      Kept(Clean(lines)[k]) && TrimSpace(Clean(lines)[k]) == Clean(lines)[k]
  {
    if lines != [] {
      var init := lines[..|lines| - 1];
      var l := TrimSpace(lines[|lines| - 1]);
      CleanEntries(init);
      TrimSpaceIdempotent(lines[|lines| - 1]);
      assert Clean(lines) == Clean(init) + (if Kept(l) then [l] else []);
    }
  }

  /** The filter works line by line: cleaning two runs of lines one after
      the other gives the two cleaned runs in the same order, so the list is
      never reordered. */
  lemma {:induction false} CleanAppend(a: seq<string>, b: seq<string>)
    ensures Clean(a + b) == Clean(a) + Clean(b)
    decreases |b|
  {
    if b == [] {
      assert a + b == a;
    } else {
      var n := |b| - 1;
      var l := TrimSpace(b[n]);
      assert (a + b)[..|a + b| - 1] == a + b[..n];
      assert (a + b)[|a + b| - 1] == b[n];
      CleanAppend(a, b[..n]);
    }
  }

  /** A single line is listed as its trim, if that passes the filter.
      With `CleanAppend` this determines the whole listing: each line
      contributes its own entry or nothing, in git's order. */
  lemma CleanOne(l: string)
    ensures Clean([l]) == if Kept(TrimSpace(l)) then [TrimSpace(l)] else []
  {
    assert [l][..0] == [];
  }

  /** `.gitignore` is one of git's own files and is dropped. */
  lemma ExampleGitFile()
    ensures Clean([".gitignore"]) == []
  {
    TrimSpaceOfTrimmed(".gitignore");
    assert !Kept(".gitignore") by { assert HasPrefix(".gitignore", ".git"); }
    CleanOne(".gitignore");
  }

  // ---------------------------------------------------------------------
  // `main`, without the logger, the terminal program and the client

  /** Builds the initial UI model from the git listing (its error ignored)
      and the system prompt. */
  method Launch(git: Result<string>, promptRead: Result<string>) returns (m: Ui.Model)
    ensures fresh(m)
    ensures m.Valid()
    ensures m.Snapshot() == Session.Initial(if git.Ok? then Clean(Split(git.value, '\n')) else [], SystemPrompt(promptRead))
  {
    var files, _ := ListProjectFiles(git);
    var sysPrompt := SystemPrompt(promptRead);
    m := new Ui.Model(files, sysPrompt);
  }
}
