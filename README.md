# Trace, modelled in Dafny

Trace is a terminal coding assistant. The user types into a text area, tags
project files with `@path` and sends the message. A chat model answers, and it
may call tools in between: read, write or edit a file, list the project, run a
command, or open and close the sidebar. This project models the core of that
program and proves what it keeps:

- **Tool layer** (`pkg/agent/tools.go`):
  - the registry and dispatch by name;
  - binary fallback;
  - the `.env`, size and UTF-8 guards of the file tools, over an abstract file system;
  - the first-occurrence replacement of `edit_file`;
  - the cleaning and sorting of `list_files`, and the recursive `buildFileTree`;
  - `manage_window`'s validation.
  
  Modules `Tools`, `Utf8`, `FileTree` and `ListFilesTool` (files `tools.dfy`, `utf8.dfy`, `filetree.dfy`, `listfiles.dfy`).
- **The agentic loop `InvokeAI`** (`pkg/ui/commands.go`): up to ten requests. A `run_command` or `manage_window` call suspends the loop and hands control to the UI. Module `Agent` (`agent.dfy`): methods `InvokeAI`, `RunLoop`, `Iterate` and `RunToolCalls` with `for` loops, proved equal to the functions `Invoke`, `Bounded` and `Step`.
- **The UI state machine** (`pkg/ui/model.go`, `pkg/ui/update.go`):
  - Module `Session` (`session.dfy`) defines each handler of `Model.Update` on a value `State`, and proves what the handlers keep.
  - Module `Ui` (`ui.dfy`) is the `Model` class. Its fields are updated step by step by the handler methods, the autocomplete loops and `resolveFileTags`. Each method is proved to compute the corresponding `Session` step.
- **Start-up** (`main.go`): the API-key and base-URL fallbacks, the system prompt fallback and the `listProjectFiles` loop. Module `Startup` (`startup.dfy`).
- **The parts together**: module `Conversation` (`conversation.dfy`). The UI, on the messages the loop produces, keeps tool messages paired with the calls they answer.

Go's string functions are modelled on `seq<char>` in module `Text` (`Fields`, `Join`, `Split`, `TrimSpace`, `Contains`, `Replace`, `Count`, `sort.Strings`). `Chat`, `Events` and `Wrappers` hold:
- the message records;
- the `tea.Msg` variants and the commands (`Effect`);
- `Option` and `Result`.

Effects beyond the model are parameters:
- the completion endpoint `endpoint(i, messages)`;
- the JSON decoders of tool arguments;
- the tool handlers;
- the set of binaries on the path;
- a `map` for the file system;
- the output of `git ls-files`;
- the environment variables.

Where the code and the written description of the program differ, the model follows the code:
- Autocomplete matches candidates by substring (`strings.Contains`), so `@ma` offers `main.go`, but not `model.go`.
- `list_files` drops paths starting with `.git/`, while `listProjectFiles` in `main.go` drops every path starting with `.git`, `.gitignore` included.

Two properties of the code as written come out of the proofs:
- `Conversation.SubmitDuringCommand`: a message typed while a command runs is appended to the history between the assistant's tool call and the tool message that answers it. The history sent next is then not paired.
- A batch whose first call suspends the loop leaves the later calls of that batch unanswered. `Agent.RunCallsFirst` states which calls are answered.

## Model

| member | source | states |
|---|---|---|
| Tools.RegistryDistinct | pkg/agent/tools.go:37-47 | the registry holds seven definitions with pairwise distinct names and handlers, each handler at its own index |
| Tools.LookupInSpec | pkg/agent/tools.go:50-57 | the name search finds a definition of that name, and fails exactly when no definition has it |
| Tools.LookupKind | pkg/agent/tools.go:50-57 | a name is found in the registry exactly when it is one of the seven tool names, and the found definition has that tool's handler |
| Tools.LookupByName | pkg/agent/tools.go:50-57 | searching for a registered tool's name finds that tool's own definition |
| Tools.ExecuteToolByName | pkg/agent/tools.go:50-57 | the loop runs the handler of the tool with that name on the raw arguments, or fails with "unknown tool: " and the name |
| Tools.ResolveBinary | pkg/agent/tools.go:260-278 | a binary on the path is kept; otherwise python becomes python3 and pip becomes pip3 when those are on the path, and nothing else changes |
| Tools.ReadFile | pkg/agent/tools.go:72-105 | the guards in order (`.env` suffix, missing file, over 100 KiB, invalid UTF-8), each with its error; success exactly when all pass, reporting the size in bytes and newline count plus one |
| Tools.EditFile | pkg/agent/tools.go:373-403 | the guards and errors of `edit_file`; success exactly when the file exists, contains the search text and the write succeeds; then only the first occurrence is replaced, and on failure the file system is unchanged |
| Tools.WriteFile | pkg/agent/tools.go:422-445 | the `.env` and directory guards; on success the file holds the UTF-8 bytes of the content and the reported length is their number, and on failure nothing changes |
| Tools.WriteThenRead | pkg/agent/tools.go:422-445 | what `write_file` stores, `read_file` returns, with its size and line count, when it fits the size limit |
| Tools.ProtectedUntouched | pkg/agent/tools.go:79-81 | for a path ending in `.env`, reading fails and editing or writing leaves every file unchanged |
| Tools.ManageWindow | pkg/agent/tools.go:461-472 | only "open" and "close" are accepted, with the confirmation text; any other action fails with "invalid action: " |
| Tools.Clean | pkg/agent/tools.go:161-181 | every path kept is trimmed, non-empty and not excluded (`.git/`, `bin/`, `agent`, `trace`, `.env`) |
| Tools.CleanMembers | pkg/agent/tools.go:161-181 | a path is kept exactly when some listed line trims to it and it passes the filter |
| Tools.CleanAndSort | pkg/agent/tools.go:161-183 | the cleaning loop and `sort.Strings`: the result is sorted and is a permutation of the cleaned paths |
| Text.SortStringsSpec | pkg/agent/tools.go:183 | the sort returns a sorted permutation of its input |
| Text.SortedUnique | pkg/agent/tools.go:235 | two sorted permutations of one list are equal, so the sorted order is unique |
| Text.JoinSplit | pkg/agent/tools.go:215-221 | joining the pieces of a split with the separator gives the text back |
| Text.FieldsOfJoinSpace | pkg/ui/update.go:118-121 | splitting into fields the words joined by single spaces gives the words back |
| Text.TrimSpaceIdempotent | pkg/agent/tools.go:164 | trimming white space twice is trimming once |
| Text.ContainsIff | pkg/ui/update.go:301 | `Contains` holds exactly when the text occurs at some position |
| Text.ReplaceFirst | pkg/agent/tools.go:397 | the first occurrence is replaced and the text before it is kept; without an occurrence the text is unchanged |
| Text.CountOf | pkg/agent/tools.go:104 | the count of a byte is at most the length, and is zero exactly when the byte does not occur |
| Utf8.EncodeValid | pkg/agent/tools.go:99 | the bytes of any Go string built from text are valid UTF-8 |
| FileTree.GroupByFirstSegment | pkg/agent/tools.go:214-224 | the first loop lists the paths without a slash in input order, and maps each first segment to the remainders of its paths in order |
| FileTree.SortedKeys | pkg/agent/tools.go:231-235 | the directory names are the map's keys, each once, sorted |
| FileTree.BuildFileTree | pkg/agent/tools.go:207-242 | the recursive method builds exactly the tree `Build` defines |
| FileTree.BuildLeaves | pkg/agent/tools.go:226-229 | the root files come first, as leaves, in input order |
| FileTree.BuildSubtrees | pkg/agent/tools.go:237-240 | after the leaves, one subtree per sorted directory name, built from its group |
| FileTree.DirsSortedOnce | pkg/agent/tools.go:231-235 | the subtree names are sorted, each once |
| FileTree.RootFilesMembers | pkg/agent/tools.go:216-218 | the root files are exactly the inputs without a slash |
| FileTree.DirsMembers | pkg/agent/tools.go:219-223 | the subtree names are exactly the first segments of the nested inputs |
| FileTree.PrefixGroup | pkg/agent/tools.go:219-223 | putting the directory back in front of each remainder of a group gives the group's original paths |
| FileTree.EveryPathOneLeaf | pkg/agent/tools.go:207-242 | the full paths of the tree's leaves are a permutation of the input: each path appears once as a leaf per occurrence in the input |
| ListFilesTool.RootName | pkg/agent/tools.go:186-189 | the tree's root is "Project" for the current directory and the directory otherwise |
| ListFilesTool.ListFiles | pkg/agent/tools.go:120-203 | a failed walk reports its error; otherwise the tree is built under the root name from the sorted cleaned lines of git's output or of the walk |
| ListFilesTool.ListedLeaves | pkg/agent/tools.go:160-196 | the tree's leaves are a permutation of the cleaned lines, and a path is a leaf exactly when some line trims to it and it passes the filter |
| Agent.Suspension | pkg/ui/commands.go:143-174 | a decodable `run_command` or `manage_window` call stops the loop with a command to run or a window action |
| Agent.RunToolCalls | pkg/ui/commands.go:140-192 | the inner loop computes what `RunCalls` defines |
| Agent.RunCallsAll | pkg/ui/commands.go:140-192 | when no call suspends, every call is answered by one tool message, in order, and the loop goes on |
| Agent.RunCallsFirst | pkg/ui/commands.go:140-192 | the first suspending call stops the batch, with exactly the calls before it answered |
| Agent.RunCallsStops | pkg/ui/commands.go:140-192 | a batch stops exactly when one of its calls suspends, and then with a command or a window action |
| Agent.RunCallsExtends | pkg/ui/commands.go:137-191 | the tool messages are appended: the history the batch hands on extends the one it started from |
| Agent.Iterate | pkg/ui/commands.go:105-211 | one iteration computes what `Step` defines |
| Agent.StepKinds | pkg/ui/commands.go:113-211 | a stopping step delivers a reply, a command, a window action, an API error or "no response from model" |
| Agent.StepExtends | pkg/ui/commands.go:128-211 | a reply ends with the assistant's final message, and every history handed on extends the one sent |
| Agent.LoopStep | pkg/ui/commands.go:104-212 | one pass of the `for` loop: it stops with the step's message or continues with the extended history |
| Agent.RunLoop | pkg/ui/commands.go:104-215 | the bounded loop computes what `Bounded` defines |
| Agent.InvokeAI | pkg/ui/commands.go:89-217 | an empty model name gives the missing-model error before any request; otherwise the bounded loop runs on a copy of the history |
| Agent.AttemptsBound | pkg/ui/commands.go:104-215 | the loop sends at least one and at most ten requests, and ten whenever it reports too many iterations, an error text distinct from the API-error and no-response texts |
| Agent.LoopContract | pkg/ui/commands.go:104-215 | the loop ends with a reply, a command, a window action or an error other than the missing model, after one to ten requests |
| Agent.InvokeContract | pkg/ui/commands.go:89-217 | `InvokeAI` delivers an agent result; it reports the missing model exactly when the name is empty, and then sends no request; otherwise it sends one to ten, and ten when it gives up |
| Agent.FirstReplyFinal | pkg/ui/commands.go:119-211 | when the first reply has no tool calls, the invocation sends one request and delivers that answer with the conversation plus exactly one assistant message |
| Agent.InvokeExtends | pkg/ui/commands.go:98-211 | the history a result carries extends the conversation given, by at least one message, and a reply's ends with its content |
| Agent.AppendTool | pkg/ui/commands.go:186-191 | a tool message for a pending call keeps the history paired |
| Agent.AppendAssistant | pkg/ui/commands.go:132-137 | an assistant message keeps the history paired and makes its calls the pending ones |
| Agent.RunCallsPaired | pkg/ui/commands.go:140-192 | answering pending calls keeps the history paired, and a suspended call's id stays pending |
| Agent.StepPaired | pkg/ui/commands.go:113-211 | one step keeps the history paired |
| Agent.InvokePaired | pkg/ui/commands.go:89-217 | an invocation keeps tool messages paired with the calls they answer, and a suspended call's id is pending in the history it carries |
| Session.Initial | pkg/ui/model.go:58-107 | the initial session is Idle with nothing queued; the history holds the system prompt and the greeting exactly when the prompt is non-empty |
| Session.MatchingSpec | pkg/ui/update.go:299-307 | a file is a match exactly when it contains the search text or the search is empty |
| Session.MatchingPrefix | pkg/ui/update.go:299-307 | matching a prefix of the files gives a prefix of the matches, so stopping early keeps the order |
| Session.CandidatesSpec | pkg/ui/update.go:298-307 | at most ten candidates, the first matches in file order, each a known file containing the search |
| Session.TagQuerySpec | pkg/ui/update.go:280-297 | the autocomplete query is `q` exactly when the last field is `@q` and `q` is not already a known file |
| Session.RecomputeSpec | pkg/ui/update.go:276-322 | the list is shown exactly when the input ends in a query with candidates; it then holds them and keeps the selection when in range; nothing else changes |
| Session.ShownIsStable | pkg/ui/update.go:276-322 | a shown list is what the input calls for, so recomputing it changes nothing |
| Session.RecomputeIdempotent | pkg/ui/update.go:276-322 | recomputing twice is recomputing once |
| Session.KeysOnShownList | pkg/ui/update.go:94-110 | on a shown list, Up and Down move the selection one step and stop at the ends, and Esc hides the list until the next message |
| Session.HiddenUntilNextMessage | pkg/ui/update.go:276-322 | a list hidden by Esc comes back, with the same selection, on the next message that falls through to the recomputation, such as a resize or a cursor blink |
| Session.AltEnterKeeps | pkg/ui/update.go:92-168 | Alt+Enter on a shown list neither confirms nor submits; the session stays as it is |
| Session.CancelQuits | pkg/ui/update.go:94-100 | Esc or Ctrl+C with no list shown quits and changes nothing |
| Session.ConfirmCompletes | pkg/ui/update.go:111-125 | accepting a candidate always hides the list and makes the input the earlier fields and `@` plus the file, joined by single spaces, with one trailing space; for a file name without white space the fields are then those words and the next recomputation keeps the list hidden |
| Session.ReferencedSpec | pkg/ui/update.go:388-404 | a file is referenced exactly when it is known and some word is `@` followed by it |
| Session.ReferencedAppend | pkg/ui/update.go:388-404 | references are listed in the order of the words |
| Session.ResolveTagsSpec | pkg/ui/update.go:388-411 | the message starts with the input; it is the input itself exactly when nothing is referenced, and otherwise the input plus one hint listing the references |
| Session.SubmitSpec | pkg/ui/update.go:140-166 | Enter sends one user message with the resolved text and clears the input; from Idle it invokes the model, while Thinking it also queues the text at the tail |
| Session.AiCompleteSpec | pkg/ui/update.go:176-191 | with an empty queue the session becomes Idle; otherwise exactly the queue's head becomes the next user message and the model is invoked |
| Session.ErrorSpec | pkg/ui/update.go:193-201 | an error adds one assistant message and makes the session Idle, and the queue stays as it was |
| Session.WindowControlSpec | pkg/ui/update.go:28-53 | "open" shows the sidebar, "close" hides it, and other actions keep it; the history becomes the loop's plus one tool message |
| Session.FeedSpec | pkg/ui/update.go:217-237 | output lines are appended to the buffer, newline-terminated, whether or not the sidebar shows them; nothing else changes |
| Session.CommandRoundTrip | pkg/ui/update.go:205-272 | a command request, its lines and its end leave the loop's history plus one tool message. That message carries the output unless the sidebar showed it. The buffer is emptied and the model invoked again |
| Session.RecomputeValid | pkg/ui/update.go:276-322 | when every listed entry is a known file, the recomputation yields a valid state: a shown list holds the candidates of the input's query and the selection is in range |
| Session.KeyValid | pkg/ui/update.go:92-168 | every key keeps the autocomplete invariant and the file list |
| Session.AiCompleteValid | pkg/ui/update.go:176-191 | the completion step keeps the autocomplete invariant |
| Session.InitialValid | pkg/ui/model.go:58-107 | the initial session satisfies the autocomplete invariant |
| Session.UpdateValid | pkg/ui/update.go:17-333 | every message keeps the autocomplete invariant and the file list |
| Ui.Model.constructor | pkg/ui/model.go:58-107 | `InitialModel` builds the initial session, which is valid |
| Ui.Model.Init | pkg/ui/model.go:110-116 | `Init` invokes the model on the initial history |
| Ui.Model.IsKnown | pkg/ui/update.go:287-293 | the search loop finds the path exactly when it is a known file |
| Ui.Model.CollectCandidates | pkg/ui/update.go:298-307 | the candidate loop, stopping at ten, computes the candidates |
| Ui.Model.RecomputeAutocomplete | pkg/ui/update.go:276-322 | the autocomplete update on the fields is the recomputation |
| Ui.Model.ResolveFileTags | pkg/ui/update.go:388-411 | the tag loop computes the message `ResolveTags` defines |
| Ui.Model.ConfirmSelection | pkg/ui/update.go:111-125 | replacing the last word on the fields is `Confirm` |
| Ui.Model.SubmitInput | pkg/ui/update.go:140-166 | sending the input on the fields is `Submit` |
| Ui.Model.HandleKey | pkg/ui/update.go:92-168 | the key handlers on the fields compute the key step, Alt+Enter falling through to the recomputation |
| Ui.Model.HandleCancel | pkg/ui/update.go:94-100 | Esc or Ctrl+C on the fields is the cancel step |
| Ui.Model.HandleUp | pkg/ui/update.go:102-106 | Up on the fields is the Up step |
| Ui.Model.HandleDown | pkg/ui/update.go:107-111 | Down on the fields is the Down step |
| Ui.Model.HandleTab | pkg/ui/update.go:112-125 | Tab on the fields is the Tab step |
| Ui.Model.HandleEnter | pkg/ui/update.go:127-166 | Enter on the fields is the Enter step: with Alt held it only recomputes, otherwise it confirms a shown list or submits a non-empty input |
| Ui.Model.HandleWindowControl | pkg/ui/update.go:28-53 | the window handler on the fields is the window step |
| Ui.Model.HandleAiComplete | pkg/ui/update.go:176-191 | the completion handler on the fields is the completion step |
| Ui.Model.HandleError | pkg/ui/update.go:193-201 | the error handler on the fields is the error step |
| Ui.Model.HandleProcessDone | pkg/ui/update.go:239-272 | the end-of-command handler, overwriting the last message's content, is the end-of-command step |
| Ui.Model.Update | pkg/ui/update.go:17-333 | `Model.Update` on the fields computes the session's step for every message, including a message no case handles, and keeps the model valid |
| Startup.ApiKey | main.go:38-42 | the key is `PROVIDER_API_KEY` when set, and otherwise `PROVIDER_AUTH_TOKEN`; it is empty only when both are |
| Startup.BaseUrl | main.go:46-49 | the endpoint is overridden exactly when `PROVIDER_BASE_URL` is non-empty |
| Startup.Configure | main.go:38-49 | the client configuration takes its key and endpoint from the environment by those fallbacks |
| Startup.ApiKeyWins | main.go:38-42 | a set API key is used whatever the token |
| Startup.TokenFallback | main.go:38-42 | with the API key unset or empty, the token is used |
| Startup.DefaultEndpoint | main.go:46-49 | an unset or empty base URL keeps the library's default |
| Startup.SystemPrompt | main.go:60-65 | the prompt file's content, or the built-in prompt when the read fails |
| Startup.ListProjectFiles | main.go:77-94 | a git failure gives the empty list with git's error; otherwise the cleaned lines of git's output, with no error |
| Startup.CleanEntries | main.go:87-92 | every listed entry is trimmed, non-empty and passes the exclusions (`.git…`, `bin/`, `agent`, `trace`, `.env`) |
| Startup.CleanAppend | main.go:85-93 | cleaning works line by line and keeps git's order; it does not sort |
| Startup.CleanOne | main.go:88-91 | a single line contributes its trim when that passes the filter, and nothing otherwise |
| Startup.ExampleGitFile | main.go:89 | `.gitignore` starts with `.git` and is dropped |
| Startup.Launch | main.go:56-68 | the initial model is built from the cleaned git listing (empty on failure, with the error ignored) and the system prompt |
| Conversation.ReplyKeepsPairing | pkg/ui/update.go:28-213 | handling the loop's result keeps the history paired and extends it; a command's call stays pending until it ends |
| Conversation.CommandKeepsPairing | pkg/ui/update.go:239-272 | the tool message that ends a command answers its pending call, and the model is invoked on a paired history |
| Conversation.SubmitKeepsPairing | pkg/ui/update.go:140-166 | sending from Idle starts a turn on a paired history |
| Conversation.ToolAfterUser | pkg/ui/update.go:239-251 | a tool message appended right after a user message answers no call |
| Conversation.SubmitDuringCommand | pkg/ui/update.go:146-162 | as written, a message sent while a command runs lands before the command's tool message, and the next history is not paired |

## Left out

- The completion client (`CreateChatCompletion`): the provider's reply is the parameter `endpoint(i, messages)`. The request's tool list (`convertToolsToOpenAI`, `GenerateSchema`) is not part of this model, because it is JSON-schema generation through libraries.
- JSON decoding of tool arguments: it is abstract, given by `parseRun` and `parseWindow` in the loop. The file tools take the decoded fields.
- The file system, `os.Stat`, `MkdirAll`, `git ls-files` and `WalkDir`:
  - Files are a map from path to bytes.
  - A failing write or mkdir is a parameter.
  - The walk's result is given.
  - The walk's skipping of `.git` and `bin` directories is not modelled.
- `RunCommand`'s `CombinedOutput` and `InitProject`: these are process and file-system effects. They are reached only through the abstract tool handlers `run`.
- `RunProcessCmd` and `WaitForProcessOutput`: these are goroutines, a channel and subprocess pipes. Process lines and completion are input messages to `Update`.
- Environment lookups: the environment is a map in `Startup`, and the model name is a parameter of `InvokeAI`.
- The window resize (`WindowSizeMsg`), `View`, `RenderChat`, styles, the viewports, the spinner and all logging: these are layout, rendering and floating point. A resize, a cursor blink and a spinner tick are all the message `Unhandled`: each falls through to the recomputation of the autocomplete list, which is all of them the model keeps.
- The text area:
  - A key it consumes arrives as `Edit(value)` with the text afterwards.
  - Up, Down, Tab and Enter falling through leave the text unchanged.
  - `Enter(alt)` keeps the Alt flag that the Go key string folds into "alt+enter". That string matches no case of the key switch, so Alt+Enter always falls through. The `!msg.Alt` test inside the "enter" case can therefore never be false, and `OnEnter` leaves it out.
- `SaveSession` on quit: file creation with a timestamp. `HandleCancel` and `OnCancel` return `Quit` without it.
- The `tea.Batch` of `Init`: only the model invocation is kept, since the blink and spinner ticks it also starts reach `Update` as `Unhandled` messages, whose only modelled effect is the recomputation. `ResizeAndInvoke` stands for the batch of a resize and an invocation.
- Ui.Model.HandleProcessDone: the Go code writes through the history slice it just appended to. The model reassigns the sequence and does not model slice aliasing between the history of messages and the UI's copy.
- Agent.InvokeContract: the number of requests is stated for the loop, not timed. Retries or timeouts in the client library are not modelled.
- Startup.Launch: the `tea.Program` run, the log file and `godotenv.Load` are left out. The client is represented by its `Config`.
