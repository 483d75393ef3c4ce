/**
 * `Model` of the terminal UI, as the Go code runs it: fields that the
 * handlers of `Update` change step by step. Each method is proved to
 * compute the step the `Session` module defines for it; `Snapshot` reads
 * the fields as a `Session.State`.
 */
module Ui {
  import opened Wrappers
  import opened Text
  import opened Chat
  import opened Events
  import opened Session

  class Model {
    var phase: Phase
    var files: seq<string>
    var input: string
    var history: History
    var queue: seq<string>
    var output: string
    var sidebar: bool
    var acShow: bool
    var acIdx: nat
    var acList: seq<string>

    function Snapshot(): State
      reads this
    {
      State(phase, files, input, history, queue, output, sidebar, acShow, acIdx, acList)
    }

    predicate Valid()
      reads this
    {
      Session.Valid(Snapshot())
    }

    /** `InitialModel`: Idle, nothing queued, no output, sidebar and list
        hidden, and the greeting exchange when there is a system prompt. */
    constructor (files: seq<string>, systemPrompt: string)
      ensures Snapshot() == Initial(files, systemPrompt)
      ensures Valid()
    {
      var initialHistory: History := [];
      if systemPrompt != "" {
        initialHistory := initialHistory + [SystemMessage(systemPrompt)];
        initialHistory := initialHistory + [UserMessage(Greeting)];
      }
      phase := Idle;
      this.files := files;
      input := "";
      history := initialHistory;
      queue := [];
      output := "";
      sidebar := false;
      acShow := false;
      acIdx := 0;
      acList := [];
      InitialValid(files, systemPrompt);
    }

    /** `Init`: the first model call, on the initial history, while the
        session stays Idle. */
    method Init() returns (e: Effect)
      ensures e == InvokeAI(history)
    {
      e := InvokeAI(history);
    }

    // -------------------------------------------------------------------
    // Helpers with loops

    /** The search loop over the known files. */
    method IsKnown(path: string) returns (found: bool)
      ensures found <==> path in files
    {
      for j := 0 to |files|
        invariant path !in files[..j]
      {
        if files[j] == path {
          return true;
        }
        assert files[..j + 1] == files[..j] + [files[j]];
      }
      assert files[..|files|] == files;
      return false;
    }

    /** `resolveFileTags`. */
    method ResolveFileTags(text: string) returns (r: string)
      ensures r == ResolveTags(files, text)
    {
      var words := Fields(text);
      var referenced: seq<string> := [];
      for i := 0 to |words|
        invariant referenced == Referenced(words[..i], files)
      {
        var word := words[i];
        assert words[..i + 1][..i] == words[..i];
        if HasPrefix(word, "@") {
          var path := TrimPrefix(word, "@");
          var known := IsKnown(path);
          if known {
            referenced := referenced + [path];
          }
        }
      }
      assert words[..|words|] == words;
      if |referenced| > 0 {
        r := text + Hint(referenced);
      } else {
        r := text;
      }
    }

    /** The candidate loop: matching files in order, stopping at ten. */
    method CollectCandidates(search: string) returns (list: seq<string>)
      ensures list == Candidates(files, search)
    {
      list := [];
      for i := 0 to |files|
        invariant list == Matching(files[..i], search)
        invariant |list| < MaxCandidates
      {
        var f := files[i];
        assert files[..i + 1][..i] == files[..i];
        if search == "" || Contains(f, search) {
          list := list + [f];
          if |list| >= MaxCandidates {
            MatchingPrefix(files, search, i + 1);
            return;
          }
        }
      }
      assert files[..|files|] == files;
    }

    /** The autocomplete recomputation after a message that falls through. */
    method RecomputeAutocomplete()
      modifies this
      ensures Snapshot() == Recompute(old(Snapshot()))
    {
      ghost var s := Snapshot();
      var words := Fields(input);
      if |words| > 0 {
        var lastWord := words[|words| - 1];
        if HasPrefix(lastWord, "@") {
          var search := TrimPrefix(lastWord, "@");
          var isExactMatch := IsKnown(search);
          if isExactMatch {
            assert TagQuery(s.input, s.files) == None;
            acShow := false;
          } else {
            assert TagQuery(s.input, s.files) == Some(search);
            var list := CollectCandidates(search);
            acList := list;
            if |list| > 0 {
              acShow := true;
              if acIdx >= |list| {
                acIdx := 0;
              }
            } else {
              acShow := false;
            }
          }
        } else {
          assert TagQuery(s.input, s.files) == None;
          acShow := false;
        }
      } else {
        assert TagQuery(s.input, s.files) == None;
        acShow := false;
      }
    }

    // -------------------------------------------------------------------
    // Keys

    /** Tab or Enter on a shown list: the last field becomes the selection. */
    method ConfirmSelection()
      requires acIdx < |acList|
      modifies this
      ensures Snapshot() == Confirm(old(Snapshot()))
    {
      var selected := acList[acIdx];
      var words := Fields(input);
      if |words| > 0 {
        var replaced := words[|words| - 1 := "@" + selected];
        assert replaced == words[..|words| - 1] + ["@" + selected];
        input := Join(replaced, " ") + " ";
      }
      acShow := false;
    }

    /** Enter on a non-empty input with no list shown. */
    method SubmitInput() returns (e: Effect)
      modifies this
      ensures Transition(Snapshot(), e) == Submit(old(Snapshot()))
    {
      ghost var s := Snapshot();
      var finalContent := ResolveFileTags(input);
      history := history + [UserMessage(finalContent)];
      input := "";
      assert history == Sent(s, finalContent);
      if phase == Idle {
        phase := Thinking;
        e := InvokeAI(history);
      } else {
        queue := queue + [finalContent];
        e := NoEffect;
      }
    }

    method HandleKey(k: Key) returns (e: Effect)
      requires Valid()
      modifies this
      ensures Transition(Snapshot(), e) == OnKey(old(Snapshot()), k)
    {
      match k {
        case Cancel => e := HandleCancel();
        case Up => e := HandleUp();
        case Down => e := HandleDown();
        case Tab => e := HandleTab();
        case Enter(alt) => e := HandleEnter(alt);
        case Edit(value) =>
          input := value;
          RecomputeAutocomplete();
          e := NoEffect;
      }
    }

    method HandleCancel() returns (e: Effect)
      modifies this
      ensures Transition(Snapshot(), e) == OnCancel(old(Snapshot()))
    {
      e := NoEffect;
      if acShow {
        acShow := false;
      } else {
        e := Quit;
      }
    }

    method HandleUp() returns (e: Effect)
      modifies this
      ensures Transition(Snapshot(), e) == OnUp(old(Snapshot()))
    {
      e := NoEffect;
      if acShow && acIdx > 0 {
        acIdx := acIdx - 1;
      } else {
        RecomputeAutocomplete();
      }
    }

    method HandleDown() returns (e: Effect)
      modifies this
      ensures Transition(Snapshot(), e) == OnDown(old(Snapshot()))
    {
      e := NoEffect;
      if acShow && acIdx < |acList| - 1 {
        acIdx := acIdx + 1;
      } else {
        RecomputeAutocomplete();
      }
    }

    method HandleTab() returns (e: Effect)
      requires Valid()
      modifies this
      ensures Transition(Snapshot(), e) == OnTab(old(Snapshot()))
    {
      e := NoEffect;
      if acShow && |acList| > 0 {
        ConfirmSelection();
      } else {
        RecomputeAutocomplete();
      }
    }

    method HandleEnter(alt: bool) returns (e: Effect)
      requires Valid()
      modifies this
      ensures Transition(Snapshot(), e) == OnEnter(old(Snapshot()), alt)
    {
      e := NoEffect;
      if alt {
        RecomputeAutocomplete();
      } else if acShow && |acList| > 0 {
        ConfirmSelection();
      } else if input != "" {
        e := SubmitInput();
      } else {
        RecomputeAutocomplete();
      }
    }

    // -------------------------------------------------------------------
    // Messages

    method HandleWindowControl(action: string, toolCallId: string, msgHistory: History) returns (e: Effect)
      modifies this
      ensures Transition(Snapshot(), e) == OnWindowControl(old(Snapshot()), action, toolCallId, msgHistory)
    {
      if action == "open" {
        sidebar := true;
      } else if action == "close" {
        sidebar := false;
      }
      var result := WindowResult(action);
      history := msgHistory;
      history := history + [ToolMessage(result, toolCallId)];
      phase := Thinking;
      e := ResizeAndInvoke(history);
    }

    method HandleAiComplete() returns (e: Effect)
      modifies this
      ensures Transition(Snapshot(), e) == OnAiComplete(old(Snapshot()))
    {
      phase := Idle;
      e := NoEffect;
      if |queue| > 0 {
        var nextContent := queue[0];
        queue := queue[1..];
        history := history + [UserMessage(nextContent)];
        phase := Thinking;
        e := InvokeAI(history);
      }
      RecomputeAutocomplete();
    }

    method HandleError(err: string) returns (e: Effect)
      modifies this
      ensures Transition(Snapshot(), e) == OnError(old(Snapshot()), err)
    {
      history := history + [AssistantMessage(ErrorText(err), [])];
      phase := Idle;
      RecomputeAutocomplete();
      e := NoEffect;
    }

    method HandleProcessDone(err: Option<string>, toolCallId: string) returns (e: Effect)
      modifies this
      ensures Transition(Snapshot(), e) == OnProcessDone(old(Snapshot()), err, toolCallId)
    {
      ghost var s := Snapshot();
      var result := ProcessResult(err);
      history := history + [ToolMessage(result, toolCallId)];
      if !sidebar {
        var fullLog := "Process Output:\n```\n" + output + "```\n" + result;
        history := history[|history| - 1 := history[|history| - 1].(content := fullLog)];
        assert history == s.history + [ToolMessage(fullLog, toolCallId)];
      }
      assert history == s.history + [ToolMessage(ProcessReport(s, err), toolCallId)];
      output := "";
      phase := Thinking;
      e := InvokeAI(history);
    }

    /** `Model.Update`: one message, one step of the session. */
    method Update(msg: Msg) returns (e: Effect)
      requires Valid()
      modifies this
      ensures Transition(Snapshot(), e) == Session.Update(old(Snapshot()), msg)
      ensures Valid()
    {
      ghost var before := Snapshot();
      match msg {
        case WindowControl(action, _, toolCallId, msgHistory) =>
          e := HandleWindowControl(action, toolCallId, msgHistory);
        case KeyPress(k) =>
          e := HandleKey(k);
        case AiResponse(_, msgHistory) =>
          history := msgHistory;
          RecomputeAutocomplete();
          e := CompleteAi;
        case AiComplete =>
          e := HandleAiComplete();
        case Err(err) =>
          e := HandleError(err);
        case RunCommand(command, args, toolCallId, msgHistory) =>
          history := msgHistory;
          output := "";
          e := StartProcess(command, args, toolCallId);
        case ProcessOutput(line) =>
          output := output + line + "\n";
          e := AwaitOutput;
        case ProcessDone(err, toolCallId) =>
          e := HandleProcessDone(err, toolCallId);
        case Unhandled =>
          RecomputeAutocomplete();
          e := NoEffect;
      }
      UpdateValid(before, msg);
    }
  }
}
