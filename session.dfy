/**
 * The terminal UI's session, as values: the state `Model.Update` works on
 * and one function per message it handles. `Ui.Model` runs these steps on
 * its fields; this module says what each step computes and proves what the
 * steps keep.
 *
 * The text area, viewports and spinner are not part of the state: a key the
 * text area consumes arrives as `Edit(value)` with the text afterwards, and
 * rendering is left out.
 */
module Session {
  import opened Wrappers
  import opened Text
  import opened Chat
  import opened Events

  datatype Phase = Idle | Thinking

  datatype State = State(
    phase: Phase,
    files: seq<string>,       // every file of the project, for `@` tags
    input: string,            // the text area's content
    history: History,         // the conversation
    queue: seq<string>,       // user messages waiting for the model
    output: string,           // the running command's output so far
    sidebar: bool,
    acShow: bool,             // autocomplete shown
    acIdx: nat,               // selected candidate
    acList: seq<string>)      // candidates

  /** The state after a message, and the command the handler returns. */
  datatype Transition = Transition(next: State, effect: Effect)

  const MaxCandidates: nat := 10
  const Greeting := "Hello! Please introduce yourself and your tools briefly."

  /** The state `InitialModel` builds. */
  function Initial(files: seq<string>, systemPrompt: string): (s: State)
    ensures s.phase == Idle && s.files == files && s.queue == [] && s.output == ""
    ensures !s.sidebar && !s.acShow && s.acList == []
    ensures systemPrompt == "" ==> s.history == []
    ensures systemPrompt != "" ==> s.history == [SystemMessage(systemPrompt), UserMessage(Greeting)]
  {
    var history := if systemPrompt == "" then [] else [SystemMessage(systemPrompt), UserMessage(Greeting)];
    State(Idle, files, "", history, [], "", false, false, 0, [])
  }

  // ---------------------------------------------------------------------
  // Autocomplete

  /** The files containing `search` (all of them when it is empty), in order. */
  function Matching(files: seq<string>, search: string): seq<string>
    decreases |files|
  {
    if files == [] then []
    else
      var f := files[|files| - 1];
      Matching(files[..|files| - 1], search) + (if search == "" || Contains(f, search) then [f] else [])
  }

  /** The candidates the autocomplete offers: the first ten matches. */
  function Candidates(files: seq<string>, search: string): seq<string> {
    var m := Matching(files, search);
    if |m| <= MaxCandidates then m else m[..MaxCandidates]
  }

  /** The partial path after `@` in the input's last field, unless it already
      names a known file. */
  function TagQuery(input: string, files: seq<string>): Option<string> {
    var words := Fields(input);
    if words == [] then None
    else
      var last := words[|words| - 1];
      if !HasPrefix(last, "@") then None
      else if last[1..] in files then None
      else Some(last[1..])
  }

  /** The autocomplete recomputation that follows every message that does not
      return early. */
  function Recompute(s: State): State {
    match TagQuery(s.input, s.files)
    case None => s.(acShow := false)
    case Some(search) =>
      var list := Candidates(s.files, search);
      if list != [] then s.(acShow := true, acList := list, acIdx := if s.acIdx >= |list| then 0 else s.acIdx)
      else s.(acShow := false, acList := list)
  }

  /** What the session keeps between messages: a shown list is the one the
      input calls for and has a selected entry, and candidates are files. */
  predicate Valid(s: State) {
    (s.acShow ==>
      TagQuery(s.input, s.files).Some?
      && s.acList == Candidates(s.files, TagQuery(s.input, s.files).value)
      && s.acIdx < |s.acList|)
    && (forall i :: 0 <= i < |s.acList| ==> s.acList[i] in s.files)
  }

  /** Tab or Enter on a shown list: the last field becomes the selected file. */
  function Confirm(s: State): State
    requires s.acIdx < |s.acList|
  {
    var selected := s.acList[s.acIdx];
    var words := Fields(s.input);
    var input := if words == [] then s.input else Join(words[..|words| - 1] + ["@" + selected], " ") + " ";
    s.(input := input, acShow := false)
  }

  // ---------------------------------------------------------------------
  // File tags

  predicate IsTag(w: string) {
    HasPrefix(w, "@")
  }

  /** The known files the words tag, in the order of the words. */
  function Referenced(words: seq<string>, files: seq<string>): seq<string>
    decreases |words|
  {
    if words == [] then []
    else
      var w := words[|words| - 1];
      Referenced(words[..|words| - 1], files) + (if IsTag(w) && w[1..] in files then [w[1..]] else [])
  }

  function Hint(refs: seq<string>): string {
    "\n\n[User has referenced these files: " + Join(refs, ", ") + ". Use the read_file tool to view their contents.]"
  }

  /** `resolveFileTags`: the message sent for an input. */
  function ResolveTags(files: seq<string>, input: string): string {
    var refs := Referenced(Fields(input), files);
    if refs != [] then input + Hint(refs) else input
  }

  // ---------------------------------------------------------------------
  // The handlers

  function Sent(s: State, content: string): History {
    s.history + [UserMessage(content)]
  }

  /** Enter on a non-empty input: the message goes into the history and, when
      the model is busy, into the queue as well. */
  function Submit(s: State): Transition {
    var content := ResolveTags(s.files, s.input);
    var t := s.(history := Sent(s, content), input := "");
    if s.phase == Idle then Transition(t.(phase := Thinking), InvokeAI(t.history))
    else Transition(t.(queue := s.queue + [content]), NoEffect)
  }

  /** Esc or Ctrl+C: hides a shown list, and quits otherwise. */
  function OnCancel(s: State): Transition {
    if s.acShow then Transition(s.(acShow := false), NoEffect) else Transition(s, Quit)
  }

  function OnUp(s: State): Transition {
    if s.acShow && s.acIdx > 0 then Transition(s.(acIdx := s.acIdx - 1), NoEffect)
    else Transition(Recompute(s), NoEffect)
  }

  function OnDown(s: State): Transition {
    if s.acShow && s.acIdx < |s.acList| - 1 then Transition(s.(acIdx := s.acIdx + 1), NoEffect)
    else Transition(Recompute(s), NoEffect)
  }

  function OnTab(s: State): Transition
    requires Valid(s)
  {
    if s.acShow && |s.acList| > 0 then Transition(Confirm(s), NoEffect) else Transition(Recompute(s), NoEffect)
  }

  /** Enter. With Alt held the key's name is "alt+enter", which no case of
      the key switch names: the key falls through to the text area and the
      recomputation, whether or not a list is shown. */
  function OnEnter(s: State, alt: bool): Transition
    requires Valid(s)
  {
    if alt then Transition(Recompute(s), NoEffect)
    else if s.acShow && |s.acList| > 0 then Transition(Confirm(s), NoEffect)
    else if s.input != "" then Submit(s)
    else Transition(Recompute(s), NoEffect)
  }

  function OnKey(s: State, k: Key): Transition
    requires Valid(s)
  {
    match k
    case Cancel => OnCancel(s)
    case Up => OnUp(s)
    case Down => OnDown(s)
    case Tab => OnTab(s)
    case Enter(alt) => OnEnter(s, alt)
    case Edit(value) => Transition(Recompute(s.(input := value)), NoEffect)
  }

  function WindowResult(action: string): string {
    "Window action '" + action + "' triggered."
  }

  function OnWindowControl(s: State, action: string, id: string, history: History): Transition {
    var sidebar := if action == "open" then true else if action == "close" then false else s.sidebar;
    var h := history + [ToolMessage(WindowResult(action), id)];
    Transition(s.(sidebar := sidebar, history := h, phase := Thinking), ResizeAndInvoke(h))
  }

  function OnAiComplete(s: State): Transition {
    if s.queue == [] then Transition(Recompute(s.(phase := Idle)), NoEffect)
    else
      var h := Sent(s, s.queue[0]);
      Transition(Recompute(s.(queue := s.queue[1..], history := h, phase := Thinking)), InvokeAI(h))
  }

  function ErrorText(e: string): string {
    "**Error:** " + e
  }

  function OnError(s: State, e: string): Transition {
    Transition(Recompute(s.(history := s.history + [AssistantMessage(ErrorText(e), [])], phase := Idle)), NoEffect)
  }

  const Finished := "Process finished successfully."

  function ProcessResult(err: Option<string>): string {
    if err.None? then Finished else "Process exited with error: " + err.value
  }

  /** The tool message for a finished command: the result, preceded by the
      output when the sidebar did not show it. */
  function ProcessReport(s: State, err: Option<string>): string {
    var result := ProcessResult(err);
    if s.sidebar then result else "Process Output:\n```\n" + s.output + "```\n" + result
  }

  function OnProcessDone(s: State, err: Option<string>, id: string): Transition {
    var h := s.history + [ToolMessage(ProcessReport(s, err), id)];
    Transition(s.(history := h, output := "", phase := Thinking), InvokeAI(h))
  }

  /** `Model.Update`. */
  function Update(s: State, msg: Msg): Transition
    requires Valid(s)
  {
    match msg
    case WindowControl(action, _, id, history) => OnWindowControl(s, action, id, history)
    case KeyPress(k) => OnKey(s, k)
    case AiResponse(_, history) => Transition(Recompute(s.(history := history)), CompleteAi)
    case AiComplete => OnAiComplete(s)
    case Err(e) => OnError(s, e)
    case RunCommand(command, args, id, history) =>
      Transition(s.(history := history, output := ""), StartProcess(command, args, id))
    case ProcessOutput(line) => Transition(s.(output := s.output + line + "\n"), AwaitOutput)
    case ProcessDone(err, id) => OnProcessDone(s, err, id)
    case Unhandled => Transition(Recompute(s), NoEffect)
  }

  // ---------------------------------------------------------------------
  // Autocomplete: candidates

  /** A file is a match exactly when it contains the search text, or the
      search is empty. */
  lemma {:induction false} MatchingSpec(files: seq<string>, search: string, x: string)
    ensures x in Matching(files, search) <==> x in files && (search == "" || Contains(x, search))
    ensures |Matching(files, search)| <= |files|
    decreases |files|
  {
    if files != [] {
      var init := files[..|files| - 1];
      MatchingSpec(init, search, x);
      assert files == init + [files[|files| - 1]];
    }
  }

  /** Matching a prefix of the files gives a prefix of the matches. */
  lemma {:induction false} MatchingPrefix(files: seq<string>, search: string, i: nat)
    requires i <= |files|
    ensures Matching(files[..i], search) <= Matching(files, search)
    decreases |files| - i
  {
    if i < |files| {
      MatchingPrefix(files[..|files| - 1], search, i);
      assert files[..|files| - 1][..i] == files[..i];
    } else {
      assert files[..i] == files;
    }
  }

  /** The candidates are the first ten matches, in the order of the files. */
  lemma CandidatesSpec(files: seq<string>, search: string)
    ensures |Candidates(files, search)| <= MaxCandidates
    ensures Candidates(files, search) <= Matching(files, search)
    ensures |Matching(files, search)| <= MaxCandidates ==> Candidates(files, search) == Matching(files, search)
    ensures forall i :: 0 <= i < |Candidates(files, search)| ==>
      Candidates(files, search)[i] in files
      && (search == "" || Contains(Candidates(files, search)[i], search))
  {
    var c := Candidates(files, search);
    forall i | 0 <= i < |c|
      ensures c[i] in files && (search == "" || Contains(c[i], search))
    {
      assert c[i] in Matching(files, search);
      MatchingSpec(files, search, c[i]);
    }
  }

  // ---------------------------------------------------------------------
  // Autocomplete: when it shows

  /** The query is the rest of a last field `@q` that names no known file. */
  lemma TagQuerySpec(input: string, files: seq<string>, q: string)
    ensures TagQuery(input, files) == Some(q) <==>
      Fields(input) != [] && Fields(input)[|Fields(input)| - 1] == "@" + q && q !in files
  {
    var words := Fields(input);
    if words != [] {
      var last := words[|words| - 1];
      TagParts(last, q);
      assert TagQuery(input, files) == if !IsTag(last) || last[1..] in files then None else Some(last[1..]);
    }
  }

  /** A word is `@` followed by `q` exactly when it is a tag with rest `q`. */
  lemma TagParts(w: string, q: string)
    ensures w == "@" + q <==> IsTag(w) && w[1..] == q
  {
    if IsTag(w) {
      assert w == "@" + w[1..];
    }
  }

  /** The recomputation shows the list exactly when the input ends in a
      query with candidates; it then holds those candidates and keeps the
      selection when it is in range. Nothing outside the autocomplete
      changes. */
  lemma RecomputeSpec(s: State)
    ensures var r := Recompute(s);
      (r.acShow <==> TagQuery(s.input, s.files).Some? && Candidates(s.files, TagQuery(s.input, s.files).value) != [])
      && (r.acShow ==>
            r.acList == Candidates(s.files, TagQuery(s.input, s.files).value)
            && r.acIdx == (if s.acIdx >= |r.acList| then 0 else s.acIdx))
      && r.(acShow := s.acShow, acIdx := s.acIdx, acList := s.acList) == s
  {
  }

  lemma RecomputeValid(s: State)
    requires forall i :: 0 <= i < |s.acList| ==> s.acList[i] in s.files
    ensures Valid(Recompute(s))
  {
    match TagQuery(s.input, s.files)
    case None =>
    case Some(search) => CandidatesSpec(s.files, search);
  }

  /** A shown list is already what the input calls for: recomputing it
      changes nothing. */
  lemma ShownIsStable(s: State)
    requires Valid(s) && s.acShow
    ensures Recompute(s) == s
  {
  }

  lemma RecomputeIdempotent(s: State)
    ensures Recompute(Recompute(s)) == Recompute(s)
  {
  }

  // ---------------------------------------------------------------------
  // Autocomplete: keys

  /** Up and Down move the selection one step within the list and stop at
      its ends; Esc hides a shown list and quits otherwise. */
  lemma KeysOnShownList(s: State)
    requires Valid(s) && s.acShow
    ensures OnUp(s) == Transition(s.(acIdx := if s.acIdx > 0 then s.acIdx - 1 else 0), NoEffect)
    ensures OnDown(s) == Transition(s.(acIdx := if s.acIdx < |s.acList| - 1 then s.acIdx + 1 else s.acIdx), NoEffect)
    ensures OnUp(s).next.acIdx < |s.acList| && OnDown(s).next.acIdx < |s.acList|
    ensures OnCancel(s) == Transition(s.(acShow := false), NoEffect)
  {
    ShownIsStable(s);
  }

  /** Esc hides a shown list only until the next message that reaches the
      recomputation, such as a cursor blink or a resize: that message shows
      the same list again, with the same selection. */
  lemma HiddenUntilNextMessage(s: State)
    requires Valid(s) && s.acShow
    ensures var hidden := Update(s, KeyPress(Cancel)).next;
      !hidden.acShow && Update(hidden, Unhandled) == Transition(s, NoEffect)
  {
    var hidden := s.(acShow := false);
    assert Update(s, KeyPress(Cancel)).next == hidden;
    assert TagQuery(hidden.input, hidden.files) == TagQuery(s.input, s.files);
    assert Recompute(hidden) == s;
  }

  /** Alt+Enter neither confirms nor submits: a shown list stays as it is. */
  lemma AltEnterKeeps(s: State)
    requires Valid(s) && s.acShow
    ensures OnEnter(s, true) == Transition(s, NoEffect)
  {
    ShownIsStable(s);
  }

  lemma CancelQuits(s: State)
    requires Valid(s) && !s.acShow
    ensures OnCancel(s) == Transition(s, Quit)
  {
  }

  /** The words of a confirmed input: the earlier words and the tag. */
  lemma ConfirmFields(words: seq<string>, selected: string)
    requires words != [] && NoSpace(selected)
    requires forall k :: 0 <= k < |words| ==> IsWord(words[k])
    ensures var ws := words[..|words| - 1] + ["@" + selected];
      Fields(Join(ws, " ") + " ") == ws
  {
    var tag := "@" + selected;
    var ws := words[..|words| - 1] + [tag];
    assert NoSpace(tag) by {
      forall i | 0 <= i < |tag| ensures !IsSpace(tag[i]) {
        if i > 0 { assert tag[i] == selected[i - 1]; }
      }
    }
    assert forall k :: 0 <= k < |ws| ==> ws[k] != [] && NoSpace(ws[k]) by {
      forall k | 0 <= k < |ws| ensures ws[k] != [] && NoSpace(ws[k]) {
        if k < |words| - 1 { assert ws[k] == words[k]; assert IsWord(words[k]); }
      }
    }
    FieldsOfJoinSpace(ws);
  }

  /** Confirming a candidate without spaces makes the input's last field
      `@` and the file, followed by one space; the list is hidden and, as the
      file is known, the next recomputation keeps it hidden. */
  lemma ConfirmCompletes(s: State)
    requires Valid(s) && s.acShow
    ensures var r := Confirm(s);
      var words := Fields(s.input);
      var tag := "@" + s.acList[s.acIdx];
      !r.acShow
      && r.input == Join(words[..|words| - 1] + [tag], " ") + " "
    ensures NoSpace(s.acList[s.acIdx]) ==>
      var r := Confirm(s);
      var words := Fields(s.input);
      var tag := "@" + s.acList[s.acIdx];
      Fields(r.input) == words[..|words| - 1] + [tag]
      && TagQuery(r.input, r.files) == None
  {
    var words := Fields(s.input);
    var selected := s.acList[s.acIdx];
    var tag := "@" + selected;
    var ws := words[..|words| - 1] + [tag];
    var r := Confirm(s);
    assert words != [];
    assert r.input == Join(ws, " ") + " ";
    if NoSpace(selected) {
      forall k | 0 <= k < |words| ensures IsWord(words[k]) {
        assert IsWord(Fields(s.input)[k]);
      }
      ConfirmFields(words, selected);
      assert Fields(r.input) == ws;
      assert ws[|ws| - 1] == tag;
      assert tag[1..] == selected;
      assert selected in s.files;
    }
  }

  // ---------------------------------------------------------------------
  // File tags

  /** A file is referenced exactly when it is known and some word is `@`
      followed by it. */
  lemma {:induction false} ReferencedSpec(words: seq<string>, files: seq<string>, x: string)
    ensures x in Referenced(words, files) <==>
      x in files && exists i :: 0 <= i < |words| && words[i] == "@" + x
    decreases |words|
  {
    if words != [] {
      var init := words[..|words| - 1];
      var w := words[|words| - 1];
      ReferencedSpec(init, files, x);
      TagParts(w, x);
      if exists i :: 0 <= i < |words| && words[i] == "@" + x {
        var i :| 0 <= i < |words| && words[i] == "@" + x;
        if i < |words| - 1 { assert init[i] == words[i]; }
      }
      if exists i :: 0 <= i < |init| && init[i] == "@" + x {
        var i :| 0 <= i < |init| && init[i] == "@" + x;
        assert words[i] == init[i];
      }
    }
  }

  /** References are listed in the order of the words. */
  lemma {:induction false} ReferencedAppend(a: seq<string>, b: seq<string>, files: seq<string>)
    ensures Referenced(a + b, files) == Referenced(a, files) + Referenced(b, files)
    decreases |b|
  {
    if b == [] {
      assert a + b == a;
    } else {
      var init := b[..|b| - 1];
      ReferencedAppend(a, init, files);
      assert (a + b)[..|a + b| - 1] == a + init;
      assert (a + b)[|a + b| - 1] == b[|b| - 1];
    }
  }

  /** The message sent starts with the input; it is the input itself exactly
      when no tag names a known file, and otherwise the input followed by one
      hint listing the references. */
  lemma ResolveTagsSpec(files: seq<string>, input: string)
    ensures HasPrefix(ResolveTags(files, input), input)
    ensures ResolveTags(files, input) == input <==> Referenced(Fields(input), files) == []
    ensures Referenced(Fields(input), files) != [] ==>
      ResolveTags(files, input) == input + Hint(Referenced(Fields(input), files))
  {
    var refs := Referenced(Fields(input), files);
    if refs != [] {
      assert |Hint(refs)| > 0;
      assert (input + Hint(refs))[..|input|] == input;
    }
  }

  // ---------------------------------------------------------------------
  // Messages

  /** Enter on a non-empty input with no list shown sends one user message
      with the resolved text and clears the input; from Idle the model is
      invoked on the new history, while Thinking the text is queued too. */
  lemma SubmitSpec(s: State)
    requires Valid(s) && !s.acShow && s.input != ""
    ensures var t := OnEnter(s, false);
      var content := ResolveTags(s.files, s.input);
      t.next.history == s.history + [UserMessage(content)]
      && t.next.input == ""
      && t.next.phase == Thinking
      && (s.phase == Idle ==> t.next.queue == s.queue && t.effect == InvokeAI(t.next.history))
      && (s.phase == Thinking ==> t.next.queue == s.queue + [content] && t.effect == NoEffect)
      && t.next.(history := s.history, input := s.input, phase := s.phase, queue := s.queue) == s
  {
  }

  /** Completion takes the queue's head, if any, as the next user message;
      with an empty queue the session is Idle. */
  lemma AiCompleteSpec(s: State)
    ensures var t := OnAiComplete(s);
      (s.queue == [] ==>
        t.next.phase == Idle && t.next.history == s.history && t.next.queue == [] && t.effect == NoEffect)
      && (s.queue != [] ==>
        t.next.phase == Thinking && s.queue == [s.queue[0]] + t.next.queue
        && t.next.history == s.history + [UserMessage(s.queue[0])]
        && t.effect == InvokeAI(t.next.history))
      && t.next.input == s.input && t.next.output == s.output && t.next.sidebar == s.sidebar
  {
    RecomputeSpec(s.(phase := Idle));
    if s.queue != [] {
      RecomputeSpec(s.(queue := s.queue[1..], history := Sent(s, s.queue[0]), phase := Thinking));
    }
  }

  /** An error adds one assistant message and makes the session Idle; queued
      messages stay queued. */
  lemma ErrorSpec(s: State, e: string)
    ensures var t := OnError(s, e);
      t.next.history == s.history + [AssistantMessage("**Error:** " + e, [])]
      && t.next.phase == Idle && t.next.queue == s.queue && t.effect == NoEffect
  {
    RecomputeSpec(s.(history := s.history + [AssistantMessage(ErrorText(e), [])], phase := Idle));
  }

  /** "open" shows the sidebar, "close" hides it, any other action keeps it;
      the history becomes the loop's plus one tool message for the call. */
  lemma WindowControlSpec(s: State, action: string, id: string, history: History)
    ensures var t := OnWindowControl(s, action, id, history);
      (t.next.sidebar <==> action == "open" || (action != "close" && s.sidebar))
      && t.next.history == history + [ToolMessage(WindowResult(action), id)]
      && t.next.phase == Thinking
      && t.effect == ResizeAndInvoke(t.next.history)
      && t.next.queue == s.queue && t.next.output == s.output && t.next.input == s.input
  {
  }

  /** The output a sequence of lines leaves in the buffer. */
  function Lines(lines: seq<string>): string {
    if lines == [] then "" else lines[0] + "\n" + Lines(lines[1..])
  }

  /** The state after the command's output lines arrive, one message each. */
  function Feed(s: State, lines: seq<string>): (r: State)
    requires Valid(s)
    ensures Valid(r)
    decreases |lines|
  {
    if lines == [] then s
    else
      var t := Update(s, ProcessOutput(lines[0]));
      assert t.next == s.(output := s.output + lines[0] + "\n");
      Feed(t.next, lines[1..])
  }

  /** Output lines are appended to the buffer, newline-terminated, whether the
      sidebar shows them or not; nothing else changes. */
  lemma {:induction false} FeedSpec(s: State, lines: seq<string>)
    requires Valid(s)
    ensures Feed(s, lines) == s.(output := s.output + Lines(lines))
    decreases |lines|
  {
    if lines != [] {
      var s' := s.(output := s.output + lines[0] + "\n");
      FeedSpec(s', lines[1..]);
      assert s.output + lines[0] + "\n" + Lines(lines[1..]) == s.output + Lines(lines);
    }
  }

  /** A command run from the agent loop: its request replaces the history
      and empties the buffer, its lines fill the buffer, and its end adds one
      tool message for the call, carrying the output unless the sidebar
      showed it, empties the buffer and invokes the model again. */
  lemma CommandRoundTrip(s: State, command: string, args: seq<string>, id: string, history: History,
                         lines: seq<string>, err: Option<string>)
    requires Valid(s)
    ensures var started := Update(s, RunCommand(command, args, id, history));
      started.effect == StartProcess(command, args, id)
      && var fed := Feed(started.next, lines);
      var done := Update(fed, ProcessDone(err, id));
      var report := if s.sidebar then ProcessResult(err)
        else "Process Output:\n```\n" + Lines(lines) + "```\n" + ProcessResult(err);
      done.next.history == history + [ToolMessage(report, id)]
      && done.next.output == "" && done.next.phase == Thinking
      && done.effect == InvokeAI(done.next.history)
  {
    StartedCommand(s, command, args, id, history);
    var started := Update(s, RunCommand(command, args, id, history));
    FeedSpec(started.next, lines);
    var fed := Feed(started.next, lines);
    assert "" + Lines(lines) == Lines(lines);
    assert fed == s.(history := history, output := Lines(lines));
    FinishedCommand(fed, err, id);
  }

  lemma StartedCommand(s: State, command: string, args: seq<string>, id: string, history: History)
    requires Valid(s)
    ensures Update(s, RunCommand(command, args, id, history))
      == Transition(s.(history := history, output := ""), StartProcess(command, args, id))
  {
  }

  lemma FinishedCommand(s: State, err: Option<string>, id: string)
    requires Valid(s)
    ensures Update(s, ProcessDone(err, id)) == OnProcessDone(s, err, id)
  {
  }

  // ---------------------------------------------------------------------
  // The invariant

  lemma InitialValid(files: seq<string>, systemPrompt: string)
    ensures Valid(Initial(files, systemPrompt))
  {
  }

  /** Every message keeps the session valid and the file list as it is. */
  lemma UpdateValid(s: State, msg: Msg)
    requires Valid(s)
    ensures Valid(Update(s, msg).next) && Update(s, msg).next.files == s.files
  {
    var r := Update(s, msg).next;
    match msg
    case KeyPress(k) =>
      assert r == OnKey(s, k).next;
      KeyValid(s, k);
    case AiResponse(_, history) =>
      assert r == Recompute(s.(history := history));
      RecomputeValid(s.(history := history));
    case AiComplete =>
      assert r == OnAiComplete(s).next;
      AiCompleteValid(s);
    case Err(e) =>
      var t := s.(history := s.history + [AssistantMessage(ErrorText(e), [])], phase := Idle);
      assert r == Recompute(t);
      RecomputeValid(t);
    case WindowControl(action, _, id, history) =>
      assert r == OnWindowControl(s, action, id, history).next;
      SameAutocomplete(s, r);
    case RunCommand(_, _, _, history) =>
      assert r == s.(history := history, output := "");
      SameAutocomplete(s, r);
    case ProcessOutput(line) =>
      assert r == s.(output := s.output + line + "\n");
      SameAutocomplete(s, r);
    case ProcessDone(err, id) =>
      assert r == OnProcessDone(s, err, id).next;
      SameAutocomplete(s, r);
    case Unhandled =>
      assert r == Recompute(s);
      RecomputeValid(s);
  }

  lemma AiCompleteValid(s: State)
    requires Valid(s)
    ensures Valid(OnAiComplete(s).next) && OnAiComplete(s).next.files == s.files
  {
    if s.queue == [] {
      RecomputeValid(s.(phase := Idle));
    } else {
      RecomputeValid(s.(queue := s.queue[1..], history := Sent(s, s.queue[0]), phase := Thinking));
    }
  }

  /** A step that leaves the input and the autocomplete alone keeps the
      session valid. */
  lemma SameAutocomplete(s: State, r: State)
    requires Valid(s)
    requires r.input == s.input && r.files == s.files
    requires r.acShow == s.acShow && r.acIdx == s.acIdx && r.acList == s.acList
    ensures Valid(r)
  {
  }

  lemma KeyValid(s: State, k: Key)
    requires Valid(s)
    ensures Valid(OnKey(s, k).next) && OnKey(s, k).next.files == s.files
  {
    var r := OnKey(s, k).next;
    match k
    case Cancel =>
      assert r == OnCancel(s).next;
      SameAutocompleteHidden(s, r);
    case Up =>
      assert r == OnUp(s).next;
      UpValid(s);
    case Down =>
      assert r == OnDown(s).next;
      DownValid(s);
    case Tab =>
      assert r == OnTab(s).next;
      TabValid(s);
    case Enter(alt) =>
      assert r == OnEnter(s, alt).next;
      EnterValid(s, alt);
    case Edit(value) =>
      assert r == Recompute(s.(input := value));
      RecomputeValid(s.(input := value));
  }

  /** Hiding the list, or leaving it as it is, keeps the session valid. */
  lemma SameAutocompleteHidden(s: State, r: State)
    requires Valid(s)
    requires r.input == s.input && r.files == s.files
    requires r.acShow ==> s.acShow
    requires r.acIdx == s.acIdx && r.acList == s.acList
    ensures Valid(r)
  {
  }

  lemma UpValid(s: State)
    requires Valid(s)
    ensures Valid(OnUp(s).next) && OnUp(s).next.files == s.files
  {
    if s.acShow && s.acIdx > 0 { SelectValid(s, s.acIdx - 1); } else { RecomputeValid(s); }
  }

  lemma DownValid(s: State)
    requires Valid(s)
    ensures Valid(OnDown(s).next) && OnDown(s).next.files == s.files
  {
    if s.acShow && s.acIdx < |s.acList| - 1 { SelectValid(s, s.acIdx + 1); } else { RecomputeValid(s); }
  }

  lemma TabValid(s: State)
    requires Valid(s)
    ensures Valid(OnTab(s).next) && OnTab(s).next.files == s.files
  {
    if s.acShow && |s.acList| > 0 { ConfirmValid(s); } else { RecomputeValid(s); }
  }

  lemma EnterValid(s: State, alt: bool)
    requires Valid(s)
    ensures Valid(OnEnter(s, alt).next) && OnEnter(s, alt).next.files == s.files
  {
    var r := OnEnter(s, alt).next;
    if alt {
      assert r == Recompute(s);
      RecomputeValid(s);
    } else if s.acShow && |s.acList| > 0 {
      assert r == Confirm(s);
      ConfirmValid(s);
    } else if s.input != "" {
      assert r == Submit(s).next;
      SubmitValid(s);
    } else {
      assert r == Recompute(s);
      RecomputeValid(s);
    }
  }

  lemma SubmitValid(s: State)
    requires Valid(s) && !s.acShow
    ensures Valid(Submit(s).next) && Submit(s).next.files == s.files
  {
    var r := Submit(s).next;
    assert !r.acShow && r.acList == s.acList && r.files == s.files;
  }

  /** Moving the selection within a shown list keeps the session valid. */
  lemma SelectValid(s: State, i: nat)
    requires Valid(s) && s.acShow && i < |s.acList|
    ensures Valid(s.(acIdx := i))
  {
    var r := s.(acIdx := i);
    assert r.input == s.input && r.files == s.files && r.acList == s.acList && r.acShow;
  }

  lemma ConfirmValid(s: State)
    requires Valid(s) && s.acIdx < |s.acList|
    ensures Valid(Confirm(s)) && Confirm(s).files == s.files
  {
    var r := Confirm(s);
    assert r.acList == s.acList && r.files == s.files && !r.acShow;
  }
}
