/**
 * The session and the agent loop together: what happens to the
 * conversation when a message that `InvokeAI` produced reaches
 * `Model.Update`, and when a command it started finishes. The property
 * followed is `Agent.Paired`: every tool message answers a call of the
 * assistant message before it, which a completion endpoint requires of the
 * history it is sent.
 */
module Conversation {
  import opened Wrappers
  import opened Chat
  import opened Events
  import opened Agent
  import opened Session

  /** The reply to `InvokeAI(s.history)`, handled by the session. */
  function Reply(s: State, modelName: string, env: Env): Transition
    requires Valid(s)
  {
    Update(s, Invoke(modelName, s.history, env))
  }

  lemma RecomputeKeepsHistory(s: State)
    ensures Recompute(s).history == s.history
  {
    RecomputeSpec(s);
  }

  /** Handling the agent's reply keeps the history paired; a command it
      asks for leaves its call pending until the command ends; and the
      history the reply carries extends the one the loop was given, so
      the session loses none of its conversation. */
  lemma ReplyKeepsPairing(s: State, modelName: string, env: Env)
    requires Valid(s) && Paired(s.history)
    ensures var r := Invoke(modelName, s.history, env);
      var t := Reply(s, modelName, env);
      Paired(t.next.history)
      && s.history <= t.next.history
      && (r.RunCommand? ==> r.toolCallId in Pending(t.next.history))
  {
    var r := Invoke(modelName, s.history, env);
    InvokePaired(modelName, s.history, env);
    InvokeExtends(modelName, s.history, env);
    InvokeContract(modelName, s.history, env);
    if r.AiResponse? {
      RecomputeKeepsHistory(s.(history := r.history));
    } else if r.WindowControl? {
      AppendTool(r.history, ToolMessage(WindowResult(r.action), r.toolCallId));
    } else if r.Err? {
      var x := s.(history := s.history + [AssistantMessage(ErrorText(r.error), [])], phase := Idle);
      RecomputeKeepsHistory(x);
      AppendAssistant(s.history, ErrorText(r.error), []);
    }
  }

  /** A command's output lines and its end: the tool message answering the
      pending call keeps the history paired, and the model is invoked on it. */
  lemma CommandKeepsPairing(s: State, lines: seq<string>, err: Option<string>, id: string)
    requires Valid(s) && Paired(s.history) && id in Pending(s.history)
    ensures var fed := Feed(s, lines);
      var t := Update(fed, ProcessDone(err, id));
      Paired(t.next.history) && t.effect == InvokeAI(t.next.history)
  {
    FeedSpec(s, lines);
    var fed := Feed(s, lines);
    AppendTool(s.history, ToolMessage(ProcessReport(fed, err), id));
  }

  /** Submitting from Idle starts a turn on a paired history. */
  lemma SubmitKeepsPairing(s: State)
    requires Valid(s) && Paired(s.history) && !s.acShow && s.input != "" && s.phase == Idle
    ensures var t := OnEnter(s, false);
      Paired(t.next.history) && t.effect == InvokeAI(t.next.history)
  {
    SubmitSpec(s);
    var content := ResolveTags(s.files, s.input);
    assert (s.history + [UserMessage(content)])[..|s.history|] == s.history;
  }

  /** A tool message that follows a user message answers no call. */
  lemma ToolAfterUser(s: State, lines: seq<string>, err: Option<string>, id: string)
    requires Valid(s) && s.history != [] && s.history[|s.history| - 1].role == User
    ensures !Paired(Update(Feed(s, lines), ProcessDone(err, id)).next.history)
  {
    FeedSpec(s, lines);
    var fed := Feed(s, lines);
    var h := fed.history + [ToolMessage(ProcessReport(fed, err), id)];
    assert h[..|h| - 1] == fed.history;
  }

  /** A message typed while a command runs goes into the history between
      the assistant's call and the tool message that answers it, as the code
      is written, so the history the model is sent next is not paired. */
  lemma SubmitDuringCommand(s: State, lines: seq<string>, err: Option<string>, id: string)
    requires Valid(s) && Paired(s.history) && id in Pending(s.history)
    requires !s.acShow && s.input != "" && s.phase == Thinking
    ensures var typed := OnEnter(s, false).next;
      var t := Update(Feed(typed, lines), ProcessDone(err, id));
      !Paired(t.next.history)
  {
    SubmitSpec(s);
    EnterValid(s, false);
    ToolAfterUser(OnEnter(s, false).next, lines, err, id);
  }
}
