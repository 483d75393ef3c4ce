/**
 * `InvokeAI`: the agentic loop. It sends the conversation to the model, runs
 * the tools the model asks for and sends their results back, up to ten
 * requests, until the model answers without tool calls. A `run_command` or
 * `manage_window` call whose arguments decode suspends the loop instead: the
 * UI runs the command or resizes the window and invokes the loop again.
 *
 * The network is abstract: `endpoint(i, messages)` is the provider's reply to
 * request number `i`. Decoding a call's JSON arguments is abstract too:
 * `parseRun` and `parseWindow` give the decoded fields, or `None` when the
 * text does not decode. `run` stands for the tool handlers.
 */
module Agent {
  import opened Wrappers
  import opened Chat
  import opened Events
  import opened Tools

  /** The provider's answer to one request: an error, an empty choice list,
      or the first choice's content and tool calls. */
  datatype Reply = ApiError(error: string) | NoChoices | Choice(content: string, calls: seq<ToolCall>)

  datatype RunArgs = RunArgs(command: string, args: seq<string>)
  datatype WindowArgs = WindowArgs(action: string, target: string)

  /** The loop's surroundings: the provider, the argument decoders and the tools. */
  datatype Env = Env(
    endpoint: (nat, History) -> Reply,
    parseRun: string -> Option<RunArgs>,
    parseWindow: string -> Option<WindowArgs>,
    run: (ToolKind, string) -> Result<string>)

  const MaxIterations: nat := 10

  const MissingModel := "PROVIDER_MODEL not set in .env"
  const NoResponse := "no response from model"
  // Written as two literals so that the verifier reads its first letter cheaply.
  const TooManyIterations := "max iterations reached" + " - possible infinite loop"

  function ApiFailure(e: string): string {
    "API error: " + e
  }

  function ToolFailure(e: string): string {
    "Error executing tool: " + e
  }

  // ---------------------------------------------------------------------
  // The loop, as functions

  /** What `ExecuteToolByName` yields for a call, as the tool message's text. */
  function ToolOutcome(c: ToolCall, run: (ToolKind, string) -> Result<string>): string {
    var r := match KindOf(c.name)
      case Some(k) => run(k, c.arguments)
      case None => Fail(UnknownTool(c.name));
    if r.Ok? then r.value else ToolFailure(r.error)
  }

  /** A call that suspends the loop: a decodable `run_command` or `manage_window`. */
  predicate Suspends(c: ToolCall, env: Env) {
    (c.name == "run_command" && env.parseRun(c.arguments).Some?)
    || (c.name == "manage_window" && env.parseWindow(c.arguments).Some?)
  }

  /** The message a suspending call hands to the UI, with the history so far. */
  function Suspension(c: ToolCall, env: Env, messages: History): (m: Msg)
    requires Suspends(c, env)
    ensures m.RunCommand? || m.WindowControl?
  {
    if c.name == "run_command" && env.parseRun(c.arguments).Some? then
      var a := env.parseRun(c.arguments).value;
      RunCommand(a.command, a.args, c.id, messages)
    else
      var a := env.parseWindow(c.arguments).value;
      WindowControl(a.action, a.target, c.id, messages)
  }

  /** How a step ends: with the message the command delivers, or with the
      history to send back to the model. */
  datatype Turn = Stop(msg: Msg) | Go(messages: History)

  /** Runs `calls` in order, appending one tool message per call, until a
      call suspends. */
  function RunCalls(messages: History, calls: seq<ToolCall>, env: Env): Turn
    decreases |calls|
  {
    if calls == [] then Go(messages)
    else if Suspends(calls[0], env) then Stop(Suspension(calls[0], env, messages))
    else RunCalls(messages + [ToolMessage(ToolOutcome(calls[0], env.run), calls[0].id)], calls[1..], env)
  }

  /** One iteration: request number `i`, then the reply's tool calls or the
      final answer. */
  function Step(i: nat, messages: History, env: Env): Turn {
    match env.endpoint(i, messages)
    case ApiError(e) => Stop(Err(ApiFailure(e)))
    case NoChoices => Stop(Err(NoResponse))
    case Choice(content, calls) =>
      if |calls| > 0 then RunCalls(messages + [AssistantMessage(content, calls)], calls, env)
      else Stop(AiResponse(content, messages + [AssistantMessage(content, [])]))
  }

  /** The loop from request number `i` on, over any step function: it stops
      with the step's message, or goes on for at most `MaxIterations` steps. */
  function Bounded(i: nat, messages: History, step: (nat, History) -> Turn): Msg
    requires i <= MaxIterations
    decreases MaxIterations - i
  {
    if i == MaxIterations then Err(TooManyIterations)
    else
      match step(i, messages)
      case Stop(m) => m
      case Go(next) => Bounded(i + 1, next, step)
  }

  /** One step of the loop, unfolded. */
  lemma BoundedNext(i: nat, messages: History, step: (nat, History) -> Turn)
    requires i < MaxIterations
    ensures step(i, messages).Stop? ==> Bounded(i, messages, step) == step(i, messages).msg
    ensures step(i, messages).Go? ==> Bounded(i, messages, step) == Bounded(i + 1, step(i, messages).messages, step)
  {
  }

  /** One step of the loop `InvokeAI` runs. */
  lemma LoopStep(i: nat, messages: History, env: Env, turn: Turn)
    requires i < MaxIterations && turn == Step(i, messages, env)
    ensures turn.Stop? ==> Bounded(i, messages, StepOf(env)) == turn.msg
    ensures turn.Go? ==> Bounded(i, messages, StepOf(env)) == Bounded(i + 1, turn.messages, StepOf(env))
  {
    BoundedNext(i, messages, StepOf(env));
  }

  /** The number of steps, that is of requests, the loop takes from `i` on. */
  function Attempts(i: nat, messages: History, step: (nat, History) -> Turn): nat
    requires i <= MaxIterations
    decreases MaxIterations - i
  {
    if i == MaxIterations then 0
    else
      match step(i, messages)
      case Stop(_) => 1
      case Go(next) => 1 + Attempts(i + 1, next, step)
  }

  function StepOf(env: Env): (nat, History) -> Turn {
    (i: nat, messages: History) => Step(i, messages, env)
  }

  /** What the command returned by `InvokeAI` delivers. */
  function Invoke(modelName: string, history: History, env: Env): Msg {
    if modelName == "" then Err(MissingModel) else Bounded(0, history, StepOf(env))
  }

  /** The requests `InvokeAI` sends: none without a model name. */
  function InvokeRequests(modelName: string, history: History, env: Env): nat {
    if modelName == "" then 0 else Attempts(0, history, StepOf(env))
  }

  // ---------------------------------------------------------------------
  // What one batch of tool calls does

  /** The tool messages answering `calls`, one per call, in order. */
  function Answers(calls: seq<ToolCall>, run: (ToolKind, string) -> Result<string>): (r: History)
    ensures |r| == |calls|
  {
    seq(|calls|, i requires 0 <= i < |calls| => ToolMessage(ToolOutcome(calls[i], run), calls[i].id))
  }

  lemma AnswersCons(calls: seq<ToolCall>, run: (ToolKind, string) -> Result<string>)
    requires calls != []
    ensures Answers(calls, run) == [ToolMessage(ToolOutcome(calls[0], run), calls[0].id)] + Answers(calls[1..], run)
  {
  }

  /** When no call suspends, every call is answered, in order. */
  lemma {:induction false} RunCallsAll(messages: History, calls: seq<ToolCall>, env: Env)
    requires forall i :: 0 <= i < |calls| ==> !Suspends(calls[i], env)
    ensures RunCalls(messages, calls, env) == Go(messages + Answers(calls, env.run))
    decreases |calls|
  {
    if calls != [] {
      var m := ToolMessage(ToolOutcome(calls[0], env.run), calls[0].id);
      RunCallsAll(messages + [m], calls[1..], env);
      AnswersCons(calls, env.run);
      assert (messages + [m]) + Answers(calls[1..], env.run) == messages + Answers(calls, env.run);
    }
  }

  /** The first suspending call stops the batch, with the calls before it answered. */
  lemma {:induction false} RunCallsFirst(messages: History, calls: seq<ToolCall>, env: Env, j: nat)
    requires j < |calls| && Suspends(calls[j], env)
    requires forall i :: 0 <= i < j ==> !Suspends(calls[i], env)
    ensures RunCalls(messages, calls, env) == Stop(Suspension(calls[j], env, messages + Answers(calls[..j], env.run)))
    decreases j
  {
    if j == 0 {
      assert calls[..0] == [];
      assert messages + [] == messages;
    } else {
      var m := ToolMessage(ToolOutcome(calls[0], env.run), calls[0].id);
      RunCallsFirst(messages + [m], calls[1..], env, j - 1);
      assert calls[1..][..j - 1] == calls[..j][1..];
      AnswersCons(calls[..j], env.run);
      assert (messages + [m]) + Answers(calls[..j][1..], env.run) == messages + Answers(calls[..j], env.run);
    }
  }

  /** A batch stops exactly when one of its calls suspends, and then with a
      command to run or a window action. */
  lemma {:induction false} RunCallsStops(messages: History, calls: seq<ToolCall>, env: Env)
    ensures RunCalls(messages, calls, env).Stop? <==> exists i :: 0 <= i < |calls| && Suspends(calls[i], env)
    ensures RunCalls(messages, calls, env).Stop? ==>
      RunCalls(messages, calls, env).msg.RunCommand? || RunCalls(messages, calls, env).msg.WindowControl?
    decreases |calls|
  {
    if calls != [] {
      var m := ToolMessage(ToolOutcome(calls[0], env.run), calls[0].id);
      RunCallsStops(messages + [m], calls[1..], env);
      if exists i :: 0 <= i < |calls[1..]| && Suspends(calls[1..][i], env) {
        var i :| 0 <= i < |calls[1..]| && Suspends(calls[1..][i], env);
        assert Suspends(calls[i + 1], env);
      }
      if exists i :: 0 <= i < |calls| && Suspends(calls[i], env) {
        var i :| 0 <= i < |calls| && Suspends(calls[i], env);
        if i > 0 {
          assert Suspends(calls[1..][i - 1], env);
        }
      }
    }
  }

  lemma {:induction false} RunCallsExtends(messages: History, calls: seq<ToolCall>, env: Env)
    ensures var t := RunCalls(messages, calls, env);
      (t.Go? ==> messages <= t.messages)
      && (t.Stop? ==> (t.msg.RunCommand? || t.msg.WindowControl?) && messages <= t.msg.history)
    decreases |calls|
  {
    if calls != [] && !Suspends(calls[0], env) {
      var m := ToolMessage(ToolOutcome(calls[0], env.run), calls[0].id);
      RunCallsExtends(messages + [m], calls[1..], env);
    }
  }

  // ---------------------------------------------------------------------
  // Properties of one step

  /** The errors the loop itself reports. */
  ghost predicate LoopError(s: string) {
    s == NoResponse || exists e :: s == ApiFailure(e)
  }

  lemma ErrorTextsDiffer(e: string)
    ensures ApiFailure(e) != NoResponse
    ensures ApiFailure(e) != TooManyIterations && ApiFailure(e) != MissingModel
    ensures NoResponse != TooManyIterations && NoResponse != MissingModel
    ensures TooManyIterations != MissingModel
  {
    assert ApiFailure(e)[0] == 'A';
    assert TooManyIterations[0] == 'm';
    assert MissingModel[0] == 'P';
    assert NoResponse[0] == 'n';
    assert |TooManyIterations| == 47 && |MissingModel| == 30 && |NoResponse| == 22;
  }

  /** A step that stops delivers a reply, a command, a window action or one
      of the loop's own errors; a step that goes on has answered some calls. */
  lemma StepKinds(i: nat, messages: History, env: Env)
    ensures var t := Step(i, messages, env);
      (t.Stop? ==> IsAgentResult(t.msg) && (t.msg.Err? ==> LoopError(t.msg.error)))
      && (t.Go? ==> |messages| < |t.messages| && messages <= t.messages)
  {
    match env.endpoint(i, messages)
    case ApiError(e) =>
    case NoChoices =>
    case Choice(content, calls) =>
      if |calls| > 0 {
        RunCallsStops(messages + [AssistantMessage(content, calls)], calls, env);
        RunCallsExtends(messages + [AssistantMessage(content, calls)], calls, env);
      }
  }

  /** The history a stopping step hands on extends the one it started from; a
      final reply ends with the model's answer, without tool calls. */
  lemma StepExtends(i: nat, messages: History, env: Env)
    ensures Step(i, messages, env).Stop? ==> Extends(messages, Step(i, messages, env).msg)
  {
    match env.endpoint(i, messages)
    case ApiError(e) =>
    case NoChoices =>
    case Choice(content, calls) =>
      if |calls| > 0 {
        RunCallsExtends(messages + [AssistantMessage(content, calls)], calls, env);
      }
  }

  // ---------------------------------------------------------------------
  // Properties of the loop, for any step with the properties of `Step`

  ghost predicate StepsKinds(step: (nat, History) -> Turn) {
    forall j: nat, h: History :: step(j, h).Stop? ==>
      IsAgentResult(step(j, h).msg) && (step(j, h).msg.Err? ==> LoopError(step(j, h).msg.error))
  }

  /** A result extends the history `h` it was computed from: a reply, a
      command or a window action carries a longer history with `h` as a
      prefix, and a final reply's history ends with the model's answer,
      without tool calls. */
  predicate Extends(h: History, r: Msg) {
    r.AiResponse? || r.RunCommand? || r.WindowControl? ==>
      |h| < |r.history| && h <= r.history
      && (r.AiResponse? ==> r.history[|r.history| - 1] == AssistantMessage(r.content, []))
  }

  ghost predicate StepsExtend(step: (nat, History) -> Turn) {
    forall j: nat, h: History ::
      (step(j, h).Go? ==> h <= step(j, h).messages)
      && (step(j, h).Stop? ==> Extends(h, step(j, h).msg))
  }

  lemma {:induction false} BoundedKinds(i: nat, messages: History, step: (nat, History) -> Turn)
    requires i <= MaxIterations && StepsKinds(step)
    ensures IsAgentResult(Bounded(i, messages, step))
    ensures Bounded(i, messages, step).Err? ==>
      Bounded(i, messages, step).error == TooManyIterations || LoopError(Bounded(i, messages, step).error)
    decreases MaxIterations - i
  {
    if i < MaxIterations && step(i, messages).Go? {
      BoundedKinds(i + 1, step(i, messages).messages, step);
    }
  }

  lemma {:induction false} BoundedExtends(i: nat, messages: History, step: (nat, History) -> Turn)
    requires i <= MaxIterations && StepsExtend(step)
    ensures Extends(messages, Bounded(i, messages, step))
    decreases MaxIterations - i
  {
    if i < MaxIterations && step(i, messages).Go? {
      var next := step(i, messages).messages;
      BoundedExtends(i + 1, next, step);
    }
  }

  lemma {:induction false} AttemptsBound(i: nat, messages: History, step: (nat, History) -> Turn)
    requires i <= MaxIterations && StepsKinds(step)
    ensures Attempts(i, messages, step) <= MaxIterations - i
    ensures i < MaxIterations ==> Attempts(i, messages, step) >= 1
    ensures Bounded(i, messages, step) == Err(TooManyIterations) ==> Attempts(i, messages, step) == MaxIterations - i
    decreases MaxIterations - i
  {
    if i < MaxIterations {
      var t := step(i, messages);
      if t.Go? {
        AttemptsBound(i + 1, t.messages, step);
      } else if t.msg.Err? {
        if t.msg.error != NoResponse {
          var e :| t.msg.error == ApiFailure(e);
          ErrorTextsDiffer(e);
        } else {
          ErrorTextsDiffer("");
        }
      }
    }
  }

  lemma StepOfKinds(env: Env)
    ensures StepsKinds(StepOf(env))
  {
    forall j: nat, h: History
      ensures StepOf(env)(j, h).Stop? ==>
        IsAgentResult(StepOf(env)(j, h).msg) && (StepOf(env)(j, h).msg.Err? ==> LoopError(StepOf(env)(j, h).msg.error))
    {
      StepKinds(j, h, env);
    }
  }

  lemma StepOfExtends(env: Env)
    ensures StepsExtend(StepOf(env))
  {
    forall j: nat, h: History
      ensures var t := StepOf(env)(j, h);
        (t.Go? ==> h <= t.messages) && (t.Stop? ==> Extends(h, t.msg))
    {
      StepKinds(j, h, env);
      StepExtends(j, h, env);
    }
  }

  /** The loop over any step with the properties of `Step`: its kind, its
      error texts and the request bound. */
  lemma LoopContract(messages: History, step: (nat, History) -> Turn)
    requires StepsKinds(step)
    ensures IsAgentResult(Bounded(0, messages, step))
    ensures Bounded(0, messages, step) != Err(MissingModel)
    ensures 1 <= Attempts(0, messages, step) <= MaxIterations
    ensures Bounded(0, messages, step) == Err(TooManyIterations) ==> Attempts(0, messages, step) == MaxIterations
  {
    BoundedKinds(0, messages, step);
    AttemptsBound(0, messages, step);
    var r := Bounded(0, messages, step);
    if r.Err? && r.error != TooManyIterations {
      if r.error != NoResponse {
        var e :| r.error == ApiFailure(e);
        ErrorTextsDiffer(e);
      } else {
        ErrorTextsDiffer("");
      }
    } else if r.Err? {
      ErrorTextsDiffer("");
    }
  }

  /** Contract of one invocation: its kind, its error texts, the request bound,
      and no request at all without a model name. */
  lemma InvokeContract(modelName: string, history: History, env: Env)
    ensures IsAgentResult(Invoke(modelName, history, env))
    ensures modelName == "" <==> Invoke(modelName, history, env) == Err(MissingModel)
    ensures InvokeRequests(modelName, history, env) <= MaxIterations
    ensures InvokeRequests(modelName, history, env) == 0 <==> modelName == ""
    ensures Invoke(modelName, history, env) == Err(TooManyIterations) ==>
      InvokeRequests(modelName, history, env) == MaxIterations
  {
    if modelName != "" {
      StepOfKinds(env);
      LoopContract(history, StepOf(env));
    }
  }

  /** The history a result carries extends the history the invocation
      started from; a final reply ends with the model's answer, without tool
      calls. */
  lemma InvokeExtends(modelName: string, history: History, env: Env)
    ensures Extends(history, Invoke(modelName, history, env))
  {
    if modelName != "" {
      StepOfExtends(env);
      BoundedExtends(0, history, StepOf(env));
    }
  }

  /** A first reply without tool calls ends the invocation after one
      request, with exactly that answer appended to the conversation. */
  lemma FirstReplyFinal(modelName: string, history: History, env: Env, content: string)
    requires modelName != "" && env.endpoint(0, history) == Choice(content, [])
    ensures Invoke(modelName, history, env) == AiResponse(content, history + [AssistantMessage(content, [])])
    ensures InvokeRequests(modelName, history, env) == 1
  {
    LoopStep(0, history, env, Step(0, history, env));
  }

  // ---------------------------------------------------------------------
  // Tool messages answer the calls before them

  /** The ids of a batch's calls. */
  function CallIds(calls: seq<ToolCall>): set<string> {
    set c | c in calls :: c.id
  }

  /** The call ids a tool message appended now may answer: those of the last
      assistant message, with only tool messages after it. */
  function Pending(h: History): set<string> {
    if h == [] then {}
    else
      var m := h[|h| - 1];
      if m.role == Assistant then CallIds(m.toolCalls)
      else if m.role == Tool then Pending(h[..|h| - 1])
      else {}
  }

  /** Every tool message answers a call of the assistant message before it. */
  predicate Paired(h: History) {
    h == [] || (Paired(h[..|h| - 1]) && (h[|h| - 1].role == Tool ==> h[|h| - 1].toolCallId in Pending(h[..|h| - 1])))
  }

  lemma AppendTool(h: History, m: Message)
    requires Paired(h) && m.role == Tool && m.toolCallId in Pending(h)
    ensures Paired(h + [m]) && Pending(h + [m]) == Pending(h)
  {
    assert (h + [m])[..|h|] == h;
  }

  lemma AppendAssistant(h: History, content: string, calls: seq<ToolCall>)
    requires Paired(h)
    ensures Paired(h + [AssistantMessage(content, calls)])
    ensures Pending(h + [AssistantMessage(content, calls)]) == CallIds(calls)
  {
    assert (h + [AssistantMessage(content, calls)])[..|h|] == h;
  }

  lemma {:induction false} RunCallsPaired(messages: History, calls: seq<ToolCall>, env: Env)
    requires Paired(messages)
    requires forall k :: 0 <= k < |calls| ==> calls[k].id in Pending(messages)
    ensures var t := RunCalls(messages, calls, env);
      (t.Go? ==> Paired(t.messages))
      && (t.Stop? ==>
            (t.msg.RunCommand? || t.msg.WindowControl?)
            && Paired(t.msg.history) && t.msg.toolCallId in Pending(t.msg.history))
    decreases |calls|
  {
    if calls != [] && !Suspends(calls[0], env) {
      var m := ToolMessage(ToolOutcome(calls[0], env.run), calls[0].id);
      AppendTool(messages, m);
      RunCallsPaired(messages + [m], calls[1..], env);
    }
  }

  lemma StepPaired(i: nat, messages: History, env: Env)
    requires Paired(messages)
    ensures var t := Step(i, messages, env);
      (t.Go? ==> Paired(t.messages))
      && (t.Stop? && t.msg.AiResponse? ==> Paired(t.msg.history))
      && (t.Stop? && (t.msg.RunCommand? || t.msg.WindowControl?) ==>
            Paired(t.msg.history) && t.msg.toolCallId in Pending(t.msg.history))
  {
    match env.endpoint(i, messages)
    case ApiError(e) =>
    case NoChoices =>
    case Choice(content, calls) =>
      AppendAssistant(messages, content, calls);
      if |calls| > 0 {
        assert forall k :: 0 <= k < |calls| ==> calls[k].id in CallIds(calls);
        RunCallsPaired(messages + [AssistantMessage(content, calls)], calls, env);
      }
  }

  ghost predicate StepsPaired(step: (nat, History) -> Turn) {
    forall j: nat, h: History :: Paired(h) ==>
      (step(j, h).Go? ==> Paired(step(j, h).messages))
      && (step(j, h).Stop? && step(j, h).msg.AiResponse? ==> Paired(step(j, h).msg.history))
      && (step(j, h).Stop? && (step(j, h).msg.RunCommand? || step(j, h).msg.WindowControl?) ==>
            Paired(step(j, h).msg.history) && step(j, h).msg.toolCallId in Pending(step(j, h).msg.history))
  }

  lemma {:induction false} BoundedPaired(i: nat, messages: History, step: (nat, History) -> Turn)
    requires i <= MaxIterations && StepsPaired(step) && Paired(messages)
    ensures var r := Bounded(i, messages, step);
      (r.AiResponse? ==> Paired(r.history))
      && (r.RunCommand? || r.WindowControl? ==> Paired(r.history) && r.toolCallId in Pending(r.history))
    decreases MaxIterations - i
  {
    if i < MaxIterations && step(i, messages).Go? {
      BoundedPaired(i + 1, step(i, messages).messages, step);
    }
  }

  lemma StepOfPaired(env: Env)
    ensures StepsPaired(StepOf(env))
  {
    forall j: nat, h: History | Paired(h)
      ensures var t := StepOf(env)(j, h);
        (t.Go? ==> Paired(t.messages))
        && (t.Stop? && t.msg.AiResponse? ==> Paired(t.msg.history))
        && (t.Stop? && (t.msg.RunCommand? || t.msg.WindowControl?) ==>
              Paired(t.msg.history) && t.msg.toolCallId in Pending(t.msg.history))
    {
      StepPaired(j, h, env);
    }
  }

  /** An invocation keeps tool messages paired with their calls, and a
      suspended call's id is one a tool message appended to its history may
      answer. */
  lemma InvokePaired(modelName: string, history: History, env: Env)
    requires Paired(history)
    ensures var r := Invoke(modelName, history, env);
      (r.AiResponse? ==> Paired(r.history))
      && (r.RunCommand? || r.WindowControl? ==> Paired(r.history) && r.toolCallId in Pending(r.history))
  {
    if modelName != "" {
      StepOfPaired(env);
      BoundedPaired(0, history, StepOf(env));
    }
  }

  // ---------------------------------------------------------------------
  // The loop, as the Go code runs it

  method InvokeAI(modelName: string, history: History, env: Env) returns (msg: Msg)
    ensures msg == Invoke(modelName, history, env)
  {
    if modelName == "" {
      return Err(MissingModel);
    }
    msg := RunLoop(history, env);
  }

  /** The loop of up to `MaxIterations` requests. */
  method RunLoop(history: History, env: Env) returns (msg: Msg)
    ensures msg == Bounded(0, history, StepOf(env))
  {
    var messages := history;
    for iteration := 0 to MaxIterations
      invariant Bounded(iteration, messages, StepOf(env)) == Bounded(0, history, StepOf(env))
    {
      var turn := Iterate(iteration, messages, env);
      LoopStep(iteration, messages, env, turn);
      if turn.Stop? {
        return turn.msg;
      }
      messages := turn.messages;
    }
    return Err(TooManyIterations);
  }

  /** The body of the loop: one request and what follows from its reply. */
  method Iterate(iteration: nat, messages: History, env: Env) returns (turn: Turn)
    ensures turn == Step(iteration, messages, env)
  {
    var reply := env.endpoint(iteration, messages);
    match reply {
      case ApiError(e) =>
        return Stop(Err(ApiFailure(e)));
      case NoChoices =>
        return Stop(Err(NoResponse));
      case Choice(content, calls) =>
        if |calls| > 0 {
          turn := RunToolCalls(messages + [AssistantMessage(content, calls)], calls, env);
          return;
        }
        return Stop(AiResponse(content, messages + [AssistantMessage(content, [])]));
    }
  }

  /** The inner loop over one reply's tool calls. */
  method RunToolCalls(start: History, calls: seq<ToolCall>, env: Env) returns (turn: Turn)
    ensures turn == RunCalls(start, calls, env)
  {
    var messages := start;
    for j := 0 to |calls|
      invariant RunCalls(messages, calls[j..], env) == RunCalls(start, calls, env)
    {
      var call := calls[j];
      assert calls[j..][1..] == calls[j + 1..];
      if call.name == "run_command" {
        var args := env.parseRun(call.arguments);
        if args.Some? {
          return Stop(RunCommand(args.value.command, args.value.args, call.id, messages));
        }
      }
      if call.name == "manage_window" {
        var args := env.parseWindow(call.arguments);
        if args.Some? {
          return Stop(WindowControl(args.value.action, args.value.target, call.id, messages));
        }
      }
      var result := ExecuteToolByName(call.name, call.arguments, env.run);
      var text := if result.Ok? then result.value else ToolFailure(result.error);
      messages := messages + [ToolMessage(text, call.id)];
    }
    assert calls[|calls|..] == [];
    turn := Go(messages);
  }
}
