/**
 * The messages the terminal UI reacts to and the commands its handlers
 * return, as data.
 */
module Events {
  import opened Wrappers
  import opened Chat

  /** The keys whose handling the session model distinguishes. */
  datatype Key =
    | Cancel               // "esc" or "ctrl+c"
    | Up
    | Down
    | Tab
    | Enter(alt: bool)
    | Edit(value: string)  // any key the text area consumes; `value` is its content afterwards

  datatype Msg =
    | WindowControl(action: string, target: string, toolCallId: string, history: History)
    | AiResponse(content: string, history: History)
    | AiComplete
    | Err(error: string)
    | RunCommand(command: string, args: seq<string>, toolCallId: string, history: History)
    | ProcessOutput(line: string)
    | ProcessDone(err: Option<string>, toolCallId: string)
    | KeyPress(key: Key)
    | Unhandled  // a message no case of the switch names: a resize, a cursor blink, a spinner tick

  /** What a handler asks the runtime to do next. */
  datatype Effect =
    | NoEffect
    | Quit                                                        // leave the program
    | InvokeAI(history: History)                                  // run the agent loop on this history
    | ResizeAndInvoke(history: History)                           // re-lay out, then run the agent loop
    | CompleteAi                                                  // deliver `AiComplete`
    | StartProcess(command: string, args: seq<string>, toolCallId: string) // spawn and listen for lines
    | AwaitOutput                                                 // listen for the next output line

  /** The four kinds of message one agent invocation can produce. */
  predicate IsAgentResult(m: Msg) {
    m.AiResponse? || m.RunCommand? || m.WindowControl? || m.Err?
  }
}
