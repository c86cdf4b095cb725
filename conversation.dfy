/**
 * The top-level read loop: the module-level `messages` history and what each
 * line of input does to it. The two chat completions, the tool dispatch and
 * the backend's state list are inputs of a turn.
 */
module Conversation {
  import opened Wrappers
  import opened Entities
  import opened Summary

  datatype Role = System | User | Assistant | Tool

  datatype ToolCall = ToolCall(id: string, name: string, arguments: string)

  /** A chat message; `tool_calls` is absent unless the model asked for tools. */
  datatype Message = Message(
    role: Role,
    content: Option<string>,
    tool_calls: Option<seq<ToolCall>>,
    tool_call_id: Option<string>)

  function SystemMessage(text: string): Message {
    Message(System, Some(text), None, None)
  }

  function UserMessage(text: string): Message {
    Message(User, Some(text), None, None)
  }

  /** The instruction the history starts with. */
  const SystemPrompt := SystemMessage(
    "You are a home automation assistant.\n" +
    "Before each message, you'll get a summary of the current relevant home state.\n" +
    "If the user tries to do something unsupported, you should refuse to do it.")

  const NoMessageError := "No message returned from OpenAI"

  /**
   * What one line of input meets: the backend's state list, the message of
   * the first completion's first choice (if any), what the tool dispatch
   * returns, and the second completion's first choice (if any).
   */
  datatype TurnInput = TurnInput(
    line: string,
    backend: seq<EntityState>,
    first: Option<Message>,
    outputs: seq<Message>,
    second: Option<Message>)

  /**
   * How a turn ends: the content of the last history message is printed;
   * no message came back, so the error line is logged and the loop goes on;
   * or the summary threw, which leaves the loop and ends the program.
   */
  datatype Outcome = Printed(content: Option<string>) | NoMessage(message: string) | Crashed(error: SummaryError)

  datatype StepResult = StepResult(history: seq<Message>, outcome: Outcome)

  datatype SessionResult = SessionResult(history: seq<Message>, outcomes: seq<Outcome>)

  /** The history after a turn whose summary was built. */
  function Extend(history: seq<Message>, first: Option<Message>, outputs: seq<Message>, second: Option<Message>): seq<Message> {
    match first
    case None => history
    case Some(m) =>
      if m.tool_calls.None? then history + [m]
      else history + [m] + outputs + (if second.Some? then [second.value] else [])
  }

  /** The summary a turn sends: that of the allowlisted backend states. */
  function TurnSummary(input: TurnInput, render: Render): Result<string, SummaryError> {
    GetStateSummary(GetStates(input.backend), render)
  }

  /** How each turn's summary comes about; the program's is `TurnSummary`. */
  type Summarizer = TurnInput -> Result<string, SummaryError>

  /** One turn on a history, given the summary it built. */
  function Step(history: seq<Message>, summary: Result<string, SummaryError>, input: TurnInput): StepResult
    requires |history| >= 1
  {
    if summary.Err? then StepResult(history, Crashed(summary.error))
    else
      var h := Extend(history, input.first, input.outputs, input.second);
      StepResult(h, if input.first.None? then NoMessage(NoMessageError) else Printed(h[|h| - 1].content))
  }

  /** The read loop over a sequence of input lines; a crash ends it. */
  function Replay(history: seq<Message>, inputs: seq<TurnInput>, summarize: Summarizer): SessionResult
    requires |history| >= 1
    decreases |inputs|
  {
    if inputs == [] then SessionResult(history, [])
    else
      var step := Step(history, summarize(inputs[0]), inputs[0]);
      StepExtends(history, summarize(inputs[0]), inputs[0]);
      if step.outcome.Crashed? then SessionResult(step.history, [step.outcome])
      else
        var rest := Replay(step.history, inputs[1..], summarize);
        SessionResult(rest.history, [step.outcome] + rest.outcomes)
  }

  /**
   * A turn's update only appends: the old history is a prefix of the new
   * one, no message leaves it alone, and otherwise the first response comes
   * first among what is added.
   */
  lemma ExtendAppends(history: seq<Message>, first: Option<Message>, outputs: seq<Message>, second: Option<Message>)
    ensures var h := Extend(history, first, outputs, second);
      history <= h && |h| <= |history| + 2 + |outputs| &&
      (first.None? ==> h == history) &&
      (first.Some? ==> |h| > |history| && h[|history|] == first.value)
  {
  }

  /** A whole turn keeps the old history as a prefix and keeps it non-empty. */
  lemma StepExtends(history: seq<Message>, summary: Result<string, SummaryError>, input: TurnInput)
    requires |history| >= 1
    ensures var h := Step(history, summary, input).history;
      history <= h && |h| <= |history| + 2 + |input.outputs|
    ensures summary.Err? <==> Step(history, summary, input).outcome.Crashed?
  {
    ExtendAppends(history, input.first, input.outputs, input.second);
  }

  /**
   * The printed text is the content of the last history message: the first
   * response's when it asked for no tools; otherwise the second response's,
   * even if that one asks for tools again (they are not run); and if the
   * second completion has no choice, the last tool output's, or the first
   * response's again when there were no outputs.
   */
  lemma PrintedContent(history: seq<Message>, summary: Result<string, SummaryError>, input: TurnInput)
    requires |history| >= 1
    requires Step(history, summary, input).outcome.Printed?
    ensures var r := Step(history, summary, input);
      var m := input.first.value;
      input.first.Some? &&
      (m.tool_calls.None? ==> r.history == history + [m] && r.outcome.content == m.content) &&
      (m.tool_calls.Some? && input.second.Some? ==>
        r.history == history + [m] + input.outputs + [input.second.value] &&
        r.outcome.content == input.second.value.content) &&
      (m.tool_calls.Some? && input.second.None? ==> r.history == history + [m] + input.outputs) &&
      (m.tool_calls.Some? && input.second.None? && |input.outputs| > 0 ==>
        r.outcome.content == input.outputs[|input.outputs| - 1].content) &&
      (m.tool_calls.Some? && input.second.None? && input.outputs == [] ==>
        r.outcome.content == m.content)
  {
    var m := input.first.value;
    if m.tool_calls.Some? && input.second.None? && |input.outputs| > 0 {
      var h := history + [m] + input.outputs;
      assert h[|h| - 1] == input.outputs[|input.outputs| - 1];
    }
  }

  /**
   * Over any number of lines the history only grows and keeps its start, so
   * the system prompt stays at index 0; every line gives at most one
   * outcome, only the last can be a crash, and only a crash ends the loop
   * early.
   */
  lemma {:induction false} ReplayAppendOnly(history: seq<Message>, inputs: seq<TurnInput>, summarize: Summarizer)
    requires |history| >= 1
    ensures var r := Replay(history, inputs, summarize);
      history <= r.history && |r.outcomes| <= |inputs| &&
      (forall i :: 0 <= i < |r.outcomes| - 1 ==> !r.outcomes[i].Crashed?) &&
      (|r.outcomes| < |inputs| ==> |r.outcomes| > 0 && r.outcomes[|r.outcomes| - 1].Crashed?)
    decreases |inputs|
  {
    if inputs != [] {
      var step := Step(history, summarize(inputs[0]), inputs[0]);
      StepExtends(history, summarize(inputs[0]), inputs[0]);
      if !step.outcome.Crashed? {
        ReplayAppendOnly(step.history, inputs[1..], summarize);
      }
    }
  }

  /** When no turn's summary throws, every line gets an outcome and none is a crash. */
  lemma {:induction false} ReplayWithoutErrors(history: seq<Message>, inputs: seq<TurnInput>, summarize: Summarizer)
    requires |history| >= 1
    requires forall i :: 0 <= i < |inputs| ==> summarize(inputs[i]).Ok?
    ensures var r := Replay(history, inputs, summarize);
      |r.outcomes| == |inputs| && forall i :: 0 <= i < |inputs| ==> !r.outcomes[i].Crashed?
    decreases |inputs|
  {
    if inputs != [] {
      var step := Step(history, summarize(inputs[0]), inputs[0]);
      StepExtends(history, summarize(inputs[0]), inputs[0]);
      assert forall i :: 0 <= i < |inputs| - 1 ==> inputs[1..][i] == inputs[i + 1];
      ReplayWithoutErrors(step.history, inputs[1..], summarize);
    }
  }

  /**
   * With a schema check that accepts every attribute map, the summary of the
   * allowlisted states never throws, so no line ends the program through
   * the summary.
   */
  lemma ReplayNeverCrashes(history: seq<Message>, inputs: seq<TurnInput>, render: Render)
    requires |history| >= 1
    requires forall s, a :: render(s, a).Ok?
    ensures var r := Replay(history, inputs, (input: TurnInput) => TurnSummary(input, render));
      |r.outcomes| == |inputs| && forall i :: 0 <= i < |inputs| ==> !r.outcomes[i].Crashed?
  {
    var summarize := (input: TurnInput) => TurnSummary(input, render);
    forall i | 0 <= i < |inputs|
      ensures summarize(inputs[i]).Ok?
    {
      FilteredSummaryFailsOnlyOnSchema(inputs[i].backend, render);
    }
    ReplayWithoutErrors(history, inputs, summarize);
  }

  /** The module-level `messages` array. */
  class Chat {
    var messages: seq<Message>

    ghost predicate Valid()
      reads this
    {
      |messages| >= 1 && messages[0] == SystemPrompt
    }

    constructor ()
      ensures Valid() && messages == [SystemPrompt]
    {
      messages := [SystemPrompt];
    }

    /**
     * One pass of the loop body. `firstRequest` is the message list of the
     * first completion: the history, then the state summary and the user's
     * line, which are not stored. `secondRequest` is that of the second
     * completion: the stored history alone.
     */
    method Turn(input: TurnInput, render: Render)
      returns (outcome: Outcome, firstRequest: Option<seq<Message>>, secondRequest: Option<seq<Message>>)
      requires Valid()
      modifies this
      ensures Valid()
      ensures var summary := TurnSummary(input, render);
        if summary.Err? then
          messages == old(messages) && outcome == Crashed(summary.error) &&
          firstRequest.None? && secondRequest.None?
        else
          firstRequest == Some(old(messages) + [SystemMessage(summary.value), UserMessage(input.line)]) &&
          messages == Extend(old(messages), input.first, input.outputs, input.second) &&
          outcome == (if input.first.None? then NoMessage(NoMessageError) else Printed(messages[|messages| - 1].content)) &&
          secondRequest == (if input.first.Some? && input.first.value.tool_calls.Some?
            then Some(old(messages) + [input.first.value] + input.outputs) else None)
      ensures StepResult(messages, outcome) == Step(old(messages), TurnSummary(input, render), input)
    {
      var summary := TurnSummary(input, render);
      outcome, firstRequest, secondRequest := Record(summary, input);
    }

    /** The loop body once the summary has been built, or has thrown. */
    method Record(summary: Result<string, SummaryError>, input: TurnInput)
      returns (outcome: Outcome, firstRequest: Option<seq<Message>>, secondRequest: Option<seq<Message>>)
      requires Valid()
      modifies this
      ensures Valid()
      ensures if summary.Err? then
          messages == old(messages) && outcome == Crashed(summary.error) &&
          firstRequest.None? && secondRequest.None?
        else
          firstRequest == Some(old(messages) + [SystemMessage(summary.value), UserMessage(input.line)]) &&
          messages == Extend(old(messages), input.first, input.outputs, input.second) &&
          outcome == (if input.first.None? then NoMessage(NoMessageError) else Printed(messages[|messages| - 1].content)) &&
          secondRequest == (if input.first.Some? && input.first.value.tool_calls.Some?
            then Some(old(messages) + [input.first.value] + input.outputs) else None)
      ensures StepResult(messages, outcome) == Step(old(messages), summary, input)
    {
      firstRequest, secondRequest := None, None;
      if summary.Err? {
        outcome := Crashed(summary.error);
        return;
      }
      firstRequest := Some(messages + [SystemMessage(summary.value), UserMessage(input.line)]);
      if input.first.None? {
        outcome := NoMessage(NoMessageError);
        return;
      }
      var message := input.first.value;
      messages := messages + [message];
      if message.tool_calls.Some? {
        messages := messages + input.outputs;
        secondRequest := Some(messages);
        if input.second.Some? {
          messages := messages + [input.second.value];
        }
      }
      outcome := Printed(messages[|messages| - 1].content);
    }

    /** `for await (const line of console)`: one turn per line until a crash. */
    method Session(inputs: seq<TurnInput>, render: Render) returns (outcomes: seq<Outcome>)
      requires Valid()
      modifies this
      ensures Valid()
      ensures SessionResult(messages, outcomes) == Replay(old(messages), inputs, (input: TurnInput) => TurnSummary(input, render))
    {
      ghost var summarize := (input: TurnInput) => TurnSummary(input, render);
      outcomes := [];
      var i := 0;
      while i < |inputs|
        invariant 0 <= i <= |inputs|
        invariant Valid()
        invariant var rest := Replay(messages, inputs[i..], summarize);
          Replay(old(messages), inputs, summarize) == SessionResult(rest.history, outcomes + rest.outcomes)
      {
        assert inputs[i..][0] == inputs[i] && inputs[i..][1..] == inputs[i + 1..];
        assert summarize(inputs[i]) == TurnSummary(inputs[i], render);
        var outcome, _, _ := Turn(inputs[i], render);
        outcomes := outcomes + [outcome];
        if outcome.Crashed? {
          return;
        }
        i := i + 1;
      }
    }
  }
}
