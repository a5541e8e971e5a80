/**
 The JSON records the program reads: tasks of a domain, and the simulations
 (conversation transcripts with a reward) of one run. Only the fields the
 program looks at are modelled.
 */
module Data {
  import opened Wrappers

  /** A tool call `{name, arguments}`. `arguments` is a mapping in the JSON;
      it is kept here as the text Python's `str` gives it. */
  datatype ToolCall = ToolCall(name: string, arguments: string)

  /** One element of a task's `actions` list: a tool-call object as loaded,
      or a string once the list has been rewritten. */
  datatype ActionEntry = CallEntry(call: ToolCall) | TextEntry(text: string)

  /** `evaluation_criteria`; each list may be JSON `null` (`None`). */
  datatype EvaluationCriteria = EvaluationCriteria(
    actions: Option<seq<ActionEntry>>,
    communicateInfo: Option<seq<string>>,
    nlAssertions: Option<seq<string>>)

  datatype Task = Task(id: string, criteria: EvaluationCriteria)

  /** A conversation message. `toolCalls` is `None` both when the key is
      absent and when it is `null`; the program treats the two alike. */
  datatype Message = Message(role: string, content: Option<string>, toolCalls: Option<seq<ToolCall>>)

  /** A simulation with its `reward_info.reward` and its messages. */
  datatype Simulation = Simulation(reward: real, messages: seq<Message>)

  /** A reward of exactly 1.0 marks a conversation that needs no review. */
  predicate IsPerfect(reward: real) {
    reward == 1.0
  }
}
