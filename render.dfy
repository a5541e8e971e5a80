/**
 How a failed simulation is turned into the text of a case: tool calls as
 `name(arguments)`, the task's `actions` list rewritten into such strings,
 and each message as a role-tagged line followed by its tool calls.
 */
module Render {
  import opened Wrappers
  import opened Data
  import opened Capture
  import opened Text

  /** `_toolcall2str`: `name(arguments)`. */
  function ToolCallText(call: ToolCall): (s: string)
    ensures |s| == |call.name| + |call.arguments| + 2
    ensures s[..|call.name| + 1] == call.name + "("
    ensures s[|call.name| + 1..|s| - 1] == call.arguments
    ensures s[|s| - 1] == ')'
  {
    call.name + "(" + call.arguments + ")"
  }

  /** The first `(` of a rendered call is the one right after its name. */
  lemma FirstParen(c: ToolCall)
    requires '(' !in c.name
    ensures ToolCallText(c)[|c.name|] == '('
    ensures forall i :: 0 <= i < |c.name| ==> ToolCallText(c)[i] != '('
  {
  }

  /** Two tool calls whose names contain no `(` render to the same text only
      if they are the same call: the rendering loses nothing. */
  lemma ToolCallTextInjective(a: ToolCall, b: ToolCall)
    requires '(' !in a.name && '(' !in b.name
    requires ToolCallText(a) == ToolCallText(b)
    ensures a == b
  {
    var s := ToolCallText(a);
    FirstParen(a);
    FirstParen(b);
    var n := |a.name|;
    assert n == |b.name|;
    assert a.name == s[..n + 1][..n] == b.name;
  }

  /** The rendered calls, one string per call, in order. */
  function ToolCallTexts(calls: seq<ToolCall>): (ts: seq<string>)
    ensures |ts| == |calls|
    ensures forall i :: 0 <= i < |calls| ==> ts[i] == ToolCallText(calls[i])
  {
    seq(|calls|, i requires 0 <= i < |calls| => ToolCallText(calls[i]))
  }

  /** Why rewriting a task's `actions` raises a TypeError. */
  datatype RenderError =
    | ActionsNotIterable   // the list is None
    | ActionNotACall       // an entry is not a tool-call object

  /** The list comprehension over `actions`: every tool-call entry becomes
      its `name(arguments)` string, in the same order. */
  function RenderActions(actions: Option<seq<ActionEntry>>): (r: Result<seq<ActionEntry>, RenderError>)
    ensures r.Ok? <==> actions.Some? && forall k :: 0 <= k < |actions.value| ==> actions.value[k].CallEntry?
    ensures actions.None? ==> r == Err(ActionsNotIterable)
    ensures r.Ok? ==> |r.value| == |actions.value|
    ensures r.Ok? ==> forall k :: 0 <= k < |r.value| ==> r.value[k] == TextEntry(ToolCallText(actions.value[k].call))
  {
    match actions
    case None => Err(ActionsNotIterable)
    case Some(xs) =>
      if exists k :: 0 <= k < |xs| && xs[k].TextEntry? then Err(ActionNotACall)
      else Ok(seq(|xs|, k requires 0 <= k < |xs| => TextEntry(ToolCallText(xs[k].call))))
  }

  /** The rewritten representation holds no tool-call objects: a non-empty
      rewritten list is no longer a list of tool calls, so the comprehension
      would raise on it. */
  lemma RenderActionsOnce(actions: Option<seq<ActionEntry>>)
    requires RenderActions(actions).Ok?
    ensures RenderActions(Some(RenderActions(actions).value)).Ok? <==> actions.value == []
  {
    var xs := RenderActions(actions).value;
    if xs != [] {
      assert !xs[0].CallEntry?;
    }
  }

  /** `task["evaluation_criteria"]["actions"] = [...]`: the task with only its
      actions rewritten. */
  function RenderTaskActions(t: Task): (r: Result<Task, RenderError>)
    ensures r.Ok? <==> RenderActions(t.criteria.actions).Ok?
    ensures r.Err? ==> r.error == RenderActions(t.criteria.actions).error
    ensures r.Ok? ==>
      && r.value.id == t.id
      && r.value.criteria.communicateInfo == t.criteria.communicateInfo
      && r.value.criteria.nlAssertions == t.criteria.nlAssertions
      && r.value.criteria.actions == Some(RenderActions(t.criteria.actions).value)
  {
    match RenderActions(t.criteria.actions)
    case Err(e) => Err(e)
    case Ok(xs) => Ok(t.(criteria := t.criteria.(actions := Some(xs))))
  }

  const UserPrefix: string := "[USER]  ==> "
  const AgentPrefix: string := "[AGENT] ==> "

  /** A null content is the empty string; any other content is stripped. */
  function ContentText(content: Option<string>): string {
    match content
    case None => ""
    case Some(s) => Strip(s)
  }

  /** The role-tagged line of a message; other roles print no content. */
  function ContentLines(m: Message): seq<Line> {
    if m.role == "user" then [Text(UserPrefix + ContentText(m.content))]
    else if m.role == "assistant" then [Text(AgentPrefix + ContentText(m.content))]
    else []
  }

  /** The tool calls of a message, printed only when present and non-empty. */
  function ToolCallLines(m: Message): seq<Line> {
    if m.toolCalls.Some? && m.toolCalls.value != [] then ItemLines(ToolCallTexts(m.toolCalls.value))
    else []
  }

  predicate Speaks(m: Message) {
    m.role == "user" || m.role == "assistant"
  }

  function CallCount(m: Message): nat {
    if m.toolCalls.Some? then |m.toolCalls.value| else 0
  }

  function MessageLines(m: Message): seq<Line> {
    ContentLines(m) + ToolCallLines(m)
  }

  /** The content line of a message: present exactly when the role is user
      or assistant, tagged by role, holding the stripped content, or only the
      tag when the content is null. */
  lemma ContentLinesSpec(m: Message)
    ensures |ContentLines(m)| == if Speaks(m) then 1 else 0
    ensures m.role == "user" ==> ContentLines(m)[0] == Text(UserPrefix + ContentText(m.content))
    ensures m.role == "assistant" ==> ContentLines(m)[0] == Text(AgentPrefix + ContentText(m.content))
    ensures Speaks(m) && m.content.None? ==> ContentLines(m)[0].text == if m.role == "user" then UserPrefix else AgentPrefix
    ensures Speaks(m) && m.content.Some? ==> ContentLines(m)[0].text[|UserPrefix|..] == Strip(m.content.value)
  {
  }

  /** The tool-call lines of a message: one per call, in order. */
  lemma ToolCallLinesSpec(m: Message)
    ensures |ToolCallLines(m)| == CallCount(m)
    ensures forall k :: 0 <= k < CallCount(m) ==> ToolCallLines(m)[k] == Item(ToolCallText(m.toolCalls.value[k]))
  {
  }

  /** The whole conversation: each message's lines, in message order. */
  function ConversationLines(msgs: seq<Message>): seq<Line> {
    if msgs == [] then [] else MessageLines(msgs[0]) + ConversationLines(msgs[1..])
  }

  lemma {:induction false} ConversationLinesAppend(a: seq<Message>, b: seq<Message>)
    ensures ConversationLines(a + b) == ConversationLines(a) + ConversationLines(b)
  {
    if a == [] {
      assert a + b == b;
    } else {
      assert (a + b)[0] == a[0];
      assert (a + b)[1..] == a[1..] + b;
      ConversationLinesAppend(a[1..], b);
    }
  }

  /** The conversation grows by one message's lines per message. */
  lemma ConversationLinesSnoc(msgs: seq<Message>, m: Message)
    ensures ConversationLines(msgs + [m]) == ConversationLines(msgs) + MessageLines(m)
  {
    ConversationLinesAppend(msgs, [m]);
    assert ConversationLines([m]) == MessageLines(m) + ConversationLines([]);
  }

  /** The lines of the first `i + 1` messages are those of the first `i`,
      then those of message `i`. */
  lemma ConversationLinesPrefix(msgs: seq<Message>, i: nat)
    requires i < |msgs|
    ensures ConversationLines(msgs[..i + 1]) == ConversationLines(msgs[..i]) + MessageLines(msgs[i])
  {
    var pre := msgs[..i];
    assert msgs[..i + 1] == pre + [msgs[i]];
    ConversationLinesSnoc(pre, msgs[i]);
  }

  /** The same step below lines already printed: output that ends with the
      first `i` messages, followed by message `i`, ends with the first
      `i + 1`. */
  lemma ConversationLinesExtend(printed: seq<Line>, msgs: seq<Message>, i: nat)
    requires i < |msgs|
    ensures printed + ConversationLines(msgs[..i]) + MessageLines(msgs[i])
         == printed + ConversationLines(msgs[..i + 1])
  {
    ConversationLinesPrefix(msgs, i);
    ghost var done, next := ConversationLines(msgs[..i]), MessageLines(msgs[i]);
    assert printed + done + next == printed + (done + next);
  }

  function TextLineCount(ls: seq<Line>): nat {
    if ls == [] then 0 else (if ls[0].Text? then 1 else 0) + TextLineCount(ls[1..])
  }

  function ItemLineCount(ls: seq<Line>): nat {
    if ls == [] then 0 else (if ls[0].Item? then 1 else 0) + ItemLineCount(ls[1..])
  }

  function SpeakerCount(msgs: seq<Message>): nat {
    if msgs == [] then 0 else (if Speaks(msgs[0]) then 1 else 0) + SpeakerCount(msgs[1..])
  }

  function TotalCallCount(msgs: seq<Message>): nat {
    if msgs == [] then 0 else CallCount(msgs[0]) + TotalCallCount(msgs[1..])
  }

  lemma {:induction false} LineCountsAppend(a: seq<Line>, b: seq<Line>)
    ensures TextLineCount(a + b) == TextLineCount(a) + TextLineCount(b)
    ensures ItemLineCount(a + b) == ItemLineCount(a) + ItemLineCount(b)
  {
    if a == [] {
      assert a + b == b;
    } else {
      assert (a + b)[0] == a[0];
      assert (a + b)[1..] == a[1..] + b;
      LineCountsAppend(a[1..], b);
    }
  }

  lemma {:induction false} ItemLinesCount(items: seq<string>)
    ensures TextLineCount(ItemLines(items)) == 0
    ensures ItemLineCount(ItemLines(items)) == |items|
  {
    if items != [] {
      assert ItemLines(items)[1..] == ItemLines(items[1..]);
      ItemLinesCount(items[1..]);
    }
  }

  /** A conversation prints one content line per user or assistant message
      and one line per tool call, whatever the other roles are. */
  lemma {:induction false} ConversationLineCounts(msgs: seq<Message>)
    ensures TextLineCount(ConversationLines(msgs)) == SpeakerCount(msgs)
    ensures ItemLineCount(ConversationLines(msgs)) == TotalCallCount(msgs)
  {
    if msgs != [] {
      var m := msgs[0];
      ConversationLineCounts(msgs[1..]);
      LineCountsAppend(MessageLines(m), ConversationLines(msgs[1..]));
      LineCountsAppend(ContentLines(m), ToolCallLines(m));
      if m.toolCalls.Some? && m.toolCalls.value != [] {
        ItemLinesCount(ToolCallTexts(m.toolCalls.value));
      }
      assert TextLineCount(ContentLines(m)) == (if Speaks(m) then 1 else 0);
      assert ItemLineCount(ContentLines(m)) == 0;
    }
  }
}
