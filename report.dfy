/**
 `report`: select the simulations of a run that did not get a perfect
 reward and render each one, with its task, into the text of a case. The
 task list is updated in place (each selected task's `actions` is rewritten)
 and all printing goes to a recorder that is flushed once per case.
 */
module Report {
  import opened Wrappers
  import opened Data
  import opened Capture
  import opened Render
  import opened Domains

  datatype ReportError =
    | UnknownDomain(domain: string)                 // the domain assertion fails
    | NoTaskAt(index: nat)                          // `tasks[idx]` raises IndexError
    | BadActions(index: nat, cause: RenderError)    // rewriting `actions` raises TypeError

  /** `(idx, r.flush())`: a selected simulation's index and what it printed. */
  datatype Case = Case(index: nat, lines: seq<Line>)

  /** What one selected simulation prints, given its task after the
      rewrite. */
  function CaseLines(t: Task, s: Simulation): seq<Line> {
    [Rule("setup"), Dump(t), Text(""), Rule("conversation"), Text("")] + ConversationLines(s.messages)
  }

  /** The indices, from `i` on, of the simulations that are reviewed: those
      whose reward is not exactly 1.0, in increasing order. */
  function Selected(sims: seq<Simulation>, i: nat): (r: seq<nat>)
    decreases |sims| - i
    ensures forall k :: 0 <= k < |r| ==> i <= r[k] < |sims| && !IsPerfect(sims[r[k]].reward)
    ensures forall j :: i <= j < |sims| && !IsPerfect(sims[j].reward) ==> j in r
    ensures forall k, l :: 0 <= k < l < |r| ==> r[k] < r[l]
  {
    if i >= |sims| then []
    else if IsPerfect(sims[i].reward) then Selected(sims, i + 1)
    else [i] + Selected(sims, i + 1)
  }

  /** The result of a run together with the task list as it is afterwards. */
  datatype Outcome = Outcome(result: Result<seq<Case>, ReportError>, tasks: seq<Task>)

  /** Puts cases already collected in front of an outcome's cases. */
  function Prepend(cs: seq<Case>, o: Outcome): Outcome {
    if o.result.Ok? then Outcome(Ok(cs + o.result.value), o.tasks) else o
  }

  /** A selected simulation can be rendered: its task exists and its actions
      are all tool calls. */
  predicate Renderable(tasks: seq<Task>, j: nat) {
    j < |tasks| && RenderTaskActions(tasks[j]).Ok?
  }

  /** A task with its actions rewritten, where that succeeds. */
  function Rewritten(t: Task): Task {
    match RenderTaskActions(t)
    case Ok(t') => t'
    case Err(_) => t
  }

  /** The loop of `report` from simulation `i` on, over the current tasks;
      `render` gives what a selected simulation prints (`CaseLines` in the
      program; the lemmas below hold for any rendering). */
  function RunFrom(tasks: seq<Task>, sims: seq<Simulation>, i: nat, render: (Task, Simulation) -> seq<Line>): Outcome
    decreases |sims| - i
  {
    if i >= |sims| then Outcome(Ok([]), tasks)
    else if IsPerfect(sims[i].reward) then RunFrom(tasks, sims, i + 1, render)
    else if i >= |tasks| then Outcome(Err(NoTaskAt(i)), tasks)
    else match RenderTaskActions(tasks[i])
      case Err(e) => Outcome(Err(BadActions(i, e)), tasks)
      case Ok(t) => Prepend([Case(i, render(t, sims[i]))], RunFrom(tasks[i := t], sims, i + 1, render))
  }

  /** `report(name)` on the tasks and simulations loaded for that name. */
  function ReportSpec(name: string, tasks: seq<Task>, sims: seq<Simulation>): Outcome {
    match ParseDomain(name)
    case Err(d) => Outcome(Err(UnknownDomain(d)), tasks)
    case Ok(_) => RunFrom(tasks, sims, 0, CaseLines)
  }

  function ErrorIndex(e: ReportError): nat {
    match e
    case UnknownDomain(_) => 0
    case NoTaskAt(j) => j
    case BadActions(j, _) => j
  }

  /** The run never changes the number of tasks, and leaves alone every
      task before `i`. */
  lemma {:induction false} RunFromFrame(tasks: seq<Task>, sims: seq<Simulation>, i: nat, render: (Task, Simulation) -> seq<Line>)
    decreases |sims| - i
    ensures |RunFrom(tasks, sims, i, render).tasks| == |tasks|
    ensures forall j :: 0 <= j < i && j < |tasks| ==> RunFrom(tasks, sims, i, render).tasks[j] == tasks[j]
  {
    if i < |sims| && !IsPerfect(sims[i].reward) && Renderable(tasks, i) {
      RunFromFrame(tasks[i := Rewritten(tasks[i])], sims, i + 1, render);
    } else if i < |sims| && IsPerfect(sims[i].reward) {
      RunFromFrame(tasks, sims, i + 1, render);
    }
  }

  /** The run from `i` succeeds exactly when every selected simulation from
      `i` on is renderable. */
  lemma {:induction false} RunFromSucceeds(tasks: seq<Task>, sims: seq<Simulation>, i: nat, render: (Task, Simulation) -> seq<Line>)
    decreases |sims| - i
    ensures RunFrom(tasks, sims, i, render).result.Ok? <==>
      forall j :: i <= j < |sims| && !IsPerfect(sims[j].reward) ==> Renderable(tasks, j)
  {
    if i < |sims| && !IsPerfect(sims[i].reward) && Renderable(tasks, i) {
      var tasks' := tasks[i := Rewritten(tasks[i])];
      RunFromSucceeds(tasks', sims, i + 1, render);
      assert forall j :: i < j ==> Renderable(tasks', j) == Renderable(tasks, j);
    } else if i < |sims| && IsPerfect(sims[i].reward) {
      RunFromSucceeds(tasks, sims, i + 1, render);
    }
  }

  /** A run that fails, fails at the first selected simulation from `i` on
      that is not renderable, with the error that simulation raises. */
  lemma {:induction false} RunFromFails(tasks: seq<Task>, sims: seq<Simulation>, i: nat, render: (Task, Simulation) -> seq<Line>)
    decreases |sims| - i
    ensures var r := RunFrom(tasks, sims, i, render).result;
      r.Err? ==>
        var j := ErrorIndex(r.error);
        && i <= j < |sims| && !IsPerfect(sims[j].reward) && !Renderable(tasks, j)
        && (forall j' :: i <= j' < j && !IsPerfect(sims[j'].reward) ==> Renderable(tasks, j'))
        && (r.error.NoTaskAt? <==> j >= |tasks|)
        && (r.error.BadActions? ==> r.error.cause == RenderTaskActions(tasks[j]).error)
  {
    if i < |sims| && !IsPerfect(sims[i].reward) && Renderable(tasks, i) {
      var tasks' := tasks[i := Rewritten(tasks[i])];
      RunFromFails(tasks', sims, i + 1, render);
      assert forall j :: i < j ==> Renderable(tasks', j) == Renderable(tasks, j);
      assert forall j :: i < j < |tasks| ==> tasks'[j] == tasks[j];
    } else if i < |sims| && IsPerfect(sims[i].reward) {
      RunFromFails(tasks, sims, i + 1, render);
    }
  }

  /** The case built for selected simulation `j`: its index and what it
      prints, with its task's actions rewritten. */
  function CaseOf(tasks: seq<Task>, sims: seq<Simulation>, j: nat, render: (Task, Simulation) -> seq<Line>): Case
    requires j < |tasks| && j < |sims|
  {
    Case(j, render(Rewritten(tasks[j]), sims[j]))
  }

  /** Every index names both a task and a simulation. */
  predicate InRange(tasks: seq<Task>, sims: seq<Simulation>, idxs: seq<nat>) {
    forall k :: 0 <= k < |idxs| ==> idxs[k] < |tasks| && idxs[k] < |sims|
  }

  /** The cases for the given simulation indices, in the given order. */
  function CasesAt(tasks: seq<Task>, sims: seq<Simulation>, idxs: seq<nat>, render: (Task, Simulation) -> seq<Line>): (cs: seq<Case>)
    requires InRange(tasks, sims, idxs)
    ensures |cs| == |idxs|
    ensures forall k :: 0 <= k < |idxs| ==> cs[k] == CaseOf(tasks, sims, idxs[k], render)
  {
    if idxs == [] then [] else [CaseOf(tasks, sims, idxs[0], render)] + CasesAt(tasks, sims, idxs[1..], render)
  }

  /** Cases depend only on the tasks at their own indices. */
  lemma CasesAtFrame(tasks: seq<Task>, tasks': seq<Task>, sims: seq<Simulation>, idxs: seq<nat>, render: (Task, Simulation) -> seq<Line>)
    requires |tasks| == |tasks'|
    requires forall k :: 0 <= k < |idxs| ==> idxs[k] < |tasks| && idxs[k] < |sims| && tasks[idxs[k]] == tasks'[idxs[k]]
    ensures CasesAt(tasks, sims, idxs, render) == CasesAt(tasks', sims, idxs, render)
  {
  }

  /** A run that succeeds yields one case per selected simulation from `i`
      on, in order, each holding what that simulation prints with its task
      rewritten. */
  lemma {:induction false} RunFromCases(tasks: seq<Task>, sims: seq<Simulation>, i: nat, render: (Task, Simulation) -> seq<Line>)
    decreases |sims| - i
    requires RunFrom(tasks, sims, i, render).result.Ok?
    ensures forall k :: 0 <= k < |Selected(sims, i)| ==> Renderable(tasks, Selected(sims, i)[k])
    ensures && InRange(tasks, sims, Selected(sims, i))
            && RunFrom(tasks, sims, i, render).result.value == CasesAt(tasks, sims, Selected(sims, i), render)
  {
    RunFromSucceeds(tasks, sims, i, render);
    if i < |sims| && !IsPerfect(sims[i].reward) {
      var tasks' := tasks[i := Rewritten(tasks[i])];
      RunFromCases(tasks', sims, i + 1, render);
      var sel := Selected(sims, i + 1);
      CasesAtFrame(tasks, tasks', sims, sel, render);
      assert Selected(sims, i) == [i] + sel;
      assert ([i] + sel)[1..] == sel;
    } else if i < |sims| {
      RunFromCases(tasks, sims, i + 1, render);
    }
  }

  /** After a successful run from `i`, exactly the selected tasks from `i`
      on have had their actions rewritten. */
  lemma {:induction false} RunFromRewrites(tasks: seq<Task>, sims: seq<Simulation>, i: nat, render: (Task, Simulation) -> seq<Line>)
    decreases |sims| - i
    requires RunFrom(tasks, sims, i, render).result.Ok?
    ensures var o := RunFrom(tasks, sims, i, render);
      && |o.tasks| == |tasks|
      && forall j :: 0 <= j < |tasks| ==>
           o.tasks[j] == if i <= j < |sims| && !IsPerfect(sims[j].reward)
                         then Rewritten(tasks[j]) else tasks[j]
  {
    RunFromFrame(tasks, sims, i, render);
    RunFromSucceeds(tasks, sims, i, render);
    if i < |sims| && !IsPerfect(sims[i].reward) {
      var tasks' := tasks[i := Rewritten(tasks[i])];
      RunFromRewrites(tasks', sims, i + 1, render);
      RunFromFrame(tasks', sims, i + 1, render);
    } else if i < |sims| {
      RunFromRewrites(tasks, sims, i + 1, render);
    }
  }

  /** `report` succeeds exactly when the domain is known and every
      simulation whose reward is not 1.0 has a task whose actions are all
      tool calls. */
  lemma ReportSucceeds(name: string, tasks: seq<Task>, sims: seq<Simulation>)
    ensures ReportSpec(name, tasks, sims).result.Ok? <==>
      ParseDomain(name).Ok? && forall j :: 0 <= j < |sims| && !IsPerfect(sims[j].reward) ==> Renderable(tasks, j)
  {
    RunFromSucceeds(tasks, sims, 0, CaseLines);
  }

  /** A failing `report` fails on the domain check, or else at the first
      simulation whose reward is not 1.0 and whose task is missing or has an
      action that is not a tool call. */
  lemma ReportFails(name: string, tasks: seq<Task>, sims: seq<Simulation>)
    requires ReportSpec(name, tasks, sims).result.Err?
    ensures var e := ReportSpec(name, tasks, sims).result.error;
      if ParseDomain(name).Err? then e == UnknownDomain(FirstField(name))
      else
        var j := ErrorIndex(e);
        && j < |sims| && !IsPerfect(sims[j].reward) && !Renderable(tasks, j)
        && (forall j' :: 0 <= j' < j && !IsPerfect(sims[j'].reward) ==> Renderable(tasks, j'))
        && (e.NoTaskAt? <==> j >= |tasks|)
        && (e.BadActions? ==> e.cause == RenderTaskActions(tasks[j]).error)
  {
    RunFromFails(tasks, sims, 0, CaseLines);
  }

  /** A successful `report` yields exactly one case per simulation whose
      reward is not 1.0 (the indices `Selected` gives: those simulations'
      positions, in strictly increasing order), each holding what that
      simulation prints with its task rewritten; exactly those tasks have
      their actions rewritten in place. */
  lemma ReportSelectsFailedCases(name: string, tasks: seq<Task>, sims: seq<Simulation>)
    requires ReportSpec(name, tasks, sims).result.Ok?
    ensures ParseDomain(name).Ok?
    ensures forall k :: 0 <= k < |Selected(sims, 0)| ==> Renderable(tasks, Selected(sims, 0)[k])
    ensures && InRange(tasks, sims, Selected(sims, 0))
            && ReportSpec(name, tasks, sims).result.value == CasesAt(tasks, sims, Selected(sims, 0), CaseLines)
    ensures var final := ReportSpec(name, tasks, sims).tasks;
      && |final| == |tasks|
      && forall j :: 0 <= j < |tasks| ==>
           final[j] == if j < |sims| && !IsPerfect(sims[j].reward) then Rewritten(tasks[j]) else tasks[j]
  {
    RunFromCases(tasks, sims, 0, CaseLines);
    RunFromRewrites(tasks, sims, 0, CaseLines);
  }

  /** The content line of a message, if its role has one. */
  method RenderContent(rec: Recorder, m: Message)
    modifies rec
    ensures rec.lines == old(rec.lines) + ContentLines(m)
  {
    var content := ContentText(m.content);
    if m.role == "user" {
      rec.Log(UserPrefix + content);
    } else if m.role == "assistant" {
      rec.Log(AgentPrefix + content);
    }
  }

  /** The tool calls of a message, if it has any. */
  method RenderToolCalls(rec: Recorder, m: Message)
    modifies rec
    ensures rec.lines == old(rec.lines) + ToolCallLines(m)
  {
    if m.toolCalls.Some? && m.toolCalls.value != [] {
      rec.PrintIter(ToolCallTexts(m.toolCalls.value));
    }
  }

  /** One message: its content line, then its tool calls. */
  method RenderMessage(rec: Recorder, m: Message)
    modifies rec
    ensures rec.lines == old(rec.lines) + MessageLines(m)
  {
    RenderContent(rec, m);
    RenderToolCalls(rec, m);
    assert old(rec.lines) + ContentLines(m) + ToolCallLines(m) == old(rec.lines) + MessageLines(m);
  }

  /** The conversation loop of `report`: every message, in order. */
  method RenderConversation(rec: Recorder, msgs: seq<Message>)
    modifies rec
    ensures rec.lines == old(rec.lines) + ConversationLines(msgs)
  {
    var i := 0;
    while i < |msgs|
      invariant 0 <= i <= |msgs|
      invariant rec.lines == old(rec.lines) + ConversationLines(msgs[..i])
    {
      RenderMessage(rec, msgs[i]);
      ConversationLinesExtend(old(rec.lines), msgs, i);
      i := i + 1;
    }
    assert msgs[..|msgs|] == msgs;
  }

  /** Everything one selected simulation prints, between two flushes. */
  method RenderCase(rec: Recorder, task: Task, s: Simulation)
    requires rec.lines == [Rule("setup")]
    modifies rec
    ensures rec.lines == CaseLines(task, s)
  {
    rec.Prints(task);
    rec.Log("");
    rec.PrintLine("conversation");
    rec.Log("");
    RenderConversation(rec, s.messages);
  }

  /** `report(name)`, with the run's task list (as loaded for its domain) in
      `tasks` and its simulations in `sims`. */
  method Report(name: string, tasks: array<Task>, sims: seq<Simulation>)
      returns (r: Result<seq<Case>, ReportError>)
    modifies tasks
    ensures Outcome(r, tasks[..]) == ReportSpec(name, old(tasks[..]), sims)
  {
    var domain := ParseDomain(name);
    if domain.Err? {
      return Err(UnknownDomain(domain.error));
    }
    var rec := new Recorder();
    var cases: seq<Case> := [];
    assert Prepend(cases, RunFrom(tasks[..], sims, 0, CaseLines)) == RunFrom(tasks[..], sims, 0, CaseLines) by {
      var o := RunFrom(tasks[..], sims, 0, CaseLines);
      if o.result.Ok? {
        assert cases + o.result.value == o.result.value;
      }
    }
    var idx := 0;
    while idx < |sims|
      invariant 0 <= idx <= |sims|
      invariant rec.lines == []
      invariant Prepend(cases, RunFrom(tasks[..], sims, idx, CaseLines)) == RunFrom(old(tasks[..]), sims, 0, CaseLines)
    {
      var s := sims[idx];
      if IsPerfect(s.reward) {
        idx := idx + 1;
        continue;
      }
      rec.PrintLine("setup");
      if idx >= tasks.Length {
        return Err(NoTaskAt(idx));
      }
      var task := RenderTaskActions(tasks[idx]);
      if task.Err? {
        return Err(BadActions(idx, task.error));
      }
      ghost var before := tasks[..];
      tasks[idx] := task.value;
      assert tasks[..] == before[idx := task.value];
      RenderCase(rec, tasks[idx], s);
      var text := rec.Flush();
      ghost var rest := RunFrom(tasks[..], sims, idx + 1, CaseLines);
      assert RunFrom(before, sims, idx, CaseLines) == Prepend([Case(idx, text)], rest);
      if rest.result.Ok? {
        assert cases + ([Case(idx, text)] + rest.result.value) == (cases + [Case(idx, text)]) + rest.result.value;
      }
      cases := cases + [Case(idx, text)];
      idx := idx + 1;
    }
    assert cases + [] == cases;
    return Ok(cases);
  }
}
