# tau2-bench review scoring, modelled in Dafny

This project models the deterministic bookkeeping of the tau2-bench review
pipeline (`main.py`):

- **Run-name domain check** (`Domains`): the domain of a run is the part of
  its name before the first `-`, and must be `airline`, `retail` or
  `telecom`.
- **Case selection and rendering** (`Report`, `Render`, `Text`, `Capture`):
  `report` walks the simulations of a run, skips those whose reward is
  exactly 1.0, rewrites the matching task's `actions` list in place into
  `name(arguments)` strings, and prints the task and the conversation into a
  recorder whose buffer is flushed into one `(idx, case)` pair per selected
  simulation. Messages print as `[USER]  ==> ` / `[AGENT] ==> ` plus the
  stripped content (`None` prints as nothing after the tag), followed by one
  line per tool call when the message has a non-empty `tool_calls` list.
- **Weighted-responsibility scoring** (`Scoring`, `Reviews`, `Counters`):
  `eval` counts `base_acc = total - len(revs)`, adds a tiered credit per
  review (1.0 / 0.5 / 0.1 / 0, here 10 / 5 / 1 / 0 tenths, first matching
  rule wins) and tallies the five agent-error flags in a `Counter`.
- **Dataset statistics** (`DatasetStats`): per domain, the summed length of
  each evaluation-criteria list and the number of tasks whose list is
  non-empty, with `None` read as an empty list.

Modelling choices:

- A Python `Counter` is an insertion-ordered list of `(key, count)` entries
  (`Counters`); `c[k] += n` is `Counters.Add`, which appends a new key at
  the end even when `n` is 0, so the order in which `eval` and
  `dataset_stats` report keys is the program's.
- A review's answer is a `map<string, bool>`; `Reviews.Flag` reads an absent
  key as false, as `c.get(k)` / `c.get(k, False)` do.
- The `tasks` array of `Report.Report` stands for the list `report` loads
  at `main.py:49`; it is a parameter because loading is not modelled, and
  it is updated in place as that list is. The recorder is a class whose
  `lines` field the printing helpers append to. The helpers
  (`print_line`, `prints`, `log`, `print_iter`) each append one kind of
  `Capture.Line`; their exact text format is not modelled.
- Each imperative operation is a method proved against a specification
  function (`Report.ReportSpec`, `Scoring.EvalSpec`,
  `DatasetStats.TallyTasks`), and the properties are lemmas about those
  functions.
- A reward is a `real`, and "perfect" is equality with 1.0.
- Failures the program raises are error values: an unknown domain (the
  `assert` at `main.py:48`), a selected simulation without a task
  (`tasks[idx]` raises `IndexError`), a task whose `actions` is `None` or
  holds a non-tool-call entry (the list comprehension raises `TypeError`),
  and `eval` on a run with no simulations (the pass rate divides by zero).

Points where the program's behaviour is easy to misread:

- Only the agent-error keys that some review sets are reported: the
  `Counter` receives a key only when a review sets it, so keys no review
  sets are absent, not shown at 0% (`Scoring.ErrorTallyReportsNonZero`,
  `Scoring.TallyWorkedExample`). With no agent errors at all the heading
  at `main.py:144` is still printed, but the per-key lines at
  `main.py:145-146` are not, so no division by `total_errs` happens.
- `report` loads its task list itself (`main.py:49`) and never returns
  it. The in-place rewrite of each selected task's `actions` is observable
  only in the printed case, through `prints(task)` at `main.py:65`
  (`Report.RenderCase`, `Report.ReportSelectsFailedCases`).
- `base_acc = total - len(revs)` is not validated against the number of
  imperfect simulations, so it can be negative when there are more reviews
  than imperfect simulations.

## Model

| member | source | states |
|---|---|---|
| Counters.Get | main.py:137-142 | `c[k]` of a key the counter never received reads 0 |
| Counters.Add | main.py:142 | `c[k] += n`, also used for `avg_counter` and `per_counter` at `main.py:35-36`; its meaning is stated by `Counters.AddGet`, `Counters.AddKeys` and `Counters.AddTotal` |
| Counters.Total | main.py:143 | `sum(c.values())`; how `c[k] += n` changes it is stated by `Counters.AddTotal` |
| Counters.AddGet | main.py:142 | after `c[k] += n`, `c[k]` is `n` more and every other key reads as before |
| Counters.AddKeys | main.py:142 | `c[k] += n` keeps existing keys in place and appends `k` at the end when it is new |
| Counters.AddTotal | main.py:143 | `c[k] += n` raises the sum of the values by exactly `n` |
| Counters.AddKeepsDistinct | main.py:137-142 | a counter never holds a key twice |
| Counters.AddPositive | main.py:141-142 | adding a positive amount keeps every count positive |
| Counters.GetAtEntry | main.py:145-146 | iterating the items of a counter yields, for each key, the count `c[k]` reads |
| Capture.ItemLines | main.py:76 | `print_iter` prints one line per element, in order |
| Capture.Recorder.constructor | main.py:56 | the recorder starts with an empty buffer |
| Capture.Recorder.Log | main.py:66-74 | `log` appends exactly one text line and leaves the earlier lines |
| Capture.Recorder.PrintLine | main.py:60-67 | `print_line` appends exactly one titled rule |
| Capture.Recorder.Prints | main.py:65 | `prints(task)` appends exactly one dump of the task as it is at that moment |
| Capture.Recorder.PrintIter | main.py:76 | `print_iter` appends one item line per element, in order |
| Capture.Recorder.Flush | main.py:77 | `flush` returns everything captured since the last flush and empties the buffer |
| Domains.FirstField | main.py:47 | `name.split("-")[0]` is a prefix of the name containing no `-`, followed in the name by a `-` unless it is the whole name |
| Domains.ParseDomain | main.py:47-48 | the check accepts exactly the names whose first field is `airline`, `retail` or `telecom`, and reports the offending field otherwise |
| Domains.FirstFieldOfJoin | main.py:47 | whatever follows the first `-` does not affect the first field |
| Domains.DomainRoundTrip | main.py:47-48 | a run named `<domain>-<anything>` is accepted as that domain |
| Domains.FirstFieldWithoutDash | main.py:47 | a name without `-` is taken whole |
| Domains.DefaultRunIsAirline | main.py:43-48 | the default run name passes the check as an airline run |
| Text.LeadingSpaces | main.py:70 | the whitespace that `strip` removes at the front: all spaces, followed by a non-space |
| Text.TrailingSpaces | main.py:70 | the whitespace that `strip` removes at the back: all spaces, preceded by a non-space |
| Text.Strip | main.py:70 | `strip()` keeps a contiguous stretch of the content, removes only whitespace, and leaves no whitespace at either end |
| Text.StripIdempotent | main.py:70 | stripping an already stripped content changes nothing |
| Text.StripAllSpace | main.py:70 | content made only of whitespace prints as nothing after the tag |
| Render.ToolCallText | main.py:52-53 | `_toolcall2str` is the name, `(`, the arguments and `)`, in that order and nothing else |
| Render.ToolCallTextInjective | main.py:52-53 | for names without `(`, distinct tool calls render to distinct strings |
| Render.ToolCallTexts | main.py:76 | the rendered calls of a message: one string per call, in order |
| Render.RenderActions | main.py:62-64 | the rewrite succeeds exactly when `actions` is a list of tool calls; then it has the same length and each entry is that call's `name(arguments)`; `None` fails |
| Render.RenderActionsOnce | main.py:62-64 | the rewritten representation holds no tool-call objects: rewriting it again succeeds exactly when it is empty |
| Render.RenderTaskActions | main.py:61-64 | the task keeps its id and its other two criteria; only `actions` is replaced by the rewritten list |
| Render.ContentText | main.py:70 | a `None` content is the empty string, any other content is stripped (`Text.Strip` states what stripping keeps) |
| Render.ContentLines | main.py:71-74 | the role-tagged content line of a message; `Render.ContentLinesSpec` states when it is present and what it holds |
| Render.ToolCallLines | main.py:75-76 | the tool-call lines of a message; `Render.ToolCallLinesSpec` states when they are present and what they hold |
| Render.ConversationLines | main.py:69-76 | every message's lines in message order; `Render.ConversationLinesAppend` and `Render.ConversationLineCounts` state its shape |
| Render.ContentLinesSpec | main.py:70-74 | a user or assistant message prints one line with its role tag and its stripped content (only the tag for `None`); any other role prints no content line |
| Render.ToolCallLinesSpec | main.py:75-76 | a message prints one line per tool call, in order, and none when `tool_calls` is absent, `None` or empty |
| Render.ConversationLinesAppend | main.py:69-76 | the conversation prints message after message: the lines of two runs of messages are concatenated |
| Render.ConversationLinesSnoc | main.py:69-76 | one more message adds exactly its own lines at the end |
| Render.ConversationLinesPrefix | main.py:69-76 | after `i + 1` messages the buffer holds the first `i` messages' lines followed by message `i`'s |
| Render.ConversationLinesExtend | main.py:69-76 | below lines already printed, the first `i` messages' lines followed by message `i`'s are the first `i + 1` messages' lines |
| Render.ItemLinesCount | main.py:76 | the tool-call lines are item lines only, one per call |
| Render.ConversationLineCounts | main.py:69-76 | a conversation prints one text line per user or assistant message and one item line per tool call |
| Report.Selected | main.py:57-59 | the reviewed indices are exactly the simulations whose reward is not 1.0, each its own position, in strictly increasing order |
| Report.CaseLines | main.py:60-76 | what one selected simulation prints between two flushes; `Report.RenderCase` is proved to print exactly it |
| Report.RunFrom | main.py:57-77 | the loop of `report` from index `i` on, as a function of the task list; `Report.RunFromFrame`, `Report.RunFromSucceeds`, `Report.RunFromFails`, `Report.RunFromCases` and `Report.RunFromRewrites` state its behaviour |
| Report.ReportSpec | main.py:46-78 | `report` as a function: the domain check, then the loop; `Report.ReportSucceeds`, `Report.ReportFails` and `Report.ReportSelectsFailedCases` state its behaviour |
| Report.RunFromFrame | main.py:57-64 | the loop never changes the number of tasks nor a task before the current index |
| Report.RunFromSucceeds | main.py:57-64 | the loop succeeds exactly when every selected simulation has a task whose actions are all tool calls |
| Report.RunFromFails | main.py:57-64 | a failing loop fails at the first selected simulation without a task (`IndexError`) or with a bad `actions` list (`TypeError`, with its cause) |
| Report.CasesAt | main.py:77 | one case per given index, in order, each holding what that simulation prints with its task rewritten |
| Report.CasesAtFrame | main.py:61-77 | a case depends only on its own task |
| Report.RunFromCases | main.py:57-77 | a successful loop returns exactly the cases of the selected simulations, in order |
| Report.RunFromRewrites | main.py:61-64 | after a successful loop exactly the selected tasks have been rewritten |
| Report.ReportSucceeds | main.py:46-78 | `report` returns exactly when the domain is known and every simulation with reward not 1.0 has a task whose actions are all tool calls |
| Report.ReportFails | main.py:46-78 | a failing `report` fails on the domain check first, else at the first imperfect simulation whose task is missing or has a bad `actions` list |
| Report.ReportSelectsFailedCases | main.py:46-78 | a successful `report` returns one `(idx, case)` per simulation with reward not 1.0, in increasing index order, each holding its setup and conversation, and rewrites exactly those tasks in place |
| Report.RenderContent | main.py:70-74 | the method prints exactly the content line of the message |
| Report.RenderToolCalls | main.py:75-76 | the method prints exactly the tool-call lines of the message |
| Report.RenderMessage | main.py:70-76 | the method prints the content line, then the tool-call lines |
| Report.RenderConversation | main.py:69-76 | the loop prints every message's lines, in message order |
| Report.RenderCase | main.py:60-76 | between two flushes the buffer holds the setup rule, the task dump, a blank line, the conversation rule, a blank line and the conversation |
| Report.Report | main.py:46-78 | the method's result and the task array afterwards are those of `ReportSpec` on the original tasks |
| Scoring.TierOf | main.py:124-133 | the first matching rule of the `if`/`elif` chain; which tier each combination of flags lands in is stated by `Scoring.UserFaultWins`, `Scoring.HalfCredit`, `Scoring.TenthCredit` and `Scoring.NoCredit` |
| Scoring.Credit | main.py:124-133 | what one review adds to `new_acc`, in tenths (10, 5, 1 or 0); `Scoring.CreditReadsEightFlags` states which flags it depends on |
| Scoring.WeightedCredit | main.py:122-133 | the credits of the reviews, summed; `Scoring.WeightedCreditBound` bounds it by a point per review |
| Scoring.TallyFlags | main.py:140-142 | the inner loop over the five keys for one review; `Scoring.TallyFlagsGet` and `Scoring.TallyFlagsShape` state its effect |
| Scoring.ErrorTally | main.py:137-142 | `err_counts` after the loop over the reviews; `Scoring.ErrorTallyCounts` and `Scoring.ErrorTallyReportsNonZero` state its contents |
| Scoring.EvalSpec | main.py:116-146 | `eval` fails (division by zero) exactly when there are no simulations; `Scoring.EvalScoreBounds` bounds its scores |
| Scoring.UserFaultWins | main.py:124-127 | a review earns the full point exactly when the user quit prematurely or gave wrong details, whatever the agent-error flags say |
| Scoring.HalfCredit | main.py:128-129 | half a point exactly when the user is not at fault and all five agent-error flags are false or absent |
| Scoring.TenthCredit | main.py:130-133 | a tenth exactly when the user is not at fault and both pressure flags are set; such a review never reaches the half-point rule |
| Scoring.NoCredit | main.py:122-133 | nothing exactly when the user is not at fault, some agent error is set, and it was not a mistake under pressure |
| Scoring.CreditReadsEightFlags | main.py:122-133 | the credit depends only on the two user-fault flags, the pressure flag and the five agent-error flags |
| Scoring.NoFlagsEarnsHalf | main.py:128-129 | a review without flags reads as "no agent error" and earns half a point |
| Scoring.WeightedCreditBound | main.py:122-133 | the reviews add at most one point each |
| Scoring.CountFlagBound | main.py:138-142 | no flag is counted more often than there are reviews |
| Scoring.AgentErrKeysDistinct | main.py:107-113 | the five agent-error keys are distinct |
| Scoring.TallyFlagsGet | main.py:140-142 | one review raises the count of each key it sets by one and no other |
| Scoring.TallyFlagsShape | main.py:140-143 | one review keeps the keys distinct and the counts positive and adds to `total_errs` the number of keys it sets |
| Scoring.SumCountsSnoc | main.py:143 | summed over the keys, one more review adds what it sets |
| Scoring.SumCountsEmpty | main.py:143 | without reviews the summed counts are 0 |
| Scoring.ErrorTallyCounts | main.py:137-143 | `err_counts[k]` is the number of reviews setting `k` for the five keys and 0 for any other; keys are distinct; `total_errs` is the sum of the five counts |
| Scoring.ErrorTallyReportsNonZero | main.py:137-146 | exactly the agent-error keys some review sets are reported, each count between 1 and the number of reviews; nothing is reported exactly when `total_errs` is 0 |
| Scoring.EvalScoreBounds | main.py:119-135 | `base_acc = total - len(revs)` and `base_acc <= new_acc <= base_acc + len(revs)` |
| Scoring.Eval | main.py:116-146 | the method fails exactly when there are no simulations and otherwise returns `total`, `base_acc`, `new_acc` and the tally as `EvalSpec` states |
| Scoring.EvalWorkedExample | main.py:119-135 | four simulations with one half-point and one zero review give `base_acc` 2 and `new_acc` 2.5 |
| Scoring.TallyWorkedExample | main.py:137-146 | a single review with two agent errors is reported under those two keys only, once each, in key order |
| DatasetStats.KindLength | main.py:33-35 | `len(items)` of one kind's list, with `None` read as `[]` |
| DatasetStats.NonEmpty | main.py:33-36 | `1 if len(items) else 0` of one kind's list, with `None` read as `[]` |
| DatasetStats.TallyKinds | main.py:32-36 | the inner loop over the three kinds for one task; `DatasetStats.TallyKindsGet`, `DatasetStats.TallyKindsKeepsKeys` and `DatasetStats.TallyKindsCreatesKeys` state its effect |
| DatasetStats.TallyTasks | main.py:30-36 | a counter after the loop over the tasks; `DatasetStats.TallyTasksCounts` states its contents and keys |
| DatasetStats.TallyKindsGet | main.py:32-36 | one task adds its measure once to each criterion kind |
| DatasetStats.TallyKindsKeepsKeys | main.py:32-36 | after the first task the counters keep the same three keys |
| DatasetStats.TallyKindsCreatesKeys | main.py:32-36 | the first task creates the keys in loop order, even for empty lists |
| DatasetStats.TallyTasksCounts | main.py:28-36 | each counter holds, per kind, the measure summed over the tasks; keys are the three kinds once there is a task and none before |
| DatasetStats.NonEmptyBounds | main.py:33-36 | the non-empty count is at most the number of tasks and at most the summed lengths |
| DatasetStats.MissingListsCountNothing | main.py:33-36 | a task whose lists are all `None` adds nothing to either counter |
| DatasetStats.DomainCountsMeaning | main.py:25-36 | the two counters of a domain hold the summed lengths and the non-empty counts, with the bounds above, under the three kinds |
| DatasetStats.CountDomain | main.py:25-36 | the nested loops over a domain's tasks leave `avg_counter` and `per_counter` equal to `LengthTally` and `NonEmptyTally` of its tasks, whose contents `DomainCountsMeaning` states, and count the tasks |
| DatasetStats.DatasetCounts | main.py:24-36 | the outer loop visits airline, retail and telecom in that order and computes each one's counters |

## Left out

- `infer`, `review`, `get_review`, `run_grok` and `make_reviews_readable`: calls into the external benchmark runner, a network client, asyncio batching and file logging, none of which is sequential bookkeeping.
- File I/O (`load_json`, `save_json`, `this_dir`, `build_dirs_for`): the loaded tasks, simulations and reviews are parameters; `DatasetStats.DatasetCounts` takes the loading of a domain's tasks as a function.
- The text formats of `prints`, `print_line` and `recorder`: each helper appends one abstract line.
- Floating point: the pass rates and percentages (`main.py:134-135`, `main.py:146`), the averages' division and rounding (`main.py:37-38`) and the printing of the results. `Scoring.Eval` returns the integers they are computed from, and credits are exact tenths, so the rounding of repeated `+= 0.1` on a Python float is not modelled.
- The reward is compared with 1.0 as an exact real; how it was parsed from JSON is not modelled.
- Tool-call `arguments` are a mapping in the JSON; the model keeps the text Python's `str` gives them, without modelling that conversion.
- Reviews are matched to simulations only by count, as in the program; `task_id` and `case` are carried in `Reviews.ReviewRecord` but not read.
- `dataset_stats` reads `criteria[k2]` for each kind; a task whose criteria lack one of the three keys (a `KeyError`) cannot be expressed, because every criteria record has all three fields.
- Review flags are booleans, as the review schema requires; other JSON values and their truthiness are not modelled.
- `Text.Strip` uses Python's `str.isspace` character set for the characters Dafny strings hold; Unicode normalisation is not involved.
