# Emerson business swarm: a verified model of the orchestration core

This project models, in Dafny, the core of the Emerson Router-Worker "business swarm".
It also proves properties about that model.

- **Escalation gate** (`Escalation`, from `src/escalation.py`). Each `Action` gets one of
  three verdicts: `PROCEED`, `CONFIRM` or `BLOCK`. The ordered rules are:
  - an amount above 2000 is blocked;
  - an amount above 500 needs confirmation;
  - a sensitive action needs confirmation;
  - a denylisted type (`BANK_TRANSFER`, `DELETE_DATABASE`) is blocked.
- **Data records** (`Models`, from `src/models.py`).
  - The `Action` record, with its defaults (amount 0, not sensitive).
  - `Project.short_id`. It is the project code upper-cased; otherwise the leftmost-longest
    `[A-Z]{2,}-\d+` tag in the name; otherwise the name's first four characters
    upper-cased.
- **Router** (`Router`, from `src/agents/router_agent.py`).
  - The line-by-line parse of `- agent:` / `- task:` lines out of the router's analysis.
  - The keyword fallback `_simple_delegate`.
  - `analyze_and_delegate`.
  - The synthesis prompt built by `synthesize_results`.
- **Orchestrator** (`Swarm`, from `src/swarm.py`).
  - The `MessageBus`, a class whose log is a `seq` field.
  - The `SwarmOrchestrator`, a class whose `Execute` runs plan, delegation loop and
    synthesis over the bus.
- **Single agent** (`Agent`, from `src/agent.py`).
  - How a tool call is read out of the model's reply (code fences, `action`/`tool`,
    `args`/`input`).
  - How the `Action` is built from the tool arguments.
  - The gated flow of `process`: refusal, cancellation, dispatch and the final formatting
    turn.
- **Python string operations** (`Text`, `Json`), as the core uses them:
  - `strip`, `lower`/`upper`, `startswith`, `in`, `find`, `split`;
  - truthiness of JSON values and `dict.get`.

Outside collaborators are function parameters. These are:
- the router's and the workers' language-model completions;
- `json.loads`;
- `str()` of non-string values;
- pydantic's coercion of `amount` and `sensitive`;
- the tool table;
- the confirmation prompt.

The delegation loop and the parse loop are imperative methods. Each is proved equal to a
recursive specification function (`Walk`, `Fold`). The lemmas are stated about those
functions.

Behaviour of the code worth knowing:
- **A worker that raises ends the run.** `SwarmOrchestrator.execute` has no handler
  around `worker.execute` (`src/swarm.py:157-158`), so the exception propagates out of
  the loop (`src/swarm.py:130-166`). The remaining delegations are not run, and the
  synthesis at `src/swarm.py:173` is not reached (`Run`, `WalkSticky`). Whether a worker
  raises depends on its base class. `src/agents/base_agent.py` is not part of this
  model, so a worker is any function that replies or raises. A worker that never raises
  is the special case where `work` always returns `Reply`.
- **A task-less delegation can reach the loop.** An `- agent:` line followed directly by
  another `- agent:` line is emitted without a task (`src/agents/router_agent.py:76-77`).
  The orchestrator then raises `KeyError`. With `verbose` (the default,
  `src/swarm.py:103`) it raises at the print at `src/swarm.py:127`, before any message is
  sent. Without `verbose` it raises at `delegation['task']` (`src/swarm.py:133`).
- **Fence extraction is "up to the next `"```json"`, then up to the first `"```"`".** It
  is not "the text between the fence and the next `"```"`". The two differ when a closing
  run of backticks overlaps a second `"```json"` (`OverlappingFenceKeepsBacktick`).
- **An object with neither `action` nor `tool` yields the tool name `"None"`.** That is
  `str(None)`, which is truthy, so the `Action` is built and gated. When the gate lets it
  through, the lookup fails with "Tool None niet gevonden.".
- **A null `sensitive` and a null `amount` fail differently.** `Action.sensitive` is a
  plain `bool` (`src/models.py:56`), so `"sensitive": null` fails validation
  (`src/agent.py:231-236`). `Action.amount` is `Optional[float]` (`src/models.py:55`),
  so `"amount": null` builds an `Action`. It then fails at the first threshold comparison
  (`src/escalation.py:21`).
- **`\d` matches every Unicode decimal digit.** The pattern at `src/models.py:26` has no
  `re.ASCII`, so `\d` matches any character of general category Nd (Unicode 15.0), not only
  `0`-`9` (`ShortIdNonAsciiDigit`).

## Model

| member | source | states |
|---|---|---|
| `Escalation.CheckAction` | src/escalation.py:16-35 | The exact set of actions given each verdict: `Block` iff amount > 2000, or amount ≤ 500, not sensitive and denylisted type; `Confirm` iff 500 < amount ≤ 2000, or amount ≤ 500 and sensitive; `Proceed` otherwise |
| `Escalation.RequiresConfirmation` | src/escalation.py:37-39 | True exactly for the actions whose verdict is `Confirm`, stated on the amount and the flag |
| `Escalation.CriticalAmountBlocks` | src/escalation.py:21-22 | Any amount above the critical threshold is blocked, whatever the flag and the type |
| `Escalation.BudgetTierBeforeDenylist` | src/escalation.py:24-25 | Between the thresholds the verdict is `Confirm`, even for a denylisted type |
| `Escalation.ThresholdsAreStrict` | src/escalation.py:13-25 | 2000 exactly asks for confirmation, 500 exactly is treated like 0, 2000.01 is blocked |
| `Escalation.SensitiveConfirms` | src/escalation.py:28-29 | A sensitive action within budget asks for confirmation |
| `Escalation.DenylistBlocks` | src/escalation.py:32-33 | A non-sensitive `BANK_TRANSFER` or `DELETE_DATABASE` within budget is blocked |
| `Escalation.VerdictIgnoresDescription` | src/escalation.py:16-35 | Two actions that agree on type, amount and flag get the same verdict |
| `Escalation.NotMonotoneInAmount` | src/escalation.py:21-33 | A transfer of 100 is blocked while the same transfer of 600 only needs confirmation |
| `Escalation.DefaultActionVerdict` | src/models.py:51-56 | An action with default amount and flag is blocked iff its type is denylisted, else proceeds |
| `Models.ShortId` | src/models.py:18-30 | `Project.short_id`: a non-empty code upper-cased; else the upper-cased span of the first `[A-Z]{2,}-\d+` match in the name; else the upper-cased first four characters (its meaning is proved by the `ShortIdFrom…` lemmas below) |
| `Models.MatchAtCorrect` | src/models.py:26 | The anchored match at `p` is the longest tag starting at `p`, and no tag starts at `p` when it fails |
| `Models.SearchCorrect` | src/models.py:26-27 | The search from `p` returns a tag with no tag starting before it and no longer tag at its start, or reports that no tag starts at or after `p` |
| `Models.UpperOfTag` | src/models.py:28 | Upper-casing a tag leaves it unchanged |
| `Models.ShortIdFromCode` | src/models.py:21-22 | A non-empty project code wins, upper-cased, with its length kept |
| `Models.ShortIdFromName` | src/models.py:24-28 | With no (or an empty) code and a tag in the name, the short id is the name's leftmost-longest tag |
| `Models.ShortIdNonAsciiDigit` | src/models.py:26-28 | `\d` matches any Unicode decimal digit: the name `xAB-\u0663` gives the short id `AB-\u0663`, not the four-character fallback |
| `Models.ShortIdFallback` | src/models.py:30 | With no code and no tag, the short id is the first `min(4, len)` characters, each upper-cased |
| `Router.ClassifyLine` | src/agents/router_agent.py:74-80 | One line of the parse loop, stripped and sorted into an agent line, a task line or another line, with the stripped text after the first colon as the value |
| `Router.Step` | src/agents/router_agent.py:75-80 | The loop body on one classified line: an agent line flushes the pending delegation and opens a task-less one; a task line sets the pending delegation's task, if there is one |
| `Router.Finish` | src/agents/router_agent.py:82-83 | After the loop, the pending delegation is appended only when it has a task |
| `Router.MarkerValue` | src/agents/router_agent.py:75-80 | On a marked line, `split(':', 1)[1]` exists and is exactly the text after the marker |
| `Router.ClassifyLineValue` | src/agents/router_agent.py:74-80 | An agent (task) line's value is the trimmed text after the 8-character (7-character) marker; other lines carry neither marker |
| `Router.ClassifyMarked` | src/agents/router_agent.py:74-80 | The agent marker is tested before the task marker, and each value is the trimmed text after the first colon |
| `Router.ParseDelegations` | src/agents/router_agent.py:69-83 | The parse loop returns exactly `Finish(Fold(Start, …))` of the classified lines |
| `Router.FoldAppend` | src/agents/router_agent.py:73-80 | Parsing two blocks of lines is parsing the first, then the second from where it left off |
| `Router.FoldKeepsAgentOrder` | src/agents/router_agent.py:73-80 | The emitted delegations plus the one in progress name the agent lines' values, in order |
| `Router.ParsedInAgentLineOrder` | src/agents/router_agent.py:73-83 | The parsed agents are a prefix of the agent-line values, at most the last one missing |
| `Router.LeadingLinesIgnored` | src/agents/router_agent.py:79 | Lines before the first agent line, task lines included, have no effect |
| `Router.LastTaskWins` | src/agents/router_agent.py:79-80 | Of two task lines for one delegation, the second overwrites the first |
| `Router.OtherLinesKeepState` | src/agents/router_agent.py:73-80 | Unmarked lines leave the parse state unchanged |
| `Router.TrailingAgentDropped` | src/agents/router_agent.py:82-83 | A final agent line with no task line after it is not emitted |
| `Router.AgentThenAgentEmitsTaskless` | src/agents/router_agent.py:75-78 | An agent line directly followed by another is emitted with no task |
| `Router.SimpleDelegate` | src/agents/router_agent.py:91-144 | The fallback returns exactly `KeywordDelegations(task)`, the table-driven reference |
| `Router.AppendMatches` | src/agents/router_agent.py:102-142 | The four conditional appends plus the default give the delegations of the roles whose lists hit, PM when none hits |
| `Router.SelectedRoles` | src/agents/router_agent.py:104-138 | Walking the role/keyword table picks the roles whose keyword list hits, in table order |
| `Router.RolesForRanked` | src/agents/router_agent.py:110-138 | The chosen roles are known roles in strictly increasing table position |
| `Router.RolesForMembership` | src/agents/router_agent.py:110-138 | A role is chosen iff its keyword list hits; nothing is chosen iff no list hits |
| `Router.KeywordDelegationsWellFormed` | src/agents/router_agent.py:101-144 | The fallback is never empty, every item carries the whole task, roles are known and in table order with none repeated |
| `Router.KeywordDelegationsMembership` | src/agents/router_agent.py:105-142 | Each role is delegated iff one of its keywords occurs in the lower-cased task; PM also when no keyword occurs anywhere |
| `Router.BacklogTriggersBoth` | src/agents/router_agent.py:105-129 | "backlog" is in both the PM and the product lists, so it brings in both roles |
| `Router.NoKeywordDefaultsToProjectManager` | src/agents/router_agent.py:140-142 | No keyword at all gives exactly one PM delegation of the task |
| `Router.AnalyzeAndDelegate` | src/agents/router_agent.py:56-89 | The plan is the parse of the router's analysis, or the keyword fallback when that parse is empty; it is never empty |
| `Router.SynthesizeResults` | src/agents/router_agent.py:146-169 | The answer is the router's completion of header, one entry per zipped pair, and footer |
| `Router.EntriesPrefix` | src/agents/router_agent.py:160-162 | Entries appear in delegation order: the first `k` are a prefix of the first `n` |
| `Router.EntriesOfPrefix` | src/agents/router_agent.py:160-162 | The first `n` entries depend only on the first `m ≥ n` delegations and results |
| `Router.SynthesisIgnoresUnpaired` | src/agents/router_agent.py:160 | `zip` stops at the shorter list: surplus delegations or results do not affect the prompt |
| `Swarm.ContextForAppend` | src/swarm.py:58 | The context of a concatenated log is the concatenation of the contexts |
| `Swarm.ContextForMember` | src/swarm.py:58 | A message is in an agent's context iff it is in the log and is to or from that agent |
| `Swarm.ContextForLast` | src/swarm.py:58 | A new message involving the agent lands at the end of its context |
| `Swarm.ContextForIgnores` | src/swarm.py:58 | A new message not involving the agent leaves its context unchanged |
| `Swarm.MessageBus.constructor` | src/swarm.py:25-27 | The bus starts empty |
| `Swarm.MessageBus.Send` | src/swarm.py:29-46 | The log grows by exactly the new message at its end |
| `Swarm.MessageBus.GetContextFor` | src/swarm.py:48-58 | The filter loop returns `ContextFor(log, name)`: the messages to or from the agent, in order |
| `Swarm.MessageBus.GetAllMessages` | src/swarm.py:60-62 | Returns the whole log, unchanged |
| `Swarm.MessageBus.Clear` | src/swarm.py:64-66 | The log is emptied |
| `Swarm.StepTrace` | src/swarm.py:131-161 | One pass of the delegation loop: a raised exception stops everything after it; a missing task raises `KeyError`; otherwise the task message is sent, an unknown agent gets the error text, and a registered worker's reply is recorded and sent back |
| `Swarm.Run` | src/swarm.py:124-179 | The run on a plan: with `verbose`, a task-less delegation raises before anything is sent; then the loop; a raised exception becomes the outcome, otherwise the router's synthesis over the plan and the results |
| `Swarm.WalkSticky` | src/swarm.py:130-166 | Once an exception is raised, later delegations change neither log nor results |
| `Swarm.WalkPrefix` | src/swarm.py:130-166 | The log and results after a prefix of the plan are prefixes of those after the whole plan |
| `Swarm.WalkExtendsLog` | src/swarm.py:130-166 | The loop only appends to the bus log |
| `Swarm.WalkComplete` | src/swarm.py:130-166 | A loop that ends without an exception saw a task in every delegation, gave one result per delegation, and sent one task message per delegation plus one result message per registered one |
| `Swarm.WalkStep` | src/swarm.py:131-161 | One step sends the task message first; an unknown agent gets the error text; a registered worker sees a context holding that task message, and its reply is recorded and sent back |
| `Swarm.WalkResultAt` | src/swarm.py:144-158 | In a completed loop, result `k` is the reply of worker `k` to its task and context, or the unknown-agent text |
| `Swarm.FirstMissing` | src/swarm.py:124-127 | The first delegation without a task, with all before it having one; none iff all have one |
| `Swarm.SwarmOrchestrator.constructor` | src/swarm.py:77-99 | A fresh, empty bus and the four registered worker roles |
| `Swarm.SwarmOrchestrator.Execute` | src/swarm.py:103-179 | The outcome and the new bus log are exactly `Run` of the old log and the router's plan |
| `Swarm.SwarmOrchestrator.ExecutePlan` | src/swarm.py:124-173 | For a given plan, the outcome and new log are `Run`: verbose preflight, delegation loop, then synthesis |
| `Swarm.SwarmOrchestrator.RunDelegations` | src/swarm.py:129-166 | The delegation loop leaves the bus, results and exception exactly as `Walk` prescribes |
| `Swarm.SwarmOrchestrator.GetMessageLog` | src/swarm.py:181-183 | Returns the bus log |
| `Swarm.SwarmOrchestrator.Reset` | src/swarm.py:185-187 | The bus log is emptied |
| `Swarm.RunKeepsLog` | src/swarm.py:103-179 | A run never removes or rewrites earlier messages: logs persist across runs until `Reset` |
| `Swarm.RunMissingTask` | src/swarm.py:124-133 | A plan with a task-less delegation always raises; with `verbose` before any message is sent, without it after the delegations before that one ran |
| `Swarm.RunCompleted` | src/swarm.py:168-179 | A completed run answers with the synthesis over the plan and one result per delegation, having grown the log by `Cost(plan)` |
| `Agent.CleanPayload` | src/agent.py:170-176 | The stripped reply, cut to the inside of its first `"```json"` fence, else of its first `"```"` fence, and stripped again |
| `Agent.ExtractToolCall` | src/agent.py:169-185 | `json.loads` of the cleaned payload; no tool and `{}` unless it is an object; else the tool name `str(action or tool)` and the arguments `ArgsOf` |
| `Agent.ArgsOf` | src/agent.py:181-182 | `args or input or {}` by truthiness, replaced by `{}` when it is not a dictionary |
| `Agent.BuildAction` | src/agent.py:231-236 | The `Action` for a tool call: kind is the tool name; amount and flag default to 0 and false; a null flag or a coercion the collaborator refuses is a validation error; a null amount is the `TypeError` of the first comparison |
| `Agent.JsonFencedPayload` | src/agent.py:173-174 | With a `"```json"` fence closed by a later `"```"` that does not overlap a second `"```json"`, the payload is the trimmed text between them |
| `Agent.JsonFenceUnclosed` | src/agent.py:173-174 | With a `"```json"` fence and no `"```"` after it, the payload is the trimmed rest |
| `Agent.PlainFencedPayload` | src/agent.py:175-176 | With only plain fences, the payload is the trimmed text between the first two, or after the only one |
| `Agent.UnfencedPayload` | src/agent.py:170-176 | Without a fence the payload is the stripped reply |
| `Agent.OverlappingFenceKeepsBacktick` | src/agent.py:173-174 | For the reply `"```json x ````json"` the payload is `"x `"`, where the first `"```"` after the opening would give `"x"` |
| `Agent.NonObjectGivesNoTool` | src/agent.py:178-185 | A payload that fails to decode, or is not an object, gives `(None, {})` |
| `Agent.ToolNameSelection` | src/agent.py:180-182 | A truthy `action` names the tool, else `tool`; neither key gives the name `"None"` |
| `Agent.ArgsSelection` | src/agent.py:181-182 | `args` is preferred over `input`, falsy values are skipped, and a non-dictionary becomes `{}` |
| `Agent.BuildActionDefaults` | src/agent.py:231-236 | Missing `amount`/`sensitive` give the defaults 0 and false; a number and a boolean are taken as they are; a null flag fails validation for every collaborator; a null amount with a valid flag fails at the threshold comparison |
| `Agent.ConfirmAction` | src/agent.py:187-192 | The simulated confirmation always says yes |
| `Agent.Dispatch` | src/agent.py:246-258 | Tool lookup, tool call, then the completion of the final prompt with the observation; a missing tool or a raise gives its text |
| `Agent.ProcessReply` | src/agent.py:227-260 | The tool branch of `process` after the reply: no tool name returns the reply; otherwise build the `Action`, refuse on `Block`, cancel on a declined `Confirm`, else dispatch |
| `Agent.NoToolCallReturnsReply` | src/agent.py:227-260 | A reply without a tool call is returned unchanged |
| `Agent.BlockRefusesBeforeDispatch` | src/agent.py:238-240 | A blocked action gets the refusal text, whatever the tool table and completion would do |
| `Agent.ConfirmFlow` | src/agent.py:241-246 | A declined confirmation cancels; with the always-yes confirmation everything short of `Block` reaches the tool |
| `Agent.DispatchResults` | src/agent.py:246-258 | Unknown tool gives "Tool … niet gevonden."; a raising tool or completion gives the error text; otherwise the completion of the final prompt |
| `Agent.SmallBankTransferRefused` | src/agent.py:227-240 | A model reply asking for a 100-euro `BANK_TRANSFER` is refused |

## Left out

- The language-model client stack is not modelled: `_call_gemini`, `BaseAgent.execute`
  and its conversation history. The router's and the workers' completions are plain
  functions (`router`, `work`), so `reset` empties only the bus (histories:
  `src/swarm.py:188-190`). `src/agents/base_agent.py` is not part of this model.
- Message timestamps (`datetime.now()`, `src/swarm.py:44`): a clock.
- Console output of `execute` and `_confirm_action` is not modelled, except that printing
  a task-less delegation raises `KeyError`.
- `GeminiAgent.process` before the reply is not modelled: memory entries, `_load_context`,
  tool descriptions, the context window, the summarizer and the prompt text. It enters the
  model as `systemPrompt` and `reply`.
- `notion.log_event` is not modelled: it catches its own errors and does not change the
  result.
- `json.loads`, `str()` of non-string JSON values, and pydantic's coercion of `amount` and
  `sensitive` are not modelled: they are opaque parameters of `Env`.
- `Action.amount` is a real number: floating-point rounding, NaN and infinities are not
  modelled.
- `lower()`/`upper()` map ASCII letters only: full Unicode case mapping is not modelled.
- `Models.ShortIdFromCode`: the clause that the short id keeps the code's length holds only for the ASCII case mapping of the model. Python's `upper()` can lengthen a string (`"ß".upper() == "SS"`).
- `Models.ShortIdFallback`: the clauses that the short id has `min(4, len)` characters, each the upper case of one character, hold only for the ASCII case mapping. In Python, the name `"ßßßß"` gives `"SSSSSSSS"`.
- Messages are immutable values in the model. `get_all_messages` returns a shallow copy (`src/swarm.py:62`), and `get_context_for` returns the bus's own dictionaries (`src/swarm.py:58`), which are handed to the worker as context (`src/swarm.py:151`). So in Python a caller or a worker that mutates a message dictionary changes the log. The model cannot express that sharing.
- The decimal digits `\d` matches are those of Unicode 15.0, as in Python 3.12: an interpreter built on another Unicode version may match a few more or fewer characters.
- The records `Task`, `Company`, `Invoice` and `Project.financials` are not used by the core.
- Tool implementations, the Notion client, MCP and `_load_tools` are outside the core: the
  tool table is a parameter.
- Exceptions raised by the router's own completion are not modelled (`router` always
  returns text).
- Which keyword lists a particular task hits is worked out only for "backlog"
  (`BacklogTriggersBoth`). The general statements are about `AnyKeyword` over the
  lower-cased task.
