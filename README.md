# Candidate-search chat controller — a Dafny model

This project models the query controller of a recruiting chat service.
A user's query is handed to a hosted assistant. The controller polls the
assistant's run until it completes. When the run asks for a tool call
(`requires_action`), the controller runs the named tool, in practice
`fetchCandidates`, and submits the outputs. When the run completes, the
controller replies with the run's assistant message that comes last in
the first page of the message listing.

`fetchCandidates` normalises its untrusted arguments and never rejects
them:

- `jobType` becomes a full-time flag.
- `budget` becomes a salary bound.
- `skills` is checked against a closed vocabulary of 48 skills; without a
  single known token, the whole vocabulary replaces it.

The skills are then quoted, and one SQL text with a fixed `LIMIT 4` goes
to the database. A database failure becomes `{success: false}`.

The model is organised in modules:

- `Wrappers` (wrappers.dfy): the `Option` type.
- `Text` (text.dfy): the JavaScript string operations the controller
  relies on. These are `toLowerCase` on ASCII, `split` and `join` on one
  separator character, and the decimal text of an integer with its
  reading back.
- `Candidates` (candidates.dfy): `fetchCandidates`. It covers the
  defaults, the validation of each argument, quoting, the query text as a
  clause record `SqlQuery` rendered to text, and a parser that reads the
  text back. The database is an abstract function from query text to rows
  or failure.
- `Dispatch` (dispatch.dfy): the `for` loop over one `requires_action`
  batch.
  - `CallTool` parses a call's arguments, looks the tool up by name, and
    pairs the stringified result with the call's id.
  - `DispatchBatch` is the loop itself. It is proved equal to the
    recursive `BatchOutputs`.
  - `JSON.parse` and `JSON.stringify` are abstract functions.
  - The `tools` table is a map from names to tools. `SourceTools` is the
    module's own table: `fetchCandidates` and the empty stub
    `fetchCandidatesFromSemantics`, which returns `undefined`.
    `CallSourceTool` connects the table to both.
- `Orchestrator` (orchestrator.dfy): `processQuery`.
  - The assistant service is a finite script. It gives the statuses that
    successive `runs.retrieve` calls return, and the answer of
    `messages.list`.
  - A retrieve past the end of the script throws. Finiteness also gives
    the source's unbounded `while` loop a termination measure. A service
    that keeps answering a status other than `completed`, `failed`,
    `cancelled` and `expired` (for instance `incomplete`) is polled
    forever by the source; in the model it is polled until the script
    runs out and then throws (`IncompletePollsToEnd`).
  - `PollLoop`, `TurnReplies` and `TurnSubmissions` specify the turn.
  - The imperative `ProcessQuery`, `PollRun` and `SendReply` follow the
    source's `try` block step by step, with `continue`, `break` and the
    `catch` block. They are proved to produce exactly the specified
    sends and submissions.
  - The Express response is a `Response` object that records every
    `res.send` in order. This makes the double send after a terminal
    failure visible.

The model follows these details of the code:

- The salary filter always uses `fullTimeSalary`.
- There is no `ORDER BY` clause and no part-time salary column.
- `jobType` gives `true` for "full time" in any letter case and `false`
  for every other string.
- Skill tokens are not trimmed.
- Tool calls of a batch run one after another.
- The loop condition checks the first retrieve's status only for
  `completed`. Any other status, `requires_action` and the failures
  included, is not acted on: the loop sleeps and retrieves again first.

## Model

| member | source | states |
|---|---|---|
| Text.ToLower | controllers/queryController.mjs:187 | lower-casing keeps the length and maps each character through `LowerChar`: letters A-Z move to a-z and everything else is unchanged |
| Text.ToLowerIdempotent | controllers/queryController.mjs:195 | lower-casing an already lower-cased string changes nothing |
| Text.ToLowerEqualIff | controllers/queryController.mjs:187 | `x.toLowerCase() === lit`, for a literal without capitals, holds exactly when `x` equals `lit` up to letter case |
| Text.Split | controllers/queryController.mjs:195 | `split` always yields at least one token, so an empty string yields one empty token |
| Text.SplitOmitsSeparator | controllers/queryController.mjs:195 | no token of a split contains the separator |
| Text.SplitKeepsNoUpper | controllers/queryController.mjs:195 | the tokens of a lower-cased string are lower-case |
| Text.JoinSplit | controllers/queryController.mjs:195 | joining the tokens of a split with the separator gives back the original string |
| Text.SplitJoin | controllers/queryController.mjs:216-217 | splitting a join of at least one separator-free token gives back exactly those tokens |
| Text.Join | controllers/queryController.mjs:216-217 | definition: `join` with a separator; `JoinSplit` and `SplitJoin` make it the inverse of `split` |
| Text.IntToString | controllers/queryController.mjs:215 | definition: the decimal text of an integer, with a leading `-` when negative; `ReadIntToString` reads it back |
| Text.NatToString | controllers/queryController.mjs:215 | the decimal text of a natural number is a non-empty run of digits |
| Text.ParseNatToString | controllers/queryController.mjs:215 | the digits of a natural number's decimal text read back to that number |
| Text.ReadIntToString | controllers/queryController.mjs:215 | the decimal text of any integer, negative ones included, reads back to that integer when a non-digit follows it |
| Candidates.ValidatedJobType | controllers/queryController.mjs:185-190 | a missing or non-string job type gives the default `true`; a string gives `true` exactly when it equals "full time" up to letter case |
| Candidates.ValidatedBudget | controllers/queryController.mjs:191 | a non-zero budget is kept; zero or missing gives the default 10000000; the result is never 0 |
| Candidates.AnyKnown | controllers/queryController.mjs:196-197 | true exactly when some token is in the skill vocabulary |
| Candidates.SelectedSkills | controllers/queryController.mjs:194-204 | a missing skills string gives the vocabulary; tokens with at least one known skill are kept unchanged, unknown ones included; tokens with none known give the vocabulary; the list is never empty |
| Candidates.SelectedSkillsHaveKnown | controllers/queryController.mjs:194-204 | the selected list always contains a skill of the vocabulary |
| Candidates.Quote | controllers/queryController.mjs:206-208 | a quoted skill is the skill with one single quote added on each side |
| Candidates.QuoteAll | controllers/queryController.mjs:206-208 | every skill is quoted, and order and count are kept |
| Candidates.Validate | controllers/queryController.mjs:184-208 | the validated arguments are the validated job type, the validated budget (never 0) and the quoted selected skills; the list is non-empty, every entry is a quoted literal, and one of them unquotes to a known skill |
| Candidates.QuotedKnownSkill | controllers/queryController.mjs:206-208 | quoting a list with a known skill leaves an entry that unquotes to that known skill |
| Candidates.BuildQuery | controllers/queryController.mjs:210-218 | the query's clauses carry the validated job type, the validated budget as the full-time salary bound, the quoted skills, and the cap 4 |
| Candidates.Render | controllers/queryController.mjs:212-218 | definition: the template literal, clause by clause; `ParseRender` proves the text determines the clause record |
| Candidates.BoolToString | controllers/queryController.mjs:213 | definition: the interpolation of the job-type flag as `true` or `false`; `ParseRender` reads it back |
| Candidates.SkillTokens | controllers/queryController.mjs:195 | definition: `toLowerCase().split(",")`; `SelectedSkills` states what is kept, and `SplitJoin` and `TwoSkillTokens` how tokens come back |
| Candidates.ParseRender | controllers/queryController.mjs:212-218 | the query text of any clause record with comma-free literals and the cap reads back to exactly that record, so each clause can be recovered from the text |
| Candidates.QueryCarriesValidatedArgs | controllers/queryController.mjs:184-218 | for any arguments and any comma-free vocabulary, the text sent to the database reads back to the validated job type, budget, quoted skills and `LIMIT 4` |
| Candidates.QueryEndsWithCap | controllers/queryController.mjs:212-218 | every query text ends with `) LIMIT 4;` |
| Candidates.FetchCandidates | controllers/queryController.mjs:210-234 | a database failure gives the failure indicator `{success: false}`; otherwise the rows come back unchanged |
| Candidates.FetchCandidatesQuery | controllers/queryController.mjs:119-218 | the text `fetchCandidates` hands to the database reads back to the validated values over the source's own vocabulary |
| Candidates.FullTimeExample | controllers/queryController.mjs:185-190 | "Full Time" validates to `true` |
| Candidates.TwoSkillTokens | controllers/queryController.mjs:195 | two lower-case, comma-free skills joined by a comma split into those two tokens |
| Candidates.PythonReactExample | controllers/queryController.mjs:194-201 | "python,react" is kept as the two tokens `python` and `react` |
| Candidates.FullTimePythonReactExample | controllers/queryController.mjs:184-208 | `{jobType: "Full Time", budget: 50000, skills: "python,react"}` validates to `true`, `50000` and `['python', 'react']` |
| Dispatch.SourceTools | controllers/queryController.mjs:118-238 | the tool table has exactly the two names `fetchCandidates`, bound to `fetchCandidates` over the given database, and `fetchCandidatesFromSemantics`, which returns `undefined` for any argument |
| Dispatch.CallTool | controllers/queryController.mjs:46-62 | a call succeeds exactly when its arguments parse and its name is in the tool table; its output carries the call's id and the stringified tool result |
| Dispatch.CallSourceTool | controllers/queryController.mjs:57 | under the source's own table, a call succeeds exactly when its arguments parse and it names one of the two tools; its output is the stringified `fetchCandidates` result or the stringified `undefined` of the stub |
| Dispatch.BatchOutputs | controllers/queryController.mjs:43-63 | a batch succeeds exactly when every call does; it then has one output per call, in the calls' order, each equal to that call's output and carrying its id |
| Dispatch.DispatchBatch | controllers/queryController.mjs:43-63 | the `for` loop returns exactly the batch's outputs, or nothing at the first call that throws |
| Dispatch.BatchOutputsUnique | controllers/queryController.mjs:43-63 | a list of one output per call, each equal to that call's output, is the batch's result |
| Orchestrator.IsTerminalFailure | controllers/queryController.mjs:72 | definition: `failed`, `cancelled` or `expired`, the list at lines 72 and 101; `LoopExitReason` and `TerminalFailureRepliesTrouble` use it |
| Orchestrator.PollLoop | controllers/queryController.mjs:36-82 | the loop retrieves between `next` and the whole script's worth of statuses, and submits at most one batch per retrieve |
| Orchestrator.LoopExitReason | controllers/queryController.mjs:36-82 | the loop ends on a `completed` status, on a re-fetched failed, cancelled or expired status, or by throwing, either when the last re-fetched batch throws or when the script runs out while the loop is still polling, its last status neither `completed` nor a re-fetched terminal failure |
| Orchestrator.LoopStopsAtFirstEnd | controllers/queryController.mjs:36-82 | every status before the last one looked at is not `completed`, and every re-fetched one before it is neither a terminal failure nor a batch that throws |
| Orchestrator.SubmittedCount | controllers/queryController.mjs:40-68 | one batch is submitted per re-fetched `requires_action` status, except a batch that throws, which is the last |
| Orchestrator.SubmittedOutputs | controllers/queryController.mjs:40-68 | the i-th submitted batch is the output of the i-th re-fetched `requires_action` status's tool calls |
| Orchestrator.RunReplies | controllers/queryController.mjs:88-91 | the filter keeps only messages of the current run with the assistant role; `RunRepliesAtMatches` and `RunRepliesKeepsAll` give the converse and the order |
| Orchestrator.MatchIndices | controllers/queryController.mjs:88-91 | the positions that the filter's test accepts, in increasing order: every accepted position and no other |
| Orchestrator.RunRepliesAtMatches | controllers/queryController.mjs:88-91 | the filter keeps exactly the run's assistant messages, in listing order: its i-th entry is the message at the i-th accepted position |
| Orchestrator.RunRepliesKeepsAll | controllers/queryController.mjs:88-91 | every assistant message of the run in the listing is in the filtered list |
| Orchestrator.IsRunReply | controllers/queryController.mjs:90 | definition: the filter's test, the current run's id and the assistant role |
| Orchestrator.LastReplyFor | controllers/queryController.mjs:88-92 | the popped message, when there is one, is an assistant message of the current run |
| Orchestrator.LastReplyForIsLastMatch | controllers/queryController.mjs:88-92 | there is no selected message exactly when no message is one of the run's assistant messages; otherwise the selected one is the run's assistant message with the highest index |
| Orchestrator.ReplyAfterLoop | controllers/queryController.mjs:85-107 | definition: the sends after the loop, or a throw of the listing or of the content read; `SendReply` is proved to follow it, and `CompletedRepliesLastMessage` and `CompletedWithoutReplyTroubles` characterise it |
| Orchestrator.TurnReplies | controllers/queryController.mjs:17-115 | definition: every text the turn sends, the `catch` block's included; `ProcessQuery` is proved to send it, and `TurnSendsOnceOrTwice`, `FaultRepliesWentWrong`, `TerminalFailureRepliesTrouble`, `TerminalFailureThenLastMessage`, `CompletedRepliesLastMessage` and `CompletedWithoutReplyTroubles` characterise it |
| Orchestrator.TurnSubmissions | controllers/queryController.mjs:17-82 | definition: the batches the turn submits; `ProcessQuery` is proved to submit it, and `SubmittedCount` and `SubmittedOutputs` characterise it |
| Orchestrator.TurnSendsOnceOrTwice | controllers/queryController.mjs:70-107 | a turn sends one or two replies, and two exactly when the loop left on a terminal failure and the listing then threw or found a reply |
| Orchestrator.FaultRepliesWentWrong | controllers/queryController.mjs:108-114 | a turn whose loop threw answers only "Something went wrong on my end!!" |
| Orchestrator.TerminalFailureRepliesTrouble | controllers/queryController.mjs:71-80 | a terminal failure first sends "I am having trouble understanding the request" |
| Orchestrator.CompletedRepliesLastMessage | controllers/queryController.mjs:84-99 | after `completed`, the reply is the text of the highest-indexed assistant message of the run |
| Orchestrator.TerminalFailureThenLastMessage | controllers/queryController.mjs:71-99 | after a re-fetched failed, cancelled or expired status, the trouble text is sent and then the text of the highest-indexed assistant message of the run |
| Orchestrator.CompletedWithoutReplyTroubles | controllers/queryController.mjs:100-107 | after `completed` with no assistant message of the run, the reply is the trouble text |
| Orchestrator.ToolCallThenCompleted | controllers/queryController.mjs:36-99 | a run that asks for one tool call and then completes submits that call's outputs once and replies with the assistant's message, not the user's |
| Orchestrator.ExpiredRun | controllers/queryController.mjs:71-80 | a run that expires after one poll ends after two retrieves, with one trouble reply and no submission |
| Orchestrator.InitialRequiresActionNotDispatched | controllers/queryController.mjs:31-39 | a `requires_action` returned by the first retrieve is never dispatched |
| Orchestrator.InitialFailureNotActedOn | controllers/queryController.mjs:31-39 | a failed status returned by the first retrieve does not end the loop |
| Orchestrator.FailedRunSendsTwice | controllers/queryController.mjs:71-99 | a run that fails after producing an assistant message sends the trouble text and then that message |
| Orchestrator.StubCallIsSubmitted | controllers/queryController.mjs:40-68 | under the source's own tools, a call to the stub `fetchCandidatesFromSemantics` is submitted with the stringified `undefined` as its output, and polling goes on to the reply |
| Orchestrator.IncompletePollsToEnd | controllers/queryController.mjs:36-82 | a script whose re-fetched statuses are all `incomplete` is polled to its end and the loop then throws, with nothing submitted |
| Orchestrator.Response.Send | controllers/queryController.mjs:96-99 | `res.send` appends its text to the texts sent so far |
| Orchestrator.PollRun | controllers/queryController.mjs:31-82 | the loop throws exactly when the specified loop does, submits exactly the specified batches, and sends the trouble text exactly on a terminal failure |
| Orchestrator.SendReply | controllers/queryController.mjs:84-107 | the step after the loop throws when listing fails or the content is not text, and otherwise sends exactly the specified reply |
| Orchestrator.ProcessQuery | controllers/queryController.mjs:17-115 | a turn sends exactly `TurnReplies` and submits exactly `TurnSubmissions` |

## Left out

- Text.ToLower: lower-cases ASCII letters only. JavaScript's `toLowerCase` also maps non-ASCII capitals, and the model has no Unicode tables.
- Candidates.ValidatedBudget: the budget is an optional integer with 0 treated like absent. JavaScript's `Number()` of arbitrary values is not modelled: fractions, `NaN` (which the model treats as absent), exponent notation, `Infinity` (truthy, so the query would compare against `Infinity`), integers above 2^53 (rounded to a double and printed as its shortest round-trip digits, so 12345678901234567890 is written "12345678901234567000" where `IntToString` writes the exact value), and the decimal text of numbers of 1e21 and above.
- Candidates.FetchCandidates: the database is a pure function from query text to rows or failure. The pool, the connection, and the meaning of the SQL are not modelled. The `LEFT JOIN Skills s ON mus.skillId = mus.skillId` condition compares a column with itself, so the skill filter does not do what it appears to do. This is SQL semantics and lies outside the model.
- Quoting does not escape a `'` inside a skill token. The model proves the query text decodes to its clauses, but it does not model what a database would make of such a token.
- The dead `argsArray` is not modelled, but its one side effect is: `Object.keys(args)` throws a TypeError when `JSON.parse` yields `null`, for either tool. The model folds that case, and every other argument text the call cannot use, into `parseArguments` returning `None`.
- `JSON.stringify(undefined)` yields `undefined`, not a string. The model's abstract `stringify` maps the stub's `undefined` to some text, and the service's reaction to an output with no text is not modelled.
- Tool names that `tools[...]` would resolve through the object's prototype chain (such as `toString`) are not modelled. Only the table's own names count.
- `JSON.parse`, `JSON.stringify` and `xss` are abstract functions. Logging (`console.log`, `util.inspect`) and the `setTimeout` sleep between polls are left out.
- Thread creation sits before the `try` block and is not modelled. Failures of `messages.create` and `runs.create` end the turn the way a failing first retrieve does, so the empty script covers them.
- `submitToolOutputs` always succeeds in the model. Its result is not read.
- Paging of `messages.list` is not modelled: the script gives the first page, `messages.data`, in the service's order, and the source reads nothing else. The service lists newest first by default, so the message `pop()` selects, the last match in the listing, is then the run's earliest assistant message on that page. The model selects by listing position and leaves the service's order open.
- The model's `res.send` never throws. Under Express a second `res.send` in the same request raises an error. On the path of a terminal failure followed by a found reply, that second send is inside the `try` block, so the `catch` block then also tries to send "Something went wrong on my end!!", which fails as well and escapes the handler. The model records only the two sends the controller makes when `res.send` returns normally.
- Concurrency across requests, the HTTP route, the rate limiter and the environment configuration are not part of this model.
