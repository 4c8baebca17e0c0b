/**
 * `processQuery`: one chat turn against the assistant service. The run is
 * polled until it is `completed`; a `requires_action` status dispatches its
 * tool calls and submits their outputs; a terminal failure answers with the
 * trouble text and leaves the loop; afterwards the last assistant message of
 * the run is sent back. Anything that throws inside the `try` is answered
 * with the went-wrong text.
 *
 * The assistant service is a script: the statuses its successive
 * `runs.retrieve` calls return (the first one is the immediate retrieve
 * after `runs.create`; a retrieve past the end of the script throws) and
 * the answer of `messages.list` (`None` when it throws).
 */
module Orchestrator {

  import opened Wrappers
  import opened Candidates
  import opened Dispatch

  // ------------------------------------------------------------ the service

  /** The run statuses of the assistant service. */
  datatype RunStatus =
    | Queued
    | InProgress
    | RequiresAction(toolCalls: seq<ToolCall>)
    | Cancelling
    | Completed
    | Failed
    | Cancelled
    | Expired
    | Incomplete

  /** `["failed", "cancelled", "expired"].includes(runStatus.status)`. */
  predicate IsTerminalFailure(s: RunStatus)
  {
    s.Failed? || s.Cancelled? || s.Expired?
  }

  datatype Role = UserRole | AssistantRole

  /**
   * One entry of `messages.data`: its `run_id` (absent on the user's own
   * message), its role, and `content[0].text.value` (`None` when the first
   * content part is not text, so that reading it throws).
   */
  datatype Message = Message(runId: Option<string>, role: Role, text: Option<string>)

  /**
   * What the service does during one turn: the id `runs.create` returned,
   * the statuses of the successive retrieves, and the thread's messages as
   * `messages.list` returns them.
   */
  datatype Transport = Transport(runId: string, statuses: seq<RunStatus>, messages: Option<seq<Message>>)

  /** The two fixed texts of the controller. */
  const TroubleText: string := "I am having trouble understanding the request"
  const WentWrongText: string := "Something went wrong on my end!!"

  /** The Express response: the texts handed to `res.send`, in order. */
  class Response {
    var sent: seq<string>

    constructor()
      ensures sent == []
    {
      sent := [];
    }

    /** `res.send({text, role: "bot"})`. */
    method Send(text: string)
      modifies this
      ensures sent == old(sent) + [text]
    {
      sent := sent + [text];
    }
  }

  // ------------------------------------------------------------ the poll loop

  /** How the `while` loop ends. */
  datatype LoopExit =
    | ReachedCompleted   // the loop condition saw `completed`
    | TerminalFailure    // the `break` after a failed, cancelled or expired status
    | Fault              // a retrieve or a tool call threw

  /**
   * The end of the loop: how it ended, how many statuses were retrieved,
   * and the tool-output batches submitted on the way, in order.
   */
  datatype LoopResult = LoopResult(exit: LoopExit, polls: nat, submitted: seq<seq<ToolOutput>>)

  /** A loop result with earlier submissions in front. */
  function AfterSubmissions(earlier: seq<seq<ToolOutput>>, r: LoopResult): LoopResult
  {
    LoopResult(r.exit, r.polls, earlier + r.submitted)
  }

  /**
   * The loop from the point where `next` statuses have been retrieved and
   * the loop condition looks at the last of them.
   */
  function PollLoop(statuses: seq<RunStatus>, env: Collaborators, next: nat): (r: LoopResult)
    requires 1 <= next <= |statuses|
    ensures next <= r.polls <= |statuses|
    ensures |r.submitted| <= r.polls - next
    decreases |statuses| - next
  {
    if statuses[next - 1].Completed? then LoopResult(ReachedCompleted, next, [])
    else if next == |statuses| then LoopResult(Fault, next, [])
    else
      var status := statuses[next];
      if status.RequiresAction? then
        match BatchOutputs(status.toolCalls, env)
        case None => LoopResult(Fault, next + 1, [])
        case Some(outputs) => AfterSubmissions([outputs], PollLoop(statuses, env, next + 1))
      else if IsTerminalFailure(status) then LoopResult(TerminalFailure, next + 1, [])
      else PollLoop(statuses, env, next + 1)
  }

  // ------------------------------------------------------------ the reply

  /** `message.run_id === run.id && message.role === "assistant"`. */
  predicate IsRunReply(m: Message, runId: string)
  {
    m.runId == Some(runId) && m.role == AssistantRole
  }

  /** `messages.data.filter(...)`: the run's assistant messages, in order. */
  function RunReplies(ms: seq<Message>, runId: string): (r: seq<Message>)
    ensures forall k :: 0 <= k < |r| ==> IsRunReply(r[k], runId)
    decreases |ms|
  {
    if |ms| == 0 then []
    else
      var last := ms[|ms| - 1];
      RunReplies(ms[..|ms| - 1], runId) + (if IsRunReply(last, runId) then [last] else [])
  }

  /**
   * The positions of the run's assistant messages in the listing, in
   * increasing order: every such position and no other.
   */
  function MatchIndices(ms: seq<Message>, runId: string): (r: seq<nat>)
    ensures forall i :: 0 <= i < |r| ==> r[i] < |ms| && IsRunReply(ms[r[i]], runId)
    ensures forall i, j :: 0 <= i < j < |r| ==> r[i] < r[j]
    ensures forall k :: 0 <= k < |ms| && IsRunReply(ms[k], runId) ==> k in r
    decreases |ms|
  {
    if |ms| == 0 then []
    else
      var front := ms[..|ms| - 1];
      assert forall k :: 0 <= k < |front| ==> front[k] == ms[k];
      MatchIndices(front, runId) + (if IsRunReply(ms[|ms| - 1], runId) then [|ms| - 1] else [])
  }

  /**
   * The filter keeps exactly the run's assistant messages, in listing
   * order: its i-th entry is the message at the i-th matching position.
   */
  lemma {:induction false} RunRepliesAtMatches(ms: seq<Message>, runId: string)
    ensures |RunReplies(ms, runId)| == |MatchIndices(ms, runId)|
    ensures forall i :: 0 <= i < |MatchIndices(ms, runId)| ==>
      RunReplies(ms, runId)[i] == ms[MatchIndices(ms, runId)[i]]
    decreases |ms|
  {
    if |ms| > 0 {
      var front := ms[..|ms| - 1];
      RunRepliesAtMatches(front, runId);
      var replies, indices := RunReplies(front, runId), MatchIndices(front, runId);
      var kept := IsRunReply(ms[|ms| - 1], runId);
      assert RunReplies(ms, runId) == replies + (if kept then [ms[|ms| - 1]] else []);
      assert MatchIndices(ms, runId) == indices + (if kept then [|ms| - 1] else []);
      forall i | 0 <= i < |indices|
        ensures RunReplies(ms, runId)[i] == ms[MatchIndices(ms, runId)[i]]
      {
        assert front[indices[i]] == ms[indices[i]];
      }
    }
  }

  /** Every assistant message of the run in the listing is kept by the filter. */
  lemma RunRepliesKeepsAll(ms: seq<Message>, runId: string)
    ensures forall k :: 0 <= k < |ms| && IsRunReply(ms[k], runId) ==> ms[k] in RunReplies(ms, runId)
  {
    RunRepliesAtMatches(ms, runId);
    forall k | 0 <= k < |ms| && IsRunReply(ms[k], runId)
      ensures ms[k] in RunReplies(ms, runId)
    {
      var i :| 0 <= i < |MatchIndices(ms, runId)| && MatchIndices(ms, runId)[i] == k;
      assert RunReplies(ms, runId)[i] == ms[k];
    }
  }

  /** `.pop()` of the filtered list: its last element, if any. */
  function LastReplyFor(ms: seq<Message>, runId: string): (r: Option<Message>)
    ensures r.Some? ==> IsRunReply(r.value, runId)
  {
    var replies := RunReplies(ms, runId);
    if |replies| == 0 then None else Some(replies[|replies| - 1])
  }

  /**
   * The selected message is the run's assistant message with the highest
   * index, and there is none exactly when no message is one of the run's
   * assistant messages.
   */
  lemma {:induction false} LastReplyForIsLastMatch(ms: seq<Message>, runId: string)
    ensures LastReplyFor(ms, runId).None? <==> forall i :: 0 <= i < |ms| ==> !IsRunReply(ms[i], runId)
    ensures LastReplyFor(ms, runId).Some? ==>
      exists i :: 0 <= i < |ms| && ms[i] == LastReplyFor(ms, runId).value && IsRunReply(ms[i], runId) &&
        forall j :: i < j < |ms| ==> !IsRunReply(ms[j], runId)
    decreases |ms|
  {
    if |ms| > 0 {
      var front := ms[..|ms| - 1];
      var last := ms[|ms| - 1];
      LastReplyForIsLastMatch(front, runId);
      if !IsRunReply(last, runId) {
        assert RunReplies(ms, runId) == RunReplies(front, runId);
        assert forall i :: 0 <= i < |front| ==> front[i] == ms[i];
        if LastReplyFor(ms, runId).Some? {
          var i :| 0 <= i < |front| && front[i] == LastReplyFor(front, runId).value && IsRunReply(front[i], runId) &&
            forall j :: i < j < |front| ==> !IsRunReply(front[j], runId);
          assert ms[i] == front[i];
        }
      } else {
        assert LastReplyFor(ms, runId) == Some(last);
        assert ms[|ms| - 1] == last;
      }
    }
  }

  /**
   * What is sent after the loop: the selected reply's text, or the trouble
   * text when none was found and the loop did not end on a terminal
   * failure; `None` when listing the messages or reading the text throws.
   */
  function ReplyAfterLoop(messages: Option<seq<Message>>, runId: string, failed: bool): Option<seq<string>>
  {
    var ms :- messages;
    match LastReplyFor(ms, runId)
    case Some(m) => if m.text.Some? then Some([m.text.value]) else None
    case None => Some(if failed then [] else [TroubleText])
  }

  /** The sends of a step that may throw, followed by the `catch` block's send when it does. */
  function OrWentWrong(sends: Option<seq<string>>): seq<string>
  {
    match sends
    case Some(texts) => texts
    case None => [WentWrongText]
  }

  /** Every text the turn hands to `res.send`, in order. */
  function TurnReplies(tr: Transport, env: Collaborators): seq<string>
  {
    if |tr.statuses| == 0 then [WentWrongText]
    else
      var loop := PollLoop(tr.statuses, env, 1);
      match loop.exit
      case Fault => [WentWrongText]
      case ReachedCompleted => OrWentWrong(ReplyAfterLoop(tr.messages, tr.runId, false))
      case TerminalFailure => [TroubleText] + OrWentWrong(ReplyAfterLoop(tr.messages, tr.runId, true))
  }

  /** Every batch of tool outputs the turn submits, in order. */
  function TurnSubmissions(tr: Transport, env: Collaborators): seq<seq<ToolOutput>>
  {
    if |tr.statuses| == 0 then [] else PollLoop(tr.statuses, env, 1).submitted
  }

  // ------------------------------------------------------------ properties of the loop

  /**
   * Why the loop ended: on a `completed` status, on a re-fetched terminal
   * failure, or by throwing, either because the script ran out while the
   * loop was still polling (its last status neither `completed` nor, when
   * re-fetched, a terminal failure) or because the batch of the last
   * re-fetched status threw.
   */
  lemma {:induction false} LoopExitReason(statuses: seq<RunStatus>, env: Collaborators, next: nat)
    requires 1 <= next <= |statuses|
    ensures var r := PollLoop(statuses, env, next);
      (r.exit.ReachedCompleted? ==> statuses[r.polls - 1].Completed?) &&
      (r.exit.TerminalFailure? ==> next < r.polls && IsTerminalFailure(statuses[r.polls - 1])) &&
      (r.exit.Fault? ==>
         DispatchThrew(statuses, env, next, r) ||
         (r.polls == |statuses| && !statuses[r.polls - 1].Completed? &&
          (next < r.polls ==> !IsTerminalFailure(statuses[r.polls - 1]))))
    decreases |statuses| - next
  {
    if !statuses[next - 1].Completed? && next < |statuses| {
      var status := statuses[next];
      if (status.RequiresAction? && BatchOutputs(status.toolCalls, env).Some?) ||
         (!status.RequiresAction? && !IsTerminalFailure(status)) {
        LoopExitReason(statuses, env, next + 1);
      }
    }
  }

  /**
   * The loop stops at the first status that ends it: every status it looked
   * at before the last was not `completed`, and every re-fetched status
   * before the last was neither a terminal failure nor a batch that threw.
   * (The status of the immediate retrieve is looked at by the loop
   * condition only, so a terminal failure there does not end the loop.)
   */
  lemma {:induction false} LoopStopsAtFirstEnd(statuses: seq<RunStatus>, env: Collaborators, next: nat)
    requires 1 <= next <= |statuses|
    ensures var r := PollLoop(statuses, env, next);
      forall j :: next - 1 <= j < r.polls - 1 ==>
        !statuses[j].Completed? &&
        (j >= next ==> !IsTerminalFailure(statuses[j])) &&
        (j >= next && statuses[j].RequiresAction? ==> BatchOutputs(statuses[j].toolCalls, env).Some?)
    decreases |statuses| - next
  {
    var r := PollLoop(statuses, env, next);
    if !statuses[next - 1].Completed? && next < |statuses| {
      var status := statuses[next];
      if status.RequiresAction? && BatchOutputs(status.toolCalls, env).Some? {
        LoopStopsAtFirstEnd(statuses, env, next + 1);
      } else if !status.RequiresAction? && !IsTerminalFailure(status) {
        LoopStopsAtFirstEnd(statuses, env, next + 1);
      }
    }
  }

  /** The tool-call lists of the `requires_action` statuses among `statuses[from..to]`, in order. */
  function ActionBatches(statuses: seq<RunStatus>, from: int, to: int): (r: seq<seq<ToolCall>>)
    requires 0 <= from <= to <= |statuses|
    ensures |r| <= to - from
    decreases |statuses| - from
  {
    if from == to then []
    else (if statuses[from].RequiresAction? then [statuses[from].toolCalls] else []) + ActionBatches(statuses, from + 1, to)
  }

  /** The loop ended because dispatching the last re-fetched status threw. */
  predicate DispatchThrew(statuses: seq<RunStatus>, env: Collaborators, next: nat, r: LoopResult)
    requires 1 <= next <= r.polls <= |statuses|
  {
    r.exit.Fault? && next < r.polls &&
    statuses[r.polls - 1].RequiresAction? && BatchOutputs(statuses[r.polls - 1].toolCalls, env).None?
  }

  /**
   * One batch is submitted per re-fetched `requires_action` status, except
   * a batch that threw, which ends the loop.
   */
  lemma {:induction false} SubmittedCount(statuses: seq<RunStatus>, env: Collaborators, next: nat)
    requires 1 <= next <= |statuses|
    ensures var r := PollLoop(statuses, env, next);
      |r.submitted| == |ActionBatches(statuses, next, r.polls)| - (if DispatchThrew(statuses, env, next, r) then 1 else 0)
    decreases |statuses| - next
  {
    if !statuses[next - 1].Completed? && next < |statuses| {
      var status := statuses[next];
      if !IsTerminalFailure(status) && !(status.RequiresAction? && BatchOutputs(status.toolCalls, env).None?) {
        SubmittedCount(statuses, env, next + 1);
      }
    }
  }

  /** Each submitted batch is the output of the tool-call list at the same position. */
  predicate OutputsOfBatches(submitted: seq<seq<ToolOutput>>, batches: seq<seq<ToolCall>>, env: Collaborators)
  {
    forall i :: 0 <= i < |submitted| && i < |batches| ==> BatchOutputs(batches[i], env) == Some(submitted[i])
  }

  lemma OutputsOfBatchesCons(output: seq<ToolOutput>, batch: seq<ToolCall>,
                             submitted: seq<seq<ToolOutput>>, batches: seq<seq<ToolCall>>, env: Collaborators)
    requires BatchOutputs(batch, env) == Some(output) && OutputsOfBatches(submitted, batches, env)
    ensures OutputsOfBatches([output] + submitted, [batch] + batches, env)
  {
    forall i | 1 <= i < |submitted| + 1 && i < |batches| + 1
      ensures BatchOutputs(([batch] + batches)[i], env) == Some(([output] + submitted)[i])
    {
      assert ([batch] + batches)[i] == batches[i - 1];
      assert ([output] + submitted)[i] == submitted[i - 1];
    }
  }

  /**
   * The batches submitted are the outputs of the re-fetched
   * `requires_action` statuses' tool calls, in order.
   */
  lemma {:induction false} SubmittedOutputs(statuses: seq<RunStatus>, env: Collaborators, next: nat)
    requires 1 <= next <= |statuses|
    ensures var r := PollLoop(statuses, env, next);
      OutputsOfBatches(r.submitted, ActionBatches(statuses, next, r.polls), env)
    decreases |statuses| - next
  {
    if !statuses[next - 1].Completed? && next < |statuses| {
      var status := statuses[next];
      if !IsTerminalFailure(status) && !(status.RequiresAction? && BatchOutputs(status.toolCalls, env).None?) {
        SubmittedOutputs(statuses, env, next + 1);
        var r := PollLoop(statuses, env, next);
        var rest := PollLoop(statuses, env, next + 1);
        var batches := ActionBatches(statuses, next, r.polls);
        var restBatches := ActionBatches(statuses, next + 1, rest.polls);
        assert OutputsOfBatches(rest.submitted, restBatches, env);
        if status.RequiresAction? {
          assert batches == [status.toolCalls] + restBatches;
          assert r.submitted == [BatchOutputs(status.toolCalls, env).value] + rest.submitted;
          OutputsOfBatchesCons(BatchOutputs(status.toolCalls, env).value, status.toolCalls, rest.submitted, restBatches, env);
        } else {
          assert batches == restBatches && r.submitted == rest.submitted;
        }
      }
    }
  }

  // ------------------------------------------------------------ properties of the turn

  /**
   * A turn sends one reply, or two exactly when the loop left on a terminal
   * failure and the step after it then threw or found a reply (the source
   * sends again after its trouble text).
   */
  lemma TurnSendsOnceOrTwice(tr: Transport, env: Collaborators)
    ensures 1 <= |TurnReplies(tr, env)| <= 2
    ensures |TurnReplies(tr, env)| == 2 <==>
      |tr.statuses| > 0 && PollLoop(tr.statuses, env, 1).exit.TerminalFailure? &&
      (tr.messages.None? || LastReplyFor(tr.messages.value, tr.runId).Some?)
  {
  }

  /** A turn whose loop threw, or whose script is empty, answers only with the went-wrong text. */
  lemma FaultRepliesWentWrong(tr: Transport, env: Collaborators)
    requires |tr.statuses| == 0 || PollLoop(tr.statuses, env, 1).exit.Fault?
    ensures TurnReplies(tr, env) == [WentWrongText]
  {
  }

  /** A turn whose loop left on a terminal failure first sends the trouble text. */
  lemma TerminalFailureRepliesTrouble(tr: Transport, env: Collaborators)
    requires |tr.statuses| > 0 && PollLoop(tr.statuses, env, 1).exit.TerminalFailure?
    ensures TurnReplies(tr, env)[0] == TroubleText
  {
  }

  /**
   * After a completed run, the reply is the text of the run's assistant
   * message with the highest index in the listing.
   */
  lemma CompletedRepliesLastMessage(tr: Transport, env: Collaborators, i: nat, text: string)
    requires |tr.statuses| > 0 && PollLoop(tr.statuses, env, 1).exit.ReachedCompleted?
    requires tr.messages.Some? && i < |tr.messages.value|
    requires IsRunReply(tr.messages.value[i], tr.runId) && tr.messages.value[i].text == Some(text)
    requires forall j :: i < j < |tr.messages.value| ==> !IsRunReply(tr.messages.value[j], tr.runId)
    ensures TurnReplies(tr, env) == [text]
  {
    var ms := tr.messages.value;
    LastReplyForIsLastMatch(ms, tr.runId);
    var k :| 0 <= k < |ms| && ms[k] == LastReplyFor(ms, tr.runId).value && IsRunReply(ms[k], tr.runId) &&
      forall j :: k < j < |ms| ==> !IsRunReply(ms[j], tr.runId);
    assert k == i;
  }

  /**
   * After a terminal failure, the trouble text is sent and then the text of
   * the run's assistant message with the highest index in the listing.
   */
  lemma TerminalFailureThenLastMessage(tr: Transport, env: Collaborators, i: nat, text: string)
    requires |tr.statuses| > 0 && PollLoop(tr.statuses, env, 1).exit.TerminalFailure?
    requires tr.messages.Some? && i < |tr.messages.value|
    requires IsRunReply(tr.messages.value[i], tr.runId) && tr.messages.value[i].text == Some(text)
    requires forall j :: i < j < |tr.messages.value| ==> !IsRunReply(tr.messages.value[j], tr.runId)
    ensures TurnReplies(tr, env) == [TroubleText, text]
  {
    var ms := tr.messages.value;
    LastReplyForIsLastMatch(ms, tr.runId);
    var k :| 0 <= k < |ms| && ms[k] == LastReplyFor(ms, tr.runId).value && IsRunReply(ms[k], tr.runId) &&
      forall j :: k < j < |ms| ==> !IsRunReply(ms[j], tr.runId);
    assert k == i;
  }

  /** After a completed run without any assistant message of that run, the reply is the trouble text. */
  lemma CompletedWithoutReplyTroubles(tr: Transport, env: Collaborators)
    requires |tr.statuses| > 0 && PollLoop(tr.statuses, env, 1).exit.ReachedCompleted?
    requires tr.messages.Some?
    requires forall j :: 0 <= j < |tr.messages.value| ==> !IsRunReply(tr.messages.value[j], tr.runId)
    ensures TurnReplies(tr, env) == [TroubleText]
  {
    LastReplyForIsLastMatch(tr.messages.value, tr.runId);
  }

  // ------------------------------------------------------------ scenarios

  /**
   * A run that asks for one tool call and then completes: the call's
   * outputs are submitted once and the assistant's message is the reply;
   * the user's own message, which has no run id, is not selected.
   */
  lemma ToolCallThenCompleted(call: ToolCall, outputs: seq<ToolOutput>, env: Collaborators,
                              runId: string, query: string, answer: string)
    requires BatchOutputs([call], env) == Some(outputs)
    ensures var tr := Transport(runId, [InProgress, RequiresAction([call]), InProgress, Completed],
                                Some([Message(None, UserRole, Some(query)), Message(Some(runId), AssistantRole, Some(answer))]));
      TurnReplies(tr, env) == [answer] && TurnSubmissions(tr, env) == [outputs]
  {
    var statuses := [InProgress, RequiresAction([call]), InProgress, Completed];
    assert PollLoop(statuses, env, 4) == LoopResult(ReachedCompleted, 4, []);
    assert PollLoop(statuses, env, 3) == PollLoop(statuses, env, 4);
    assert PollLoop(statuses, env, 2) == PollLoop(statuses, env, 3);
    assert PollLoop(statuses, env, 1) == LoopResult(ReachedCompleted, 4, [outputs]);
    var ms := [Message(None, UserRole, Some(query)), Message(Some(runId), AssistantRole, Some(answer))];
    assert ms[..1] == [ms[0]] && [ms[0]][..0] == [];
    assert RunReplies(ms[..1], runId) == [];
    assert RunReplies(ms, runId) == [ms[1]];
  }

  /** A run that expires after the first poll: one trouble reply, nothing submitted. */
  lemma ExpiredRun(runId: string, env: Collaborators)
    ensures var tr := Transport(runId, [InProgress, Expired], Some([]));
      PollLoop(tr.statuses, env, 1) == LoopResult(TerminalFailure, 2, []) &&
      TurnReplies(tr, env) == [TroubleText] && TurnSubmissions(tr, env) == []
  {
  }

  /**
   * The status of the immediate retrieve is never dispatched: a
   * `requires_action` there is polled past, whatever its calls would do.
   */
  lemma InitialRequiresActionNotDispatched(calls: seq<ToolCall>, runId: string, env: Collaborators)
    ensures var tr := Transport(runId, [RequiresAction(calls), Completed], Some([]));
      TurnSubmissions(tr, env) == [] && TurnReplies(tr, env) == [TroubleText]
  {
    var statuses := [RequiresAction(calls), Completed];
    assert PollLoop(statuses, env, 2) == LoopResult(ReachedCompleted, 2, []);
    assert PollLoop(statuses, env, 1) == PollLoop(statuses, env, 2);
  }

  /**
   * Neither is a terminal failure of the immediate retrieve acted on: the
   * loop polls again and a later `completed` ends the turn normally.
   */
  lemma InitialFailureNotActedOn(runId: string, answer: string, env: Collaborators)
    ensures var tr := Transport(runId, [Failed, Completed], Some([Message(Some(runId), AssistantRole, Some(answer))]));
      TurnReplies(tr, env) == [answer]
  {
    var ms := [Message(Some(runId), AssistantRole, Some(answer))];
    assert ms[..0] == [];
  }

  /**
   * A run that fails after producing an assistant message gets two sends:
   * the trouble text inside the loop, then the message after it.
   */
  lemma FailedRunSendsTwice(runId: string, answer: string, env: Collaborators)
    ensures var tr := Transport(runId, [InProgress, Failed], Some([Message(Some(runId), AssistantRole, Some(answer))]));
      TurnReplies(tr, env) == [TroubleText, answer]
  {
    var ms := [Message(Some(runId), AssistantRole, Some(answer))];
    assert ms[..0] == [];
  }

  /**
   * A call to the stub `fetchCandidatesFromSemantics` does not throw: its
   * stringified `undefined` is submitted and polling goes on.
   */
  lemma StubCallIsSubmitted(call: ToolCall, parse: string -> Option<ToolArgs>, runQuery: string -> DbOutcome,
                            stringify: ToolResult -> string, runId: string, answer: string)
    requires call.name == SemanticsTool && parse(call.arguments).Some?
    ensures var env := Collaborators(parse, SourceTools(runQuery), stringify);
      var tr := Transport(runId, [InProgress, RequiresAction([call]), InProgress, Completed],
                          Some([Message(Some(runId), AssistantRole, Some(answer))]));
      TurnSubmissions(tr, env) == [[ToolOutput(call.id, stringify(NoValue))]] && TurnReplies(tr, env) == [answer]
  {
    var env := Collaborators(parse, SourceTools(runQuery), stringify);
    CallSourceTool(call, parse, runQuery, stringify);
    var outputs := [ToolOutput(call.id, stringify(NoValue))];
    BatchOutputsUnique([call], env, outputs);
    var statuses := [InProgress, RequiresAction([call]), InProgress, Completed];
    assert PollLoop(statuses, env, 4) == LoopResult(ReachedCompleted, 4, []);
    assert PollLoop(statuses, env, 3) == PollLoop(statuses, env, 4);
    assert PollLoop(statuses, env, 2) == PollLoop(statuses, env, 3);
    assert PollLoop(statuses, env, 1) == LoopResult(ReachedCompleted, 4, [outputs]);
    var ms := [Message(Some(runId), AssistantRole, Some(answer))];
    assert ms[..0] == [];
  }

  /**
   * `incomplete` neither ends the loop nor is a failure it acts on: a
   * service that keeps answering it is polled until the script runs out,
   * where the model's retrieve throws (the source would poll on forever).
   */
  lemma {:induction false} IncompletePollsToEnd(statuses: seq<RunStatus>, env: Collaborators, next: nat)
    requires 1 <= next <= |statuses| && !statuses[next - 1].Completed?
    requires forall j :: next <= j < |statuses| ==> statuses[j] == Incomplete
    ensures PollLoop(statuses, env, next) == LoopResult(Fault, |statuses|, [])
    decreases |statuses| - next
  {
    if next < |statuses| {
      IncompletePollsToEnd(statuses, env, next + 1);
    }
  }

  // ------------------------------------------------------------ the controller

  /**
   * `processQuery`: the `try` block, as the loop and the reply step, each
   * of which reports whether it threw, and the `catch` block. A failure of
   * `messages.create` or `runs.create` ends the turn exactly as a failing
   * first retrieve does, so it is the empty script here.
   */
  method ProcessQuery(tr: Transport, env: Collaborators, res: Response) returns (submitted: seq<seq<ToolOutput>>)
    modifies res
    ensures res.sent == old(res.sent) + TurnReplies(tr, env)
    ensures submitted == TurnSubmissions(tr, env)
  {
    submitted := [];
    var threw := |tr.statuses| == 0;
    if !threw {
      var runStatus;
      runStatus, submitted, threw := PollRun(tr, env, res);
      if !threw {
        threw := SendReply(tr.messages, tr.runId, IsTerminalFailure(runStatus), res);
      }
    }
    if threw {
      res.Send(WentWrongText);
    }
  }

  /** One pass of the loop: what the next retrieved status makes of the rest. */
  lemma PollStep(statuses: seq<RunStatus>, env: Collaborators, next: nat)
    requires 1 <= next < |statuses| && !statuses[next - 1].Completed?
    ensures var r := PollLoop(statuses, env, next); var s := statuses[next];
      (s.RequiresAction? && BatchOutputs(s.toolCalls, env).None? ==> r.exit.Fault?) &&
      (s.RequiresAction? && BatchOutputs(s.toolCalls, env).Some? ==>
        r.exit == PollLoop(statuses, env, next + 1).exit &&
        r.submitted == [BatchOutputs(s.toolCalls, env).value] + PollLoop(statuses, env, next + 1).submitted) &&
      (!s.RequiresAction? && IsTerminalFailure(s) ==> r.exit.TerminalFailure? && r.submitted == []) &&
      (!s.RequiresAction? && !IsTerminalFailure(s) ==> r == PollLoop(statuses, env, next + 1))
  {
  }

  /**
   * The `while` loop: the status of the immediate retrieve is the first of
   * the script, and each pass sleeps (not modelled), retrieves the next
   * status, and either dispatches and submits a tool-output batch, or sends
   * the trouble text and leaves on a terminal failure. `threw` reports a
   * retrieve past the end of the script or a tool call that threw.
   */
  method PollRun(tr: Transport, env: Collaborators, res: Response)
    returns (runStatus: RunStatus, submitted: seq<seq<ToolOutput>>, threw: bool)
    requires |tr.statuses| >= 1
    modifies res
    ensures threw <==> PollLoop(tr.statuses, env, 1).exit.Fault?
    ensures submitted == PollLoop(tr.statuses, env, 1).submitted
    ensures !threw ==> (IsTerminalFailure(runStatus) <==> PollLoop(tr.statuses, env, 1).exit.TerminalFailure?)
    ensures res.sent == old(res.sent) + (if PollLoop(tr.statuses, env, 1).exit.TerminalFailure? then [TroubleText] else [])
  {
    submitted := [];
    threw := false;
    runStatus := tr.statuses[0];
    var next := 1;
    ghost var whole := PollLoop(tr.statuses, env, 1);
    while !runStatus.Completed?
      invariant 1 <= next <= |tr.statuses|
      invariant runStatus == tr.statuses[next - 1]
      invariant res.sent == old(res.sent)
      invariant whole.exit == PollLoop(tr.statuses, env, next).exit
      invariant whole.submitted == submitted + PollLoop(tr.statuses, env, next).submitted
      decreases |tr.statuses| - next
    {
      if next == |tr.statuses| {
        threw := true;
        return;
      }
      PollStep(tr.statuses, env, next);
      runStatus := tr.statuses[next];
      next := next + 1;
      if runStatus.RequiresAction? {
        var outputs := DispatchBatch(runStatus.toolCalls, env);
        if outputs.None? {
          threw := true;
          return;
        }
        submitted := submitted + [outputs.value];
        continue;
      }
      if IsTerminalFailure(runStatus) {
        res.Send(TroubleText);
        break;
      }
    }
  }

  /**
   * The part of `processQuery` after the loop: list the messages, select
   * the run's last assistant message and send its text; without one, send
   * the trouble text unless the loop ended on a terminal failure. `threw`
   * reports a listing that failed or a first content part that is not text.
   */
  method SendReply(messages: Option<seq<Message>>, runId: string, failed: bool, res: Response) returns (threw: bool)
    modifies res
    ensures threw <==> ReplyAfterLoop(messages, runId, failed).None?
    ensures res.sent == old(res.sent) + (if threw then [] else ReplyAfterLoop(messages, runId, failed).value)
  {
    threw := messages.None?;
    if threw {
      return;
    }
    var lastMessageForRun := LastReplyFor(messages.value, runId);
    if lastMessageForRun.Some? {
      threw := lastMessageForRun.value.text.None?;
      if !threw {
        res.Send(lastMessageForRun.value.text.value);
      }
    } else if !failed {
      res.Send(TroubleText);
    }
  }
}
