/**
 * What a turn does to the conversation history, stated for every history, query and
 * collaborator: it only appends; a direct answer adds two entries and a tool round four;
 * a failing step keeps what was appended before it; only the first proposed tool call
 * is ever run; and which pairings of tool calls and tool results a turn keeps.
 */
module ConversationLaws {
  import opened Wrappers
  import opened Json
  import opened Conversation

  /** A turn never edits or removes an entry: it appends the user entry and then at most three more. */
  lemma TurnOnlyAppends(h: seq<Entry>, q: string, session: Option<ToolServer>,
                        model: Option<string>, llm: Endpoint, loads: Loads)
    ensures var o := Turn(h, q, session, model, llm, loads);
            && |h| < |o.history| <= |h| + 4
            && o.history[..|h|] == h
            && o.history[|h|] == UserEntry(q)
  {
    var o := Turn(h, q, session, model, llm, loads);
    assert o.history[..|h| + 1] == h + [UserEntry(q)];
  }

  /** A first choice without tool calls is answered directly: user entry, assistant entry, one request, no tool. */
  lemma DirectAnswerTurn(h: seq<Entry>, q: string, session: Option<ToolServer>,
                         model: Option<string>, llm: Endpoint, loads: Loads)
    requires FirstChoice(h, q, session, model, llm).Some?
    requires FirstChoice(h, q, session, model, llm).value.finishReason != TOOL_CALLS
    ensures var answer := FirstChoice(h, q, session, model, llm).value.message.content;
            var o := Turn(h, q, session, model, llm, loads);
            && o.history == h + [UserEntry(q), AssistantEntry(answer)]
            && o.answer == Success(answer)
            && o.requests == [FirstRequest(h, q, session.value.tools.value, model)]
            && o.invocations == []
  {
  }

  /**
   * A tool round that ends with an answer appends the user entry, the assistant message, the
   * tool's text keyed by the first call's id, and the final answer; it runs the first proposed
   * call only, and its second request carries the history up to the tool entry and no catalog.
   */
  lemma ToolTurn(h: seq<Entry>, q: string, session: Option<ToolServer>,
                 model: Option<string>, llm: Endpoint, loads: Loads)
    requires FirstChoice(h, q, session, model, llm).Some?
    requires FirstChoice(h, q, session, model, llm).value.finishReason == TOOL_CALLS
    requires Turn(h, q, session, model, llm, loads).answer.Success?
    ensures var message := FirstChoice(h, q, session, model, llm).value.message;
            var o := Turn(h, q, session, model, llm, loads);
            && |message.toolCalls| > 0
            && var call := message.toolCalls[0];
               && loads(call.arguments).Success?
               && ToolText(session.value, call, loads).Some?
               && o.invocations == [Invocation(call.name, loads(call.arguments).value)]
               && o.history == h + [UserEntry(q), ToolCallEntry(message),
                                    ToolEntry(ToolText(session.value, call, loads).value, call.id),
                                    AssistantEntry(o.answer.value)]
               && o.requests == [FirstRequest(h, q, session.value.tools.value, model),
                                 Request(model, o.history[..|h| + 3], None)]
               && llm(o.requests[1]).Success? && |llm(o.requests[1]).value| > 0
               && o.answer.value == llm(o.requests[1]).value[0].message.content
  {
    var o := Turn(h, q, session, model, llm, loads);
    var message := FirstChoice(h, q, session, model, llm).value.message;
    var call := message.toolCalls[0];
    assert o.history[..|h| + 3] ==
           h + [UserEntry(q), ToolCallEntry(message), ToolEntry(ToolText(session.value, call, loads).value, call.id)];
  }

  /**
   * A turn that ends with an answer grew the history by two entries when the first choice was
   * not a tool call and by four when it was; the last entry holds the returned answer.
   */
  lemma {:induction false} AnsweredTurnGrowth(h: seq<Entry>, q: string, session: Option<ToolServer>,
                                              model: Option<string>, llm: Endpoint, loads: Loads)
    requires Turn(h, q, session, model, llm, loads).answer.Success?
    ensures var o := Turn(h, q, session, model, llm, loads);
            var first := FirstChoice(h, q, session, model, llm);
            && first.Some?
            && (first.value.finishReason != TOOL_CALLS ==> |o.history| == |h| + 2)
            && (first.value.finishReason == TOOL_CALLS ==> |o.history| == |h| + 4)
            && o.history[|o.history| - 1] == AssistantEntry(o.answer.value)
  {
    var first := FirstChoice(h, q, session, model, llm);
    if first.Some? && first.value.finishReason != TOOL_CALLS {
      DirectAnswerTurn(h, q, session, model, llm, loads);
    } else if first.Some? {
      ToolTurn(h, q, session, model, llm, loads);
    }
  }

  /**
   * The history after a second completion that failed: the user entry, the assistant message
   * and the tool's text under the first call's id.
   */
  ghost predicate SecondCompletionFailed(h: seq<Entry>, q: string, session: Option<ToolServer>,
                                         model: Option<string>, llm: Endpoint, loads: Loads)
  {
    var first := FirstChoice(h, q, session, model, llm);
    && first.Some? && session.Some? && |first.value.message.toolCalls| > 0
    && var call := first.value.message.toolCalls[0];
       && ToolText(session.value, call, loads).Some?
       && Turn(h, q, session, model, llm, loads).history ==
            h + [UserEntry(q), ToolCallEntry(first.value.message),
                 ToolEntry(ToolText(session.value, call, loads).value, call.id)]
  }

  /**
   * Nothing is rolled back when a step fails: a failure before the tool ran or while it ran
   * leaves just the user entry; a tool result without text leaves the assistant message too;
   * a failing second completion leaves the tool entry as well.
   */
  lemma FailedTurnHistory(h: seq<Entry>, q: string, session: Option<ToolServer>,
                          model: Option<string>, llm: Endpoint, loads: Loads)
    requires Turn(h, q, session, model, llm, loads).answer.Failure?
    ensures var o := Turn(h, q, session, model, llm, loads);
            var first := FirstChoice(h, q, session, model, llm);
            match o.answer.error
            case NoTextContent =>
              && first.Some?
              && o.history == h + [UserEntry(q), ToolCallEntry(first.value.message)]
            case CompletionFailed(_) =>
              if |o.requests| == 2 then SecondCompletionFailed(h, q, session, model, llm, loads)
              else o.history == h + [UserEntry(q)]
            case NoChoices =>
              if |o.requests| == 2 then SecondCompletionFailed(h, q, session, model, llm, loads)
              else o.history == h + [UserEntry(q)]
            case _ => o.history == h + [UserEntry(q)]
  {
  }

  /**
   * Only the first proposed tool call is ever run, with the arguments parsed from its text,
   * and every tool entry the turn appends answers that call's id.
   */
  lemma OnlyFirstToolCallIsUsed(h: seq<Entry>, q: string, session: Option<ToolServer>,
                                model: Option<string>, llm: Endpoint, loads: Loads)
    ensures var o := Turn(h, q, session, model, llm, loads);
            var first := FirstChoice(h, q, session, model, llm);
            && |o.invocations| <= 1
            && (|o.invocations| == 1 || (|o.history| > |h| + 1 && o.history[|h| + 1].ToolCallEntry?) ==>
                  && first.Some? && first.value.finishReason == TOOL_CALLS
                  && |first.value.message.toolCalls| > 0
                  && |o.invocations| == 1
                  && o.invocations[0].name == first.value.message.toolCalls[0].name
                  && loads(first.value.message.toolCalls[0].arguments) == Success(o.invocations[0].arguments))
            && forall k | |h| <= k < |o.history| && o.history[k].ToolEntry? ::
                  && first.Some? && |first.value.message.toolCalls| > 0
                  && o.history[k].toolCallId == first.value.message.toolCalls[0].id
  {
  }

  /** Calls proposed after the first one change nothing about which tool is run, or with what. */
  lemma {:induction false} LaterToolCallsAreNotRun(asked: seq<Entry>, first: Request, m1: ChatMessage, m2: ChatMessage,
                                                server: ToolServer, model: Option<string>, llm: Endpoint, loads: Loads)
    requires |m1.toolCalls| > 0 && |m2.toolCalls| > 0 && m1.toolCalls[0] == m2.toolCalls[0]
    ensures ToolRound(asked, first, m1, server, model, llm, loads).invocations ==
            ToolRound(asked, first, m2, server, model, llm, loads).invocations
  {
    var call := m1.toolCalls[0];
    match loads(call.arguments)
    case Failure(_) =>
    case Success(arguments) =>
      match server.call(call.name, arguments)
      case Failure(_) =>
      case Success(result) =>
  }

  /**
   * Every tool entry comes right after an assistant message whose first proposed call has the
   * entry's id: the pairing the completion endpoint expects of a tool result.
   */
  ghost predicate ToolEntriesFollowTheirCall(h: seq<Entry>)
  {
    forall k | 0 <= k < |h| && h[k].ToolEntry? ::
      && 0 < k && h[k - 1].ToolCallEntry?
      && |h[k - 1].message.toolCalls| > 0
      && h[k - 1].message.toolCalls[0].id == h[k].toolCallId
  }

  /** Every turn, whether it answers or fails, keeps tool entries right behind their call. */
  lemma TurnKeepsToolEntriesAfterTheirCall(h: seq<Entry>, q: string, session: Option<ToolServer>,
                                           model: Option<string>, llm: Endpoint, loads: Loads)
    requires ToolEntriesFollowTheirCall(h)
    ensures ToolEntriesFollowTheirCall(Turn(h, q, session, model, llm, loads).history)
  {
    var o := Turn(h, q, session, model, llm, loads);
    TurnOnlyAppends(h, q, session, model, llm, loads);
    OnlyFirstToolCallIsUsed(h, q, session, model, llm, loads);
    forall k | 0 <= k < |o.history| && o.history[k].ToolEntry?
      ensures && 0 < k && o.history[k - 1].ToolCallEntry?
              && |o.history[k - 1].message.toolCalls| > 0
              && o.history[k - 1].message.toolCalls[0].id == o.history[k].toolCallId
    {
      if k < |h| {
        assert o.history[k] == h[k] && o.history[k - 1] == h[k - 1];
      } else {
        assert k == |h| + 2;
      }
    }
  }

  /** The entry at `i + 1 + j` is the tool result for call `j` of the assistant message at `i`. */
  ghost predicate Answers(h: seq<Entry>, i: nat, j: nat)
    requires i < |h| && h[i].ToolCallEntry? && j < |h[i].message.toolCalls|
  {
    i + 1 + j < |h| && h[i + 1 + j].ToolEntry? && h[i + 1 + j].toolCallId == h[i].message.toolCalls[j].id
  }

  /** Every call that an assistant message in the history proposes is answered by a tool entry. */
  ghost predicate CallsAnswered(h: seq<Entry>)
  {
    forall i, j | 0 <= i < |h| && h[i].ToolCallEntry? && 0 <= j < |h[i].message.toolCalls| :: Answers(h, i, j)
  }

  /**
   * A turn keeps every proposed call answered when its model proposed at most one call and the
   * tool's result carried text.
   */
  lemma OneCallTurnKeepsCallsAnswered(h: seq<Entry>, q: string, session: Option<ToolServer>,
                                      model: Option<string>, llm: Endpoint, loads: Loads)
    requires CallsAnswered(h)
    requires FirstChoice(h, q, session, model, llm).Some? ==>
               |FirstChoice(h, q, session, model, llm).value.message.toolCalls| <= 1
    requires Turn(h, q, session, model, llm, loads).answer != Failure(NoTextContent)
    ensures CallsAnswered(Turn(h, q, session, model, llm, loads).history)
  {
    var o := Turn(h, q, session, model, llm, loads);
    TurnOnlyAppends(h, q, session, model, llm, loads);
    OnlyFirstToolCallIsUsed(h, q, session, model, llm, loads);
    forall i, j | 0 <= i < |o.history| && o.history[i].ToolCallEntry? && 0 <= j < |o.history[i].message.toolCalls|
      ensures Answers(o.history, i, j)
    {
      if i < |h| {
        assert o.history[i] == h[i];
        assert Answers(h, i, j);
        assert h[i + 1 + j] == o.history[i + 1 + j];
      } else {
        assert i == |h| + 1 && j == 0;
      }
    }
  }

  /**
   * A tool round leaves a proposed call without its tool entry when the model proposed several
   * calls and the turn answered, or when the tool's result carried no text.
   */
  lemma TurnCanLeaveCallsUnanswered(h: seq<Entry>, q: string, session: Option<ToolServer>,
                                    model: Option<string>, llm: Endpoint, loads: Loads)
    ensures var o := Turn(h, q, session, model, llm, loads);
            var first := FirstChoice(h, q, session, model, llm);
            (o.answer == Failure(NoTextContent) ||
             (o.answer.Success? && first.Some? && first.value.finishReason == TOOL_CALLS &&
              |first.value.message.toolCalls| >= 2)) ==>
              !CallsAnswered(o.history)
  {
    var o := Turn(h, q, session, model, llm, loads);
    var first := FirstChoice(h, q, session, model, llm);
    if o.answer == Failure(NoTextContent) {
      FailedTurnHistory(h, q, session, model, llm, loads);
      assert !Answers(o.history, |h| + 1, 0);
    } else if o.answer.Success? && first.Some? && first.value.finishReason == TOOL_CALLS &&
              |first.value.message.toolCalls| >= 2 {
      ToolTurn(h, q, session, model, llm, loads);
      assert !Answers(o.history, |h| + 1, 1);
    }
  }
}
