/**
 * The `App` component's state and handlers (src/App.tsx). Each handler is one
 * atomic step on the component state. What the outside world does is passed
 * in: whether a transport call succeeded, the conversation id a started session
 * gets, the clock reading, the API key and what the evaluation backend answered.
 * Ghost logs record what is sent to the agent and to the evaluation backend.
 */
module AppComponent {
  import opened Wrappers
  import opened Text
  import opened Evaluation
  import opened Conversation

  class App {
    var messages: seq<Message>
    var inputText: string
    var isConnected: bool
    var isLoading: bool
    var conversationId: Option<string>
    var agentPrompt: string
    var scenarioDescription: string
    var feedbackAreas: seq<string>
    var feedbackAreaInput: string
    var showPromptInput: bool
    var showSetupScreen: bool
    var showSummary: bool
    var conversationSummary: Option<ConversationSummary>
    var conversationStartTime: Option<int>
    var evaluation: Option<EvaluationResult>
    var isEvaluating: bool

    /** Every text handed to the transport's `sendUserMessage` without it throwing. */
    ghost var sent: seq<string>
    /** Every chat-completion request the evaluation client made. */
    ghost var requests: seq<ChatRequest>

    /**
     * Between handlers: the feedback areas hold no duplicates, a summary counts
     * each message once, and no evaluation is in progress.
     */
    ghost predicate Valid()
      reads this
    {
      && NoDuplicates(feedbackAreas)
      && (conversationSummary.Some? ==> SummaryConsistent(conversationSummary.value))
      && !isEvaluating
    }

    /** The initial `useState` values (with the test mode off). */
    constructor ()
      ensures Valid()
      ensures messages == [] && inputText == "" && !isConnected && !isLoading
      ensures conversationId == None
      ensures agentPrompt == TestPrompt && scenarioDescription == DefaultScenarioDescription
      ensures feedbackAreas == DefaultFeedbackAreas && feedbackAreaInput == ""
      ensures !showPromptInput && showSetupScreen && !showSummary
      ensures conversationSummary == None && conversationStartTime == None
      ensures evaluation == None && !isEvaluating
      ensures sent == [] && requests == []
    {
      messages := [];
      inputText := "";
      isConnected := false;
      isLoading := false;
      conversationId := None;
      agentPrompt := TestPrompt;
      scenarioDescription := DefaultScenarioDescription;
      feedbackAreas := DefaultFeedbackAreas;
      feedbackAreaInput := "";
      showPromptInput := false;
      showSetupScreen := true;
      showSummary := false;
      conversationSummary := None;
      conversationStartTime := None;
      evaluation := None;
      isEvaluating := false;
      sent := [];
      requests := [];
      DefaultFeedbackAreasDistinct();
    }

    /** What `sendPromptToAgent` adds to the send log. */
    function PrimingSends(sendOk: bool): seq<string>
      reads this
    {
      if Trim(agentPrompt) != "" && sendOk then [PrimingMessage(agentPrompt)] else []
    }

    /**
     * `sendPromptToAgent`: nothing for a blank prompt; otherwise the priming
     * message is sent, and a synchronous transport throw is swallowed.
     */
    method SendPromptToAgent(sendOk: bool)
      modifies this`sent
      ensures sent == old(sent) + PrimingSends(sendOk)
    {
      if Trim(agentPrompt) == "" {
        return;
      }
      if sendOk {
        sent := sent + [PrimingMessage(agentPrompt)];
      }
    }

    /** `onConnect`: connected, not loading, start time recorded, screens hidden, priming sent. */
    method OnConnect(now: int, sendOk: bool)
      requires Valid()
      modifies this`isConnected, this`isLoading, this`conversationStartTime,
               this`showSummary, this`showSetupScreen, this`sent
      ensures Valid()
      ensures isConnected && !isLoading && conversationStartTime == Some(now)
      ensures !showSummary && !showSetupScreen
      ensures sent == old(sent) + PrimingSends(sendOk)
    {
      isConnected := true;
      isLoading := false;
      conversationStartTime := Some(now);
      showSummary := false;
      showSetupScreen := false;
      SendPromptToAgent(sendOk);
    }

    /** `onDisconnect`: not connected, no conversation id, not loading. */
    method OnDisconnect()
      requires Valid()
      modifies this`isConnected, this`conversationId, this`isLoading
      ensures Valid()
      ensures !isConnected && conversationId == None && !isLoading
    {
      isConnected := false;
      conversationId := None;
      isLoading := false;
    }

    /** `onMessage`: exactly one message is appended at the end; earlier messages stay as they were. */
    method OnMessage(payload: InboundMessage, now: int)
      requires Valid()
      modifies this`messages
      ensures Valid()
      ensures messages == old(messages) + [InboundToMessage(payload, now)]
      ensures CountUser(messages) + CountAgent(messages) == |messages|
    {
      messages := messages + [InboundToMessage(payload, now)];
      CountsPartition(messages);
    }

    /**
     * `endConversation`: once the transport's `endSession` settles, the prompt
     * editor closes; a recorded start time yields a summary of the messages so
     * far and shows it; the start time is then cleared. If `endSession` rejects,
     * the handler stops before changing anything.
     */
    method EndConversation(endOk: bool, now: int)
      requires Valid()
      modifies this`showPromptInput, this`conversationSummary, this`showSummary,
               this`conversationStartTime
      ensures Valid()
      ensures !endOk ==> unchanged(this)
      ensures endOk ==> !showPromptInput && conversationStartTime == None
      ensures endOk && old(conversationStartTime).Some? ==>
        conversationSummary == Summarize(messages, old(conversationStartTime), now) && showSummary
      ensures endOk && old(conversationStartTime).None? ==>
        conversationSummary == old(conversationSummary) && showSummary == old(showSummary)
    {
      if !endOk {
        return;
      }
      showPromptInput := false;
      if conversationStartTime.Some? {
        conversationSummary := Summarize(messages, conversationStartTime, now);
        showSummary := true;
      }
      conversationStartTime := None;
    }

    /** `handleSetPrompt`: closes the prompt editor unless the prompt is blank. */
    method HandleSetPrompt()
      requires Valid()
      modifies this`showPromptInput
      ensures Valid()
      ensures showPromptInput == (old(showPromptInput) && Trim(agentPrompt) == "")
    {
      if Trim(agentPrompt) != "" {
        showPromptInput := false;
      }
    }

    /** `handleClearPrompt`: empties the prompt and closes its editor. */
    method HandleClearPrompt()
      requires Valid()
      modifies this`agentPrompt, this`showPromptInput
      ensures Valid()
      ensures agentPrompt == "" && !showPromptInput
    {
      agentPrompt := "";
      showPromptInput := false;
    }

    /** `handleCloseSummary` */
    method HandleCloseSummary()
      requires Valid()
      modifies this`showSummary
      ensures Valid()
      ensures !showSummary
    {
      showSummary := false;
    }

    /**
     * `handleStartNewConversation`: the transcript, summary and evaluation are
     * cleared and the setup screen shown; the scenario, prompt and feedback
     * areas are kept (only the "Reset to Defaults" button restores those).
     */
    method HandleStartNewConversation()
      requires Valid()
      modifies this`showSummary, this`conversationSummary, this`messages,
               this`showPromptInput, this`showSetupScreen, this`evaluation, this`isEvaluating
      ensures Valid()
      ensures messages == [] && conversationSummary == None && evaluation == None
      ensures !showSummary && !showPromptInput && showSetupScreen && !isEvaluating
      ensures agentPrompt == old(agentPrompt) && scenarioDescription == old(scenarioDescription)
      ensures feedbackAreas == old(feedbackAreas)
    {
      showSummary := false;
      conversationSummary := None;
      messages := [];
      showPromptInput := false;
      showSetupScreen := true;
      evaluation := None;
      isEvaluating := false;
    }

    /** The "Reset to Defaults" button of the setup screen. */
    method ResetToDefaults()
      requires Valid()
      modifies this`scenarioDescription, this`agentPrompt, this`feedbackAreas
      ensures Valid()
      ensures scenarioDescription == DefaultScenarioDescription && agentPrompt == TestPrompt
      ensures feedbackAreas == DefaultFeedbackAreas
    {
      scenarioDescription := DefaultScenarioDescription;
      agentPrompt := TestPrompt;
      feedbackAreas := DefaultFeedbackAreas;
      DefaultFeedbackAreasDistinct();
    }

    /** The effect of `startConversation` given the state it started from. */
    ghost predicate Started(
      oldMessages: seq<Message>, oldSent: seq<string>, oldId: Option<string>, oldShowPromptInput: bool,
      session: Option<string>, sendOk: bool, now: int)
      reads this
    {
      && !isLoading
      && (session.Some? ==>
            && conversationId == session && !showPromptInput
            && messages == oldMessages
            && sent == oldSent + PrimingSends(sendOk))
      && (session.None? ==>
            && conversationId == oldId && showPromptInput == oldShowPromptInput
            && messages == oldMessages + [NewMessage(now, StartFailureText, false)]
            && sent == oldSent)
    }

    /**
     * `startConversation`: `session` is the conversation id `startSession`
     * resolves to, or `None` when it rejects. On success the priming message is
     * sent (unless the prompt is blank); on failure an agent error message is
     * appended. Loading is off at the end either way.
     */
    method StartConversation(session: Option<string>, sendOk: bool, now: int)
      requires Valid()
      modifies this`isLoading, this`conversationId, this`showPromptInput, this`messages, this`sent
      ensures Valid()
      ensures Started(old(messages), old(sent), old(conversationId), old(showPromptInput), session, sendOk, now)
    {
      isLoading := true;
      match session {
        case Some(id) =>
          conversationId := Some(id);
          showPromptInput := false;
          if Trim(agentPrompt) != "" {
            SendPromptToAgent(sendOk);
          }
        case None =>
          messages := messages + [NewMessage(now, StartFailureText, false)];
      }
      isLoading := false;
    }

    /** `handleStartConversationFromSetup`: starts only with a non-blank scenario and prompt. */
    method HandleStartConversationFromSetup(session: Option<string>, sendOk: bool, now: int)
      requires Valid()
      modifies this`showSetupScreen, this`isLoading, this`conversationId, this`showPromptInput,
               this`messages, this`sent
      ensures Valid()
      ensures !CanStartFromSetup(scenarioDescription, agentPrompt) ==> unchanged(this)
      ensures CanStartFromSetup(scenarioDescription, agentPrompt) ==>
        !showSetupScreen &&
        Started(old(messages), old(sent), old(conversationId), old(showPromptInput), session, sendOk, now)
    {
      if !CanStartFromSetup(scenarioDescription, agentPrompt) {
        return;
      }
      showSetupScreen := false;
      StartConversation(session, sendOk, now);
    }

    /**
     * `handleTryConversationAgain`: the same reset as a new conversation but
     * staying off the setup screen, then a new session with the same scenario,
     * prompt and feedback areas.
     */
    method HandleTryConversationAgain(session: Option<string>, sendOk: bool, now: int)
      requires Valid()
      modifies this`showSummary, this`conversationSummary, this`messages, this`showPromptInput,
               this`showSetupScreen, this`evaluation, this`isEvaluating, this`isLoading,
               this`conversationId, this`sent
      ensures Valid()
      ensures conversationSummary == None && evaluation == None
      ensures !showSummary && !showSetupScreen && !isEvaluating
      ensures Started([], old(sent), old(conversationId), false, session, sendOk, now)
      ensures agentPrompt == old(agentPrompt) && scenarioDescription == old(scenarioDescription)
      ensures feedbackAreas == old(feedbackAreas)
    {
      showSummary := false;
      conversationSummary := None;
      messages := [];
      showPromptInput := false;
      showSetupScreen := false;
      evaluation := None;
      isEvaluating := false;
      StartConversation(session, sendOk, now);
    }

    /** `handleAddFeedbackArea` */
    method HandleAddFeedbackArea()
      requires Valid()
      modifies this`feedbackAreas, this`feedbackAreaInput
      ensures Valid()
      ensures (feedbackAreas, feedbackAreaInput) == AddFeedbackArea(old(feedbackAreas), old(feedbackAreaInput))
    {
      var t := Trim(feedbackAreaInput);
      if t != "" && t !in feedbackAreas {
        feedbackAreas := feedbackAreas + [t];
        feedbackAreaInput := "";
      }
    }

    /** `handleRemoveFeedbackArea` */
    method HandleRemoveFeedbackArea(area: string)
      requires Valid()
      modifies this`feedbackAreas
      ensures Valid()
      ensures feedbackAreas == RemoveFeedbackArea(old(feedbackAreas), area)
    {
      RemovePreservesNoDuplicates(feedbackAreas, area);
      feedbackAreas := RemoveFeedbackArea(feedbackAreas, area);
    }

    /**
     * `handleSendMessage`: nothing unless the trimmed input is non-blank, no
     * send is in flight and the session is connected. Otherwise the untrimmed
     * input is appended as a user message, the input cleared and loading set;
     * only when the transport throws is an agent error message appended and
     * loading cleared. The error message is stamped with a second clock
     * reading `nowAfter`, taken after the send failed.
     */
    method HandleSendMessage(sendOk: bool, now: int, nowAfter: int)
      requires Valid()
      modifies this`messages, this`inputText, this`isLoading, this`sent
      ensures Valid()
      ensures !CanSend(old(inputText), old(isLoading), isConnected) ==> unchanged(this)
      ensures CanSend(old(inputText), old(isLoading), isConnected) ==>
        && inputText == ""
        && isLoading == sendOk
        && messages == old(messages) + [NewMessage(now, old(inputText), true)]
                       + (if sendOk then [] else [SendFailureMessage(nowAfter)])
        && sent == old(sent) + (if sendOk then [old(inputText)] else [])
    {
      if !CanSend(inputText, isLoading, isConnected) {
        return;
      }
      var text := inputText;
      messages := messages + [NewMessage(now, text, true)];
      inputText := "";
      isLoading := true;
      if sendOk {
        sent := sent + [text];
      } else {
        messages := messages + [SendFailureMessage(nowAfter)];
        isLoading := false;
      }
    }

    /**
     * `evaluateConversationHandler`: nothing for an empty transcript. Otherwise
     * the messages are mapped into a transcript and evaluated against the
     * scenario (the feedback areas are passed at the call site but never read);
     * the result, or the fallback whatever was thrown, is stored.
     */
    method EvaluateConversationHandler(apiKey: Option<string>, backend: BackendOutcome)
      requires Valid()
      modifies this`isEvaluating, this`evaluation, this`requests
      ensures Valid()
      ensures |messages| == 0 ==> unchanged(this)
      ensures |messages| > 0 ==>
        var call := EvaluateConversation(apiKey, EvaluationTranscript(messages, agentPrompt, conversationSummary),
                                         scenarioDescription, backend);
        && evaluation == Some(SettledEvaluation(call.result))
        && requests == old(requests) + (if call.request.Some? then [call.request.value] else [])
      ensures |messages| > 0 && !HasApiKey(apiKey) ==> evaluation == Some(FallbackEvaluation) && requests == old(requests)
    {
      if |messages| == 0 {
        return;
      }
      isEvaluating := true;
      var transcript := EvaluationTranscript(messages, agentPrompt, conversationSummary);
      var call := EvaluateConversation(apiKey, transcript, scenarioDescription, backend);
      if call.request.Some? {
        requests := requests + [call.request.value];
      }
      evaluation := Some(SettledEvaluation(call.result));
      isEvaluating := false;
    }

    method SetInputText(text: string)
      requires Valid()
      modifies this`inputText
      ensures Valid() && inputText == text
    {
      inputText := text;
    }

    method SetAgentPrompt(text: string)
      requires Valid()
      modifies this`agentPrompt
      ensures Valid() && agentPrompt == text
    {
      agentPrompt := text;
    }

    method SetScenarioDescription(text: string)
      requires Valid()
      modifies this`scenarioDescription
      ensures Valid() && scenarioDescription == text
    {
      scenarioDescription := text;
    }

    method SetFeedbackAreaInput(text: string)
      requires Valid()
      modifies this`feedbackAreaInput
      ensures Valid() && feedbackAreaInput == text
    {
      feedbackAreaInput := text;
    }
  }
}
