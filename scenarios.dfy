/**
 * Short runs of the `App` handlers in orders a user and the transport can
 * drive them, from any state the component can be in between handlers, with
 * what the handler contracts let a caller conclude.
 */
module Scenarios {
  import opened Wrappers
  import opened Evaluation
  import opened Conversation
  import opened AppComponent

  /**
   * Starting from the setup screen and then connecting sends the priming
   * message twice: once when `startConversation` resolves and once from
   * `onConnect`.
   */
  method PrimingSentTwice(app: App, session: string, t0: int, t1: int)
    requires app.Valid() && CanStartFromSetup(app.scenarioDescription, app.agentPrompt)
    modifies app
    ensures app.Valid() && app.isConnected && !app.isLoading
    ensures app.sent == old(app.sent) + [PrimingMessage(app.agentPrompt), PrimingMessage(app.agentPrompt)]
  {
    app.HandleStartConversationFromSetup(Some(session), true, t0);
    app.OnConnect(t1, true);
  }

  /**
   * After a send the transport accepted, loading stays on, so a second send is
   * ignored: only the first message reaches the transcript and the transport.
   */
  method SecondSendIgnored(app: App, second: string, t1: int, t2: int)
    requires app.Valid() && CanSend(app.inputText, app.isLoading, app.isConnected)
    modifies app
    ensures app.Valid() && app.isLoading
    ensures app.messages == old(app.messages) + [NewMessage(t1, old(app.inputText), true)]
    ensures app.sent == old(app.sent) + [old(app.inputText)]
  {
    app.HandleSendMessage(true, t1, t1);
    app.SetInputText(second);
    app.HandleSendMessage(true, t2, t2);
  }

  /**
   * Ending a session twice: the second call finds no start time, so the
   * summary of the first call is the one left showing.
   */
  method SecondEndKeepsSummary(app: App, t1: int, t2: int)
    requires app.Valid() && app.conversationStartTime.Some?
    modifies app
    ensures app.Valid() && app.conversationStartTime == None && app.showSummary
    ensures app.conversationSummary == Summarize(app.messages, old(app.conversationStartTime), t1)
    ensures app.conversationSummary.value.messageCount == |app.messages|
  {
    app.EndConversation(true, t1);
    app.EndConversation(true, t2);
  }

  /** Without an API key, a non-empty transcript is not sent anywhere and the fallback, score 7, is shown. */
  method MissingKeyFallsBack(app: App, payload: InboundMessage, t: int, backend: BackendOutcome)
    requires app.Valid()
    modifies app
    ensures app.Valid()
    ensures app.evaluation == Some(FallbackEvaluation) && WellFormed(app.evaluation.value)
    ensures app.requests == old(app.requests)
  {
    app.OnMessage(payload, t);
    app.EvaluateConversationHandler(Some(""), backend);
  }

  /** Trying again after a session keeps the edited scenario and prompt, while the transcript starts over. */
  method RetryKeepsScenario(app: App, scenario: string, prompt: string, session: string, t: int)
    requires app.Valid()
    modifies app
    ensures app.Valid()
    ensures app.scenarioDescription == scenario && app.agentPrompt == prompt
    ensures app.messages == [] && app.conversationId == Some(session)
    ensures app.sent == old(app.sent) + app.PrimingSends(true)
  {
    app.SetScenarioDescription(scenario);
    app.SetAgentPrompt(prompt);
    app.HandleTryConversationAgain(Some(session), true, t);
  }
}
