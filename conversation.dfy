/**
 * The pure computations inside the `App` component (src/App.tsx): the chat
 * message record, the session summary and its `Xm Ys` duration, the mapping
 * of messages into an evaluation transcript, the priming message, the fallback
 * evaluation and the feedback-area list edits.
 */
module Conversation {
  import opened Wrappers
  import opened Text
  import opened Evaluation

  /** A chat bubble; `id` is `Date.now().toString()` and `timestamp` is in milliseconds. */
  datatype Message = Message(id: string, text: string, isUser: bool, timestamp: int)

  datatype ConversationSummary = ConversationSummary(
    duration: string,
    messageCount: nat,
    userMessages: nat,
    agentMessages: nat)

  /** The payload the transport hands to `onMessage`: an optional text and its source tag. */
  datatype InboundMessage = InboundMessage(message: Option<string>, source: string)

  const TestPrompt := "\nYou are a CEO of a technology company.\nYou are anxious about upcoming quarterly results and are pressuring your senior managers to deliver faster.\nYou have summoned your senior manager to a 1:1 meeting to discuss the situation and pressure them to deliver faster.\n"
  const DefaultScenarioDescription := "\nI am a senior manager in a technology company.\nI am facing pressure to compress timelines and deliverables, but my team is adamant that we cannot do it.\nMy CEO has approached me to discuss the situation and pressure me to speed up the project.\n"
  const AgentPromptInstructions := "\nYou must respond with ONLY spoken dialogue. Never include:\n- Stage directions (e.g., *laughs*, *sighs*)\n- Actions in parentheses (e.g., (stares at hands))\n- Descriptions of tone or manner (e.g., \"mumbles\", \"says quietly\")\n- Any non-verbal content\n\nOnly output the exact words you would speak aloud.\n"
  const DefaultFeedbackAreas: seq<string> := ["Communication clarity", "Active listening", "Empathy"]
  const AudioPlaceholder := "Received audio response"
  const StartFailureText := "Failed to start conversation. Please check your Agent ID and try again."
  const SendFailureText := "Sorry, there was an error sending your message."
  const GeneralContext := "General conversation practice"
  const UnknownDuration := "Unknown"
  const FallbackEvaluation := EvaluationResult(
    7,
    "Unable to generate evaluation at this time. Please try again later.",
    ["Conversation completed successfully"],
    ["Evaluation service unavailable"])

  /** A message stamped with the clock reading `now`, whose id is that reading in decimal. */
  function NewMessage(now: int, text: string, isUser: bool): (m: Message)
    ensures m.text == text && m.isUser == isUser && m.timestamp == now
  {
    Message(IntToString(now), text, isUser, now)
  }

  /** The agent message a failed send appends; its id is one millisecond past the clock reading. */
  function SendFailureMessage(now: int): (m: Message)
    ensures m.text == SendFailureText && !m.isUser && m.timestamp == now
  {
    Message(IntToString(now + 1), SendFailureText, false, now)
  }

  /**
   * A message id is the clock reading in decimal and reads back as it; the
   * error message after a failed send carries the reading one millisecond on.
   * Two messages made in the same millisecond therefore share an id.
   */
  lemma MessageIdsReadBack(now: int, text: string, isUser: bool)
    ensures IsIntText(NewMessage(now, text, isUser).id) && ParseInt(NewMessage(now, text, isUser).id) == now
    ensures IsIntText(SendFailureMessage(now).id) && ParseInt(SendFailureMessage(now).id) == now + 1
    ensures NewMessage(now, text, isUser).id == NewMessage(now, SendFailureText, false).id
  {
    ParseIntToString(now);
    ParseIntToString(now + 1);
  }

  // ---------------------------------------------------------------------------
  // Summary statistics

  /** `messages.filter(m => m.isUser).length` */
  function CountUser(ms: seq<Message>): (n: nat)
    ensures n <= |ms|
  {
    if |ms| == 0 then 0 else (if ms[0].isUser then 1 else 0) + CountUser(ms[1..])
  }

  /** `messages.filter(m => !m.isUser).length` */
  function CountAgent(ms: seq<Message>): (n: nat)
    ensures n <= |ms|
  {
    if |ms| == 0 then 0 else (if ms[0].isUser then 0 else 1) + CountAgent(ms[1..])
  }

  /** Every message is counted once, as the user's or as the agent's. */
  lemma {:induction false} CountsPartition(ms: seq<Message>)
    ensures CountUser(ms) + CountAgent(ms) == |ms|
  {
    if |ms| > 0 {
      CountsPartition(ms[1..]);
    }
  }

  /** Appending one message raises exactly one of the two counts. */
  lemma {:induction false} CountsAppend(ms: seq<Message>, m: Message)
    ensures CountUser(ms + [m]) == CountUser(ms) + (if m.isUser then 1 else 0)
    ensures CountAgent(ms + [m]) == CountAgent(ms) + (if m.isUser then 0 else 1)
  {
    if |ms| > 0 {
      assert (ms + [m])[1..] == ms[1..] + [m];
      CountsAppend(ms[1..], m);
    } else {
      assert ms + [m] == [m];
    }
  }

  /** JavaScript's `%`: the remainder takes the sign of the dividend. */
  function JsRem(a: int, b: int): (r: int)
    requires b > 0
    ensures a >= 0 ==> 0 <= r < b
    ensures a < 0 ==> -b < r <= 0
    ensures (a - r) % b == 0
  {
    if a >= 0 then
      assert a - a % b == b * (a / b);
      MultipleRem(a / b, b);
      a % b
    else
      var q := (-a) / b;
      assert a + (-a) % b == b * -q by {
        assert -a == b * q + (-a) % b;
        assert b * -q == -(b * q);
      }
      MultipleRem(-q, b);
      -((-a) % b)
  }

  /** A multiple of `b` leaves no remainder. */
  lemma MultipleRem(q: int, b: int)
    requires b > 0
    ensures (b * q) % b == 0
  {
    var x := b * q;
    var k := q - x / b;
    assert x == b * (x / b) + x % b;
    assert x % b == b * k by {
      assert b * k == b * q - b * (x / b);
    }
  }

  /**
   * `[Math.floor(d / 60000), Math.floor((d % 60000) / 1000)]`. Dividing by a
   * positive constant, Dafny's `/` is the floor; the inner `%` is JavaScript's.
   */
  function DurationParts(d: int): (r: (int, int)) {
    (d / 60000, JsRem(d, 60000) / 1000)
  }

  /** For an elapsed time that is not negative: whole minutes, then the whole seconds left over. */
  lemma DurationBounds(d: int)
    requires d >= 0
    ensures var (m, s) := DurationParts(d);
            m >= 0 && 0 <= s <= 59 &&
            60000 * m + 1000 * s <= d < 60000 * m + 1000 * s + 1000
  {
    var (m, s) := DurationParts(d);
    var rem := d % 60000;
    assert d == 60000 * m + rem;
    assert rem == 1000 * s + rem % 1000;
  }

  /**
   * A negative elapsed time (a clock set back mid-session) mixes the two
   * roundings: minutes round down while seconds keep the dividend's sign.
   */
  lemma NegativeDuration(d: int)
    requires d < 0
    ensures var (m, s) := DurationParts(d); m < 0 && -60 <= s <= 0
  {
  }

  /** One millisecond short of zero shows as `-1m -1s`; one short of a minute before as `-1m -60s`. */
  lemma NegativeDurationExamples()
    ensures DurationParts(-1) == (-1, -1)
    ensures DurationParts(-59999) == (-1, -60)
  {
  }

  /** The summary's duration text, `${minutes}m ${seconds}s`. */
  function FormatDuration(d: int): string {
    var (m, s) := DurationParts(d);
    IntToString(m) + "m " + IntToString(s) + "s"
  }

  /** Reads minutes and seconds back from a duration text. */
  function ParseDuration(t: string): Option<(int, int)> {
    match IndexOf(t, 'm')
    case None => None
    case Some(i) =>
      if i + 2 < |t| && t[i + 1] == ' ' && t[|t| - 1] == 's'
         && IsIntText(t[..i]) && IsIntText(t[i + 2..|t| - 1])
      then Some((ParseInt(t[..i]), ParseInt(t[i + 2..|t| - 1])))
      else None
  }

  /** The duration text is unambiguous: it reads back as the minutes and seconds it was made from. */
  lemma DurationRoundTrip(d: int)
    ensures ParseDuration(FormatDuration(d)) == Some(DurationParts(d))
  {
    var (m, s) := DurationParts(d);
    var a, b := IntToString(m), IntToString(s);
    var t := a + "m " + b + "s";
    assert t == FormatDuration(d);
    ParseIntToString(m);
    ParseIntToString(s);
    assert t[|a|] == 'm';
    assert 'm' !in a by {
      forall k | 0 <= k < |a| ensures a[k] != 'm' {
        assert IsDigit(a[k]) || a[k] == '-';
      }
    }
    assert forall k :: 0 <= k < |a| ==> t[k] == a[k];
    assert forall k :: |a| < k <= |t| ==> t[..k][|a|] == 'm';
    assert t[|a|] in t;
    match IndexOf(t, 'm')
    case None =>
      assert false;
    case Some(i) =>
      assert i == |a|;
      assert t[..i] == a;
      assert t[i + 2..|t| - 1] == b;
  }

  /**
   * `endConversation`'s summary: produced only when a start time is recorded,
   * counting every message once as the user's or the agent's.
   */
  function Summarize(messages: seq<Message>, startTime: Option<int>, now: int): (r: Option<ConversationSummary>)
    ensures r.Some? <==> startTime.Some?
    ensures r.Some? ==>
      r.value.messageCount == |messages| &&
      r.value.userMessages == CountUser(messages) &&
      r.value.agentMessages == CountAgent(messages) &&
      r.value.userMessages + r.value.agentMessages == r.value.messageCount &&
      r.value.duration == FormatDuration(now - startTime.value)
  {
    match startTime
    case None => None
    case Some(t) =>
      CountsPartition(messages);
      Some(ConversationSummary(FormatDuration(now - t), |messages|, CountUser(messages), CountAgent(messages)))
  }

  predicate SummaryConsistent(s: ConversationSummary) {
    s.userMessages + s.agentMessages == s.messageCount
  }

  // ---------------------------------------------------------------------------
  // Inbound messages

  /** `message.message || 'Received audio response'`: a missing or empty text becomes the placeholder. */
  function ReceivedText(payload: Option<string>): (t: string)
    ensures t != ""
    ensures payload.Some? && payload.value != "" ==> t == payload.value
    ensures payload.None? || payload.value == "" ==> t == AudioPlaceholder
  {
    if payload.Some? && payload.value != "" then payload.value else AudioPlaceholder
  }

  /** The chat message `onMessage` appends for a payload. */
  function InboundToMessage(payload: InboundMessage, now: int): (m: Message)
    ensures m.isUser <==> payload.source == "user"
    ensures m.text != ""
    ensures payload.message.Some? && payload.message.value != "" ==> m.text == payload.message.value
    ensures payload.message.None? || payload.message.value == "" ==> m.text == AudioPlaceholder
  {
    NewMessage(now, ReceivedText(payload.message), payload.source == "user")
  }

  // ---------------------------------------------------------------------------
  // Evaluation transcript

  function ToTranscriptMessage(m: Message): TranscriptMessage {
    TranscriptMessage(if m.isUser then User else Agent, m.text, m.timestamp)
  }

  /**
   * The transcript `evaluateConversationHandler` builds: one entry per message
   * in order, `user` exactly for the user's messages; the context is the agent
   * prompt unless that is empty, the duration the summary's unless absent or empty.
   */
  function EvaluationTranscript(
    messages: seq<Message>,
    agentPrompt: string,
    summary: Option<ConversationSummary>): (t: ConversationTranscript)
    ensures |t.messages| == |messages|
    ensures forall i :: 0 <= i < |messages| ==>
      (t.messages[i].speaker == User <==> messages[i].isUser) &&
      t.messages[i].text == messages[i].text &&
      t.messages[i].timestamp == messages[i].timestamp
    ensures agentPrompt == "" ==> t.context == GeneralContext
    ensures agentPrompt != "" ==> t.context == agentPrompt
    ensures summary.Some? && summary.value.duration != "" ==> t.duration == summary.value.duration
    ensures summary.None? || summary.value.duration == "" ==> t.duration == UnknownDuration
  {
    ConversationTranscript(
      seq(|messages|, i requires 0 <= i < |messages| => ToTranscriptMessage(messages[i])),
      if agentPrompt != "" then agentPrompt else GeneralContext,
      if summary.Some? && summary.value.duration != "" then summary.value.duration else UnknownDuration)
  }

  /** Reading the evaluation prompt's transcript back yields the chat's speakers and texts in order. */
  lemma EvaluationTranscriptReadsBack(messages: seq<Message>, agentPrompt: string, summary: Option<ConversationSummary>)
    requires |messages| > 0
    requires forall i :: 0 <= i < |messages| ==> '\n' !in messages[i].text
    ensures var t := EvaluationTranscript(messages, agentPrompt, summary);
            ParseTranscript(RenderTranscript(t.messages)) ==
              Some(seq(|messages|, i requires 0 <= i < |messages| =>
                Turn(if messages[i].isUser then User else Agent, messages[i].text)))
  {
    var t := EvaluationTranscript(messages, agentPrompt, summary);
    RenderRoundTrip(t.messages);
    assert Turns(t.messages) == seq(|messages|, i requires 0 <= i < |messages| =>
                Turn(if messages[i].isUser then User else Agent, messages[i].text));
  }

  // ---------------------------------------------------------------------------
  // Priming message and fallback evaluation

  /** `${agentPrompt}\n\n${agentPromptInstructions}` */
  function PrimingMessage(agentPrompt: string): (p: string)
    ensures |p| == |agentPrompt| + 2 + |AgentPromptInstructions|
    ensures p[..|agentPrompt|] == agentPrompt
    ensures p[|agentPrompt| + 2..] == AgentPromptInstructions
  {
    agentPrompt + "\n\n" + AgentPromptInstructions
  }

  /** Distinct persona prompts give distinct priming messages. */
  lemma PrimingInjective(a: string, b: string)
    requires PrimingMessage(a) == PrimingMessage(b)
    ensures a == b
  {
    assert |a| == |b|;
  }

  /**
   * What `evaluateConversationHandler` stores: the client's result, or the
   * fixed fallback (score 7) whatever the client threw. The stored evaluation
   * is in the score range whenever the client did not return one outside it.
   */
  function SettledEvaluation(result: Result<EvaluationResult, EvaluationError>): (e: EvaluationResult)
    ensures result.Failure? ==> e == FallbackEvaluation && e.score == 7
    ensures result.Success? ==> e == result.value
    ensures (result.Success? ==> WellFormed(result.value)) ==> WellFormed(e)
  {
    match result
    case Success(v) => v
    case Failure(_) => FallbackEvaluation
  }

  // ---------------------------------------------------------------------------
  // Feedback areas

  predicate NoDuplicates(s: seq<string>) {
    forall i, j :: 0 <= i < j < |s| ==> s[i] != s[j]
  }

  /**
   * `handleAddFeedbackArea` on (list, input): the trimmed input is appended and
   * the input cleared only when it is non-empty and new; otherwise nothing changes.
   */
  function AddFeedbackArea(areas: seq<string>, input: string): (r: (seq<string>, string))
    ensures NoDuplicates(areas) ==> NoDuplicates(r.0)
    ensures Trim(input) != "" && Trim(input) !in areas ==> r == (areas + [Trim(input)], "")
    ensures Trim(input) == "" || Trim(input) in areas ==> r == (areas, input)
  {
    var t := Trim(input);
    if t != "" && t !in areas then (areas + [t], "") else (areas, input)
  }

  /** `areas.filter(a => a !== area)` */
  function RemoveFeedbackArea(areas: seq<string>, area: string): (r: seq<string>)
    ensures forall x :: x in r <==> x in areas && x != area
    ensures multiset(r) == multiset(areas)[area := 0]
  {
    if |areas| == 0 then []
    else
      var rest := RemoveFeedbackArea(areas[1..], area);
      assert areas == [areas[0]] + areas[1..];
      if areas[0] == area then rest else [areas[0]] + rest
  }

  /** Removal keeps a duplicate-free list duplicate-free. */
  lemma {:induction false} RemovePreservesNoDuplicates(areas: seq<string>, area: string)
    requires NoDuplicates(areas)
    ensures NoDuplicates(RemoveFeedbackArea(areas, area))
  {
    if |areas| > 0 {
      RemovePreservesNoDuplicates(areas[1..], area);
      var rest := RemoveFeedbackArea(areas[1..], area);
      if areas[0] != area {
        assert areas[0] !in areas[1..];
        assert areas[0] !in rest;
        var r := [areas[0]] + rest;
        forall i, j | 0 <= i < j < |r| ensures r[i] != r[j] {
          if i == 0 {
            assert r[j] == rest[j - 1];
          } else {
            assert r[i] == rest[i - 1] && r[j] == rest[j - 1];
          }
        }
      }
    }
  }

  /** Removal keeps the surviving entries in their order: it distributes over concatenation. */
  lemma {:induction false} RemoveDistributes(a: seq<string>, b: seq<string>, area: string)
    ensures RemoveFeedbackArea(a + b, area) == RemoveFeedbackArea(a, area) + RemoveFeedbackArea(b, area)
  {
    if |a| == 0 {
      assert a + b == b;
    } else {
      assert (a + b)[0] == a[0];
      assert (a + b)[1..] == a[1..] + b;
      RemoveDistributes(a[1..], b, area);
    }
  }

  /** Removing an area that is not listed leaves the list as it was. */
  lemma {:induction false} RemoveAbsent(areas: seq<string>, area: string)
    requires area !in areas
    ensures RemoveFeedbackArea(areas, area) == areas
  {
    if |areas| > 0 {
      RemoveAbsent(areas[1..], area);
      assert areas == [areas[0]] + areas[1..];
    }
  }

  lemma DefaultFeedbackAreasDistinct()
    ensures NoDuplicates(DefaultFeedbackAreas)
  {
  }

  // ---------------------------------------------------------------------------
  // Guards

  /** `handleStartConversationFromSetup` proceeds only with a non-blank scenario and a non-blank prompt. */
  predicate CanStartFromSetup(scenarioDescription: string, agentPrompt: string) {
    Trim(scenarioDescription) != "" && Trim(agentPrompt) != ""
  }

  /** `handleSendMessage` proceeds only with non-blank input, no send in flight, and a connection. */
  predicate CanSend(inputText: string, isLoading: bool, isConnected: bool) {
    Trim(inputText) != "" && !isLoading && isConnected
  }
}
