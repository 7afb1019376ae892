/**
 * The evaluation client (src/utils.ts): renders a conversation transcript into
 * a coaching prompt, makes one chat-completion request and returns the parsed
 * result or the error it throws.
 */
module Evaluation {
  import opened Wrappers
  import opened Text

  datatype Speaker = User | Agent

  /** One transcript entry; the timestamp is `Date` in milliseconds. */
  datatype TranscriptMessage = TranscriptMessage(speaker: Speaker, text: string, timestamp: int)

  datatype ConversationTranscript = ConversationTranscript(
    messages: seq<TranscriptMessage>,
    context: string,
    duration: string)

  /** The scored feedback the completion is expected to hold. */
  datatype EvaluationResult = EvaluationResult(
    score: int,
    feedback: string,
    strengths: seq<string>,
    improvements: seq<string>)

  /** The score range the prompt asks for; nothing in the client enforces it. */
  predicate WellFormed(e: EvaluationResult) {
    1 <= e.score <= 10
  }

  /** What the `fetch` exchange produced: a failure of the request itself, or a completion
      whose text `JSON.parse` either accepted (with the value it built) or rejected. */
  datatype BackendOutcome = RequestFailed | Completed(parsed: Option<EvaluationResult>)

  datatype EvaluationError = MissingApiKey | TransportError | ParseError {
    /** The message of the `Error` the client throws (a transport error carries the runtime's own). */
    function Message(): (msg: string)
      ensures msg == "" <==> TransportError?
    {
      match this
      case MissingApiKey => "OpenAI API key is not set"
      case TransportError => ""
      case ParseError => "Failed to parse evaluation response"
    }
  }

  /** The POST request sent to the chat-completion endpoint; temperature 0.7 is kept as tenths. */
  datatype ChatRequest = ChatRequest(
    endpoint: string,
    authorization: string,
    model: string,
    systemContent: string,
    userContent: string,
    temperatureTenths: int)

  /** The request the client made, if any, and what it returned or threw. */
  datatype EvaluationCall = EvaluationCall(
    request: Option<ChatRequest>,
    result: Result<EvaluationResult, EvaluationError>)

  const Endpoint := "https://api.openai.com/v1/chat/completions"
  const Model := "gpt-4"
  const SystemContent := "You are an expert communication coach. Analyze conversation transcripts and provide detailed feedback on communication skills."
  const TemperatureTenths := 7

  const PromptPreamble := "\nYou are an expert communication and leadership coach. Please evaluate this conversation transcript and provide detailed feedback for the leader. You are given a scenario description of the conversation and a transcript of the conversation - evaluate how well the leader is performaing relative to the stated goal of the conversation.\n\n"
  const ScenarioHeading := "SCENARIO DESCRIPTION:\n"
  const TranscriptHeading := "\n\nTRANSCRIPT:\n"
  const PromptRequest := "\n\nPlease provide:\n1. Overall score (1-10)\n2. Detailed feedback on communication skills\n3. 3-5 specific strengths demonstrated\n4. 3-5 areas for improvement\n5. Specific suggestions for better conversation management\n\nFormat your response as JSON:\n{\n  \"score\": number,\n  \"feedback\": \"detailed feedback text\",\n  \"strengths\": [\"strength1\", \"strength2\", \"strength3\"],\n  \"improvements\": [\"improvement1\", \"improvement2\", \"improvement3\"]\n}\n"

  function SpeakerLabel(s: Speaker): string {
    if s == User then "You" else "Agent"
  }

  /** One transcript line, `"<label>: <text>"`. */
  function RenderLine(m: TranscriptMessage): (line: string)
    ensures line != ""
    ensures '\n' !in line <==> '\n' !in m.text
  {
    var tag := SpeakerLabel(m.speaker);
    assert '\n' !in tag + ": ";
    tag + ": " + m.text
  }

  function RenderLines(msgs: seq<TranscriptMessage>): seq<string> {
    seq(|msgs|, i requires 0 <= i < |msgs| => RenderLine(msgs[i]))
  }

  /** The transcript block of the prompt: one rendered line per message, joined by newlines. */
  function RenderTranscript(msgs: seq<TranscriptMessage>): (block: string)
    ensures block == "" <==> msgs == []
  {
    JoinLines(RenderLines(msgs))
  }

  /** The user prompt: the coaching instructions, the scenario, the transcript and the JSON request. */
  function BuildPrompt(scenarioDescription: string, transcript: ConversationTranscript): string {
    PromptPreamble + ScenarioHeading + scenarioDescription + TranscriptHeading
      + RenderTranscript(transcript.messages) + PromptRequest
  }

  /** `!apiKey` is false: the key is defined and not the empty string. */
  predicate HasApiKey(apiKey: Option<string>) {
    apiKey.Some? && apiKey.value != ""
  }

  /**
   * `evaluateWithOpenAI`: a missing key throws before any request is made;
   * otherwise one request carrying the built prompt is made, and the result is
   * the parsed completion or the error thrown while getting or parsing it.
   */
  function EvaluateWithOpenAI(
    apiKey: Option<string>,
    transcript: ConversationTranscript,
    scenarioDescription: string,
    backend: BackendOutcome): (r: EvaluationCall)
    ensures r.request.None? <==> !HasApiKey(apiKey)
    ensures !HasApiKey(apiKey) ==> r.result == Failure(MissingApiKey)
    ensures r.request.Some? ==>
      r.request.value.userContent == BuildPrompt(scenarioDescription, transcript) &&
      r.request.value.authorization == "Bearer " + apiKey.value &&
      r.request.value.model == Model && r.request.value.temperatureTenths == 7 &&
      r.request.value.endpoint == Endpoint && r.request.value.systemContent == SystemContent
    ensures r.result.Success? <==> HasApiKey(apiKey) && backend.Completed? && backend.parsed.Some?
    ensures r.result.Success? ==> r.result.value == backend.parsed.value
    ensures HasApiKey(apiKey) && backend == RequestFailed ==> r.result == Failure(TransportError)
    ensures HasApiKey(apiKey) && backend == Completed(None) ==> r.result == Failure(ParseError)
  {
    if !HasApiKey(apiKey) then
      EvaluationCall(None, Failure(MissingApiKey))
    else
      var request := ChatRequest(Endpoint, "Bearer " + apiKey.value, Model, SystemContent,
                                 BuildPrompt(scenarioDescription, transcript), TemperatureTenths);
      var result := match backend
        case RequestFailed => Failure(TransportError)
        case Completed(None) => Failure(ParseError)
        case Completed(Some(e)) => Success(e);
      EvaluationCall(Some(request), result)
  }

  /** `evaluateConversation`: delegates to `evaluateWithOpenAI` with the same two arguments. */
  function EvaluateConversation(
    apiKey: Option<string>,
    transcript: ConversationTranscript,
    scenarioDescription: string,
    backend: BackendOutcome): (r: EvaluationCall)
    ensures r == EvaluateWithOpenAI(apiKey, transcript, scenarioDescription, backend)
  {
    EvaluateWithOpenAI(apiKey, transcript, scenarioDescription, backend)
  }

  // ---------------------------------------------------------------------------
  // Reading a rendered transcript back

  /** A speaker-attributed utterance as it appears in the prompt (timestamps are not rendered). */
  datatype Turn = Turn(speaker: Speaker, text: string)

  function Turns(msgs: seq<TranscriptMessage>): seq<Turn> {
    seq(|msgs|, i requires 0 <= i < |msgs| => Turn(msgs[i].speaker, msgs[i].text))
  }

  /** Recognises a `You: ` or `Agent: ` line. */
  function ParseLine(line: string): Option<Turn> {
    if |line| >= 5 && line[..5] == "You: " then Some(Turn(User, line[5..]))
    else if |line| >= 7 && line[..7] == "Agent: " then Some(Turn(Agent, line[7..]))
    else None
  }

  function ParseLines(lines: seq<string>): Option<seq<Turn>> {
    if |lines| == 0 then Some([])
    else match (ParseLine(lines[0]), ParseLines(lines[1..]))
      case (Some(t), Some(ts)) => Some([t] + ts)
      case _ => None
  }

  /** Splits the transcript block on newlines and reads each line back. */
  function ParseTranscript(block: string): Option<seq<Turn>> {
    ParseLines(SplitLines(block))
  }

  /** The label of a rendered line identifies the speaker: `You` only for the user, `Agent` only for the agent. */
  lemma ParseRenderLine(m: TranscriptMessage)
    ensures ParseLine(RenderLine(m)) == Some(Turn(m.speaker, m.text))
    ensures var line := RenderLine(m);
            (|line| >= 5 && line[..5] == "You: ") <==> m.speaker == User
    ensures var line := RenderLine(m);
            (|line| >= 7 && line[..7] == "Agent: ") <==> m.speaker == Agent
  {
    var line := RenderLine(m);
    if m.speaker == User {
      assert line == "You: " + m.text;
      assert line[..5] == "You: ";
      assert line[5..] == m.text;
    } else {
      assert line == "Agent: " + m.text;
      assert line[..5] != "You: " by { assert line[0] == 'A'; }
      assert line[..7] == "Agent: ";
      assert line[7..] == m.text;
    }
  }

  lemma {:induction false} ParseRenderedLines(msgs: seq<TranscriptMessage>)
    ensures ParseLines(RenderLines(msgs)) == Some(Turns(msgs))
  {
    var lines := RenderLines(msgs);
    if |msgs| == 0 {
      assert lines == [];
      assert Turns(msgs) == [];
    } else {
      ParseRenderLine(msgs[0]);
      ParseRenderedLines(msgs[1..]);
      assert lines[0] == RenderLine(msgs[0]);
      assert lines[1..] == RenderLines(msgs[1..]);
      assert Turns(msgs) == [Turn(msgs[0].speaker, msgs[0].text)] + Turns(msgs[1..]);
    }
  }

  predicate NoNewlines(msgs: seq<TranscriptMessage>) {
    forall i :: 0 <= i < |msgs| ==> '\n' !in msgs[i].text
  }

  /**
   * Round trip: when no message text contains a newline, splitting the rendered
   * block on newlines and reading each line recovers the speakers and texts in order.
   */
  lemma RenderRoundTrip(msgs: seq<TranscriptMessage>)
    requires |msgs| > 0
    requires NoNewlines(msgs)
    ensures ParseTranscript(RenderTranscript(msgs)) == Some(Turns(msgs))
  {
    var lines := RenderLines(msgs);
    forall i | 0 <= i < |lines| ensures '\n' !in lines[i] {
      assert lines[i] == SpeakerLabel(msgs[i].speaker) + ": " + msgs[i].text;
    }
    SplitJoin(lines);
    ParseRenderedLines(msgs);
  }

  /** The newline condition matters: a message text with a line break (as agent replies have) does not read back. */
  lemma NewlineBreaksRoundTrip()
    ensures var msgs := [TranscriptMessage(Agent, "\n" + "Uh... hi.", 0)];
            ParseTranscript(RenderTranscript(msgs)) == None
  {
    var second := "Uh... hi.";
    var msgs := [TranscriptMessage(Agent, "\n" + second, 0)];
    assert RenderLines(msgs) == [RenderLine(msgs[0])];
    assert RenderLine(msgs[0]) == "Agent: " + "\n" + second;
    assert RenderTranscript(msgs) == JoinLines(["Agent: ", second]);
    SplitJoin(["Agent: ", second]);
    assert ParseLine(second) == None by {
      assert second[0] == 'U';
      assert |second| >= 5 ==> second[..5][0] == 'U';
      assert |second| >= 7 ==> second[..7][0] == 'U';
    }
    assert ["Agent: ", second][1..] == [second];
    assert ParseLines([second]) == None;
    assert SplitLines(RenderTranscript(msgs)) == ["Agent: ", second];
    assert ParseLines(["Agent: ", second]) == None;
  }

  /**
   * The prompt carries the scenario verbatim under its heading, followed by the
   * rendered transcript under its heading, between the fixed instructions.
   */
  lemma PromptLayout(scenarioDescription: string, transcript: ConversationTranscript)
    ensures var p := BuildPrompt(scenarioDescription, transcript);
            var a := |PromptPreamble| + |ScenarioHeading|;
            var b := a + |scenarioDescription| + |TranscriptHeading|;
            var block := RenderTranscript(transcript.messages);
            |p| == b + |block| + |PromptRequest| &&
            p[..|PromptPreamble|] == PromptPreamble &&
            p[|PromptPreamble|..a] == ScenarioHeading &&
            p[a..a + |scenarioDescription|] == scenarioDescription &&
            p[a + |scenarioDescription|..b] == TranscriptHeading &&
            p[b..b + |block|] == block &&
            p[b + |block|..] == PromptRequest
  {
    ConcatLayout(PromptPreamble, ScenarioHeading, scenarioDescription, TranscriptHeading,
                 RenderTranscript(transcript.messages), PromptRequest);
  }

  lemma ConcatLayout(a: string, b: string, c: string, d: string, e: string, f: string)
    ensures var p := a + b + c + d + e + f;
            var i := |a| + |b|;
            var j := i + |c| + |d|;
            |p| == j + |e| + |f| &&
            p[..|a|] == a && p[|a|..i] == b && p[i..i + |c|] == c &&
            p[i + |c|..j] == d && p[j..j + |e|] == e && p[j + |e|..] == f
  {
  }

  /**
   * Only the messages' speakers and texts reach the prompt: the transcript's
   * context, duration and timestamps do not.
   */
  lemma PromptDependsOnlyOnTurns(sd: string, t1: ConversationTranscript, t2: ConversationTranscript)
    requires Turns(t1.messages) == Turns(t2.messages)
    ensures BuildPrompt(sd, t1) == BuildPrompt(sd, t2)
  {
    var m1, m2 := t1.messages, t2.messages;
    assert |m1| == |Turns(m1)| == |m2|;
    forall i | 0 <= i < |m1| ensures RenderLines(m1)[i] == RenderLines(m2)[i] {
      assert Turns(m1)[i] == Turns(m2)[i];
    }
    assert RenderLines(m1) == RenderLines(m2);
  }

  /** Different scenarios give different prompts for the same transcript. */
  lemma PromptDeterminesScenario(s1: string, s2: string, t: ConversationTranscript)
    requires BuildPrompt(s1, t) == BuildPrompt(s2, t)
    ensures s1 == s2
  {
    PromptLayout(s1, t);
    PromptLayout(s2, t);
  }
}
