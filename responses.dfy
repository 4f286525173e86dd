/** The response envelope the voice platform expects, and the two fixed
    responses (welcome and farewell). */
module Responses {
  import opened Outcomes
  import opened Text

  datatype OutputSpeech = OutputSpeech(kind: string, ssml: string)

  datatype SpeechletResponse = SpeechletResponse(outputSpeech: OutputSpeech, shouldEndSession: bool)

  /** Session attributes are a dictionary; the skill only ever sends an empty one. */
  datatype Envelope = Envelope(version: string, sessionAttributes: map<string, string>, response: SpeechletResponse)

  const SpeakOpen := "<speak>"
  const SpeakClose := "</speak>"

  /** The text inside an SSML `<speak>` root, or `None` when `ssml` is not so wrapped. */
  function SpokenText(ssml: string): (r: Option<string>)
    ensures r.Some? ==> SpeakOpen + r.value + SpeakClose == ssml
  {
    Unwrap(SpeakOpen, SpeakClose, ssml)
  }

  /** `build_speechlet_response`: the output text becomes SSML inside `<speak>`;
      the title and reprompt are accepted and dropped. */
  function BuildSpeechletResponse(title: string, output: string, repromptText: Option<string>,
                                  shouldEndSession: bool): (r: SpeechletResponse)
    ensures r.outputSpeech.kind == "SSML"
    ensures SpokenText(r.outputSpeech.ssml) == Some(output)
    ensures r.shouldEndSession == shouldEndSession
  {
    WrapUnwrap(SpeakOpen, output, SpeakClose);
    SpeechletResponse(OutputSpeech("SSML", SpeakOpen + output + SpeakClose), shouldEndSession)
  }

  /** Neither the title nor the reprompt text reaches the response. */
  lemma SpeechletIgnoresTitleAndReprompt(t1: string, t2: string, output: string,
                                         p1: Option<string>, p2: Option<string>, end: bool)
    ensures BuildSpeechletResponse(t1, output, p1, end) == BuildSpeechletResponse(t2, output, p2, end)
  {
  }

  /** The SSML of a speechlet is exactly `'<speak>' + output + '</speak>'`, so two
      speechlets carry the same SSML only when they say the same thing. */
  lemma {:induction false} SpeechletInjective(t1: string, o1: string, t2: string, o2: string,
                                              p1: Option<string>, p2: Option<string>, e1: bool, e2: bool)
    requires BuildSpeechletResponse(t1, o1, p1, e1) == BuildSpeechletResponse(t2, o2, p2, e2)
    ensures o1 == o2 && e1 == e2
  {
    var r1 := BuildSpeechletResponse(t1, o1, p1, e1);
    assert SpokenText(r1.outputSpeech.ssml) == Some(o1);
  }

  /** `build_response`: the version is always "1.0". */
  function BuildResponse(sessionAttributes: map<string, string>, speechletResponse: SpeechletResponse): (r: Envelope)
    ensures r.version == "1.0"
    ensures r.sessionAttributes == sessionAttributes && r.response == speechletResponse
  {
    Envelope("1.0", sessionAttributes, speechletResponse)
  }

  /** Every envelope the skill produces: version "1.0", no session attributes,
      SSML speech and the session closed. */
  predicate EndsSession(e: Envelope) {
    e.version == "1.0" && e.sessionAttributes == map[]
    && e.response.outputSpeech.kind == "SSML" && e.response.shouldEndSession
  }

  /** What an envelope says, when it carries a `<speak>` document. */
  function Said(e: Envelope): (r: Option<string>)
    ensures r.Some? ==> e.response.outputSpeech.ssml == SpeakOpen + r.value + SpeakClose
  {
    SpokenText(e.response.outputSpeech.ssml)
  }

  const WelcomeText := "Welcome to the Luxembourg Airport Skill by David Gwynne"
  const FarewellText := "Thank you for trying the Luxembourg Airport skill. "

  /** `get_welcome_response`: the fixed greeting, closing the session. */
  function WelcomeResponse(): (r: Envelope)
    ensures EndsSession(r) && Said(r) == Some(WelcomeText)
  {
    BuildResponse(map[], BuildSpeechletResponse("Welcome", WelcomeText, None, true))
  }

  /** `handle_session_end_request`: the fixed farewell, closing the session. */
  function SessionEndResponse(): (r: Envelope)
    ensures EndsSession(r) && Said(r) == Some(FarewellText)
  {
    BuildResponse(map[], BuildSpeechletResponse("Session Ended", FarewellText, None, true))
  }
}
