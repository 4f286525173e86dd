/** `on_intent` and `lambda_handler`: the caller check and the dispatch on
    request type and intent name. The two schedule feeds the handlers would
    fetch are passed in as `Feeds`. */
module Router {
  import opened Outcomes
  import opened Responses
  import opened Speech
  import opened Flights

  /** The only application allowed to call the skill. */
  const SkillApplicationId := "amzn1.ask.skill.6b1940e0-a71e-4961-80a1-18884696fd5d"

  /** The request part of an event: its type and, for an intent request, the intent. */
  datatype Request = Request(kind: string, intent: Option<Intent>)

  /** An incoming event: the caller's application id, whether the session is new, the request. */
  datatype Event = Event(applicationId: string, isNew: bool, request: Request)

  /** The fetched departure and arrival boards. */
  datatype Feeds = Feeds(departures: seq<Flight>, arrivals: seq<Flight>)

  predicate IsDeparturesIntent(name: string) {
    name == "GetDepartures" || name == "GetDeparturesToCity"
  }

  predicate IsArrivalsIntent(name: string) {
    name == "GetArrivals" || name == "GetArrivalsFromCity"
  }

  predicate IsStopIntent(name: string) {
    name == "AMAZON.CancelIntent" || name == "AMAZON.StopIntent"
  }

  /** The intent names the skill answers. */
  predicate IsKnownIntent(name: string) {
    IsDeparturesIntent(name) || IsArrivalsIntent(name) || name == "AMAZON.HelpIntent" || IsStopIntent(name)
  }

  /** `on_intent`: dispatch on the intent name. Every envelope it returns closes
      the session; it rejects exactly the names the skill does not know, and
      otherwise can only fail on a city slot without a value. */
  function OnIntent(intent: Intent, feeds: Feeds, fmt: int -> string): (r: Result<Envelope>)
    ensures r.Ok? ==> EndsSession(r.value)
    ensures r == Err(InvalidIntent) <==> !IsKnownIntent(intent.name)
    ensures r.Err? ==> r.error == InvalidIntent || r.error == MissingKey("value")
  {
    var name := intent.name;
    if IsDeparturesIntent(name) then FlightsResponse(intent, feeds.departures, Departure, fmt)
    else if IsArrivalsIntent(name) then FlightsResponse(intent, feeds.arrivals, Arrival, fmt)
    else if name == "AMAZON.HelpIntent" then Ok(WelcomeResponse())
    else if IsStopIntent(name) then Ok(SessionEndResponse())
    else Err(InvalidIntent)
  }

  /** `lambda_handler`: reject a foreign caller, then dispatch on the request type.
      `Ok(None)` is the absent payload of a session-ended or unrecognised request.
      Every envelope it returns closes the session. */
  function LambdaHandler(event: Event, feeds: Feeds, fmt: int -> string): (r: Result<Option<Envelope>>)
    ensures event.applicationId != SkillApplicationId ==> r == Err(InvalidApplicationId)
    ensures r.Ok? && r.value.Some? ==> EndsSession(r.value.value)
    ensures r.Err? ==> r.error == InvalidApplicationId || r.error == InvalidIntent
                       || r.error == MissingKey("intent") || r.error == MissingKey("value")
  {
    if event.applicationId != SkillApplicationId then Err(InvalidApplicationId)
    else if event.request.kind == "LaunchRequest" then Ok(Some(WelcomeResponse()))
    else if event.request.kind == "IntentRequest" then
      match event.request.intent
      case None => Err(MissingKey("intent"))
      case Some(intent) =>
        match OnIntent(intent, feeds, fmt)
        case Ok(envelope) => Ok(Some(envelope))
        case Err(e) => Err(e)
    else Ok(None)
  }

  /** Each known intent goes to its handler over the matching feed. */
  lemma IntentRouting(intent: Intent, feeds: Feeds, fmt: int -> string)
    ensures IsDeparturesIntent(intent.name) ==> OnIntent(intent, feeds, fmt) == FlightsResponse(intent, feeds.departures, Departure, fmt)
    ensures IsArrivalsIntent(intent.name) ==> OnIntent(intent, feeds, fmt) == FlightsResponse(intent, feeds.arrivals, Arrival, fmt)
    ensures intent.name == "AMAZON.HelpIntent" ==> OnIntent(intent, feeds, fmt) == Ok(WelcomeResponse())
    ensures IsStopIntent(intent.name) ==> OnIntent(intent, feeds, fmt) == Ok(SessionEndResponse())
  {
  }

  /** A foreign application id is rejected before any dispatch: the outcome is
      the same whatever the feeds and whatever the request. */
  lemma ForeignCallerRejected(event: Event, feeds1: Feeds, feeds2: Feeds, fmt: int -> string, request: Request)
    requires event.applicationId != SkillApplicationId
    ensures LambdaHandler(event, feeds1, fmt) == Err(InvalidApplicationId)
    ensures LambdaHandler(event, feeds1, fmt) == LambdaHandler(event.(request := request), feeds2, fmt)
  {
  }

  /** For the skill's own caller: a launch is answered with the welcome; an
      intent request returns what `on_intent` returns, success or error, and
      fails on a missing intent; every other request type gets no payload. */
  lemma RequestTypeRouting(event: Event, feeds: Feeds, fmt: int -> string)
    requires event.applicationId == SkillApplicationId
    ensures event.request.kind == "LaunchRequest" ==> LambdaHandler(event, feeds, fmt) == Ok(Some(WelcomeResponse()))
    ensures event.request.kind == "IntentRequest" && event.request.intent.Some?
            && OnIntent(event.request.intent.value, feeds, fmt).Ok? ==>
      LambdaHandler(event, feeds, fmt) == Ok(Some(OnIntent(event.request.intent.value, feeds, fmt).value))
    ensures event.request.kind == "IntentRequest" && event.request.intent.Some?
            && OnIntent(event.request.intent.value, feeds, fmt).Err? ==>
      LambdaHandler(event, feeds, fmt) == Err(OnIntent(event.request.intent.value, feeds, fmt).error)
    ensures event.request.kind == "IntentRequest" && event.request.intent.None? ==>
      LambdaHandler(event, feeds, fmt) == Err(MissingKey("intent"))
    ensures event.request.kind != "LaunchRequest" && event.request.kind != "IntentRequest" ==>
      LambdaHandler(event, feeds, fmt) == Ok(None)
  {
  }

  /** A worked request: one delayed departure whose real time is the "null"
      sentinel, asked for without a city. The header keeps the code's double
      space where the empty city output stands, and no "until" time is spoken. */
  lemma SingleDelayedDeparture(fmt: int -> string)
    ensures var flight := Flight("Cargolux", "CV7933", "Paris", 1700000000, NullSentinel, "Delayed");
      var event := Event(SkillApplicationId, true, Request("IntentRequest", Some(Intent("GetDepartures", None))));
      var r := LambdaHandler(event, Feeds([flight], []), fmt);
      r.Ok? && r.value.Some?
      && Said(r.value.value) == Some("The only upcoming departure  is " + Pause(1)
                                     + Description(flight, Departure, fmt) + Pause(1))
      && Description(flight, Departure, fmt) == Preamble(flight, Departure, fmt) + " is delayed."
  {
    var flight := Flight("Cargolux", "CV7933", "Paris", 1700000000, NullSentinel, "Delayed");
    var intent := Intent("GetDepartures", None);
    var event := Event(SkillApplicationId, true, Request("IntentRequest", Some(intent)));
    var feeds := Feeds([flight], []);
    var speech := SpeechText([flight], None, Departure, fmt);
    SpeechWhenOne([flight], None, Departure, fmt);
    OneDepartureHeader();
    StatusWording(flight, Departure, fmt);
    FlightsResponseContract(intent, [flight], Departure, fmt);
    IntentRouting(intent, feeds, fmt);
    RequestTypeRouting(event, feeds, fmt);
    assert Said(OnIntent(intent, feeds, fmt).value) == Some(speech);
  }

  /** The one-departure header without a city, with the literals joined. */
  lemma OneDepartureHeader()
    ensures "The only upcoming " + Noun(Departure) + " " + CityOutput(Departure, None) + " is "
            == "The only upcoming departure  is "
  {
    assert "The only upcoming " + "departure" + " " + "" + " is " == "The only upcoming departure  is ";
  }
}
