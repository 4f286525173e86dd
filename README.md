# Luxembourg Airport skill: a Dafny model

This project models the request handling of a voice-assistant skill that reads
out the Luxembourg airport departure and arrival boards. It covers:

- the response envelope;
- the SSML helpers;
- the sentence spoken for one flight;
- the departures and arrivals handlers (city filter, header, first five flights);
- the routing of incoming requests.

Everything is modelled after `lambda_function.py`.

Modules, one per file:

- `Outcomes` (outcomes.dfy): `Option`, `Result`, and the `Error` kinds. The
  code's `ValueError`s and `KeyError`s become the errors `InvalidApplicationId`,
  `InvalidIntent` and `MissingKey`.
- `Text` (text.dfy): ASCII lower-casing, Python's substring test `a in b`, and
  `str(n)` for natural numbers, with a parser used to state that `str(n)` loses
  nothing.
- `Responses` (responses.dfy): `build_speechlet_response`, `build_response`, and
  the fixed welcome and farewell envelopes.
- `Speech` (speech.dfy): `spellOut`, `pause`, the flight record, the four status
  branches, and `alexaifyFlight` as a method that builds the text by reassignment.
  The method is proved equal to the function `Description`.
- `Flights` (flights.dfy): `getDepartures` and `getArrivals` as one method
  `GetFlights` over a `Direction`. The city filter is the loop `FilterByCity`, proved
  equal to the function `CityFilter`. The `for flight in data[:5]` loop is
  `AppendFlights`, proved to append the concatenated segments of the flights shown.
  `GetFlights` is proved equal to the function `FlightsResponse`. The properties are
  lemmas about these functions.
- `Router` (router.dfy): `on_intent` and `lambda_handler` as functions over the
  handlers' specification functions.

Inputs that the code takes from outside the program are parameters here:

- The schedule the handlers fetch over HTTP is passed in. `GetFlights` takes it as
  `data`; the router takes it as `Feeds`.
- `alexaifyEpoch` is the parameter `fmt: int -> string`. It renders an epoch as
  local `HH:MM`.

The wording follows the code character for character. With no city slot,
`cityOutput` is empty, so the code's headers carry a doubled or trailing space:
"The only upcoming departure  is ", "There are no upcoming departures ".
`Router.SingleDelayedDeparture` shows this on a concrete request.

## Model

| member | source | states |
|---|---|---|
| Responses.BuildSpeechletResponse | lambda_function.py:17-24 | the speech is SSML and its `<speak>` root holds exactly the output text; `shouldEndSession` is passed through |
| Responses.SpeechletIgnoresTitleAndReprompt | lambda_function.py:17-24 | title and reprompt text never reach the response |
| Responses.SpeechletInjective | lambda_function.py:17-24 | two speechlets are equal only if they carry the same output text and session flag |
| Responses.BuildResponse | lambda_function.py:27-32 | the envelope's version is always "1.0" and it carries the given attributes and speechlet |
| Responses.WelcomeResponse | lambda_function.py:37-45 | the greeting envelope says the welcome text, has no attributes and ends the session |
| Responses.SessionEndResponse | lambda_function.py:48-56 | the farewell envelope says the thank-you text, has no attributes and ends the session |
| Speech.SpellOut | lambda_function.py:59-60 | the result is the spell-out `say-as` element whose content is exactly the input |
| Speech.Pause | lambda_function.py:62-63 | the result is a `break` element whose time attribute holds exactly `str(seconds)` followed by "s" |
| Speech.PauseOneSecond | lambda_function.py:62-63 | `pause(1)` is `<break time="1s"/>` |
| Speech.Classify | lambda_function.py:76-85 | the four status branches are exhaustive and exclusive: "Cancelled"; "Delayed" with a real epoch; "Delayed" with the "null" sentinel; any other status |
| Speech.AlexaifyFlight | lambda_function.py:70-88 | building the text by successive reassignment yields exactly the flight's description |
| Speech.Description | lambda_function.py:70-88 | a description starts with airline, " flight ", the spelled-out number, " to "/" from " and the destination, and ends with "." |
| Speech.StatusWording | lambda_function.py:76-86 | after the preamble, each branch's clause word for word: " has been cancelled.", " is delayed.", " is delayed until <time>.", " is on time." |
| Speech.OnlyKnownDelayMentionsTime | lambda_function.py:76-86 | outside the delayed-with-known-time branch the clause does not depend on the clock and contains no " until " |
| Speech.KnownDelayMentionsTime | lambda_function.py:81-82 | a delay with a known real time is spoken as " is delayed until " + the formatted real time + "." |
| Text.LowerChar | lambda_function.py:103 | ASCII capitals are shifted to lower case and all other characters are kept; no capital remains |
| Text.Lower | lambda_function.py:103 | `lower()` keeps the length and lower-cases each character in place |
| Text.LowerIdempotent | lambda_function.py:103 | lower-casing twice is lower-casing once |
| Text.Contains | lambda_function.py:103 | a needle that is a prefix of the haystack is contained in it, and a contained needle is no longer than the haystack |
| Text.ContainsIff | lambda_function.py:103 | the substring test holds exactly when the needle occurs at some position of the haystack |
| Text.NatToString | lambda_function.py:110 | `str(n)` is a non-empty string of decimal digits; it starts with '0' only for n = 0, and then it is the single digit "0" |
| Text.NatToStringRoundTrip | lambda_function.py:110 | the digits of `str(n)` read back as n |
| Flights.CitySlot | lambda_function.py:101-102 | no city when the intent has no slots or no "city" slot; a missing-key error exactly when the city slot has no value; otherwise the slot's value itself |
| Flights.FilterByCity | lambda_function.py:103 | the filtering loop computes exactly the city filter of the fetched list |
| Flights.CityFilterMembers | lambda_function.py:103 | a record survives exactly when it is in the list and its lower-cased destination contains the lower-cased city |
| Flights.CityFilterAppend | lambda_function.py:103 | filtering distributes over concatenation, so survivors keep their relative order |
| Flights.CityFilterSingle | lambda_function.py:103 | a single record survives exactly when it matches |
| Flights.CityFilter | lambda_function.py:103 | the filter never adds records: every survivor is a record of the list whose destination matches the city |
| Flights.EmptyCityKeepsAll | lambda_function.py:103 | an empty city value keeps every record |
| Flights.MatchesIgnoresCase | lambda_function.py:103 | the match is unchanged when either the city or the destination is lower-cased first |
| Flights.CityFilterIgnoresCase | lambda_function.py:103 | lower-casing the slot value does not change what is kept |
| Flights.Header | lambda_function.py:105-110 | no flights: "There are no upcoming departures/arrivals " then the city output; one flight: the city output between "The only upcoming departure/arrival " and " is " + pause; n >= 2: `str(min(n, 5))` between "The next " and the plural noun, city output and " are " + pause |
| Flights.AppendFlights | lambda_function.py:112-113 | the loop appends, in order, one description followed by `pause(1)` for each flight shown |
| Flights.GetFlights | lambda_function.py:91-144 | the handler for either direction returns exactly the specified response for the intent and the fetched list |
| Flights.SegmentsInOrder | lambda_function.py:112-113 | min(n, 5) segments are read out, never more than 5; the i-th is the description of the i-th selected flight followed by `pause(1)` |
| Flights.SpeechWhenNone | lambda_function.py:105-106 | with no flights the speech is only "There are no upcoming departures/arrivals " + cityOutput |
| Flights.SpeechWhenOne | lambda_function.py:107-108 | with one flight the speech is "The only upcoming departure/arrival " + cityOutput + " is " + pause + that flight's description + pause |
| Flights.SpeechWhenMany | lambda_function.py:109-110 | with n >= 2 the header announces k = min(n, 5), k reads back from the text, and exactly k segments follow |
| Flights.FlightsResponse | lambda_function.py:91-144 | the handler fails exactly when the city slot has no value, with the missing-key error; every envelope it returns ends the session with no attributes |
| Flights.FlightsResponseContract | lambda_function.py:91-144 | a successful envelope says the speech for the selected flights; without a city slot nothing is filtered |
| Router.OnIntent | lambda_function.py:167-186 | every envelope ends the session with no attributes; "Invalid intent" exactly when the name is not one of the seven known intents; otherwise the only error is a city slot without a value |
| Router.IntentRouting | lambda_function.py:177-184 | departure intents go to the departures handler, arrival intents to the arrivals handler, help to the welcome, cancel/stop to the farewell |
| Router.ForeignCallerRejected | lambda_function.py:208-209 | a foreign application id is rejected whatever the request and whatever the feeds, so no handler runs |
| Router.LambdaHandler | lambda_function.py:201-220 | a foreign application id is rejected; every envelope returned has version "1.0", no attributes, SSML speech and shouldEndSession true; the only errors are the foreign caller, an invalid intent, and a missing intent or slot value |
| Router.RequestTypeRouting | lambda_function.py:214-220 | for the skill's own caller: a launch gets the welcome; an intent request returns on_intent's envelope or its error, and a missing intent is a missing-key error; any other request type gets no payload |
| Router.SingleDelayedDeparture | lambda_function.py:91-116 | one delayed departure with a "null" real time, no city: "The only upcoming departure  is " + pause, then the description ending " is delayed.", then a pause |

## Left out

- The HTTP fetches and JSON decoding of the two boards (lambda_function.py:97-98, 125-126) are network I/O. The fetched lists are parameters, so fetch failures are not modelled.
- `alexaifyEpoch` (lambda_function.py:66-67) depends on the host clock and time zone. It is the parameter `fmt`.
- The `print` logging and `on_session_started` (lambda_function.py:149-153, 161-162, 170-171, 194-195, 205-206, 211-213) are side effects with no bearing on the result. `Event.isNew` is carried but unused. The `KeyError`s those logging lines could raise (`requestId`, `sessionId`) are not modelled.
- `on_session_ended` and any request type other than the three known ones return `None`. Both are the `Ok(None)` result.
- Text.Lower: ASCII letters only, not Python's full Unicode `str.lower()`.
- The flight record's `real` field is either the string "null" or an epoch. A JSON `null` (Python `None`) is not modelled. The code compares `real` with the string 'null' only, so a `None` would take the "until" branch with the current time.
- Speech.Pause: takes a natural number of seconds. The code only ever calls `pause(1)`.
- Session attributes are a string-to-string map: the skill only ever sends the empty dictionary.
- The `__main__` demonstration block (lambda_function.py:223-230).
