/** `getDepartures` and `getArrivals`: one algorithm over a `Direction`.
    The fetched schedule is a parameter; the clock formatting is `fmt`. */
module Flights {
  import opened Outcomes
  import opened Text
  import opened Responses
  import opened Speech

  /** A slot of an intent; Alexa may send a slot without a value. */
  datatype Slot = Slot(value: Option<string>)

  /** An intent as the request carries it; `slots` may be absent altogether. */
  datatype Intent = Intent(name: string, slots: Option<map<string, Slot>>)

  /** At most this many flights are read out. */
  const MaxSpoken := 5

  function Min(a: int, b: int): (r: int)
    ensures r <= a && r <= b && (r == a || r == b)
  {
    if a <= b then a else b
  }

  /** The city slot: `None` when the intent has no slots or no "city" slot,
      an error when the slot is present without a value (a `KeyError`). */
  function CitySlot(intent: Intent): (r: Result<Option<string>>)
    ensures r.Err? <==> intent.slots.Some? && "city" in intent.slots.value
                        && intent.slots.value["city"].value.None?
    ensures r.Err? ==> r.error == MissingKey("value")
    ensures r == Ok(None) <==> intent.slots.None? || "city" !in intent.slots.value
    ensures intent.slots.Some? && "city" in intent.slots.value && intent.slots.value["city"].value.Some?
            ==> r == Ok(Some(intent.slots.value["city"].value.value))
  {
    match intent.slots
    case None => Ok(None)
    case Some(slots) =>
      if "city" !in slots then Ok(None)
      else match slots["city"].value
        case None => Err(MissingKey("value"))
        case Some(v) => Ok(Some(v))
  }

  /** Case-insensitive substring match of the city against a destination. */
  predicate Matches(city: string, destination: string) {
    Contains(Lower(city), Lower(destination))
  }

  /** The records whose destination matches the city, in their original order.
      Never longer than the list; every record kept is from the list and matches. */
  function CityFilter(data: seq<Flight>, city: string): (r: seq<Flight>)
    ensures |r| <= |data|
    ensures forall i :: 0 <= i < |r| ==> r[i] in data && Matches(city, r[i].destination)
    decreases |data|
  {
    if data == [] then []
    else
      var last := data[|data| - 1];
      CityFilter(data[..|data| - 1], city) + (if Matches(city, last.destination) then [last] else [])
  }

  /** The filtering comprehension, written as the loop it executes. */
  method FilterByCity(data: seq<Flight>, city: string) returns (kept: seq<Flight>)
    ensures kept == CityFilter(data, city)
  {
    kept := [];
    var i := 0;
    while i < |data|
      invariant 0 <= i <= |data|
      invariant kept == CityFilter(data[..i], city)
    {
      assert data[..i + 1][..i] == data[..i];
      if Contains(Lower(city), Lower(data[i].destination)) {
        kept := kept + [data[i]];
      }
      i := i + 1;
    }
    assert data[..i] == data;
  }

  /** The flight-list phrases, singular and plural. */
  function Noun(dir: Direction): (r: string) {
    match dir
    case Departure => "departure"
    case Arrival => "arrival"
  }

  function Nouns(dir: Direction): (r: string) {
    Noun(dir) + "s"
  }

  /** `cityOutput`: "to <city>" or "from <city>", or nothing without a city slot. */
  function CityOutput(dir: Direction, city: Option<string>): (r: string) {
    match city
    case None => ""
    case Some(c) => (match dir case Departure => "to " case Arrival => "from ") + c
  }

  /** The opening words, chosen by the number n of flights found: the city
      output stands inside the "no upcoming" and "only upcoming" forms, and for
      two or more the number announced is min(n, 5). */
  function Header(n: nat, dir: Direction, cityOutput: string): (r: string)
    ensures n == 0 ==> Unwrap("There are no upcoming " + Nouns(dir) + " ", "", r) == Some(cityOutput)
    ensures n == 1 ==> Unwrap("The only upcoming " + Noun(dir) + " ", " is " + Pause(1), r) == Some(cityOutput)
    ensures n >= 2 ==> Unwrap("The next ", " scheduled " + Nouns(dir) + " " + cityOutput + " are " + Pause(1), r)
                       == Some(NatToString(Min(n, MaxSpoken)))
  {
    if n == 0 then
      var open := "There are no upcoming " + Nouns(dir) + " ";
      WrapUnwrap(open, cityOutput, "");
      assert open + cityOutput + "" == open + cityOutput;
      "There are no upcoming " + Nouns(dir) + " " + cityOutput
    else if n == 1 then
      var open := "The only upcoming " + Noun(dir) + " ";
      WrapUnwrap(open, cityOutput, " is " + Pause(1));
      ConcatAssoc(open + cityOutput, " is ", Pause(1));
      "The only upcoming " + Noun(dir) + " " + cityOutput + " is " + Pause(1)
    else
      var lead := "The next " + NatToString(Min(n, MaxSpoken));
      var t1 := " scheduled " + Nouns(dir);
      var t2 := t1 + " ";
      var t3 := t2 + cityOutput;
      var t4 := t3 + " are ";
      ConcatAssoc(lead, " scheduled ", Nouns(dir));
      ConcatAssoc(lead, t1, " ");
      ConcatAssoc(lead, t2, cityOutput);
      ConcatAssoc(lead, t3, " are ");
      ConcatAssoc(lead, t4, Pause(1));
      WrapUnwrap("The next ", NatToString(Min(n, MaxSpoken)), t4 + Pause(1));
      "The next " + NatToString(Min(n, MaxSpoken)) + " scheduled " + Nouns(dir) + " " + cityOutput + " are " + Pause(1)
  }

  /** The spoken segment of each flight read out: its description and a pause. */
  function Segments(shown: seq<Flight>, dir: Direction, fmt: int -> string): (r: seq<string>) {
    seq(|shown|, i requires 0 <= i < |shown| => Description(shown[i], dir, fmt) + Pause(1))
  }

  function Concat(ss: seq<string>): (r: string)
    decreases |ss|
  {
    if ss == [] then "" else Concat(ss[..|ss| - 1]) + ss[|ss| - 1]
  }

  /** The flights considered: all of them, or those matching the city slot. */
  function Selection(data: seq<Flight>, city: Option<string>): (r: seq<Flight>) {
    match city
    case None => data
    case Some(c) => CityFilter(data, c)
  }

  /** The speech for a selection: the header, then the first five flights. */
  function SpeechText(selected: seq<Flight>, city: Option<string>, dir: Direction, fmt: int -> string): (r: string) {
    Header(|selected|, dir, CityOutput(dir, city))
    + Concat(Segments(selected[..Min(|selected|, MaxSpoken)], dir, fmt))
  }

  /** What the handler returns for an intent and a fetched schedule: an error
      only for a city slot without a value, otherwise an envelope that ends the
      session with no attributes. */
  function FlightsResponse(intent: Intent, data: seq<Flight>, dir: Direction, fmt: int -> string): (r: Result<Envelope>)
    ensures r.Err? <==> CitySlot(intent).Err?
    ensures r.Err? ==> r.error == MissingKey("value")
    ensures r.Ok? ==> EndsSession(r.value)
  {
    match CitySlot(intent)
    case Err(e) => Err(e)
    case Ok(city) =>
      Ok(BuildResponse(map[], BuildSpeechletResponse(
        intent.name, SpeechText(Selection(data, city), city, dir, fmt), None, true)))
  }

  /** The `for flight in data[:5]` loop: appends each flight's description and a pause. */
  method AppendFlights(speech0: string, shown: seq<Flight>, dir: Direction, fmt: int -> string)
    returns (speech: string)
    ensures speech == speech0 + Concat(Segments(shown, dir, fmt))
  {
    speech := speech0;
    ghost var segments := Segments(shown, dir, fmt);
    for i := 0 to |shown|
      invariant speech == speech0 + Concat(segments[..i])
    {
      var description := AlexaifyFlight(shown[i], dir, fmt);
      ConcatStep(segments, i);
      assert segments[i] == description + Pause(1);
      ConcatAssoc(speech0, Concat(segments[..i]), segments[i]);
      ConcatAssoc(speech, description, Pause(1));
      speech := speech + description + Pause(1);
    }
    assert segments[..|shown|] == segments;
  }

  /** Joining one more segment appends it. */
  lemma ConcatStep(ss: seq<string>, i: nat)
    requires i < |ss|
    ensures Concat(ss[..i + 1]) == Concat(ss[..i]) + ss[i]
  {
    assert ss[..i + 1][..i] == ss[..i];
  }

  /** `getDepartures` / `getArrivals` on an already fetched schedule `data`. */
  method GetFlights(intent: Intent, data: seq<Flight>, dir: Direction, fmt: int -> string)
    returns (r: Result<Envelope>)
    ensures r == FlightsResponse(intent, data, dir, fmt)
  {
    var selected := data;
    var cityOutput := "";
    if intent.slots.Some? && "city" in intent.slots.value {
      var slot := intent.slots.value["city"];
      if slot.value.None? {
        return Err(MissingKey("value"));
      }
      var city := slot.value.value;
      cityOutput := (if dir == Departure then "to " else "from ") + city;
      selected := FilterByCity(data, city);
    }
    ghost var city := CitySlot(intent).value;
    assert selected == Selection(data, city) && cityOutput == CityOutput(dir, city);

    var speech;
    if |selected| == 0 {
      speech := "There are no upcoming " + Nouns(dir) + " " + cityOutput;
    } else if |selected| == 1 {
      speech := "The only upcoming " + Noun(dir) + " " + cityOutput + " is " + Pause(1);
    } else {
      speech := "The next " + NatToString(Min(|selected|, MaxSpoken)) + " scheduled " + Nouns(dir) + " "
                + cityOutput + " are " + Pause(1);
    }
    assert speech == Header(|selected|, dir, cityOutput);
    speech := AppendFlights(speech, selected[..Min(|selected|, MaxSpoken)], dir, fmt);
    assert speech == SpeechText(selected, city, dir, fmt);
    r := Ok(BuildResponse(map[], BuildSpeechletResponse(intent.name, speech, None, true)));
  }

  // ----- the city filter -----

  /** The filter keeps exactly the records whose destination matches. */
  lemma {:induction false} CityFilterMembers(data: seq<Flight>, city: string, x: Flight)
    ensures x in CityFilter(data, city) <==> x in data && Matches(city, x.destination)
    decreases |data|
  {
    if data != [] {
      var init := data[..|data| - 1];
      CityFilterMembers(init, city, x);
      assert data == init + [data[|data| - 1]];
    }
  }

  /** Filtering a concatenation filters each part and keeps them in order, so
      surviving records keep their relative order. */
  lemma {:induction false} CityFilterAppend(a: seq<Flight>, b: seq<Flight>, city: string)
    ensures CityFilter(a + b, city) == CityFilter(a, city) + CityFilter(b, city)
    decreases |b|
  {
    if b == [] {
      assert a + b == a;
    } else {
      var last := b[|b| - 1];
      var init := b[..|b| - 1];
      assert (a + b)[..|a + b| - 1] == a + init;
      CityFilterAppend(a, init, city);
    }
  }

  /** One record survives exactly when it matches. */
  lemma CityFilterSingle(x: Flight, city: string)
    ensures CityFilter([x], city) == if Matches(city, x.destination) then [x] else []
  {
    assert [x][..0] == [];
  }

  /** An empty city value matches every destination, so nothing is dropped. */
  lemma {:induction false} EmptyCityKeepsAll(data: seq<Flight>)
    ensures CityFilter(data, "") == data
    decreases |data|
  {
    if data != [] {
      EmptyCityKeepsAll(data[..|data| - 1]);
      EmptyOccursEverywhere(Lower(data[|data| - 1].destination));
      assert Lower("") == "";
    }
  }

  /** The match ignores the case of the city and of the destination. */
  lemma MatchesIgnoresCase(city: string, destination: string)
    ensures Matches(Lower(city), destination) == Matches(city, destination)
    ensures Matches(city, Lower(destination)) == Matches(city, destination)
  {
    LowerIdempotent(city);
    LowerIdempotent(destination);
  }

  /** Lower-casing the slot value does not change what is kept. */
  lemma {:induction false} CityFilterIgnoresCase(data: seq<Flight>, city: string)
    ensures CityFilter(data, Lower(city)) == CityFilter(data, city)
    decreases |data|
  {
    if data != [] {
      CityFilterIgnoresCase(data[..|data| - 1], city);
      MatchesIgnoresCase(city, data[|data| - 1].destination);
    }
  }

  // ----- the speech -----

  /** The segments read out: one per flight among the first five, in list order. */
  lemma SegmentsInOrder(selected: seq<Flight>, dir: Direction, fmt: int -> string)
    ensures var segs := Segments(selected[..Min(|selected|, MaxSpoken)], dir, fmt);
      |segs| == Min(|selected|, MaxSpoken) && |segs| <= 5
      && (|selected| >= 5 ==> |segs| == 5)
      && forall i :: 0 <= i < |segs| ==> segs[i] == Description(selected[i], dir, fmt) + Pause(1)
  {
  }

  /** No flights: only the "no upcoming" sentence, nothing read out. */
  lemma SpeechWhenNone(selected: seq<Flight>, city: Option<string>, dir: Direction, fmt: int -> string)
    requires |selected| == 0
    ensures SpeechText(selected, city, dir, fmt)
            == "There are no upcoming " + Nouns(dir) + " " + CityOutput(dir, city)
  {
    assert Segments(selected[..0], dir, fmt) == [];
  }

  /** One flight: the "only upcoming" sentence and that flight's description. */
  lemma SpeechWhenOne(selected: seq<Flight>, city: Option<string>, dir: Direction, fmt: int -> string)
    requires |selected| == 1
    ensures SpeechText(selected, city, dir, fmt)
            == "The only upcoming " + Noun(dir) + " " + CityOutput(dir, city) + " is " + Pause(1)
               + Description(selected[0], dir, fmt) + Pause(1)
  {
    var segs := Segments(selected[..1], dir, fmt);
    var header := "The only upcoming " + Noun(dir) + " " + CityOutput(dir, city) + " is " + Pause(1);
    assert segs[..0] == [];
    assert Concat(segs) == Description(selected[0], dir, fmt) + Pause(1);
    assert Header(1, dir, CityOutput(dir, city)) == header;
    ConcatAssoc(header, Description(selected[0], dir, fmt), Pause(1));
  }

  /** Two or more flights: the header announces k = min(n, 5) flights, the number
      reads back as k, and exactly k segments follow. */
  lemma SpeechWhenMany(selected: seq<Flight>, city: Option<string>, dir: Direction, fmt: int -> string)
    requires |selected| >= 2
    ensures var k := Min(|selected|, MaxSpoken);
      var segs := Segments(selected[..k], dir, fmt);
      2 <= k <= 5 && |segs| == k && ParseDigits(NatToString(k)) == k
      && SpeechText(selected, city, dir, fmt)
         == "The next " + NatToString(|segs|) + " scheduled " + Nouns(dir) + " " + CityOutput(dir, city)
            + " are " + Pause(1) + Concat(segs)
  {
    NatToStringRoundTrip(Min(|selected|, MaxSpoken));
  }

  /** What a handler's envelope says: the speech for the selected flights.
      Without a city slot nothing is filtered out. */
  lemma FlightsResponseContract(intent: Intent, data: seq<Flight>, dir: Direction, fmt: int -> string)
    ensures var r := FlightsResponse(intent, data, dir, fmt);
      (r.Ok? ==> Said(r.value) == Some(SpeechText(Selection(data, CitySlot(intent).value),
                                                   CitySlot(intent).value, dir, fmt)))
      && (CitySlot(intent) == Ok(None) ==> r.Ok? && Said(r.value) == Some(SpeechText(data, None, dir, fmt)))
  {
  }
}
