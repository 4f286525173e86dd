/** The SSML helpers and the sentence that describes one flight
    (`spellOut`, `pause`, `alexaifyFlight`). */
module Speech {
  import opened Outcomes
  import opened Text

  /** Which board a flight comes from: the code passes `isDeparture`. */
  datatype Direction = Departure | Arrival

  /** The `real` field of a flight record: either the string "null" or a time. */
  datatype RealTime = NullSentinel | Epoch(epoch: int)

  /** One record of the airport's schedule feed. */
  datatype Flight = Flight(airline: string, number: string, destination: string,
                           scheduled: int, realTime: RealTime, status: string)

  const SpellOpen := "<say-as interpret-as=\"spell-out\">"
  const SpellClose := "</say-as>"

  /** `spellOut`: the text, to be pronounced character by character. */
  function SpellOut(s: string): (r: string)
    ensures Unwrap(SpellOpen, SpellClose, r) == Some(s)
  {
    WrapUnwrap(SpellOpen, s, SpellClose);
    SpellOpen + s + SpellClose
  }

  const BreakOpen := "<break time=\""
  const BreakClose := "s\"/>"

  /** `pause`: a break whose time is `str(seconds)` followed by "s". */
  function Pause(seconds: nat): (r: string)
    ensures Unwrap(BreakOpen, BreakClose, r) == Some(NatToString(seconds))
  {
    WrapUnwrap(BreakOpen, NatToString(seconds), BreakClose);
    BreakOpen + NatToString(seconds) + BreakClose
  }

  /** The one pause the skill uses. */
  lemma PauseOneSecond()
    ensures Pause(1) == "<break time=\"1s\"/>"
  {
    assert NatToString(1) == "1";
  }

  function Preposition(dir: Direction): (r: string)
    ensures r == if dir == Departure then " to " else " from "
  {
    match dir
    case Departure => " to "
    case Arrival => " from "
  }

  function Movement(dir: Direction): (r: string) {
    match dir
    case Departure => "take off"
    case Arrival => "land"
  }

  /** The four ways a flight's status can be worded. */
  datatype StatusKind = Cancelled | DelayedUntil(at: int) | DelayedUnknown | OnTime

  /** The branch `alexaifyFlight` takes for a flight: cancelled, delayed with a
      known time, delayed with the "null" sentinel, or anything else. */
  function Classify(f: Flight): (k: StatusKind)
    ensures k.Cancelled? <==> f.status == "Cancelled"
    ensures k.DelayedUntil? <==> f.status == "Delayed" && f.realTime.Epoch?
    ensures k.DelayedUnknown? <==> f.status == "Delayed" && f.realTime.NullSentinel?
    ensures k.OnTime? <==> f.status != "Cancelled" && f.status != "Delayed"
    ensures k.DelayedUntil? ==> k.at == f.realTime.epoch
  {
    if f.status == "Cancelled" then Cancelled
    else if f.status == "Delayed" then
      match f.realTime
      case Epoch(t) => DelayedUntil(t)
      case NullSentinel => DelayedUnknown
    else OnTime
  }

  /** Who, which flight and where: the opening words of every description. */
  function Subject(f: Flight, dir: Direction): (r: string) {
    f.airline + " flight " + SpellOut(f.number) + Preposition(dir) + f.destination
  }

  /** When the flight is due to leave or arrive. */
  function Schedule(f: Flight, dir: Direction, fmt: int -> string): (r: string) {
    ", scheduled to " + Movement(dir) + " at " + fmt(f.scheduled)
  }

  /** The part before the status: the subject and the scheduled time. */
  function Preamble(f: Flight, dir: Direction, fmt: int -> string): (r: string) {
    Subject(f, dir) + Schedule(f, dir, fmt)
  }

  /** The words for a status, before the full stop. */
  function StatusWords(k: StatusKind, fmt: int -> string): (r: string) {
    match k
    case Cancelled => " has been cancelled"
    case DelayedUntil(t) => " is delayed" + " until " + fmt(t)
    case DelayedUnknown => " is delayed"
    case OnTime => " is on time"
  }

  /** The closing clause for a status, full stop included. */
  function StatusClause(k: StatusKind, fmt: int -> string): (r: string)
    ensures |r| > 0 && r[|r| - 1] == '.'
  {
    StatusWords(k, fmt) + "."
  }

  /** The sentence `alexaifyFlight` speaks for a flight; `fmt` stands for the
      local-time `HH:MM` formatting of an epoch. It opens with the airline,
      the spelled-out flight number, "to" or "from" and the destination, and
      ends with a full stop. */
  function Description(f: Flight, dir: Direction, fmt: int -> string): (r: string)
    ensures IsPrefix(f.airline + " flight " + SpellOut(f.number) + Preposition(dir) + f.destination, r)
    ensures r[|r| - 1] == '.'
  {
    var subject, closing := Subject(f, dir), StatusClause(Classify(f), fmt);
    ConcatAssoc(subject, Schedule(f, dir, fmt), closing);
    PrefixOfAppend(subject, Schedule(f, dir, fmt) + closing);
    Preamble(f, dir, fmt) + closing
  }

  /** `alexaifyFlight`: starts from the preamble and extends the text branch by branch. */
  method AlexaifyFlight(f: Flight, dir: Direction, fmt: int -> string) returns (text: string)
    ensures text == Description(f, dir, fmt)
  {
    text := Preamble(f, dir, fmt);
    ghost var preamble := text;
    ghost var words := StatusWords(Classify(f), fmt);
    if f.status == "Cancelled" {
      assert words == " has been cancelled";
      text := text + " has been cancelled";
    } else if f.status == "Delayed" {
      text := text + " is delayed";
      if f.realTime != NullSentinel {
        assert words == " is delayed" + " until " + fmt(f.realTime.epoch);
        ConcatAssoc(preamble, " is delayed", " until " + fmt(f.realTime.epoch));
        text := text + " until " + fmt(f.realTime.epoch);
      } else {
        assert words == " is delayed";
      }
    } else {
      assert words == " is on time";
      text := text + " is on time";
    }
    assert text == preamble + words;
    ConcatAssoc(preamble, words, ".");
    text := text + ".";
  }

  /** Each status clause, spelled out as one literal. */
  lemma ClauseLiterals(t: int, fmt: int -> string)
    ensures StatusClause(Cancelled, fmt) == " has been cancelled."
    ensures StatusClause(DelayedUntil(t), fmt) == " is delayed until " + fmt(t) + "."
    ensures StatusClause(DelayedUnknown, fmt) == " is delayed."
    ensures StatusClause(OnTime, fmt) == " is on time."
  {
    assert " is delayed" + " until " == " is delayed until ";
  }

  /** The status clause of each branch, word for word. */
  lemma {:induction false} StatusWording(f: Flight, dir: Direction, fmt: int -> string)
    ensures f.status == "Cancelled" ==> Description(f, dir, fmt) == Preamble(f, dir, fmt) + " has been cancelled."
    ensures f.status == "Delayed" && f.realTime.NullSentinel? ==> Description(f, dir, fmt) == Preamble(f, dir, fmt) + " is delayed."
    ensures f.status == "Delayed" && f.realTime.Epoch? ==>
      Description(f, dir, fmt) == Preamble(f, dir, fmt) + " is delayed until " + fmt(f.realTime.epoch) + "."
    ensures f.status != "Cancelled" && f.status != "Delayed" ==> Description(f, dir, fmt) == Preamble(f, dir, fmt) + " is on time."
  {
    DescriptionSplit(f, dir, fmt);
    var k := Classify(f);
    if k.DelayedUntil? {
      ClauseLiterals(k.at, fmt);
      ConcatAssoc(Preamble(f, dir, fmt), " is delayed until " + fmt(k.at), ".");
    } else {
      ClauseLiterals(0, fmt);
    }
  }

  /** A description is its preamble followed by its status clause. */
  lemma DescriptionSplit(f: Flight, dir: Direction, fmt: int -> string)
    ensures Description(f, dir, fmt) == Preamble(f, dir, fmt) + StatusClause(Classify(f), fmt)
  {
  }

  /** Only a delay with a known real time mentions a second time: in every
      other branch the clause after the preamble does not depend on the clock. */
  lemma {:induction false} OnlyKnownDelayMentionsTime(k: StatusKind, fmt1: int -> string, fmt2: int -> string)
    requires !k.DelayedUntil?
    ensures StatusClause(k, fmt1) == StatusClause(k, fmt2)
    ensures !Contains(" until ", StatusClause(k, fmt1))
  {
    ClauseLiterals(0, fmt1);
    ClauseLiterals(0, fmt2);
    var c := StatusClause(k, fmt1);
    assert 'u' !in c;
    MissingCharNotContained(" until ", c, 1);
  }

  /** ... and a delay with a known real time does mention it after " until ". */
  lemma KnownDelayMentionsTime(t: int, fmt: int -> string)
    ensures Contains(" until ", StatusClause(DelayedUntil(t), fmt))
    ensures StatusClause(DelayedUntil(t), fmt) == " is delayed until " + fmt(t) + "."
  {
    ClauseLiterals(t, fmt);
    var c := StatusClause(DelayedUntil(t), fmt);
    assert c == " is delayed" + " until " + (fmt(t) + ".");
    OccursAfter(" is delayed", " until ", fmt(t) + ".");
    ContainsIff(" until ", c);
  }
}
