/** The pure helpers of the front end's contract layer: the day's time-slot
    grid, display formatting, the decoding of contract result tuples into
    records, the venue-id guard and the lookup of the event that carries a
    new identifier. Remote calls are inputs: a reply function or a receipt. */
module ContractHelpers {
  import opened Wrappers
  import opened JsText

  // ---------------------------------------------------------------------
  // Records and the errors the helpers raise
  // ---------------------------------------------------------------------

  datatype Venue = Venue(
    id: int, name: string, sportType: string, hourlyRate: int,
    latitude: string, longitude: string, owner: string, isActive: bool)

  datatype Booking = Booking(
    id: int, venueId: int, timeSlot: int, bookingDuration: int,
    booker: string, isCancelled: bool)

  /** The contract's `getVenueDetails` reply, in index order 0..6. */
  type VenueTuple = (string, string, int, string, string, string, bool)

  /** The contract's `getBookingDetails` reply, in index order 0..4. */
  type BookingTuple = (int, int, int, string, bool)

  /** An event of a transaction receipt, with its named arguments. */
  datatype Event = Event(name: string, args: map<string, int>)

  /** The outcome of sending a transaction and waiting for it to be mined. */
  datatype TxOutcome = Confirmed | Failed(message: string)

  datatype HelperError =
    | InvalidVenueId                 // "Invalid venue ID. Must be a number."
    | ContractError(message: string) // a remote call threw; rethrown as is
    | MissingEvent                   // `receipt.events.find(...)` was undefined
    | MissingArgument                // the event has no such argument


  // ---------------------------------------------------------------------
  // generateTimeSlots
  // ---------------------------------------------------------------------

  /** One bookable hour, identified by its epoch-seconds start. */
  datatype TimeSlot = TimeSlot(timestamp: int)

  const SecondsPerHour := 3600
  const FirstHour := 6
  const EndHour := 22   // exclusive: the last slot starts at 21:00
  const SlotsPerDay := EndHour - FirstHour

  /** The slot starting at `hour` o'clock on the day whose midnight is
      `dayStart` (epoch seconds, daylight-saving shifts ignored). */
  function SlotAt(dayStart: int, hour: int): TimeSlot
  {
    TimeSlot(dayStart + hour * SecondsPerHour)
  }

  /** The day's grid, 06:00 to 21:00. */
  function DaySlots(dayStart: int): (r: seq<TimeSlot>)
    ensures |r| == SlotsPerDay
  {
    seq(SlotsPerDay, i requires 0 <= i < SlotsPerDay => SlotAt(dayStart, FirstHour + i))
  }

  /** `generateTimeSlots(date)` for the day whose midnight is `dayStart`. */
  method GenerateTimeSlots(dayStart: int) returns (slots: seq<TimeSlot>)
    ensures |slots| == 16
    ensures forall i :: 0 <= i < |slots| ==> slots[i].timestamp == dayStart + (6 + i) * 3600
    ensures slots == DaySlots(dayStart)
  {
    slots := [];
    for hour := FirstHour to EndHour
      invariant |slots| == hour - FirstHour
      invariant forall i :: 0 <= i < |slots| ==> slots[i] == SlotAt(dayStart, FirstHour + i)
    {
      slots := slots + [SlotAt(dayStart, hour)];
    }
  }

  /** The grid is hourly, strictly increasing, starts at 06:00, ends at 21:00
      and never reaches 22:00 or the next day. */
  lemma DaySlotsSchedule(dayStart: int)
    ensures DaySlots(dayStart)[0].timestamp == dayStart + 6 * 3600
    ensures DaySlots(dayStart)[15].timestamp == dayStart + 21 * 3600
    ensures forall i :: 0 <= i < 15 ==> DaySlots(dayStart)[i + 1].timestamp == DaySlots(dayStart)[i].timestamp + 3600
    ensures forall i, j :: 0 <= i < j < 16 ==> DaySlots(dayStart)[i].timestamp < DaySlots(dayStart)[j].timestamp
    ensures forall i :: 0 <= i < 16 ==>
      dayStart + 6 * 3600 <= DaySlots(dayStart)[i].timestamp < dayStart + 22 * 3600 < dayStart + 24 * 3600
  {
    var slots := DaySlots(dayStart);
    forall i | 0 <= i < 16 ensures slots[i].timestamp == dayStart + 21600 + 3600 * i {
      assert slots[i] == SlotAt(dayStart, FirstHour + i);
    }
  }

  /** The position of the slot starting at `hour` in the day's grid. */
  lemma DaySlotsIndex(dayStart: int, hour: int)
    requires FirstHour <= hour < EndHour
    ensures DaySlots(dayStart)[hour - FirstHour] == SlotAt(dayStart, hour)
  {
  }

  // ---------------------------------------------------------------------
  // formatDuration and truncateAddress
  // ---------------------------------------------------------------------

  /** `formatDuration(hours)`: singular only for exactly one hour. */
  function FormatDuration(hours: int): (r: string)
    ensures hours == 1 ==> r == "1 hour"
    ensures hours != 1 ==> r == IntToString(hours) + " hours"
  {
    if hours == 1 then "1 hour" else IntToString(hours) + " hours"
  }

  /** The label reads back as its number of hours, so no two durations share
      a label. */
  lemma FormatDurationParsesBack(hours: int)
    ensures ParseInt(FormatDuration(hours)) == Some(hours)
  {
    if hours == 1 {
      assert FormatDuration(hours) == "" + IntToString(1) + " hour";
      ParseIntOfIntToString("", 1, " hour");
    } else {
      assert FormatDuration(hours) == "" + IntToString(hours) + " hours";
      ParseIntOfIntToString("", hours, " hours");
    }
  }

  lemma FormatDurationInjective(h1: int, h2: int)
    requires FormatDuration(h1) == FormatDuration(h2)
    ensures h1 == h2
  {
    FormatDurationParsesBack(h1);
    FormatDurationParsesBack(h2);
  }

  /** `truncateAddress(address)`; `None` stands for null or undefined. */
  function TruncateAddress(address: Option<string>): (r: string)
    ensures address == None || address == Some("") ==> r == ""
    ensures address.Some? && address.value != "" ==>
      var s := address.value;
      r == s[..Min(6, |s|)] + "..." + s[Max(0, |s| - 4)..]
    ensures address.Some? && |address.value| >= 6 ==>
      var s := address.value;
      |r| == 13 && r[..6] == s[..6] && r[6..9] == "..." && r[9..] == s[|s| - 4..]
  {
    match address
    case None => ""
    case Some(s) =>
      if s == "" then ""
      else Substring(s, 0, 6) + "..." + Substring(s, |s| - 4, |s|)
  }

  // ---------------------------------------------------------------------
  // getVenueDetails and getBookingDetails
  // ---------------------------------------------------------------------

  /** The tuple layout the contract reports a venue in. */
  function VenueToTuple(v: Venue): VenueTuple
  {
    (v.name, v.sportType, v.hourlyRate, v.latitude, v.longitude, v.owner, v.isActive)
  }

  /** Indices 0..6 become name, sportType, hourlyRate, latitude, longitude,
      owner, isActive; the id is the one asked for. */
  function VenueFromTuple(id: int, t: VenueTuple): (v: Venue)
    ensures v.id == id && VenueToTuple(v) == t
  {
    Venue(id, t.0, t.1, t.2, t.3, t.4, t.5, t.6)
  }

  lemma VenueTupleRoundTrip(v: Venue)
    ensures VenueFromTuple(v.id, VenueToTuple(v)) == v
  {
  }

  /** `getVenueDetails(contract, venueId)`, with the contract's reply to
      `getVenueDetails(id)` given as `fetch`. */
  function GetVenueDetails(venueId: string, fetch: int -> Result<VenueTuple, string>): (r: Result<Venue, HelperError>)
    ensures ParseInt(venueId).None? ==> r == Err(InvalidVenueId)
    ensures r.Ok? ==> ParseInt(venueId) == Some(r.value.id) && fetch(r.value.id) == Ok(VenueToTuple(r.value))
    ensures ParseInt(venueId).Some? && fetch(ParseInt(venueId).value).Err? ==>
      r == Err(ContractError(fetch(ParseInt(venueId).value).error))
    ensures ParseInt(venueId).Some? && fetch(ParseInt(venueId).value).Ok? ==> r.Ok?
  {
    match ParseInt(venueId)
    case None => Err(InvalidVenueId)
    case Some(id) =>
      match fetch(id)
      case Err(e) => Err(ContractError(e))
      case Ok(t) => Ok(VenueFromTuple(id, t))
  }

  /** The id guard runs before any contract call: when it fails, the reply
      function is never consulted. */
  lemma InvalidIdMakesNoCall(venueId: string, f: int -> Result<VenueTuple, string>, g: int -> Result<VenueTuple, string>)
    requires ParseInt(venueId).None?
    ensures GetVenueDetails(venueId, f) == GetVenueDetails(venueId, g) == Err(InvalidVenueId)
  {
  }

  /** Any integer id passed as text reaches the contract unchanged. */
  lemma NumericIdAccepted(id: int, fetch: int -> Result<VenueTuple, string>)
    ensures fetch(id).Ok? ==> GetVenueDetails(IntToString(id), fetch) == Ok(VenueFromTuple(id, fetch(id).value))
  {
    assert IntToString(id) == "" + IntToString(id) + "";
    ParseIntOfIntToString("", id, "");
  }

  function BookingToTuple(b: Booking): BookingTuple
  {
    (b.venueId, b.timeSlot, b.bookingDuration, b.booker, b.isCancelled)
  }

  /** Indices 0..4 become venueId, timeSlot, bookingDuration, booker,
      isCancelled; the id is the one asked for. */
  function BookingFromTuple(id: int, t: BookingTuple): (b: Booking)
    ensures b.id == id && BookingToTuple(b) == t
  {
    Booking(id, t.0, t.1, t.2, t.3, t.4)
  }

  /** `getBookingDetails(contract, bookingId)`; no guard on the id. */
  function GetBookingDetails(bookingId: int, fetch: int -> Result<BookingTuple, string>): (r: Result<Booking, HelperError>)
    ensures r.Ok? <==> fetch(bookingId).Ok?
    ensures r.Ok? ==> r.value.id == bookingId && BookingToTuple(r.value) == fetch(bookingId).value
    ensures r.Err? ==> r.error == ContractError(fetch(bookingId).error)
  {
    match fetch(bookingId)
    case Err(e) => Err(ContractError(e))
    case Ok(t) => Ok(BookingFromTuple(bookingId, t))
  }

  // ---------------------------------------------------------------------
  // The event that carries a new id (bookVenue, registerVenue)
  // ---------------------------------------------------------------------

  /** `events.find(e => e.event === name)`, as an index. */
  function FirstEventIndex(events: seq<Event>, name: string): (r: Option<nat>)
    ensures r.None? <==> forall i :: 0 <= i < |events| ==> events[i].name != name
    ensures r.Some? ==> r.value < |events| && events[r.value].name == name
    ensures r.Some? ==> forall i :: 0 <= i < r.value ==> events[i].name != name
  {
    if |events| == 0 then None
    else if events[0].name == name then Some(0)
    else match FirstEventIndex(events[1..], name)
      case None => None
      case Some(k) => Some(k + 1)
  }

  /** `event.args[arg]` of the first event named `name`; reading from a
      missing event or argument throws. */
  function EventArgument(events: seq<Event>, name: string, arg: string): (r: Result<int, HelperError>)
    ensures FirstEventIndex(events, name).None? ==> r == Err(MissingEvent)
    ensures r.Ok? ==> exists k :: (0 <= k < |events| && events[k].name == name && arg in events[k].args
      && r.value == events[k].args[arg] && forall i :: 0 <= i < k ==> events[i].name != name)
  {
    match FirstEventIndex(events, name)
    case None => Err(MissingEvent)
    case Some(k) =>
      if arg in events[k].args then Ok(events[k].args[arg]) else Err(MissingArgument)
  }

  /** The id `bookVenue` returns from a mined receipt, or the error it throws. */
  function BookVenue(receipt: Result<seq<Event>, string>): (r: Result<int, HelperError>)
    ensures receipt.Err? ==> r == Err(ContractError(receipt.error))
    ensures receipt.Ok? ==> r == EventArgument(receipt.value, "VenueBooked", "bookingId")
  {
    match receipt
    case Err(e) => Err(ContractError(e))
    case Ok(events) => EventArgument(events, "VenueBooked", "bookingId")
  }

  /** The id `registerVenue` returns from a mined receipt, or the error it throws. */
  function RegisterVenue(receipt: Result<seq<Event>, string>): (r: Result<int, HelperError>)
    ensures receipt.Err? ==> r == Err(ContractError(receipt.error))
    ensures receipt.Ok? ==> r == EventArgument(receipt.value, "VenueRegistered", "venueId")
  {
    match receipt
    case Err(e) => Err(ContractError(e))
    case Ok(events) => EventArgument(events, "VenueRegistered", "venueId")
  }

  /** Only the first event of the name counts: later events of the same name,
      and events of other names before it, do not change the id. */
  lemma {:induction false} FirstEventWins(before: seq<Event>, e: Event, after: seq<Event>, arg: string)
    requires forall i :: 0 <= i < |before| ==> before[i].name != e.name
    requires arg in e.args
    ensures EventArgument(before + [e] + after, e.name, arg) == Ok(e.args[arg])
  {
    var events := before + [e] + after;
    assert events[|before|] == e;
    var k := FirstEventIndex(events, e.name);
    assert k.Some? && k.value == |before| by {
      assert forall i :: 0 <= i < |before| ==> events[i] == before[i];
    }
  }
}
