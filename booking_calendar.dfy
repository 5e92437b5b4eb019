/** The booking calendar of a venue page: the day's slot grid, the
    availability map filled from one query per slot, the check that a block of
    consecutive hours is free, and the selection/booking handlers. The
    contract is an input: `query(venueId, timestamp)` is the reply to
    `checkTimeSlotAvailability` (`None` when the call throws), and a booking
    transaction has a `TxOutcome`. */
module BookingCalendar {
  import opened Wrappers
  import opened JsText
  import opened ContractHelpers

  const AvailabilityError := "Failed to check availability. Please try again."
  const SelectionError := "Please connect your wallet and select a time slot."
  const BookingFallbackError := "Failed to book venue. Please try again."

  const SecondsPerDay := 86400

  /** The option values of the duration picker: 1 to 4 hours. */
  const DurationValues: seq<string> := ["1", "2", "3", "4"]

  /** What the booking button sends to the contract's `bookVenue`. */
  datatype BookingRequest = BookingRequest(venueId: int, timeSlot: int, duration: int)

  // ---------------------------------------------------------------------
  // The date picker
  // ---------------------------------------------------------------------

  /** `getNextSevenDays()`: the midnights of today and the six days after
      (daylight-saving shifts ignored). */
  method GetNextSevenDays(today: int) returns (days: seq<int>)
    ensures |days| == 7
    ensures forall i :: 0 <= i < 7 ==> days[i] == today + i * SecondsPerDay
  {
    days := [];
    for i := 0 to 7
      invariant |days| == i
      invariant forall k :: 0 <= k < i ==> days[k] == today + k * SecondsPerDay
    {
      days := days + [today + i * SecondsPerDay];
    }
  }

  // ---------------------------------------------------------------------
  // Availability
  // ---------------------------------------------------------------------

  /** `availabilityMap[t]` is truthy: present and true. */
  predicate IsFree(m: map<int, bool>, t: int)
  {
    t in m && m[t]
  }

  /** `timeSlots.findIndex(slot => slot.timestamp === t)`. */
  function FindSlotIndex(slots: seq<TimeSlot>, t: int): (k: int)
    ensures -1 <= k < |slots|
    ensures k == -1 <==> forall i :: 0 <= i < |slots| ==> slots[i].timestamp != t
    ensures k >= 0 ==> slots[k].timestamp == t && forall i :: 0 <= i < k ==> slots[i].timestamp != t
  {
    if |slots| == 0 then -1
    else if slots[0].timestamp == t then 0
    else
      var k := FindSlotIndex(slots[1..], t);
      if k == -1 then -1 else k + 1
  }

  /** Every slot at index `start` .. `start + duration - 1` exists and is free. */
  predicate BlockFree(m: map<int, bool>, slots: seq<TimeSlot>, start: int, duration: int)
  {
    && 0 <= start
    && (duration <= 0 || start + duration <= |slots|)
    && forall j :: start <= j < start + duration ==> IsFree(m, slots[j].timestamp)
  }

  /** What `areConsecutiveSlotsAvailable(startSlot, duration)` decides. */
  predicate ConsecutiveAvailable(m: map<int, bool>, slots: seq<TimeSlot>, startSlot: TimeSlot, duration: int)
  {
    && IsFree(m, startSlot.timestamp)
    && var k := FindSlotIndex(slots, startSlot.timestamp);
       k >= 0 && BlockFree(m, slots, k, duration)
  }

  /** A shorter block from the same start is available whenever a longer one is. */
  lemma ConsecutiveDownwardClosed(m: map<int, bool>, slots: seq<TimeSlot>, startSlot: TimeSlot, d: int, e: int)
    requires e <= d
    requires ConsecutiveAvailable(m, slots, startSlot, d)
    ensures ConsecutiveAvailable(m, slots, startSlot, e)
  {
  }

  /** A block that runs past the day's last slot is never available. */
  lemma PastEndNeverAvailable(m: map<int, bool>, slots: seq<TimeSlot>, startSlot: TimeSlot, duration: int)
    requires FindSlotIndex(slots, startSlot.timestamp) + duration > |slots|
    requires duration >= 1
    ensures !ConsecutiveAvailable(m, slots, startSlot, duration)
  {
  }

  /** One taken slot inside the block makes the whole block unavailable, even
      when the start slot is free. */
  lemma TakenSlotBlocks(m: map<int, bool>, slots: seq<TimeSlot>, startSlot: TimeSlot, duration: int, j: int)
    requires FindSlotIndex(slots, startSlot.timestamp) <= j < FindSlotIndex(slots, startSlot.timestamp) + duration
    requires 0 <= j < |slots| && !IsFree(m, slots[j].timestamp)
    ensures !ConsecutiveAvailable(m, slots, startSlot, duration)
  {
  }

  /** The block is available exactly when the start slot is in the grid and
      the `duration` slots from it all exist and are free. */
  lemma ConsecutiveAvailableIff(m: map<int, bool>, slots: seq<TimeSlot>, startSlot: TimeSlot, duration: int)
    requires duration >= 1
    ensures ConsecutiveAvailable(m, slots, startSlot, duration) <==>
      exists k :: 0 <= k && k + duration <= |slots| && slots[k] == startSlot
        && (forall i :: 0 <= i < k ==> slots[i].timestamp != startSlot.timestamp)
        && forall j :: k <= j < k + duration ==> IsFree(m, slots[j].timestamp)
  {
    var k := FindSlotIndex(slots, startSlot.timestamp);
    if ConsecutiveAvailable(m, slots, startSlot, duration) {
      assert k + duration - 1 < |slots|;
      assert slots[k] == startSlot;
    }
  }

  /** In a grid without repeated timestamps, `findIndex` finds each slot at
      its own position. */
  lemma FindSlotIndexOfDistinct(slots: seq<TimeSlot>, k: nat)
    requires k < |slots|
    requires forall i, j :: 0 <= i < j < |slots| ==> slots[i].timestamp != slots[j].timestamp
    ensures FindSlotIndex(slots, slots[k].timestamp) == k
  {
  }

  /** The slot at `hour` sits at index `hour - 6` of the day's grid. */
  lemma FindSlotIndexInDay(dayStart: int, hour: int)
    requires FirstHour <= hour < EndHour
    ensures FindSlotIndex(DaySlots(dayStart), SlotAt(dayStart, hour).timestamp) == hour - FirstHour
  {
    DaySlotsSchedule(dayStart);
    DaySlotsIndex(dayStart, hour);
    FindSlotIndexOfDistinct(DaySlots(dayStart), hour - FirstHour);
  }

  /** With all 16 slots free, 18:00 for four hours (18, 19, 20, 21) is available. */
  lemma AllFreeEveningBlock(dayStart: int, m: map<int, bool>)
    requires forall i :: 0 <= i < 16 ==> IsFree(m, DaySlots(dayStart)[i].timestamp)
    ensures ConsecutiveAvailable(m, DaySlots(dayStart), SlotAt(dayStart, 18), 4)
  {
    FindSlotIndexInDay(dayStart, 18);
    DaySlotsIndex(dayStart, 18);
  }

  /** 21:00 for two hours would need a 22:00 slot: never available. */
  lemma LastSlotTwoHours(dayStart: int, m: map<int, bool>)
    ensures !ConsecutiveAvailable(m, DaySlots(dayStart), SlotAt(dayStart, 21), 2)
  {
    FindSlotIndexInDay(dayStart, 21);
    PastEndNeverAvailable(m, DaySlots(dayStart), SlotAt(dayStart, 21), 2);
  }

  /** 20:00 for two hours, with both slots free, is available. */
  lemma LateTwoHours(dayStart: int, m: map<int, bool>)
    requires IsFree(m, SlotAt(dayStart, 20).timestamp) && IsFree(m, SlotAt(dayStart, 21).timestamp)
    ensures ConsecutiveAvailable(m, DaySlots(dayStart), SlotAt(dayStart, 20), 2)
  {
    FindSlotIndexInDay(dayStart, 20);
    DaySlotsIndex(dayStart, 20);
    DaySlotsIndex(dayStart, 21);
  }

  /** With 19:00 taken, 18:00 for three hours is not available, but 18:00 for
      one hour is (when 18:00 itself is free). */
  lemma TakenNineteen(dayStart: int, m: map<int, bool>)
    requires IsFree(m, SlotAt(dayStart, 18).timestamp) && !IsFree(m, SlotAt(dayStart, 19).timestamp)
    ensures !ConsecutiveAvailable(m, DaySlots(dayStart), SlotAt(dayStart, 18), 3)
    ensures ConsecutiveAvailable(m, DaySlots(dayStart), SlotAt(dayStart, 18), 1)
  {
    FindSlotIndexInDay(dayStart, 18);
    DaySlotsIndex(dayStart, 18);
    DaySlotsIndex(dayStart, 19);
    TakenSlotBlocks(m, DaySlots(dayStart), SlotAt(dayStart, 18), 3, 13);
  }

  // ---------------------------------------------------------------------
  // Filling the availability map
  // ---------------------------------------------------------------------

  /** `Promise.all` over one query per slot: all answers, in slot order, or
      nothing when any query throws. */
  function QueryAll(query: (int, int) -> Option<bool>, venueId: int, slots: seq<TimeSlot>): (r: Option<seq<bool>>)
    ensures r.Some? <==> forall i :: 0 <= i < |slots| ==> query(venueId, slots[i].timestamp).Some?
    ensures r.Some? ==> |r.value| == |slots|
    ensures r.Some? ==> forall i :: 0 <= i < |slots| ==> r.value[i] == query(venueId, slots[i].timestamp).value
  {
    if |slots| == 0 then Some([])
    else
      match query(venueId, slots[0].timestamp)
      case None => None
      case Some(b) =>
        match QueryAll(query, venueId, slots[1..])
        case None => None
        case Some(rest) => Some([b] + rest)
  }

  /** The map the `forEach` builds: slot `i`'s timestamp set to `results[i]`,
      in slot order, so a later slot with the same timestamp overwrites. */
  function AvailabilityMap(slots: seq<TimeSlot>, results: seq<bool>): map<int, bool>
    requires |results| == |slots|
  {
    if |slots| == 0 then map[]
    else
      var n := |slots| - 1;
      AvailabilityMap(slots[..n], results[..n])[slots[n].timestamp := results[n]]
  }

  /** The keys are exactly the slots' timestamps. */
  lemma {:induction false} AvailabilityMapKeys(slots: seq<TimeSlot>, results: seq<bool>)
    requires |results| == |slots|
    ensures AvailabilityMap(slots, results).Keys == set i | 0 <= i < |slots| :: slots[i].timestamp
  {
    if |slots| > 0 {
      var n := |slots| - 1;
      AvailabilityMapKeys(slots[..n], results[..n]);
      assert (set i | 0 <= i < |slots| :: slots[i].timestamp)
        == (set i | 0 <= i < n :: slots[..n][i].timestamp) + {slots[n].timestamp};
    }
  }

  /** Slot `i`'s timestamp maps to `results[i]` unless a later slot has the
      same timestamp. */
  lemma {:induction false} AvailabilityMapAt(slots: seq<TimeSlot>, results: seq<bool>, i: nat)
    requires |results| == |slots| && i < |slots|
    requires forall j :: i < j < |slots| ==> slots[j].timestamp != slots[i].timestamp
    ensures slots[i].timestamp in AvailabilityMap(slots, results)
    ensures AvailabilityMap(slots, results)[slots[i].timestamp] == results[i]
  {
    var n := |slots| - 1;
    if i < n {
      AvailabilityMapAt(slots[..n], results[..n], i);
    }
  }

  /** On the day's grid every slot gets its own answer. */
  lemma AvailabilityMapOfDay(dayStart: int, results: seq<bool>, i: nat)
    requires |results| == 16 && i < 16
    ensures DaySlots(dayStart)[i].timestamp in AvailabilityMap(DaySlots(dayStart), results)
    ensures AvailabilityMap(DaySlots(dayStart), results)[DaySlots(dayStart)[i].timestamp] == results[i]
  {
    DaySlotsSchedule(dayStart);
    AvailabilityMapAt(DaySlots(dayStart), results, i);
  }

  /** The `forEach` loop of `checkAvailability`. */
  method BuildAvailabilityMap(slots: seq<TimeSlot>, results: seq<bool>) returns (m: map<int, bool>)
    requires |results| == |slots|
    ensures m == AvailabilityMap(slots, results)
  {
    m := map[];
    for index := 0 to |slots|
      invariant m == AvailabilityMap(slots[..index], results[..index])
    {
      assert slots[..index + 1][..index] == slots[..index];
      assert results[..index + 1][..index] == results[..index];
      m := m[slots[index].timestamp := results[index]];
    }
    assert slots[..|slots|] == slots && results[..|results|] == results;
  }

  // ---------------------------------------------------------------------
  // The component's state and its transitions
  // ---------------------------------------------------------------------

  datatype CalendarState = CalendarState(
    selectedDate: int,
    timeSlots: seq<TimeSlot>,
    selectedSlot: Option<TimeSlot>,
    bookingDuration: int,
    loading: bool,
    availabilityMap: map<int, bool>,
    loadingAvailability: bool,
    error: Option<string>)

  /** `handleDateSelect(date)`. */
  function AfterDateSelect(s: CalendarState, date: int): CalendarState
  {
    s.(selectedDate := date, selectedSlot := None)
  }

  /** `checkAvailability()`: without a contract or venue nothing happens;
      otherwise the grid is replaced first, and the map only when every
      query answered. */
  function AfterRefresh(s: CalendarState, hasContract: bool, venue: Option<Venue>, query: (int, int) -> Option<bool>): CalendarState
  {
    if !hasContract || venue.None? then s
    else
      var slots := DaySlots(s.selectedDate);
      match QueryAll(query, venue.value.id, slots)
      case Some(results) =>
        s.(timeSlots := slots, availabilityMap := AvailabilityMap(slots, results),
           error := None, loadingAvailability := false)
      case None =>
        s.(timeSlots := slots, error := Some(AvailabilityError), loadingAvailability := false)
  }

  predicate BookingAllowed(s: CalendarState, isConnected: bool, hasContract: bool, venue: Option<Venue>)
  {
    isConnected && venue.Some? && s.selectedSlot.Some? && hasContract
  }

  /** The request `handleBookVenue` sends, if it sends one. */
  function BookingRequestOf(s: CalendarState, isConnected: bool, hasContract: bool, venue: Option<Venue>): Option<BookingRequest>
  {
    if BookingAllowed(s, isConnected, hasContract, venue)
    then Some(BookingRequest(venue.value.id, s.selectedSlot.value.timestamp, s.bookingDuration))
    else None
  }

  /** `handleBookVenue()` once the transaction has its outcome; a confirmed
      booking clears the selection and refreshes availability. */
  function AfterBooking(s: CalendarState, isConnected: bool, hasContract: bool, venue: Option<Venue>,
                        outcome: TxOutcome, query: (int, int) -> Option<bool>): CalendarState
  {
    if !BookingAllowed(s, isConnected, hasContract, venue) then s.(error := Some(SelectionError))
    else
      match outcome
      case Confirmed =>
        AfterRefresh(s.(selectedSlot := None, error := None), hasContract, venue, query).(loading := false)
      case Failed(message) =>
        s.(error := Some(OrElse(message, BookingFallbackError)), loading := false)
  }

  /** Picking a date always clears the selected slot, and nothing else moves
      but the date. */
  lemma DateSelectClearsSlot(s: CalendarState, date: int)
    ensures AfterDateSelect(s, date).selectedSlot == None
    ensures AfterDateSelect(s, date).(selectedDate := s.selectedDate, selectedSlot := s.selectedSlot) == s
  {
  }

  /** After a date click and its effect, the grid is the new day's and nothing
      is selected; a slot of another day is then not in the grid, so it can
      be neither offered nor clicked, whatever the map says. */
  lemma DateChangeReplacesGrid(s: CalendarState, date: int, venue: Venue, query: (int, int) -> Option<bool>,
                               otherDay: int, hour: int, duration: int)
    requires otherDay <= date - SecondsPerDay || date + SecondsPerDay <= otherDay
    requires FirstHour <= hour < EndHour
    ensures var t := AfterRefresh(AfterDateSelect(s, date), true, Some(venue), query);
      && t.selectedDate == date && t.selectedSlot == None && t.timeSlots == DaySlots(date)
      && FindSlotIndex(t.timeSlots, SlotAt(otherDay, hour).timestamp) == -1
      && !ConsecutiveAvailable(t.availabilityMap, t.timeSlots, SlotAt(otherDay, hour), duration)
  {
    DaySlotsSchedule(date);
    var slots := DaySlots(date);
    forall i | 0 <= i < |slots| ensures slots[i].timestamp != SlotAt(otherDay, hour).timestamp {
    }
  }

  /** All or nothing: when every query answers, the map pairs each slot of the
      day with its own answer and has no other key; when any query fails the
      previous map stays and the error is shown. The grid is replaced either way. */
  lemma RefreshAllOrNothing(s: CalendarState, venue: Venue, query: (int, int) -> Option<bool>)
    ensures AfterRefresh(s, true, Some(venue), query).timeSlots == DaySlots(s.selectedDate)
    ensures !AfterRefresh(s, true, Some(venue), query).loadingAvailability
    ensures (forall i :: 0 <= i < 16 ==> query(venue.id, DaySlots(s.selectedDate)[i].timestamp).Some?) ==>
      var m := AfterRefresh(s, true, Some(venue), query).availabilityMap;
      && m.Keys == (set i | 0 <= i < 16 :: DaySlots(s.selectedDate)[i].timestamp)
      && (forall i :: 0 <= i < 16 ==> m[DaySlots(s.selectedDate)[i].timestamp] == query(venue.id, DaySlots(s.selectedDate)[i].timestamp).value)
      && AfterRefresh(s, true, Some(venue), query).error == None
    ensures (exists i :: 0 <= i < 16 && query(venue.id, DaySlots(s.selectedDate)[i].timestamp).None?) ==>
      && AfterRefresh(s, true, Some(venue), query).availabilityMap == s.availabilityMap
      && AfterRefresh(s, true, Some(venue), query).error == Some(AvailabilityError)
  {
    var slots := DaySlots(s.selectedDate);
    var answers := QueryAll(query, venue.id, slots);
    if answers.Some? {
      AvailabilityMapKeys(slots, answers.value);
      forall i | 0 <= i < 16
        ensures AvailabilityMap(slots, answers.value)[slots[i].timestamp] == answers.value[i]
      {
        AvailabilityMapOfDay(s.selectedDate, answers.value, i);
      }
    }
  }

  /** Refreshing twice with the same ledger gives the same state as once. */
  lemma RefreshIdempotent(s: CalendarState, hasContract: bool, venue: Option<Venue>, query: (int, int) -> Option<bool>)
    ensures AfterRefresh(AfterRefresh(s, hasContract, venue, query), hasContract, venue, query)
         == AfterRefresh(s, hasContract, venue, query)
  {
  }

  /** Without a connection, venue, selected slot or contract, no request is
      sent and only the error changes. */
  lemma BookingGuard(s: CalendarState, isConnected: bool, hasContract: bool, venue: Option<Venue>,
                     outcome: TxOutcome, query: (int, int) -> Option<bool>)
    requires !isConnected || venue.None? || s.selectedSlot.None? || !hasContract
    ensures BookingRequestOf(s, isConnected, hasContract, venue) == None
    ensures AfterBooking(s, isConnected, hasContract, venue, outcome, query) == s.(error := Some(SelectionError))
  {
  }

  /** A confirmed booking clears the selection and reloads the day's grid; a
      failed one keeps the selection, grid and map, and shows the ledger's
      message (or the fallback). Neither leaves the spinner on. */
  lemma BookingOutcome(s: CalendarState, hasContract: bool, venue: Option<Venue>,
                       outcome: TxOutcome, query: (int, int) -> Option<bool>)
    requires BookingAllowed(s, true, hasContract, venue)
    ensures BookingRequestOf(s, true, hasContract, venue)
         == Some(BookingRequest(venue.value.id, s.selectedSlot.value.timestamp, s.bookingDuration))
    ensures var t := AfterBooking(s, true, hasContract, venue, outcome, query);
      && !t.loading && t.selectedDate == s.selectedDate && t.bookingDuration == s.bookingDuration
      && (outcome.Confirmed? ==> t.selectedSlot == None && t.timeSlots == DaySlots(s.selectedDate))
      && (outcome.Failed? ==>
            t.selectedSlot == s.selectedSlot && t.timeSlots == s.timeSlots
            && t.availabilityMap == s.availabilityMap
            && t.error == Some(if outcome.message == "" then BookingFallbackError else outcome.message))
  {
  }

  // ---------------------------------------------------------------------
  // The component
  // ---------------------------------------------------------------------

  class Calendar {
    var selectedDate: int
    var timeSlots: seq<TimeSlot>
    var selectedSlot: Option<TimeSlot>
    var bookingDuration: int
    var loading: bool
    var availabilityMap: map<int, bool>
    var loadingAvailability: bool
    var error: Option<string>

    /** The duration is always one of the picker's choices. */
    ghost predicate Valid()
      reads this
    {
      1 <= bookingDuration <= 4
    }

    function State(): CalendarState
      reads this
    {
      CalendarState(selectedDate, timeSlots, selectedSlot, bookingDuration, loading,
                    availabilityMap, loadingAvailability, error)
    }

    /** The initial state, with today's midnight as the selected date. */
    constructor (today: int)
      ensures Valid()
      ensures State() == CalendarState(today, [], None, 1, false, map[], false, None)
    {
      selectedDate := today;
      timeSlots := [];
      selectedSlot := None;
      bookingDuration := 1;
      loading := false;
      availabilityMap := map[];
      loadingAvailability := false;
      error := None;
    }

    method HandleDateSelect(date: int)
      modifies this`selectedDate, this`selectedSlot
      ensures State() == AfterDateSelect(old(State()), date)
    {
      selectedDate := date;
      selectedSlot := None;
    }

    method HandleSlotSelect(slot: TimeSlot)
      modifies this`selectedSlot
      ensures selectedSlot == Some(slot)
    {
      selectedSlot := Some(slot);
    }

    /** `handleDurationChange`: the picker's value, read with `parseInt`. */
    method HandleDurationChange(value: string)
      requires value in DurationValues
      modifies this`bookingDuration
      ensures Valid()
      ensures ParseInt(value) == Some(bookingDuration)
    {
      DurationValuesParse();
      bookingDuration := ParseInt(value).value;
    }

    /** `areConsecutiveSlotsAvailable(startSlot, duration)` over the current
        grid and map. */
    method AreConsecutiveSlotsAvailable(startSlot: TimeSlot, duration: int) returns (available: bool)
      ensures available == ConsecutiveAvailable(availabilityMap, timeSlots, startSlot, duration)
    {
      if !IsFree(availabilityMap, startSlot.timestamp) {
        return false;
      }
      var startIndex := FindSlotIndex(timeSlots, startSlot.timestamp);
      if startIndex == -1 {
        return false;
      }
      var i := 0;
      while i < duration
        invariant 0 <= i && (duration >= 0 ==> i <= duration)
        invariant BlockFree(availabilityMap, timeSlots, startIndex, i)
      {
        var checkIndex := startIndex + i;
        if checkIndex >= |timeSlots| || !IsFree(availabilityMap, timeSlots[checkIndex].timestamp) {
          return false;
        }
        i := i + 1;
      }
      return true;
    }

    /** A click on a slot button selects it only when the block for the
        current duration is available (the button is disabled otherwise). */
    method ClickSlot(slot: TimeSlot)
      modifies this`selectedSlot
      ensures ConsecutiveAvailable(availabilityMap, timeSlots, slot, bookingDuration) ==> selectedSlot == Some(slot)
      ensures !ConsecutiveAvailable(availabilityMap, timeSlots, slot, bookingDuration) ==> selectedSlot == old(selectedSlot)
    {
      var available := AreConsecutiveSlotsAvailable(slot, bookingDuration);
      if available {
        HandleSlotSelect(slot);
      }
    }

    /** `checkAvailability()`. */
    method CheckAvailability(hasContract: bool, venue: Option<Venue>, query: (int, int) -> Option<bool>)
      modifies this`loadingAvailability, this`error, this`timeSlots, this`availabilityMap
      ensures State() == AfterRefresh(old(State()), hasContract, venue, query)
    {
      if !hasContract || venue.None? {
        return;
      }
      loadingAvailability := true;
      error := None;
      var slots := GenerateTimeSlots(selectedDate);
      timeSlots := slots;
      var answers := QueryAll(query, venue.value.id, slots);
      match answers {
        case Some(results) =>
          var newAvailabilityMap := BuildAvailabilityMap(slots, results);
          availabilityMap := newAvailabilityMap;
        case None =>
          error := Some(AvailabilityError);
      }
      loadingAvailability := false;
    }

    /** A date click followed by the effect it triggers: the effect on
        `selectedDate` runs `checkAvailability` once the new date is set. */
    method SelectDate(date: int, hasContract: bool, venue: Option<Venue>, query: (int, int) -> Option<bool>)
      modifies this`selectedDate, this`selectedSlot, this`loadingAvailability, this`error,
               this`timeSlots, this`availabilityMap
      ensures State() == AfterRefresh(AfterDateSelect(old(State()), date), hasContract, venue, query)
    {
      HandleDateSelect(date);
      CheckAvailability(hasContract, venue, query);
    }

    /** `handleBookVenue()`; `request` is what was sent to the contract. */
    method HandleBookVenue(isConnected: bool, hasContract: bool, venue: Option<Venue>,
                           outcome: TxOutcome, query: (int, int) -> Option<bool>)
      returns (request: Option<BookingRequest>)
      requires Valid()
      modifies this
      ensures Valid()
      ensures request == BookingRequestOf(old(State()), isConnected, hasContract, venue)
      ensures request.Some? ==> 1 <= request.value.duration <= 4
      ensures State() == AfterBooking(old(State()), isConnected, hasContract, venue, outcome, query)
    {
      if !isConnected || venue.None? || selectedSlot.None? || !hasContract {
        error := Some(SelectionError);
        return None;
      }
      loading := true;
      error := None;
      request := Some(BookingRequest(venue.value.id, selectedSlot.value.timestamp, bookingDuration));
      match outcome {
        case Confirmed =>
          selectedSlot := None;
          CheckAvailability(hasContract, venue, query);
        case Failed(message) =>
          error := Some(OrElse(message, BookingFallbackError));
      }
      loading := false;
    }
  }

  /** Each option value of the duration picker reads as its number of hours. */
  lemma DurationValuesParse()
    ensures forall i :: 0 <= i < |DurationValues| ==> ParseInt(DurationValues[i]) == Some(i + 1)
  {
    forall i | 0 <= i < |DurationValues| ensures ParseInt(DurationValues[i]) == Some(i + 1) {
      assert DurationValues[i] == "" + IntToString(i + 1) + "";
      ParseIntOfIntToString("", i + 1, "");
    }
  }
}
