# SportSpot front end: a Dafny model of its booking core

SportSpot is a React front end over a venue-booking smart contract. The
wallet, the contract and the browser are all outside this model. What is
modelled is the part of the front end that decides things:

- **Time slots.** The hourly slot grid of a day: 16 slots, 06:00 to 21:00
  (`generateTimeSlots`).
- **Booking calendar.**
  - The seven-day date picker.
  - The availability map, filled from one contract query per slot.
  - The check that a block of consecutive hours is free
    (`areConsecutiveSlotsAvailable`).
  - The date, slot, duration and booking handlers.
- **Venue listing.** The venue list loaded from the contract, the filter
  effect (sport type, price range, search term), `handleFilterChange` and
  the Clear Filters button.
- **Wallet panel.**
  - The ETH transfer form: checks that run in a fixed order, an address
    pattern, and success or failure updates of the form.
  - The withdraw button with its guard and flag resets.
- **Contract helpers.**
  - `formatDuration` and `truncateAddress`.
  - The decoders from the contract's tuples to venue and booking records,
    with the `parseInt` guard on a venue id.
  - Reading a new id from the first matching receipt event.

The JavaScript built-ins these depend on are modelled in `js_text.dfy`:
ASCII `toLowerCase`, `includes`, `substring`, integer text, the
`error.message || fallback` idiom, and `parseInt` with no radix (ECMA-262,
section 19.2.5).

How the model is built:

- **React components are classes.** They are `Calendar`, `Listing` and
  `Wallet`. Their `useState` variables are fields, and each handler is a
  method that changes only the fields it sets.
- **Handlers are proved against pure transitions.** The `Calendar` and
  `Wallet` handlers that change several fields ensure
  `State() == After…(old(State()), …)`. The lemmas state what the source
  promises about those transition functions. The `Listing` methods state
  each field they change directly in their `ensures`.
- **Effects are composed methods.** A React effect runs again when a state
  variable it depends on changes. `Calendar.SelectDate` is the date click
  followed by `checkAvailability`. `Listing.ChangeFilter`,
  `Listing.ResetFilters` and `Listing.LoadVenues` are the handler followed
  by the filter effect.
- **External calls are inputs:**
  - the contract's availability answer is `query(venueId, timestamp)`, which
    is `None` when the call throws;
  - a mined or rejected transaction is a `TxOutcome`;
  - a receipt is a list of events;
  - a contract read is a `Result`.

  A method returns the request it would send, so "no transaction is sent"
  can be stated directly.

Files:

| file | models |
|---|---|
| `wrappers.dfy` | `Option` and `Result` |
| `js_text.dfy` | the JavaScript string and number built-ins |
| `contract_helpers.dfy` | `frontend/src/utils/contractHelpers.js` |
| `booking_calendar.dfy` | `frontend/src/components/BookingCalendar.jsx` |
| `venue_listing.dfy` | `frontend/src/pages/VenueListing.jsx` |
| `wallet_connect.dfy` | `frontend/src/components/WalletConnect.jsx` |

## Model

| member | source | states |
|---|---|---|
| ContractHelpers.GenerateTimeSlots | frontend/src/utils/contractHelpers.js:187-202 | the loop returns exactly 16 slots; slot `i` starts at the day's midnight plus `(6 + i)` hours, and the list is the day's grid `DaySlots` |
| ContractHelpers.DaySlotsSchedule | frontend/src/utils/contractHelpers.js:189-199 | the first slot is 06:00 and the last 21:00; consecutive slots are 3600 s apart; timestamps strictly increase; no slot is at 22:00 or later |
| ContractHelpers.DaySlotsIndex | frontend/src/utils/contractHelpers.js:192-199 | the slot for hour `h` is at index `h - 6` |
| ContractHelpers.FormatDuration | frontend/src/utils/contractHelpers.js:20-22 | "1 hour" for exactly 1; otherwise the number's text followed by " hours" |
| ContractHelpers.FormatDurationParsesBack | frontend/src/utils/contractHelpers.js:20-22 | `parseInt` of any label gives its number of hours back |
| ContractHelpers.FormatDurationInjective | frontend/src/utils/contractHelpers.js:20-22 | two durations with the same label are equal |
| ContractHelpers.TruncateAddress | frontend/src/utils/contractHelpers.js:205-208 | null or empty gives ""; otherwise the first 6 characters, "...", and the last 4 (clamped for short text); for 6 or more characters the result has length 13 and keeps both ends |
| ContractHelpers.VenueFromTuple | frontend/src/utils/contractHelpers.js:34-43 | the record has the requested id and re-encodes to the contract's tuple |
| ContractHelpers.VenueTupleRoundTrip | frontend/src/utils/contractHelpers.js:34-43 | decoding a venue's own tuple under its id gives the venue back |
| ContractHelpers.GetVenueDetails | frontend/src/utils/contractHelpers.js:24-48 | a NaN `parseInt(venueId)` is the invalid-id error; otherwise the contract error is rethrown, or the decoded venue has the parsed id |
| ContractHelpers.InvalidIdMakesNoCall | frontend/src/utils/contractHelpers.js:27-29 | when the id guard fails, the result does not depend on the contract at all |
| ContractHelpers.NumericIdAccepted | frontend/src/utils/contractHelpers.js:27-35 | any integer written as text reaches the contract as that integer |
| ContractHelpers.BookingFromTuple | frontend/src/utils/contractHelpers.js:55-62 | the record has the requested id and re-encodes to the contract's tuple |
| ContractHelpers.GetBookingDetails | frontend/src/utils/contractHelpers.js:52-67 | success exactly when the contract read succeeds, with the decoded record; otherwise the contract's error |
| ContractHelpers.FirstEventIndex | frontend/src/utils/contractHelpers.js:125 | `find` returns the first event with the name, or nothing when no event has it |
| ContractHelpers.EventArgument | frontend/src/utils/contractHelpers.js:125-126 | a missing event is an error; a result is the argument of the first event with that name |
| ContractHelpers.BookVenue | frontend/src/utils/contractHelpers.js:149-159 | a failed transaction rethrows; a mined one returns `bookingId` of the first `VenueBooked` event |
| ContractHelpers.RegisterVenue | frontend/src/utils/contractHelpers.js:122-132 | a failed transaction rethrows; a mined one returns `venueId` of the first `VenueRegistered` event |
| ContractHelpers.FirstEventWins | frontend/src/utils/contractHelpers.js:152-153 | events of other names before it, and later events of the same name, do not change the id read |
| JsText.Lower | frontend/src/pages/VenueListing.jsx:56 | same length; no upper-case ASCII letter left; each character kept or moved down 32 from an upper-case one |
| JsText.IncludesIff | frontend/src/pages/VenueListing.jsx:56 | `includes` holds exactly when the pattern occurs at some position |
| JsText.Substring | frontend/src/utils/contractHelpers.js:207 | the length is the gap between the two indices after clamping to the text |
| JsText.OrElse | frontend/src/components/BookingCalendar.jsx:138 | a non-empty message is kept and an empty one gives the fallback |
| JsText.NatToString | frontend/src/utils/contractHelpers.js:21 | non-empty decimal digits, with a leading '0' only for zero |
| JsText.NatToStringValue | frontend/src/utils/contractHelpers.js:21 | the digits' value is the number |
| JsText.TrimStart | frontend/src/utils/contractHelpers.js:27 | a suffix of the text; everything removed is white space, and the rest does not start with white space |
| JsText.DigitRun | frontend/src/utils/contractHelpers.js:27 | the longest prefix of digits of the radix |
| JsText.ParseInt | frontend/src/utils/contractHelpers.js:27 | NaN exactly when no digit follows the white space, the sign and a hex prefix |
| JsText.ParseIntOfIntToString | frontend/src/utils/contractHelpers.js:27-31 | an integer's text, after white space and before a non-digit, parses back to that integer (except "0" followed by "x" or "X") |
| JsText.ParseIntBareHexPrefix | frontend/src/utils/contractHelpers.js:27 | "0x" is NaN |
| JsText.ParseIntHex | frontend/src/utils/contractHelpers.js:27 | "0x1A" is 26 |
| JsText.ParseIntSignedWithSuffix | frontend/src/utils/contractHelpers.js:27 | " -42px" is -42 |
| JsText.ParseIntNoDigits | frontend/src/utils/contractHelpers.js:27 | "abc" and "" are NaN |
| BookingCalendar.GetNextSevenDays | frontend/src/components/BookingCalendar.jsx:22-34 | seven midnights, today first, one day apart |
| BookingCalendar.FindSlotIndex | frontend/src/components/BookingCalendar.jsx:148-149 | the first index with the timestamp, or -1 exactly when no slot has it |
| BookingCalendar.ConsecutiveAvailableIff | frontend/src/components/BookingCalendar.jsx:145-162 | available exactly when the start slot is first found at some `k`, the slots `k .. k+duration-1` exist, and all of them are free |
| BookingCalendar.ConsecutiveDownwardClosed | frontend/src/components/BookingCalendar.jsx:151-159 | a shorter block from the same start is available whenever a longer one is |
| BookingCalendar.PastEndNeverAvailable | frontend/src/components/BookingCalendar.jsx:153-157 | a block running past the last slot is never available |
| BookingCalendar.TakenSlotBlocks | frontend/src/components/BookingCalendar.jsx:153-157 | one taken slot inside the block makes it unavailable |
| BookingCalendar.FindSlotIndexOfDistinct | frontend/src/components/BookingCalendar.jsx:148 | with distinct timestamps, each slot is found at its own index |
| BookingCalendar.FindSlotIndexInDay | frontend/src/components/BookingCalendar.jsx:148 | on the day's grid the slot for hour `h` is found at `h - 6` |
| BookingCalendar.AllFreeEveningBlock | frontend/src/components/BookingCalendar.jsx:145-162 | on a free day, 18:00 for 4 hours is available |
| BookingCalendar.LastSlotTwoHours | frontend/src/components/BookingCalendar.jsx:153-157 | 21:00 for 2 hours is never available |
| BookingCalendar.LateTwoHours | frontend/src/components/BookingCalendar.jsx:145-162 | 20:00 for 2 hours is available when both slots are free |
| BookingCalendar.TakenNineteen | frontend/src/components/BookingCalendar.jsx:145-162 | with 19:00 taken, 18:00 for 3 hours is refused but 18:00 for 1 hour is not |
| BookingCalendar.QueryAll | frontend/src/components/BookingCalendar.jsx:77-81 | answers for all slots, in slot order, exactly when no query throws |
| BookingCalendar.AvailabilityMapKeys | frontend/src/components/BookingCalendar.jsx:83-86 | the map's keys are exactly the slots' timestamps |
| BookingCalendar.AvailabilityMapAt | frontend/src/components/BookingCalendar.jsx:84-86 | a slot's timestamp maps to its own answer unless a later slot has the same timestamp |
| BookingCalendar.AvailabilityMapOfDay | frontend/src/components/BookingCalendar.jsx:73-86 | on the day's grid every slot maps to its own answer |
| BookingCalendar.BuildAvailabilityMap | frontend/src/components/BookingCalendar.jsx:83-86 | the `forEach` loop builds the map `AvailabilityMap` |
| BookingCalendar.DateSelectClearsSlot | frontend/src/components/BookingCalendar.jsx:50-53 | picking a date clears the selected slot and changes nothing else |
| BookingCalendar.RefreshAllOrNothing | frontend/src/components/BookingCalendar.jsx:67-95 | the grid is always replaced and the spinner ends off; when every query answers, the map pairs each slot with its answer and has no other key; when any query throws, the old map stays and the error shows |
| BookingCalendar.DateChangeReplacesGrid | frontend/src/components/BookingCalendar.jsx:50-53 | after a date click and the effect it triggers (lines 98-102), the grid is the new day's and the selection is cleared; a slot of another day is not in the grid, so it is never available |
| BookingCalendar.RefreshIdempotent | frontend/src/components/BookingCalendar.jsx:67-95 | refreshing twice against the same contract is refreshing once |
| BookingCalendar.BookingGuard | frontend/src/components/BookingCalendar.jsx:105-109 | with no wallet, venue, slot or contract, nothing is sent and only the error changes |
| BookingCalendar.BookingOutcome | frontend/src/components/BookingCalendar.jsx:110-141 | the request carries the venue, slot and duration; on confirmation the selection is cleared and the grid reloaded; on failure the selection, grid and map are kept and the ledger's message (or the fallback) shows; the spinner ends off |
| BookingCalendar.DurationValuesParse | frontend/src/components/BookingCalendar.jsx:236 | each option value of the picker parses to its number of hours, 1 to 4 |
| BookingCalendar.Calendar.constructor | frontend/src/components/BookingCalendar.jsx:8-15 | the initial state: today, no slot, 1 hour, empty grid and map |
| BookingCalendar.Calendar.HandleDateSelect | frontend/src/components/BookingCalendar.jsx:50-53 | the new state is `AfterDateSelect` |
| BookingCalendar.Calendar.HandleSlotSelect | frontend/src/components/BookingCalendar.jsx:56-58 | the slot becomes the selection |
| BookingCalendar.Calendar.HandleDurationChange | frontend/src/components/BookingCalendar.jsx:61-64 | the duration is `parseInt` of the chosen option and stays within 1 to 4 |
| BookingCalendar.Calendar.AreConsecutiveSlotsAvailable | frontend/src/components/BookingCalendar.jsx:145-162 | the loop's answer is `ConsecutiveAvailable` over the current grid and map |
| BookingCalendar.Calendar.ClickSlot | frontend/src/components/BookingCalendar.jsx:217-218 | a click selects the slot exactly when its block is available, and otherwise leaves the selection alone |
| BookingCalendar.Calendar.CheckAvailability | frontend/src/components/BookingCalendar.jsx:67-95 | the new state is `AfterRefresh` |
| BookingCalendar.Calendar.SelectDate | frontend/src/components/BookingCalendar.jsx:98-102 | a date click followed by its effect: the new state is `AfterRefresh` of `AfterDateSelect` |
| BookingCalendar.Calendar.HandleBookVenue | frontend/src/components/BookingCalendar.jsx:105-142 | the request sent is `BookingRequestOf`, with a duration of 1 to 4; the new state is `AfterBooking` |
| VenueListing.Filter | frontend/src/pages/VenueListing.jsx:55-57 | `filter` keeps only elements that pass, and never more than it was given |
| VenueListing.FilterIsSubsequence | frontend/src/pages/VenueListing.jsx:55-57 | the result keeps the original order |
| VenueListing.FilterMembership | frontend/src/pages/VenueListing.jsx:55-57 | an element is kept exactly when it was present and passes |
| VenueListing.FilterCongruent | frontend/src/pages/VenueListing.jsx:63-66 | two tests that agree on every venue filter the same |
| VenueListing.FilterFilter | frontend/src/pages/VenueListing.jsx:54-76 | two filters in turn equal one filter by both tests |
| VenueListing.FilterKeepsAll | frontend/src/pages/VenueListing.jsx:51 | a test every element passes changes nothing |
| VenueListing.SportMatchesIff | frontend/src/pages/VenueListing.jsx:54-58 | the sport filter keeps a venue exactly when the lower-cased filter occurs in the lower-cased sport type |
| VenueListing.NoFiltersKeepAll | frontend/src/pages/VenueListing.jsx:48-79 | with all three fields empty the list is shown as loaded |
| VenueListing.MatchingIsSubsequence | frontend/src/pages/VenueListing.jsx:48-79 | the filtered list is in the loaded order and holds exactly the loaded venues that pass every set filter |
| VenueListing.MatchingIdempotent | frontend/src/pages/VenueListing.jsx:48-79 | filtering the filtered list again changes nothing |
| VenueListing.EffectIsMatching | frontend/src/pages/VenueListing.jsx:51-78 | the three successive filters equal one filter by the conjunction of the set fields |
| VenueListing.Listing.constructor | frontend/src/pages/VenueListing.jsx:12-21 | no venues, loading, no error, empty filters |
| VenueListing.Listing.FetchVenues | frontend/src/pages/VenueListing.jsx:24-45 | without a contract only loading ends; a load replaces both lists; a failure keeps them and shows the error |
| VenueListing.Listing.ApplyFilters | frontend/src/pages/VenueListing.jsx:48-79 | with no venues nothing changes; otherwise the filtered list is `Matching` of the venues and filters |
| VenueListing.Listing.HandleFilterChange | frontend/src/pages/VenueListing.jsx:82-88 | only the named field takes the new value |
| VenueListing.Listing.ClearFilters | frontend/src/pages/VenueListing.jsx:234 | all three filter fields become "" |
| VenueListing.Listing.ChangeFilter | frontend/src/pages/VenueListing.jsx:82-88 | a filter change followed by the filter effect (lines 48-79): only the named field changes; the shown list is `Matching` of the venues and the new filters, or stays when no venue is loaded |
| VenueListing.Listing.ResetFilters | frontend/src/pages/VenueListing.jsx:234 | Clear Filters followed by the filter effect: the filters are empty and every loaded venue is shown |
| VenueListing.Listing.LoadVenues | frontend/src/pages/VenueListing.jsx:24-79 | a load replaces the venues, keeps any earlier error, and shows those passing the current filters; a failure or a missing contract keeps both lists |
| VenueListing.SuccessiveAsWritten | frontend/src/pages/VenueListing.jsx:61-67 | as written, the effect throws exactly when a price range is set and a venue is left after the sport filter |
| VenueListing.PriceRangeThrows | frontend/src/pages/VenueListing.jsx:61-67 | with no price range the effect as written shows `Matching`; with one, a single venue makes it throw |
| WalletConnect.HexRunIff | frontend/src/components/WalletConnect.jsx:63 | a run of `n` hex digits is exactly `n` characters, each a hex digit of either case |
| WalletConnect.AddressIff | frontend/src/components/WalletConnect.jsx:63-66 | an address is accepted exactly when it has length 42, starts with lower-case "0x", and has hex digits at positions 2 to 41 |
| WalletConnect.AddressRejects | frontend/src/components/WalletConnect.jsx:63-66 | "0x" and 40 hex digits is accepted; "0X", 39 digits and 41 digits are refused |
| WalletConnect.ValidateTransfer | frontend/src/components/WalletConnect.jsx:57-77 | passing means connected, with an account, a valid address, a valid amount and enough balance; a failure is one of the four messages |
| WalletConnect.FirstFailure | frontend/src/components/WalletConnect.jsx:57-77 | no failure exactly when every check passes; otherwise the message of a failed check with every earlier check passing |
| WalletConnect.ValidationOrder | frontend/src/components/WalletConnect.jsx:57-77 | the chain of early returns reports the first failed check of the list fields, address, amount, balance |
| WalletConnect.ValidationMessages | frontend/src/components/WalletConnect.jsx:57-77 | each message appears exactly when its check fails after every earlier check passed |
| WalletConnect.MissingFieldsRefused | frontend/src/components/WalletConnect.jsx:57-60 | no wallet, no account, or an empty address or amount gives the fields message, sends nothing, and changes nothing else |
| WalletConnect.TransferValidation | frontend/src/components/WalletConnect.jsx:57-81 | a transaction to the typed address for the typed amount is sent exactly when every check passes; a failed check sets only the error, so the spinner is not touched |
| WalletConnect.TransferOutcome | frontend/src/components/WalletConnect.jsx:79-111 | the spinner ends off and the withdraw flags are untouched; success clears both fields with no error; failure keeps both fields and shows the wallet's message or "Failed to transfer ETH" |
| WalletConnect.ConfirmedTransferEmptiesForm | frontend/src/components/WalletConnect.jsx:103-105 | after a confirmed transfer, submitting again is refused for missing fields |
| WalletConnect.TransferAsWrittenFails | frontend/src/components/WalletConnect.jsx:83-108 | as written, a transfer that passes every check keeps both fields and shows "ethers is not defined" instead of succeeding |
| WalletConnect.WithdrawGuard | frontend/src/components/WalletConnect.jsx:32 | with no wallet or contract the withdraw button changes nothing |
| WalletConnect.WithdrawOutcome | frontend/src/components/WalletConnect.jsx:34-50 | the error and success are reset before the attempt: success leaves no error, failure leaves no success and shows the message or the fallback; the transfer form is untouched |
| WalletConnect.Wallet.constructor | frontend/src/components/WalletConnect.jsx:7-14 | every flag false, both fields "", no errors |
| WalletConnect.Wallet.SetTransferAddress | frontend/src/components/WalletConnect.jsx:157 | the address field takes the typed value |
| WalletConnect.Wallet.SetTransferAmount | frontend/src/components/WalletConnect.jsx:169 | the amount field takes the typed value |
| WalletConnect.Wallet.HandleTransfer | frontend/src/components/WalletConnect.jsx:54-112 | the transaction sent is `TransferSent`, and the new state is `AfterTransfer` |
| WalletConnect.Wallet.HandleWithdrawPayment | frontend/src/components/WalletConnect.jsx:31-51 | attempted exactly when connected with a contract; the new state is `AfterWithdraw` |

## Left out

- **Floating-point amounts.** `handleBookVenue` computes the price as `parseFloat(hourlyRate) * bookingDuration` (BookingCalendar.jsx:18-19) and passes its text to `parseEther` (BookingCalendar.jsx:115). The model leaves the price out, and `BookingRequest` carries no payment. `parseEther` throws on exponent text such as "1e-7" before `contract.bookVenue` is called. The model treats such a throw as a `Failed` outcome, and `HandleBookVenue`'s `request` then names a request that was never sent. The amount checks of the transfer form are inputs: `amountValid` stands for `parseFloat` not NaN and greater than zero, and `affordable` stands for not greater than `parseFloat(balance)`. The price-range filter is an input too: `inPriceRange`, applied only when the range field is non-empty.
- **The missing `ethers` import.** VenueListing.jsx:64 and WalletConnect.jsx:85-89 use `ethers` without importing it; see "## Findings". The rest of the model treats those calls as working: a given price-range predicate and a given transaction outcome.
- **Dates and times.** `Date`, `setHours`, `setDate`, locale labels and daylight-saving shifts are left out. A day is its midnight in epoch seconds, so `GenerateTimeSlots` and `GetNextSevenDays` assume days of 24 hours and slot labels are dropped.
- **Case folding.** `toLowerCase` is ASCII only. Unicode case mapping is not modelled.
- JsText.ParseInt: uses unbounded integers, so it does not model the loss of precision above 2^53, and it does not model the Infinity that a very long digit run produces.
- **Large numbers as text.** `FormatDuration` writes integers in plain decimal. JavaScript switches to exponent notation at 10^21 and above.
- **The refresh after a booking.** `checkAvailability()` after a confirmed booking is not awaited in the source. The model runs it at once, before `loading` is turned off.
- **External callbacks.** `refreshBalance`, `onBookingComplete`, `console.error`, wallet connect and disconnect, and `tx.wait` are external and left out. A transaction has only its outcome.
- **`bookVenue`'s argument conversions.** No file of the front end calls the `bookVenue` helper (contractHelpers.js:135-160). `BookingCalendar.jsx:116` calls `contract.bookVenue` itself and does not read the receipt (BookingCalendar.jsx:123). `ContractHelpers.BookVenue` models the helper's receipt handling on its own. The helper's `parseInt` of its three arguments (contractHelpers.js:138-140) is not modelled.
- **`toNumber`.** The model does not check that a BigNumber id fits in 2^53, which `toNumber` throws on.
- **Remote helpers that only forward a call.** These are `getAllVenues`, `getUserBookings`, `checkTimeSlotAvailability`, `cancelBooking` and `withdrawPayment`. Their results are inputs to the handlers that use them.
- **Rendering and browser form checks.** The disabled attributes, the slot colours, the view-mode toggle and every `toFixed` display are rendering only. The transfer inputs also carry browser checks the model does not apply: `required` on both inputs (WalletConnect.jsx:160, 175) and `step="0.00001" min="0.00001" max={balance}` on the amount (WalletConnect.jsx:171-173). The form has no `noValidate`, so the browser does not fire `onSubmit` when a field is empty or the amount is below the minimum, above the balance or off the step. `Wallet.HandleTransfer` is also defined on those inputs, which the browser would block before the handler runs. The only click gate modelled is the slot click (`ClickSlot`).
- **Effects run only through the composed methods.** The effect at BookingCalendar.jsx:98-102 re-runs `checkAvailability` when the date, venue or contract changes. The effect at VenueListing.jsx:48-79 re-filters when the filters or the venue list change. `Calendar.HandleDateSelect`, `Listing.HandleFilterChange`, `Listing.ClearFilters` and `Listing.FetchVenues` on their own do not run these effects. A caller of one of them must follow it with `CheckAvailability` or `ApplyFilters`, as `SelectDate`, `ChangeFilter`, `ResetFilters` and `LoadVenues` do. The effects that run on mount, and the re-run when the venue or the contract changes, are not modelled separately: they are a call to `CheckAvailability` or `ApplyFilters`.
- **Lost updates.** Setters run in program order. React's batching of state updates and the interleaving of concurrent effects are not modelled.
- BookingCalendar.Calendar.HandleDurationChange: requires the value to be one of the picker's options "1" to "4", since the select element offers no other value; other text would make `parseInt` NaN.

## Findings

| source | as written | input that shows it | evidently intended | confidence | as-written member | corrected member |
|---|---|---|---|---|---|---|
| frontend/src/components/WalletConnect.jsx:85-89 | `ethers` is used but not imported, so `new ethers.providers.Web3Provider` throws a ReferenceError inside the `try`; every transfer that passes the checks is never sent and shows "ethers is not defined" | a connected wallet, address "0x" and 40 hex digits, amount "0.01" within the balance | the transaction is sent and, once mined, both fields clear and success shows | not executed; holds unless the page loads a global `ethers` script (frontend/index.html is not part of this model) | WalletConnect.TransferAsWrittenFails | WalletConnect.TransferOutcome |
| frontend/src/pages/VenueListing.jsx:64 | `ethers` is used but not imported, so the price callback throws before `setFilteredVenues` whenever a price range is set and a venue is left after the sport filter | one loaded venue, price range "0-0.01" (the first option of the select), no sport or search term | the list is narrowed to the venues in the price range | not executed; same proviso as above | VenueListing.PriceRangeThrows | VenueListing.EffectIsMatching |
