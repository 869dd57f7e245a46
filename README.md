# CalAnywhere scheduling core in Dafny

CalAnywhere lets a calendar owner publish a temporary scheduling link from a
public iCalendar (ICS) feed. Visitors see the owner's free hours and send an
appointment request. This project models the logic behind that flow and proves
what it promises:

- `RRuleOptions` (`rrule_options.dfy`) covers how a recurrence rule attached to an
  event becomes what the rrule library is given (`parseRRule`). A rule string
  loses one leading `RRULE:`. A rule object is turned into an options record,
  one conditional assignment at a time.
- `BusySlots` (`busy_slots.dfy`) turns a parsed feed into sorted busy slots
  (`fetchAndParseCalendar`) and reports whether a feed is usable
  (`validateCalendarUrl`). It covers:
  - single events kept whole when they overlap the window, boundaries included;
  - recurring events expanded and filtered by EXDATE dates;
  - the fallback to the event itself when a rule cannot be built or expanded;
  - the final sort by start.
- `Countdown` (`countdown.dfy`) is the expiry countdown shown on both pages.
- `HomePage` (`home_page.dfy`) is the three-step page-creation wizard: validate
  the calendar, enter details, show the link. It covers each handler's state
  transitions and the Back button.
- `SchedulingPage` (`scheduling_page.dfy`) covers the visitor's page:
  - the free/busy overlap test;
  - the grid of hourly candidates from 9:00 to 16:00 for at most seven days;
  - the state changes of loading the page, selecting a slot, editing the form,
    and submitting a request.
- `Wrappers` (`wrappers.dfy`) is an `Option` type.

Modelling choices:

- **Time.** Times are integer milliseconds since the Unix epoch. An ISO 8601
  string is represented by the instant it denotes. For years 0000–9999,
  comparing two UTC ISO strings orders them like their instants, so the sort
  compares start instants. The UTC date used to match EXDATEs is `ms / 86400000`, the
  day number of the instant.
- **Outside effects as inputs.** These are all inputs to the model:
  - the rrule library's expansion, a function from what `parseRRule` built and
    the window to occurrence starts, or `None` when it throws;
  - the numeric values of the library's `Frequency` enumeration;
  - the local-time calendar arithmetic of the browser, a function from day
    offset and hour to an instant;
  - the clock;
  - the outcome of each HTTP request.
- **JavaScript truthiness is explicit.** An empty rule string counts as "no
  recurrence". A falsy `until` is ignored. A missing or empty error message
  gives "Unknown error". The `??` fallbacks of the frontend keep an empty
  server message.
- **Frequency names.** The `freqMap[...] || RRule.WEEKLY` lookup is modelled as
  written. In the published library `YEARLY` is 0, so the string "YEARLY"
  becomes WEEKLY, while a numeric frequency of 0 is kept.
  `RRuleOptions.YearlyStringBecomesWeekly` proves this.
- **What the code does not do.** The code does not merge or de-duplicate
  busy slots, does not break ties between equal starts by end (the sort keeps
  input order), and applies no ceilings on event or occurrence counts; the
  model does none of these either.

## Model

| member | source | states |
|---|---|---|
| RRuleOptions.StripPrefix | backend/src/services/calendar.ts:17-19 | A string that starts with `RRULE:` is exactly that prefix followed by the result; any other string is returned unchanged |
| RRuleOptions.ToUpper | backend/src/services/calendar.ts:44 | Upper-casing keeps the length, works character by character, and leaves only characters that upper-casing does not change further |
| RRuleOptions.ToUpperIdempotent | backend/src/services/calendar.ts:44 | Upper-casing an already upper-cased string changes nothing |
| RRuleOptions.StringFreq | backend/src/services/calendar.ts:35-44 | An unknown name gives WEEKLY; a known name whose code is 0 (falsy) also gives WEEKLY; every other known name gives its own code |
| RRuleOptions.ParseRRule | backend/src/services/calendar.ts:13-60 | The step-by-step construction (early return for text, then one conditional update per property, `byday` last) yields exactly the declarative `Parsed` rule |
| RRuleOptions.TextRuleStripsPrefixOnce | backend/src/services/calendar.ts:15-21 | A text rule loses exactly one leading `RRULE:`: a doubled prefix keeps its second copy, other text passes through, and `dtstart` is ignored |
| RRuleOptions.ObjectRuleFields | backend/src/services/calendar.ts:24-57 | An object rule gives options with `dtstart`, WEEKLY and interval 1 by default, each present property copied, `until` only when truthy, and `byday` overriding `byweekday` |
| RRuleOptions.StringFreqIgnoresCase | backend/src/services/calendar.ts:44 | For every string, the string and its upper-case form give the same frequency, so the lookup ignores case |
| RRuleOptions.YearlyStringBecomesWeekly | backend/src/services/calendar.ts:33-44 | With the published codes, any string that upper-cases to "YEARLY" becomes WEEKLY, not YEARLY, while the number 0 stays YEARLY |
| RRuleOptions.PublishedNonYearlyNamesKept | backend/src/services/calendar.ts:35-44 | With the published codes, every other frequency name maps to its own code |
| BusySlots.DayKey | backend/src/services/calendar.ts:114-120 | The day number names the UTC day containing the instant: `day*86400000 <= ms < (day+1)*86400000` |
| BusySlots.InsertByStart | backend/src/services/calendar.ts:160 | Inserting into a list sorted by start keeps it sorted and adds exactly the one slot (multiset) |
| BusySlots.SortByStart | backend/src/services/calendar.ts:159-160 | The sort's result is ordered by start and is a permutation of its input |
| BusySlots.ExdateKeySet | backend/src/services/calendar.ts:109-116 | The EXDATE loop builds exactly the set of UTC dates of the values, or reports failure when a value is not a valid date |
| BusySlots.PushOccurrences | backend/src/services/calendar.ts:118-134 | The occurrence loop appends exactly `OccurrenceSlots` of the occurrences to the list |
| BusySlots.PushItem | backend/src/services/calendar.ts:90-157 | One pass of the item loop appends exactly that item's `Contribution`, including the catch fallback |
| BusySlots.FetchAndParseCalendar | backend/src/services/calendar.ts:66-163 | The result is the collected slots sorted by start: sorted, a permutation of what was collected, and every slot overlapping `[startDate, endDate]` |
| BusySlots.SortedInWindow | backend/src/services/calendar.ts:127-162 | After sorting, every busy slot still overlaps the window, boundaries included |
| BusySlots.ContributionInWindow | backend/src/services/calendar.ts:127-155 | Every slot one item adds overlaps the window, whichever branch added it |
| BusySlots.CollectInWindow | backend/src/services/calendar.ts:90-157 | Every collected slot overlaps the window |
| BusySlots.OccurrenceSlotsMembers | backend/src/services/calendar.ts:118-134 | A slot comes from the occurrences iff its start is an occurrence, its date is not excluded, its length is the event's duration and it overlaps the window |
| BusySlots.CollectMembers | backend/src/services/calendar.ts:90-157 | A slot is collected iff some item contributes it |
| BusySlots.NonEventsContributeNothing | backend/src/services/calendar.ts:92-95 | Non-VEVENT items, and events without a start or an end, add nothing |
| BusySlots.ContributionKeepsDuration | backend/src/services/calendar.ts:123-125 | Every slot an item adds belongs to an event with a start and end, and is exactly as long as that event |
| BusySlots.RecurringEventSlots | backend/src/services/calendar.ts:101-134 | For an expandable rule with valid EXDATEs, a slot is added iff it starts at an occurrence whose UTC date differs from every EXDATE's date, lasts the event's duration, and overlaps the window |
| BusySlots.FallbackOnFailure | backend/src/services/calendar.ts:135-147 | When the rule cannot be built or expanded, or an EXDATE is invalid, the event adds exactly its own slot when it overlaps the window, and no occurrence |
| BusySlots.SortKeepsEverySlot | backend/src/services/calendar.ts:159-162 | Sorting keeps the length and the count of every slot, duplicates included |
| BusySlots.ErrorText | backend/src/services/calendar.ts:186 | The reported error is never empty: the error's message when it has a non-empty one, otherwise "Unknown error" |
| BusySlots.ValidateCalendarUrl | backend/src/services/calendar.ts:169-189 | Valid iff the feed loaded. When valid, there is no error and the event count is the number of busy slots in the 60 days from now. When invalid, the count is 0 and the error text is set |
| Countdown.TotalMinutes | frontend/src/pages/HomePage.tsx:83-84 | The whole minutes left are never negative, are the floor of the remaining time in minutes, and are 0 when less than a minute remains |
| Countdown.Label | frontend/src/pages/HomePage.tsx:82-88 | The label's hours are non-negative, its minutes lie in 0..59, and together they give the total minutes left |
| Countdown.LabelIsUniqueSplit | frontend/src/pages/SchedulingPage.tsx:168-170 | The label is the only hours/minutes split with minutes below 60, so it reads back to the total |
| Countdown.ExpiredShowsZero | frontend/src/pages/SchedulingPage.tsx:165-170 | With less than a minute left, or an expired link, the label is 0h 0m |
| Countdown.CountdownNeverIncreases | frontend/src/pages/SchedulingPage.tsx:165-167 | A later clock reading never shows more minutes |
| HomePage.Wizard.constructor | frontend/src/pages/HomePage.tsx:13-30 | The wizard starts on step 1, not loading, with no error, no event count and no created page |
| HomePage.Wizard.BeginRequest | frontend/src/pages/HomePage.tsx:33-35 | Each handler first clears the error and starts loading |
| HomePage.Wizard.HandleValidateCalendar | frontend/src/pages/HomePage.tsx:32-54 | It posts the URL with the preview owner details. On success it records the event count and moves to step 2. On failure it keeps the step and count and shows the server's message or the default text. Loading ends either way, and the wizard stays valid |
| HomePage.Wizard.HandleCreatePage | frontend/src/pages/HomePage.tsx:56-80 | It posts every form field. On success it stores the created page and moves to step 3. On failure it keeps the step and page and shows the message or the default. Loading ends either way |
| HomePage.Wizard.Back | frontend/src/pages/HomePage.tsx:250 | Back returns to step 1 and keeps the wizard valid |
| HomePage.Walkthrough | frontend/src/pages/HomePage.tsx:32-80 | The sequence validate, Back, validate, failed create, create ends on step 3 with the created page and the event count from validation |
| SchedulingPage.AnyOverlapIff | frontend/src/pages/SchedulingPage.tsx:66-70 | The scan finds an overlap iff some busy slot starts before the candidate ends and ends after it starts |
| SchedulingPage.IsBusyIffOverlap | frontend/src/pages/SchedulingPage.tsx:64-71 | A candidate is busy iff a page is loaded and one of its busy slots strictly overlaps it; touching at an end point is free |
| SchedulingPage.FreeSlots | frontend/src/pages/SchedulingPage.tsx:93-107 | A day offers at most one slot per hour scanned |
| SchedulingPage.DayCount | frontend/src/pages/SchedulingPage.tsx:79-81 | The grid covers exactly `max(0, min(7, dateRangeDays))` days: at most 7, never more than `dateRangeDays` unless it is 0, and 7 or `dateRangeDays` or 0 for a negative range |
| SchedulingPage.Grid | frontend/src/pages/SchedulingPage.tsx:81-109 | The grid has one entry per day |
| SchedulingPage.GridDays | frontend/src/pages/SchedulingPage.tsx:81-109 | Entry `d` of the grid is day `d`: that day's local midnight with its free slots |
| SchedulingPage.DayFreeSlots | frontend/src/pages/SchedulingPage.tsx:91-107 | The hour loop returns exactly the free candidates of the day |
| SchedulingPage.BuildSlots | frontend/src/pages/SchedulingPage.tsx:74-111 | Without a page the grid is empty; with one it is exactly `Grid` over `DayCount` days |
| SchedulingPage.FreeSlotsMembers | frontend/src/pages/SchedulingPage.tsx:93-107 | A slot is offered iff it is the candidate of some hour from 9 up to the bound and that candidate is not busy |
| SchedulingPage.CandidateOfferedIffFree | frontend/src/pages/SchedulingPage.tsx:93-106 | Each working-hour candidate is offered iff it is not busy, and every offered slot lasts the page's duration |
| SchedulingPage.FreeSlotsAscending | frontend/src/pages/SchedulingPage.tsx:93-107 | When a day's local hours follow one another in time, the offered slots start at strictly increasing instants |
| SchedulingPage.SchedulingForm.constructor | frontend/src/pages/SchedulingPage.tsx:23-35 | The page starts loading, with no page, no error, no selection, empty inputs and no message |
| SchedulingPage.SchedulingForm.PageLoaded | frontend/src/pages/SchedulingPage.tsx:37-62 | A loaded page is stored. A failed fetch sets the server's message or the default text. Loading ends either way |
| SchedulingPage.SchedulingForm.SelectSlot | frontend/src/pages/SchedulingPage.tsx:232 | Clicking a slot selects it |
| SchedulingPage.SchedulingForm.Edit | frontend/src/pages/SchedulingPage.tsx:294-327 | Typing sets exactly the edited input and leaves the other three unchanged |
| SchedulingPage.SchedulingForm.HandleSubmit | frontend/src/pages/SchedulingPage.tsx:113-144 | Without a page, slug or selection nothing changes and nothing is sent. Otherwise the request carries the four inputs and the slot. Success sets the confirmation and clears the inputs and selection. Failure keeps them and sets the error. Submitting ends either way |

## Left out

- Fetching the feed over HTTP (axios, timeout, User-Agent) and ICS parsing (node-ical) are outside the model. The model starts from the parsed items; a fetch or parse failure is the `FeedFailed` input of validation.
- The rrule library's own expansion (`RRule.fromString`, `new RRule`, `between`) is a function parameter. The model fixes what it is given, not what it returns.
- The VTIMEZONE map built at the top of fetchAndParseCalendar is left out, because nothing reads it.
- Logging of rule errors (`console.error`) is left out.
- Instants outside JavaScript's date range are not modelled. An invalid `Date` outside EXDATE values, for example from an unparsable event start, is also not modelled. Only an invalid EXDATE value is represented, as the case that makes the conversion throw.
- String comparison with `localeCompare` is modelled as comparison of the start instants, which gives the same order only for years 0000–9999. Outside that range `toISOString` writes six-digit signed years, which `localeCompare` does not order in time. Formatting instants as ISO 8601 strings is left out.
- `BusySlots.SortByStart`: the stability of `Array.prototype.sort` is built into the function (equal starts keep their order) but not stated as a separate contract.
- `RRuleOptions.ToUpper`: only the characters whose upper case can contribute a letter of a frequency name are mapped. Every other character is kept, which leaves the table lookup unchanged.
- Local calendar arithmetic (`new Date(y, m, d, h)`, daylight-saving shifts, `getDate`) is the `localTime` parameter. `SchedulingPage.FreeSlotsAscending` assumes the hours of a day are increasing in time.
- The decimal rendering of the countdown label (`${h}h ${m}m`) and of dates and times is left out. `Countdown.Label` returns the two numbers.
- Rendering (JSX), clipboard copy, navigation, and the share URL built from `window.location` are left out.
- React's state batching, asynchronous interleaving of handlers, and the unmount flag of the page fetch are left out. Each handler is one atomic transition, given the request's outcome.
- `frontend/src/App.tsx`, `frontend/tailwind.config.cjs`, `backend/src/db/migrate.ts` and `backend/src/db/client.ts` are routing, styling and storage. They are not part of this model.
