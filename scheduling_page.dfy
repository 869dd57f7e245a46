/** The public scheduling page (frontend/src/pages/SchedulingPage.tsx): the
    free/busy test, the grid of free hourly slots for the coming days, and the
    request form's submit handler. Times are milliseconds since the Unix epoch.
    Local-time construction is a parameter: `localTime(d, h)` is the instant of
    `h` o'clock local time on the `d`-th day from today, and `localTime(d, 0)`
    that day's local midnight. */
module SchedulingPage {
  import opened Wrappers
  import Countdown

  /** A busy slot of the page, its two ISO strings read as instants. */
  datatype Interval = Interval(start: int, end: int)

  /** The page as the server returns it. */
  datatype PageData = PageData(
    slug: string,
    ownerName: string,
    ownerEmail: string,
    bio: Option<string>,
    defaultDurationMinutes: int,
    bufferMinutes: int,
    dateRangeDays: int,
    expiresAt: int,
    busySlots: seq<Interval>)

  /** A candidate appointment. */
  datatype Slot = Slot(start: int, end: int)

  /** One day of the grid: its local midnight and its free slots. */
  datatype DaySlots = DaySlots(date: int, slots: seq<Slot>)

  const FirstHour: int := 9
  const EndHour: int := 17
  const MaxDays: int := 7

  /** Whether some busy slot starts before `end` and ends after `start`. */
  function AnyOverlap(busy: seq<Interval>, start: int, end: int): bool {
    if busy == [] then false
    else (busy[0].start < end && busy[0].end > start) || AnyOverlap(busy[1..], start, end)
  }

  /** isBusy: false without a page, otherwise whether a busy slot overlaps. */
  function IsBusy(page: Option<PageData>, start: int, end: int): bool {
    page.Some? && AnyOverlap(page.value.busySlots, start, end)
  }

  /** The scan finds an overlap exactly when some busy slot strictly
      overlaps `[start, end]`. */
  lemma {:induction false} AnyOverlapIff(busy: seq<Interval>, start: int, end: int)
    ensures AnyOverlap(busy, start, end) <==>
      exists i :: 0 <= i < |busy| && busy[i].start < end && busy[i].end > start
  {
    if busy != [] {
      AnyOverlapIff(busy[1..], start, end);
      if exists i :: 0 <= i < |busy| && busy[i].start < end && busy[i].end > start {
        var i :| 0 <= i < |busy| && busy[i].start < end && busy[i].end > start;
        if i > 0 {
          assert busy[1..][i - 1] == busy[i];
        }
      }
    }
  }

  /** isBusy holds exactly when there is a page and one of its busy slots
      strictly overlaps `[start, end]`: a busy slot that only touches the
      candidate at an end point leaves it free. */
  lemma IsBusyIffOverlap(page: Option<PageData>, start: int, end: int)
    ensures IsBusy(page, start, end) <==>
      (page.Some? &&
       exists i :: 0 <= i < |page.value.busySlots| &&
         page.value.busySlots[i].start < end && page.value.busySlots[i].end > start)
  {
    if page.Some? {
      AnyOverlapIff(page.value.busySlots, start, end);
    }
  }

  /** The candidate at hour `h` of day `d`, `duration` minutes long. */
  function Candidate(localTime: (int, int) -> int, d: int, h: int, duration: int): Slot {
    Slot(localTime(d, h), localTime(d, h) + duration * Countdown.MsPerMinute)
  }

  /** The free candidates of day `d` among the hours 9 .. h-1, in hour order. */
  function FreeSlots(page: PageData, localTime: (int, int) -> int, d: int, h: int): (r: seq<Slot>)
    ensures |r| <= if h <= FirstHour then 0 else h - FirstHour
    decreases h
  {
    if h <= FirstHour then []
    else
      var c := Candidate(localTime, d, h - 1, page.defaultDurationMinutes);
      FreeSlots(page, localTime, d, h - 1) + (if IsBusy(Some(page), c.start, c.end) then [] else [c])
  }

  /** `Math.min(7, page.dateRangeDays)` days, none when that is not positive. */
  function DayCount(page: PageData): (n: int)
    ensures 0 <= n <= MaxDays
    ensures n == MaxDays || n == page.dateRangeDays || (n == 0 && page.dateRangeDays < 0)
    ensures n <= page.dateRangeDays || n == 0
  {
    var days := if MaxDays < page.dateRangeDays then MaxDays else page.dateRangeDays;
    if days < 0 then 0 else days
  }

  /** The first `n` days of the grid, in day order. */
  function Grid(p: PageData, localTime: (int, int) -> int, n: int): (r: seq<DaySlots>)
    requires n >= 0
    ensures |r| == n
  {
    if n == 0 then []
    else Grid(p, localTime, n - 1) + [DaySlots(localTime(n - 1, 0), FreeSlots(p, localTime, n - 1, EndHour))]
  }

  /** Entry `d` of the grid is day `d`: its local midnight and its free slots. */
  lemma {:induction false} GridDays(p: PageData, localTime: (int, int) -> int, n: int, d: int)
    requires 0 <= d < n
    ensures Grid(p, localTime, n)[d] == DaySlots(localTime(d, 0), FreeSlots(p, localTime, d, EndHour))
  {
    if d < n - 1 {
      GridDays(p, localTime, n - 1, d);
    }
  }

  /** The inner loop of buildSlots: the free candidates of day `d`, hour by hour. */
  method DayFreeSlots(p: PageData, localTime: (int, int) -> int, d: int) returns (slots: seq<Slot>)
    ensures slots == FreeSlots(p, localTime, d, EndHour)
  {
    var duration := p.defaultDurationMinutes;
    slots := [];
    var h := FirstHour;
    while h < EndHour
      invariant FirstHour <= h <= EndHour
      invariant slots == FreeSlots(p, localTime, d, h)
    {
      var start := localTime(d, h);
      var end := start + duration * Countdown.MsPerMinute;
      if !IsBusy(Some(p), start, end) {
        slots := slots + [Slot(start, end)];
      }
      h := h + 1;
    }
  }

  /** buildSlots: without a page no days; otherwise `min(7, dateRangeDays)`
      days (none when that is not positive), each its local midnight with
      the free candidates of that day. */
  method BuildSlots(page: Option<PageData>, localTime: (int, int) -> int) returns (out: seq<DaySlots>)
    ensures page.None? ==> out == []
    ensures page.Some? ==> out == Grid(page.value, localTime, DayCount(page.value))
  {
    if page.None? {
      return [];
    }
    out := [];
    var p := page.value;
    var days := if MaxDays < p.dateRangeDays then MaxDays else p.dateRangeDays;
    assert days <= 0 ==> DayCount(p) == 0;
    assert days > 0 ==> DayCount(p) == days;
    var d := 0;
    while d < days
      invariant 0 <= d && (d <= days || d == 0)
      invariant out == Grid(p, localTime, d)
    {
      var day := localTime(d, 0);
      var slots := DayFreeSlots(p, localTime, d);
      GridStep(p, localTime, d);
      out := out + [DaySlots(day, slots)];
      d := d + 1;
    }
  }

  /** One more day appends that day to the grid. */
  lemma GridStep(p: PageData, localTime: (int, int) -> int, d: int)
    requires d >= 0
    ensures Grid(p, localTime, d + 1) == Grid(p, localTime, d) + [DaySlots(localTime(d, 0), FreeSlots(p, localTime, d, EndHour))]
  {
  }

  /** The free list holds exactly the candidates of hours 9 .. h-1 that are
      not busy: every listed slot is such a candidate, and every such
      candidate is listed. */
  lemma {:induction false} FreeSlotsMembers(page: PageData, localTime: (int, int) -> int, d: int, h: int, slot: Slot)
    requires h <= EndHour
    ensures slot in FreeSlots(page, localTime, d, h) <==>
      exists k :: FirstHour <= k < h &&
        slot == Candidate(localTime, d, k, page.defaultDurationMinutes) &&
        !IsBusy(Some(page), slot.start, slot.end)
  {
    if h > FirstHour {
      FreeSlotsMembers(page, localTime, d, h - 1, slot);
      var c := Candidate(localTime, d, h - 1, page.defaultDurationMinutes);
      if slot == c && !IsBusy(Some(page), c.start, c.end) {
        assert slot in FreeSlots(page, localTime, d, h);
      }
    }
  }

  /** A candidate hour of the working day is offered exactly when it is not
      busy, and an offered slot lasts the page's duration. */
  lemma CandidateOfferedIffFree(page: PageData, localTime: (int, int) -> int, d: int, h: int)
    requires FirstHour <= h < EndHour
    ensures var c := Candidate(localTime, d, h, page.defaultDurationMinutes);
      (c in FreeSlots(page, localTime, d, EndHour) <==> !IsBusy(Some(page), c.start, c.end))
    ensures forall s :: s in FreeSlots(page, localTime, d, EndHour) ==>
      s.end - s.start == page.defaultDurationMinutes * Countdown.MsPerMinute
  {
    var c := Candidate(localTime, d, h, page.defaultDurationMinutes);
    FreeSlotsMembers(page, localTime, d, EndHour, c);
    forall s | s in FreeSlots(page, localTime, d, EndHour)
      ensures s.end - s.start == page.defaultDurationMinutes * Countdown.MsPerMinute
    {
      FreeSlotsMembers(page, localTime, d, EndHour, s);
    }
  }

  /** Start instants strictly increase along the sequence. */
  ghost predicate StrictlyAscending(r: seq<Slot>) {
    forall i, j :: 0 <= i < j < |r| ==> r[i].start < r[j].start
  }

  /** When local hours of a day follow one another in time, the offered
      slots start at strictly increasing instants. */
  lemma {:induction false} FreeSlotsAscending(page: PageData, localTime: (int, int) -> int, d: int, h: int)
    requires h <= EndHour
    requires forall h1, h2 :: FirstHour <= h1 < h2 < EndHour ==> localTime(d, h1) < localTime(d, h2)
    ensures StrictlyAscending(FreeSlots(page, localTime, d, h))
  {
    if h > FirstHour {
      FreeSlotsAscending(page, localTime, d, h - 1);
      var init := FreeSlots(page, localTime, d, h - 1);
      var c := Candidate(localTime, d, h - 1, page.defaultDurationMinutes);
      if !IsBusy(Some(page), c.start, c.end) {
        forall i | 0 <= i < |init| ensures init[i].start < c.start {
          FreeSlotsMembers(page, localTime, d, h - 1, init[i]);
          var k :| FirstHour <= k < h - 1 &&
            init[i] == Candidate(localTime, d, k, page.defaultDurationMinutes) &&
            !IsBusy(Some(page), init[i].start, init[i].end);
          assert localTime(d, k) < localTime(d, h - 1);
        }
        assert FreeSlots(page, localTime, d, h) == init + [c];
      }
    }
  }

  /** The request body posted for an appointment. */
  datatype AppointmentRequest = AppointmentRequest(
    requesterName: string,
    requesterEmail: string,
    reason: string,
    notes: string,
    start: int,
    end: int)

  /** How a request to the server ended; a failure may carry the server's
      error message (`err.response.data.error`). */
  datatype PostOutcome = PostSucceeded | PostFailed(serverError: Option<string>)

  /** A text input of the request form. */
  datatype FormField = NameField | EmailField | ReasonField | NotesField

  const LoadErrorText: string := "This scheduling link is not available. It may have expired."
  const SubmitErrorText: string := "We could not send your request. Please try again later."

  /** The confirmation shown after a request is sent. */
  function SuccessText(ownerName: string, requesterEmail: string): string {
    "Your appointment request has been sent to " + ownerName +
    ". They will respond to your email address (" + requesterEmail + ")."
  }

  /** The page component's state. */
  class SchedulingForm {
    var slug: Option<string>
    var page: Option<PageData>
    var error: Option<string>
    var isLoading: bool
    var selectedSlot: Option<Slot>
    var requesterName: string
    var requesterEmail: string
    var reason: string
    var notes: string
    var isSubmitting: bool
    var successMessage: Option<string>

    /** The initial state: loading, nothing selected, an empty form. */
    constructor (slug: Option<string>)
      ensures this.slug == slug && page.None? && error.None? && isLoading
      ensures selectedSlot.None? && requesterName == "" && requesterEmail == "" && reason == "" && notes == ""
      ensures !isSubmitting && successMessage.None?
    {
      this.slug := slug;
      page := None;
      error := None;
      isLoading := true;
      selectedSlot := None;
      requesterName, requesterEmail, reason, notes := "", "", "", "";
      isSubmitting := false;
      successMessage := None;
    }

    /** The end of the page fetch: the page on success, otherwise the
        server's message or the default text; loading ends either way. */
    method PageLoaded(data: Option<PageData>, serverError: Option<string>)
      modifies this`page, this`error, this`isLoading
      ensures !isLoading
      ensures data.Some? ==> page == data && error == old(error)
      ensures data.None? ==> page == old(page) && error == Some(serverError.GetOr(LoadErrorText))
    {
      if data.Some? {
        page := data;
      } else {
        error := Some(serverError.GetOr(LoadErrorText));
      }
      isLoading := false;
    }

    /** Clicking a free slot selects it. */
    method SelectSlot(slot: Slot)
      modifies this`selectedSlot
      ensures selectedSlot == Some(slot)
    {
      selectedSlot := Some(slot);
    }

    /** Typing into one of the form's inputs. */
    method Edit(field: FormField, value: string)
      modifies this`requesterName, this`requesterEmail, this`reason, this`notes
      ensures requesterName == if field.NameField? then value else old(requesterName)
      ensures requesterEmail == if field.EmailField? then value else old(requesterEmail)
      ensures reason == if field.ReasonField? then value else old(reason)
      ensures notes == if field.NotesField? then value else old(notes)
    {
      match field
      case NameField => requesterName := value;
      case EmailField => requesterEmail := value;
      case ReasonField => reason := value;
      case NotesField => notes := value;
    }

    /** Whether the submit guard lets a request through. */
    predicate CanSubmit()
      reads this
    {
      page.Some? && slug.Some? && slug.value != "" && selectedSlot.Some?
    }

    /** handleSubmit: without a page, a slug or a selected slot nothing
        happens; otherwise the form is posted, a success clears the four
        inputs and the selection, a failure keeps them and records the
        error, and submitting ends either way. */
    method HandleSubmit(outcome: PostOutcome) returns (sent: Option<AppointmentRequest>)
      modifies this`isSubmitting, this`successMessage, this`error, this`requesterName,
        this`requesterEmail, this`reason, this`notes, this`selectedSlot
      ensures !old(CanSubmit()) ==> sent.None? && unchanged(this)
      ensures old(CanSubmit()) ==> sent == Some(AppointmentRequest(
        old(requesterName), old(requesterEmail), old(reason), old(notes),
        old(selectedSlot.value.start), old(selectedSlot.value.end)))
      ensures old(CanSubmit()) ==>
        !isSubmitting
      ensures old(CanSubmit()) && outcome.PostSucceeded? ==>
        && successMessage == Some(SuccessText(old(page.value.ownerName), old(requesterEmail)))
        && error.None?
        && requesterName == "" && requesterEmail == "" && reason == "" && notes == ""
        && selectedSlot.None?
      ensures old(CanSubmit()) && outcome.PostFailed? ==>
        && successMessage.None?
        && error == Some(outcome.serverError.GetOr(SubmitErrorText))
        && requesterName == old(requesterName) && requesterEmail == old(requesterEmail)
        && reason == old(reason) && notes == old(notes)
        && selectedSlot == old(selectedSlot)
    {
      if !CanSubmit() {
        return None;
      }
      var ownerName, email := page.value.ownerName, requesterEmail;
      sent := Some(AppointmentRequest(requesterName, requesterEmail, reason, notes,
        selectedSlot.value.start, selectedSlot.value.end));
      isSubmitting := true;
      successMessage := None;
      error := None;
      match outcome {
        case PostSucceeded =>
          successMessage := Some(SuccessText(ownerName, email));
          requesterName := "";
          requesterEmail := "";
          reason := "";
          notes := "";
          selectedSlot := None;
        case PostFailed(serverError) =>
          error := Some(serverError.GetOr(SubmitErrorText));
      }
      isSubmitting := false;
    }
  }
}
