/** The page-creation wizard (frontend/src/pages/HomePage.tsx): step 1
    validates the calendar URL, step 2 collects the page details, step 3
    shows the created link. Each handler's server call is an input: the
    response it ends with. */
module HomePage {
  import opened Wrappers

  /** The server's reply to `POST /api/pages`. */
  datatype CreatePageResponse = CreatePageResponse(slug: string, expiresAt: int, eventCount: int)

  /** How the request ended; a failure may carry the server's error message. */
  datatype Response = Created(data: CreatePageResponse) | Rejected(serverError: Option<string>)

  /** The values of the form's inputs when it is submitted. */
  datatype FormFields = FormFields(
    calendarUrl: string,
    ownerName: string,
    ownerEmail: string,
    bio: string,
    duration: int,
    buffer: int,
    dateRange: int)

  /** The body posted to `/api/pages`; the validation request sends only
      the first three properties. */
  datatype PageRequest = PageRequest(
    calendarUrl: string,
    ownerName: string,
    ownerEmail: string,
    bio: Option<string>,
    defaultDurationMinutes: Option<int>,
    bufferMinutes: Option<int>,
    dateRangeDays: Option<int>)

  const ValidateErrorText: string := "We could not load your calendar. Please check the ICS URL."
  const CreateErrorText: string := "We could not create your scheduling page. Please try again."

  /** The wizard's state. */
  class Wizard {
    var step: int
    var isLoading: bool
    var error: Option<string>
    var previewEventCount: Option<int>
    var createdPage: Option<CreatePageResponse>

    /** The step is 1, 2 or 3; step 2 is reached only with an event count
        and step 3 only with a created page, which its view displays. */
    ghost predicate Valid()
      reads this
    {
      && 1 <= step <= 3
      && (step == 2 ==> previewEventCount.Some?)
      && (step == 3 ==> createdPage.Some?)
    }

    constructor ()
      ensures Valid()
      ensures step == 1 && !isLoading && error.None? && previewEventCount.None? && createdPage.None?
    {
      step := 1;
      isLoading := false;
      error := None;
      previewEventCount := None;
      createdPage := None;
    }

    /** The entry of either handler: the error is cleared and loading begins. */
    method BeginRequest()
      modifies this`error, this`isLoading
      ensures error.None? && isLoading
    {
      error := None;
      isLoading := true;
    }

    /** handleValidateCalendar: posts the URL with placeholder owner details;
        on success records the event count and moves to step 2, on failure
        keeps the step and shows the server's message or the default text;
        loading ends either way. */
    method HandleValidateCalendar(form: FormFields, outcome: Response) returns (request: PageRequest)
      requires Valid()
      modifies this`step, this`isLoading, this`error, this`previewEventCount
      ensures Valid()
      ensures request == PageRequest(form.calendarUrl, "Preview", "preview@example.com", None, None, None, None)
      ensures !isLoading
      ensures outcome.Created? ==>
        step == 2 && previewEventCount == Some(outcome.data.eventCount) && error.None?
      ensures outcome.Rejected? ==>
        && step == old(step)
        && previewEventCount == old(previewEventCount)
        && error == Some(outcome.serverError.GetOr(ValidateErrorText))
    {
      BeginRequest();
      request := PageRequest(form.calendarUrl, "Preview", "preview@example.com", None, None, None, None);
      match outcome {
        case Created(data) =>
          previewEventCount := Some(data.eventCount);
          step := 2;
        case Rejected(serverError) =>
          error := Some(serverError.GetOr(ValidateErrorText));
      }
      isLoading := false;
    }

    /** handleCreatePage: posts every field of the form; on success stores
        the created page and moves to step 3, on failure keeps the step and
        shows the server's message or the default text; loading ends
        either way. */
    method HandleCreatePage(form: FormFields, outcome: Response) returns (request: PageRequest)
      requires Valid()
      modifies this`step, this`isLoading, this`error, this`createdPage
      ensures Valid()
      ensures request == PageRequest(form.calendarUrl, form.ownerName, form.ownerEmail,
        Some(form.bio), Some(form.duration), Some(form.buffer), Some(form.dateRange))
      ensures !isLoading
      ensures outcome.Created? ==> step == 3 && createdPage == Some(outcome.data) && error.None?
      ensures outcome.Rejected? ==>
        && step == old(step)
        && createdPage == old(createdPage)
        && error == Some(outcome.serverError.GetOr(CreateErrorText))
    {
      BeginRequest();
      request := PageRequest(form.calendarUrl, form.ownerName, form.ownerEmail,
        Some(form.bio), Some(form.duration), Some(form.buffer), Some(form.dateRange));
      match outcome {
        case Created(data) =>
          createdPage := Some(data);
          step := 3;
        case Rejected(serverError) =>
          error := Some(serverError.GetOr(CreateErrorText));
      }
      isLoading := false;
    }

    /** The Back button of step 2. */
    method Back()
      requires Valid()
      modifies this`step
      ensures Valid() && step == 1
    {
      step := 1;
    }
  }

  /** The wizard as the page drives it: a validation that succeeds, then a
      creation that succeeds, ends on step 3 with the created page; Back
      from step 2 returns to step 1 and keeps the event count. */
  method Walkthrough(form: FormFields, preview: CreatePageResponse, created: CreatePageResponse)
    returns (w: Wizard)
    ensures w.Valid() && w.step == 3 && w.createdPage == Some(created)
    ensures w.previewEventCount == Some(preview.eventCount) && !w.isLoading && w.error.None?
  {
    w := new Wizard();
    var _ := w.HandleValidateCalendar(form, Created(preview));
    assert w.step == 2;
    w.Back();
    assert w.step == 1 && w.previewEventCount == Some(preview.eventCount);
    var _ := w.HandleValidateCalendar(form, Created(preview));
    var _ := w.HandleCreatePage(form, Rejected(None));
    assert w.step == 2 && w.error == Some(CreateErrorText);
    var _ := w.HandleCreatePage(form, Created(created));
  }
}
