/** The create/edit event dialog: its fill rules, its submit and its button. */
module EventFormModal {
  import opened Wrappers
  import opened Strings
  import opened Endpoints
  import opened Http

  const CreatedMessage := "Event created successfully"
  const UpdatedMessage := "Event updated successfully"
  const FallbackError := "Something went wrong. Please try again."
  const CloseDelayMs := 700
  const DateLength := 10

  datatype EventMode = Create | Edit

  /** The dialog's form. */
  datatype EventForm = EventForm(title: string, description: string, startDate: string, endDate: string,
                                 startTime: string, endTime: string)

  const EmptyForm := EventForm("", "", "", "", "", "")

  /** The `event` prop's fields; any of them may be missing or empty. */
  datatype EventRecord = EventRecord(id: string, title: Option<string>, description: Option<string>,
                                     startDate: Option<string>, endDate: Option<string>,
                                     startTime: Option<string>, endTime: Option<string>)

  /** `s.substring(0, 10)`: the first ten characters, or all of a shorter text. */
  function Take10(s: string): (r: string)
    ensures |r| == if |s| < DateLength then |s| else DateLength
    ensures r == s[..|r|]
  {
    if |s| < DateLength then s else s[..DateLength]
  }

  /** An ISO timestamp keeps its `yyyy-mm-dd` part. */
  lemma Take10KeepsDate(date: string, rest: string)
    requires |date| == DateLength
    ensures Take10(date + rest) == date
  {
    assert (date + rest)[..DateLength] == date;
  }

  /** `value?.substring(0, 10) || ''` */
  function DatePart(v: Option<string>): (r: string)
    ensures |r| <= DateLength
    ensures v.Some? ==> r == Take10(v.value)
    ensures v.None? ==> r == ""
  {
    if v.Some? then Take10(v.value) else ""
  }

  /** The form filled from an event: dates cut to ten characters, missing values `''`. */
  function FilledForm(e: EventRecord): (f: EventForm)
    ensures f.title == OrElse(e.title, "") && f.description == OrElse(e.description, "")
    ensures f.startDate == DatePart(e.startDate) && f.endDate == DatePart(e.endDate)
    ensures f.startTime == OrElse(e.startTime, "") && f.endTime == OrElse(e.endTime, "")
    ensures |f.startDate| <= DateLength && |f.endDate| <= DateLength
  {
    EventForm(OrElse(e.title, ""), OrElse(e.description, ""), DatePart(e.startDate), DatePart(e.endDate),
              OrElse(e.startTime, ""), OrElse(e.endTime, ""))
  }

  /** An event with nothing filled in gives the empty form, as create mode does. */
  lemma BlankEventFillsEmptyForm(id: string)
    ensures FilledForm(EventRecord(id, None, None, None, None, None, None)) == EmptyForm
  {
  }

  /** Filling is idempotent on dates: the filled dates are already ten characters or fewer. */
  lemma FillDatesStable(e: EventRecord)
    ensures Take10(FilledForm(e).startDate) == FilledForm(e).startDate
    ensures Take10(FilledForm(e).endDate) == FilledForm(e).endDate
  {
  }

  /** The form as a JSON body. */
  function FormBody(f: EventForm): Body
  {
    Json([("title", JStr(f.title)), ("description", JStr(f.description)),
          ("start_date", JStr(f.startDate)), ("end_date", JStr(f.endDate)),
          ("start_time", JStr(f.startTime)), ("end_time", JStr(f.endTime))])
  }

  /** The request for a submit; `ADD_EVENT` and `EDIT_EVENT` are keys src/api/endpoint.ts
      does not define. */
  function SubmitCall(mode: EventMode, id: string, f: EventForm): (c: Call)
    ensures c.verb == Post && c.config == AuthConfig && c.body == FormBody(f)
    ensures mode == Create ==> c.endpoint == Unlisted("ADD_EVENT", None)
    ensures mode == Edit ==> c.endpoint == Unlisted("EDIT_EVENT", Some(id))
  {
    Call(Post, if mode == Create then Unlisted("ADD_EVENT", None) else Unlisted("EDIT_EVENT", Some(id)),
         FormBody(f), AuthConfig)
  }

  function SuccessText(mode: EventMode): (t: string)
    ensures mode == Create ==> t == CreatedMessage
    ensures mode == Edit ==> t == UpdatedMessage
  {
    if mode == Create then CreatedMessage else UpdatedMessage
  }

  /** The submit button's text. */
  function ButtonLabel(mode: EventMode, loading: bool): (t: string)
    ensures mode == Create && !loading ==> t == "Create"
    ensures mode == Create && loading ==> t == "Creating..."
    ensures mode == Edit && !loading ==> t == "Update"
    ensures mode == Edit && loading ==> t == "Updating..."
  {
    match mode
    case Create => if loading then "Creating..." else "Create"
    case Edit => if loading then "Updating..." else "Update"
  }

  /** The label tells mode and loading apart: no two of the four states share it. */
  lemma ButtonLabelInjective(m1: EventMode, l1: bool, m2: EventMode, l2: bool)
    requires ButtonLabel(m1, l1) == ButtonLabel(m2, l2)
    ensures m1 == m2 && l1 == l2
  {
  }

  /** What the dialog asks of its parent after a save. */
  datatype Effect = NotifySuccess | ScheduleClose(delayMs: int)

  /** Which field an input edits. */
  datatype Field = Title | Description | StartDate | EndDate | StartTime | EndTime

  function WithField(f: EventForm, field: Field, v: string): (r: EventForm)
    ensures field == Title ==> r == f.(title := v)
    ensures field == Description ==> r == f.(description := v)
    ensures field == StartDate ==> r == f.(startDate := v)
    ensures field == EndDate ==> r == f.(endDate := v)
    ensures field == StartTime ==> r == f.(startTime := v)
    ensures field == EndTime ==> r == f.(endTime := v)
  {
    match field
    case Title => f.(title := v)
    case Description => f.(description := v)
    case StartDate => f.(startDate := v)
    case EndDate => f.(endDate := v)
    case StartTime => f.(startTime := v)
    case EndTime => f.(endTime := v)
  }

  class EventDialog {
    var form: EventForm
    var loading: bool
    var error: string
    var success: string

    constructor()
      ensures form == EmptyForm && !loading && error == "" && success == ""
    {
      form := EmptyForm;
      loading := false;
      error := "";
      success := "";
    }

    /** The effect on `[open, mode, event]`. */
    method Sync(open: bool, mode: EventMode, event: Option<EventRecord>)
      modifies this
      ensures !open ==> form == old(form) && error == old(error) && success == old(success)
      ensures open ==> error == "" && success == ""
      ensures open && mode == Edit && event.Some? ==> form == FilledForm(event.value)
      ensures open && (mode == Create || event.None?) ==> form == EmptyForm
      ensures loading == old(loading)
    {
      if !open {
        return;
      }
      error := "";
      success := "";
      if mode == Edit && event.Some? {
        form := FilledForm(event.value);
      } else {
        form := EmptyForm;
      }
    }

    method Change(field: Field, v: string)
      modifies this
      ensures form == WithField(old(form), field, v)
      ensures loading == old(loading) && error == old(error) && success == old(success)
    {
      form := WithField(form, field, v);
    }

    /** `handleSubmit` up to the request. Nothing happens while loading. Edit mode without
        an event fails on reading its id, before any request, with the fallback error. */
    method BeginSubmit(mode: EventMode, event: Option<EventRecord>) returns (call: Option<Call>)
      modifies this
      ensures form == old(form) && success == old(success)
      ensures old(loading) ==> call == None && loading && error == old(error)
      ensures !old(loading) && mode == Create ==> call == Some(SubmitCall(Create, "", form)) && loading && error == ""
      ensures !old(loading) && mode == Edit && event.Some? ==>
        call == Some(SubmitCall(Edit, event.value.id, form)) && loading && error == ""
      ensures !old(loading) && mode == Edit && event.None? ==> call == None && !loading && error == FallbackError
    {
      if loading {
        call := None;
        return;
      }
      loading := true;
      error := "";
      if mode == Create {
        call := Some(SubmitCall(Create, "", form));
      } else if event.Some? {
        call := Some(SubmitCall(Edit, event.value.id, form));
      } else {
        call := None;
        error := FallbackError;
        loading := false;
      }
    }

    /** `handleSubmit` after the request: a success sets the mode's text, notifies the
        parent and schedules the close; a failure shows the server message or the fallback. */
    method FinishSubmit(mode: EventMode, r: Response<MessageData>) returns (effects: seq<Effect>)
      modifies this
      ensures !loading && form == old(form)
      ensures r.Ok? ==> success == SuccessText(mode) && error == old(error)
      ensures r.Ok? ==> effects == [NotifySuccess, ScheduleClose(CloseDelayMs)]
      ensures r.Failed? ==> error == OrElse(r.error.message, FallbackError) && success == old(success) && effects == []
    {
      effects := [];
      match r {
        case Ok(_) =>
          success := SuccessText(mode);
          effects := [NotifySuccess, ScheduleClose(CloseDelayMs)];
        case Failed(e) =>
          error := OrElse(e.message, FallbackError);
      }
      loading := false;
    }
  }

  /** A second submit while the first is in flight sends nothing. */
  method DoubleSubmit(mode: EventMode, event: EventRecord) returns (first: Option<Call>, second: Option<Call>)
    ensures first.Some? && second.None?
  {
    var d := new EventDialog();
    first := d.BeginSubmit(mode, Some(event));
    second := d.BeginSubmit(mode, Some(event));
  }
}
