/**
 * The employee's leave-request form: the inclusive day count shown while
 * the form is filled in, the guards run on submit, the payload sent, and the
 * reset after a successful submit or a cancel. Dates are whole day numbers;
 * a date input that has not been filled in is `NoDate`.
 */
module LeaveRequestForm {

  /** The value of an `<input type="date">`: empty, or a calendar day. */
  datatype DateField = NoDate | OnDay(day: int)

  function Abs(x: int): nat { if x < 0 then -x else x }

  function Max(a: int, b: int): int { if a < b then b else a }

  /**
   * `calculateDaysRequested`: 0 while either date is empty, otherwise the
   * inclusive number of days between the two dates, in either order, and
   * at least 1.
   */
  function DaysRequested(start: DateField, end: DateField): (n: nat)
    ensures n == 0 <==> start.NoDate? || end.NoDate?
    ensures start.OnDay? && end.OnDay? && start.day <= end.day ==> n == end.day - start.day + 1
    ensures start.OnDay? && end.OnDay? && end.day < start.day ==> n == start.day - end.day + 1
  {
    if start.NoDate? || end.NoDate? then 0
    else Max(1, Abs(end.day - start.day) + 1)
  }

  /** A reversed range counts the same days as the forward one: it is not rejected. */
  lemma DaysRequestedSymmetric(start: DateField, end: DateField)
    ensures DaysRequested(start, end) == DaysRequested(end, start)
  {
  }

  /** The same start and end day count as one day. */
  lemma SingleDayIsOne(d: int)
    ensures DaysRequested(OnDay(d), OnDay(d)) == 1
  {
  }

  /** The text inputs of the form, by their `name` attribute. */
  datatype TextInput = LeaveTypeId | Reason | Attachment

  /** The date inputs of the form, by their `name` attribute. */
  datatype DateInput = StartDate | EndDate

  /** The body of the create-leave-request call. */
  datatype LeaveRequestPayload = LeaveRequestPayload(
    leaveTypeId: string, startDate: DateField, endDate: DateField,
    daysRequested: int, reason: string, attachment: string)

  datatype SubmitOutcome =
    | MissingRequiredFields
    | DaysNotPositive
    | Submit(payload: LeaveRequestPayload)

  /** The `formData` state of the form component. */
  class FormState {
    var leaveTypeId: string
    var startDate: DateField
    var endDate: DateField
    var daysRequested: int
    var reason: string
    var attachment: string

    /** All fields empty and the stored day count 0: the initial and reset state. */
    predicate IsEmpty()
      reads this
    {
      leaveTypeId == "" && startDate == NoDate && endDate == NoDate &&
      daysRequested == 0 && reason == "" && attachment == ""
    }

    constructor ()
      ensures IsEmpty()
    {
      leaveTypeId, startDate, endDate := "", NoDate, NoDate;
      daysRequested, reason, attachment := 0, "", "";
    }

    /** `handleChange` for a text input: only the named field changes. */
    method ChangeText(field: TextInput, value: string)
      modifies this
      ensures field == LeaveTypeId ==> leaveTypeId == value
      ensures field == Reason ==> reason == value
      ensures field == Attachment ==> attachment == value
      ensures field != LeaveTypeId ==> leaveTypeId == old(leaveTypeId)
      ensures field != Reason ==> reason == old(reason)
      ensures field != Attachment ==> attachment == old(attachment)
      ensures startDate == old(startDate) && endDate == old(endDate) && daysRequested == old(daysRequested)
    {
      match field
        case LeaveTypeId => leaveTypeId := value;
        case Reason => reason := value;
        case Attachment => attachment := value;
    }

    /** `handleChange` for a date input: only the named date changes. */
    method ChangeDate(field: DateInput, value: DateField)
      modifies this
      ensures field == StartDate ==> startDate == value && endDate == old(endDate)
      ensures field == EndDate ==> endDate == value && startDate == old(startDate)
      ensures leaveTypeId == old(leaveTypeId) && reason == old(reason) && attachment == old(attachment)
      ensures daysRequested == old(daysRequested)
    {
      match field
        case StartDate => startDate := value;
        case EndDate => endDate := value;
    }

    /**
     * `handleSubmit`: nothing is sent unless a leave type and both dates are
     * filled in; the payload carries the form's fields with the computed day
     * count in place of the stored one.
     */
    method HandleSubmit() returns (outcome: SubmitOutcome)
      ensures outcome.Submit? <==> leaveTypeId != "" && startDate.OnDay? && endDate.OnDay?
      ensures !outcome.Submit? ==> outcome == MissingRequiredFields
      ensures outcome.Submit? ==> outcome.payload == LeaveRequestPayload(
        leaveTypeId, startDate, endDate, DaysRequested(startDate, endDate), reason, attachment)
      ensures outcome.Submit? ==> outcome.payload.daysRequested >= 1
    {
      var days := DaysRequested(startDate, endDate);
      if leaveTypeId == "" || startDate.NoDate? || endDate.NoDate? {
        return MissingRequiredFields;
      }
      if days <= 0 {
        return DaysNotPositive;
      }
      outcome := Submit(LeaveRequestPayload(leaveTypeId, startDate, endDate, days, reason, attachment));
    }

    /** The reset shared by a successful submit and a cancel. */
    method Reset()
      modifies this
      ensures IsEmpty()
    {
      leaveTypeId, startDate, endDate := "", NoDate, NoDate;
      daysRequested, reason, attachment := 0, "", "";
    }

    /** The create call's `onSuccess`: the form is cleared. */
    method OnSubmitSucceeded()
      modifies this
      ensures IsEmpty()
    {
      Reset();
    }

    /** `handleCancel`: the form is cleared. */
    method HandleCancel()
      modifies this
      ensures IsEmpty()
    {
      Reset();
    }
  }

  /** After a reset a submit reports missing fields and sends nothing. */
  method SubmitAfterCancelSendsNothing(form: FormState) returns (outcome: SubmitOutcome)
    modifies form
    ensures outcome == MissingRequiredFields
  {
    form.HandleCancel();
    outcome := form.HandleSubmit();
  }
}
