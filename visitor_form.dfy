/**
 * The visitor-meeting scheduling form: its defaults, the two checks made before anything is sent
 * (a ten-digit contact number, a date that is not in the past) and the submit sequence
 * (`setLoading`, `schedule`, `onSave`, `onClose`, and the `finally`).
 */
module VisitorForm {
  import opened Wrappers
  import opened Text
  import opened Visitors

  /** What a submit makes happen outside the form's own state, in order. */
  datatype Effect =
    | AlertInvalidContact          // alert("Enter a valid 10-digit contact number")
    | ToastPastDate                // toast.error("... Date cannot be in the past.")
    | Schedule(payload: Meeting)   // visitorService.schedule(payload)
    | OnSave(saved: Meeting)       // the parent's onSave(saved)
    | OnClose                      // the parent's onClose()
    | AlertScheduleFailed          // alert("Failed to schedule meeting. ...")

  /** `/^\d{10}$/.test(contact)`: exactly ten characters, each an ASCII digit. */
  predicate IsValidContact(contact: string) {
    |contact| == 10 && forall i :: 0 <= i < |contact| ==> IsDigit(contact[i])
  }

  /** The form as it first appears. */
  function DefaultForm(): (m: Meeting)
    ensures m.id == None && m.visitorContact == "" && m.scheduledDate == "" && m.status == Some("SCHEDULED")
  {
    Meeting(None, "", "", "", "", "", Some(""), Some(""), Some("SCHEDULED"))
  }

  /** `{ ...form, status: "SCHEDULED" }`. */
  function Payload(form: Meeting): (p: Meeting)
    ensures p.status == Some("SCHEDULED")
    ensures p.(status := form.status) == form
  {
    form.(status := Some("SCHEDULED"))
  }

  /** Both checks pass, so the submit goes on to the request. */
  predicate PassesChecks(form: Meeting, today: string) {
    IsValidContact(form.visitorContact) && !Less(form.scheduledDate, today)
  }

  /**
   * The effects of one submit, given today's date and how the `schedule` request ends. An invalid
   * contact stops at the alert, before the date is looked at; a past date stops at the toast; otherwise
   * the request is sent, and `onSave` and `onClose` follow only when it resolves.
   */
  function SubmitEffects(form: Meeting, today: string, outcome: Fetch<Meeting>): (r: seq<Effect>)
    ensures !IsValidContact(form.visitorContact) ==> r == [AlertInvalidContact]
    ensures IsValidContact(form.visitorContact) && Less(form.scheduledDate, today) ==> r == [ToastPastDate]
    ensures (exists p :: Schedule(p) in r) <==> PassesChecks(form, today)
    ensures forall p :: Schedule(p) in r ==> p == Payload(form) && r[0] == Schedule(p)
    ensures (OnClose in r) <==> PassesChecks(form, today) && outcome.Got?
    ensures forall m :: OnSave(m) in r <==> PassesChecks(form, today) && outcome == Got(m)
  {
    if !IsValidContact(form.visitorContact) then [AlertInvalidContact]
    else if Less(form.scheduledDate, today) then [ToastPastDate]
    else match outcome
      case Got(saved) => [Schedule(Payload(form)), OnSave(saved), OnClose]
      case Threw => [Schedule(Payload(form)), AlertScheduleFailed]
  }

  /** "12345" is refused and "1234567890" accepted. */
  lemma ContactExamples()
    ensures !IsValidContact("12345")
    ensures IsValidContact("1234567890")
  {
  }

  /** The empty date is below every real date, so a form without a date is always refused. */
  lemma EmptyDateRefused(form: Meeting, today: string, outcome: Fetch<Meeting>)
    requires IsValidContact(form.visitorContact) && form.scheduledDate == "" && today != ""
    ensures SubmitEffects(form, today, outcome) == [ToastPastDate]
  {
    EmptyIsLeast(today);
  }

  /** A meeting dated today is not in the past. */
  lemma TodayIsAccepted(form: Meeting, today: string)
    requires IsValidContact(form.visitorContact) && form.scheduledDate == today
    ensures PassesChecks(form, today)
  {
    LessIrreflexive(today);
  }

  /** The form component, with its two pieces of state and the record of what it has done. */
  class MeetingFormState {
    var form: Meeting
    var loading: bool
    var effects: seq<Effect>

    constructor ()
      ensures form == DefaultForm() && !loading && effects == []
    {
      form := DefaultForm();
      loading := false;
      effects := [];
    }

    /** `handleSubmit`. `loading` is back to false on every path that set it. */
    method HandleSubmit(today: string, outcome: Fetch<Meeting>)
      modifies this
      ensures form == old(form)
      ensures effects == old(effects) + SubmitEffects(old(form), today, outcome)
      ensures loading == (old(loading) && !PassesChecks(old(form), today))
    {
      if !IsValidContact(form.visitorContact) {
        effects := effects + [AlertInvalidContact];
        return;
      }
      if Less(form.scheduledDate, today) {
        effects := effects + [ToastPastDate];
        return;
      }
      loading := true;
      var payload := form.(status := Some("SCHEDULED"));
      effects := effects + [Schedule(payload)];
      match outcome {
        case Got(saved) =>
          effects := effects + [OnSave(saved)];
          effects := effects + [OnClose];
        case Threw =>
          effects := effects + [AlertScheduleFailed];
      }
      loading := false;
    }
  }
}
