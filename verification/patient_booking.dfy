/** The patient self-booking wizard (components/PatientBooking.tsx): step 1
    picks a professional, step 2 a date and a start time, and confirming
    inserts one appointment. The wizard offers every grid time and checks
    no availability before inserting. */
module PatientBooking {
  import opened Optional
  import opened Types
  import C = Constants

  /** The two wizard steps (1 and 2 in the source). */
  datatype Stage = ChooseProfessional | ChooseDateTime

  /** The wizard state; `success` is true while the confirmation screen shows. */
  datatype Wizard = Wizard(
    stage: Stage,
    professional: Option<string>,
    date: string,
    time: Option<string>,
    success: bool)

  /** The row inserted into `appointments`. */
  datatype NewAppointment = NewAppointment(
    patientId: string,
    professionalId: string,
    agendaTypeId: Option<string>,
    date: string,
    startTime: string,
    status: AppointmentStatus)

  /** The outcome of pressing Confirm: the row sent (if any) and the next state. */
  datatype Attempt = Attempt(insert: Option<NewAppointment>, wizard: Wizard)

  const Start: Wizard := Wizard(ChooseProfessional, None, "", None, false)

  /** `fetchProfessionals`: the profile rows of professionals become users
      whose role is forced to PROFESSIONAL; a failed query leaves the list empty. */
  function LoadProfessionals(rows: Option<seq<ProfileRow>>): (r: seq<User>)
    ensures rows.None? ==> r == []
    ensures rows.Some? ==> |r| == |rows.value|
    ensures rows.Some? ==> forall i :: 0 <= i < |r| ==>
      && r[i].role == Professional
      && r[i].id == rows.value[i].id
      && r[i].name == rows.value[i].name
      && r[i].email == rows.value[i].email
      && r[i].specialty == rows.value[i].specialty
      && r[i].avatarUrl == rows.value[i].avatarUrl
  {
    match rows
    case None => []
    case Some(ps) =>
      seq(|ps|, i requires 0 <= i < |ps| =>
        User(ps[i].id, ps[i].name, ps[i].email, Professional, ps[i].avatarUrl, ps[i].specialty))
  }

  /** Clicking a professional card (shown only on step 1). */
  function PickProfessional(w: Wizard, professionalId: string): (r: Wizard)
    requires w.stage == ChooseProfessional && !w.success
    ensures r.stage == ChooseDateTime && r.professional == Some(professionalId)
    ensures r.date == w.date && r.time == w.time && !r.success
  {
    w.(stage := ChooseDateTime, professional := Some(professionalId))
  }

  /** "Voltar": back to step 1, nothing cleared. */
  function Back(w: Wizard): (r: Wizard)
    requires w.stage == ChooseDateTime && !w.success
    ensures r.stage == ChooseProfessional
    ensures r.professional == w.professional && r.date == w.date && r.time == w.time
  {
    w.(stage := ChooseProfessional)
  }

  /** The date input of step 2. */
  function PickDate(w: Wizard, date: string): (r: Wizard)
    requires w.stage == ChooseDateTime && !w.success
    ensures r.date == date && r.professional == w.professional && r.time == w.time
  {
    w.(date := date)
  }

  /** The start times step 2 offers: the whole grid once a date is chosen,
      with no availability filtering. */
  function OfferedTimes(w: Wizard): (r: seq<string>)
    ensures w.date != "" ==> r == C.TimeSlots
    ensures w.date == "" ==> r == []
  {
    if w.date == "" then [] else C.TimeSlots
  }

  /** Clicking the time button at `index`. */
  function PickTime(w: Wizard, index: nat): (r: Wizard)
    requires w.stage == ChooseDateTime && !w.success
    requires index < |OfferedTimes(w)|
    ensures r.time == Some(C.TimeSlots[index])
    ensures r.professional == w.professional && r.date == w.date
  {
    w.(time := Some(OfferedTimes(w)[index]))
  }

  /** The guard of `handleBooking`: a signed-in user, and a non-empty
      professional, date and time. */
  predicate Ready(user: Option<User>, w: Wizard) {
    && user.Some?
    && w.professional.Some? && w.professional.value != ""
    && w.date != ""
    && w.time.Some? && w.time.value != ""
  }

  /** `handleBooking`, given whether the insert succeeds. */
  function Confirm(user: Option<User>, w: Wizard, insertSucceeds: bool): (r: Attempt)
    ensures !Ready(user, w) ==> r.insert.None? && r.wizard == w
    ensures Ready(user, w) ==> r.insert.Some?
    ensures r.insert.Some? ==>
      && r.insert.value.patientId == user.value.id
      && r.insert.value.professionalId == w.professional.value
      && r.insert.value.date == w.date
      && r.insert.value.startTime == w.time.value
      && r.insert.value.status == Scheduled
      && r.insert.value.agendaTypeId.None?
    ensures r.wizard.success <==> w.success || (Ready(user, w) && insertSucceeds)
    ensures r.wizard.(success := w.success) == w
  {
    if !Ready(user, w) then Attempt(None, w)
    else
      var row := NewAppointment(user.value.id, w.professional.value, None, w.date, w.time.value, Scheduled);
      Attempt(Some(row), if insertSucceeds then w.(success := true) else w)
  }

  /** "Novo Agendamento" on the confirmation screen. */
  function StartOver(w: Wizard): (r: Wizard)
    requires w.success
    ensures r.stage == ChooseProfessional && !r.success
    ensures r.professional.None? && r.date == "" && r.time.None?
  {
    Start
  }

  /** Choosing a professional, going back and choosing another keeps the
      date and time picked in between. */
  lemma BackKeepsChoices(w: Wizard, first: string, date: string, index: nat, second: string)
    requires w.stage == ChooseProfessional && !w.success
    requires date != "" && index < |C.TimeSlots|
    ensures var w1 := PickTime(PickDate(PickProfessional(w, first), date), index);
      var w2 := PickProfessional(Back(w1), second);
      w2.date == date && w2.time == Some(C.TimeSlots[index]) && w2.professional == Some(second)
  {
  }

  /** After starting over, Confirm does nothing until a professional, a date
      and a time have been chosen again. */
  lemma StartOverDisarmsConfirm(user: Option<User>, w: Wizard, insertSucceeds: bool)
    requires w.success
    ensures Confirm(user, StartOver(w), insertSucceeds) == Attempt(None, Start)
  {
  }

  /** A full pass through the wizard by a signed-in patient inserts exactly
      the chosen professional, date and grid time as a scheduled appointment. */
  lemma WizardBooksChoice(patient: User, professionalId: string, date: string, index: nat)
    requires professionalId != "" && date != "" && index < |C.TimeSlots|
    ensures var w := PickTime(PickDate(PickProfessional(Start, professionalId), date), index);
      Confirm(Some(patient), w, true).insert ==
        Some(NewAppointment(patient.id, professionalId, None, date, C.TimeSlots[index], Scheduled))
  {
    C.TimeSlotsAreHourLabels();
  }
}
