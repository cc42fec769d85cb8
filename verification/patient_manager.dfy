/** The patient register (components/PatientManager.tsx): a modal form that
    is prefilled from a stored patient or starts from fixed defaults, the
    row it writes to the `patients` table, and the search by name or CPF. */
module PatientManager {
  import opened Optional
  import opened Types
  import opened Seqs
  import opened Text

  /** The form fields, all text inputs or selects. */
  datatype PatientForm = PatientForm(
    name: string,
    email: string,
    cpf: string,
    rg: string,
    cellphone: string,
    birthDate: string,
    address: string,
    maritalStatus: string,
    profession: string,
    religion: string,
    educationLevel: string)

  /** The columns written on insert or update. */
  datatype PatientPayload = PatientPayload(
    name: string,
    email: string,
    cpf: string,
    rg: string,
    phone: string,
    birthDate: Option<string>,
    address: string,
    maritalStatus: string,
    profession: string,
    religion: string,
    educationLevel: string)

  /** The screen state kept between events. */
  datatype Screen = Screen(
    patients: seq<Patient>,
    searchTerm: string,
    modalOpen: bool,
    editingId: Option<string>,
    form: PatientForm)

  const DefaultMaritalStatus: string := "Solteiro(a)"
  const DefaultEducationLevel: string := "Ensino Médio Completo"

  /** `initialFormState`: every field empty except the two selects. */
  const InitialForm: PatientForm :=
    PatientForm("", "", "", "", "", "", "", DefaultMaritalStatus, "", "", DefaultEducationLevel)

  /** The form prefilled from a stored patient: absent or empty fields become
      "", except that the two selects fall back to their defaults. */
  function Prefill(p: Patient): (f: PatientForm)
    ensures f.name == p.name
    ensures f.email == p.email.GetOr("") && f.cpf == p.cpf.GetOr("") && f.rg == p.rg.GetOr("")
    ensures f.cellphone == p.phone.GetOr("") && f.birthDate == p.birthDate.GetOr("")
    ensures f.address == p.address.GetOr("") && f.profession == p.profession.GetOr("")
    ensures f.religion == p.religion.GetOr("")
    ensures f.maritalStatus == if p.maritalStatus.Some? && p.maritalStatus.value != "" then p.maritalStatus.value else DefaultMaritalStatus
    ensures f.educationLevel == if p.educationLevel.Some? && p.educationLevel.value != "" then p.educationLevel.value else DefaultEducationLevel
  {
    PatientForm(
      p.name,
      OptOrElse(p.email, ""),
      OptOrElse(p.cpf, ""),
      OptOrElse(p.rg, ""),
      OptOrElse(p.phone, ""),
      OptOrElse(p.birthDate, ""),
      OptOrElse(p.address, ""),
      OptOrElse(p.maritalStatus, DefaultMaritalStatus),
      OptOrElse(p.profession, ""),
      OptOrElse(p.religion, ""),
      OptOrElse(p.educationLevel, DefaultEducationLevel))
  }

  /** `handleOpenModal`: edit a stored patient, or start a new one from the
      initial form. */
  function OpenModal(s: Screen, patient: Option<Patient>): (r: Screen)
    ensures r.modalOpen && r.patients == s.patients && r.searchTerm == s.searchTerm
    ensures patient.None? ==> r.editingId.None? && r.form == InitialForm
    ensures patient.Some? ==> r.editingId == Some(patient.value.id) && r.form == Prefill(patient.value)
  {
    match patient
    case Some(p) => s.(modalOpen := true, editingId := Some(p.id), form := Prefill(p))
    case None => s.(modalOpen := true, editingId := None, form := InitialForm)
  }

  /** The payload of `handleSubmit`: each field goes to the column of the
      same name, except that the cellphone input goes to `phone` and an
      empty birth date is sent as null. */
  function Payload(f: PatientForm): (p: PatientPayload)
    ensures p.name == f.name && p.email == f.email && p.cpf == f.cpf && p.rg == f.rg
    ensures p.phone == f.cellphone
    ensures p.birthDate.None? <==> f.birthDate == ""
    ensures p.birthDate.GetOr("") == f.birthDate
    ensures p.address == f.address && p.maritalStatus == f.maritalStatus
    ensures p.profession == f.profession && p.religion == f.religion
    ensures p.educationLevel == f.educationLevel
  {
    PatientPayload(
      f.name, f.email, f.cpf, f.rg, f.cellphone,
      if f.birthDate == "" then None else Some(f.birthDate),
      f.address, f.maritalStatus, f.profession, f.religion, f.educationLevel)
  }

  /** The write `handleSubmit` sends: an update of the edited row when an
      edit is under way (a truthy id), an insert otherwise. */
  function SubmitWrite(s: Screen): (w: Write<PatientPayload>)
    ensures w.payload == Payload(s.form)
    ensures w.Update? <==> s.editingId.Some? && s.editingId.value != ""
    ensures w.Update? ==> w.id == s.editingId.value
  {
    match s.editingId
    case Some(id) => if id != "" then Update(id, Payload(s.form)) else Insert(Payload(s.form))
    case None => Insert(Payload(s.form))
  }

  /** After the write, given whether it raised and the rows of the refetch
      that follows a write that did not raise (`None` when that query
      fails, which keeps the listed patients): the modal closes and the
      list is refreshed on success; on failure the modal stays open with
      the form and the list is kept. */
  function AfterSubmit(s: Screen, raised: bool, fetched: Option<seq<Patient>>): (r: Screen)
    ensures r.modalOpen <==> s.modalOpen && raised
    ensures r.form == s.form && r.editingId == s.editingId
    ensures !raised && fetched.Some? ==> r.patients == fetched.value
    ensures raised || fetched.None? ==> r.patients == s.patients
  {
    if raised then s
    else s.(modalOpen := false, patients := fetched.GetOr(s.patients))
  }

  /** `handleDelete`, given the answer to the confirmation dialog and
      whether the delete succeeds: the patients the refetch lists. The
      returned error is not checked, so a failed delete lists the patients
      as they were. */
  function Delete(patients: seq<Patient>, id: string, confirmed: bool, succeeded: bool): (r: seq<Patient>)
    ensures !(confirmed && succeeded) ==> r == patients
    ensures confirmed && succeeded ==> forall i :: 0 <= i < |r| ==> r[i].id != id && r[i] in patients
    ensures confirmed && succeeded ==> forall i :: 0 <= i < |patients| && patients[i].id != id ==> patients[i] in r
  {
    if confirmed && succeeded then Filter(patients, (p: Patient) => p.id != id) else patients
  }

  /** The stored columns of a patient, as a payload would carry them. */
  function StoredColumns(p: Patient): PatientPayload
    requires p.email.Some? && p.cpf.Some? && p.rg.Some? && p.phone.Some?
    requires p.address.Some? && p.maritalStatus.Some? && p.profession.Some?
    requires p.religion.Some? && p.educationLevel.Some?
  {
    PatientPayload(
      p.name, p.email.value, p.cpf.value, p.rg.value, p.phone.value, p.birthDate,
      p.address.value, p.maritalStatus.value, p.profession.value, p.religion.value,
      p.educationLevel.value)
  }

  /** Saving an untouched prefilled form writes back exactly what is stored,
      provided every field is present and the birth date, marital status and
      education level are not empty (those three would otherwise be
      replaced by null or by the defaults). */
  lemma PrefillPayloadRoundTrip(p: Patient)
    requires p.email.Some? && p.cpf.Some? && p.rg.Some? && p.phone.Some?
    requires p.address.Some? && p.maritalStatus.Some? && p.profession.Some?
    requires p.religion.Some? && p.educationLevel.Some?
    requires p.birthDate.Some? && p.birthDate.value != ""
    requires p.maritalStatus.value != "" && p.educationLevel.value != ""
    ensures Payload(Prefill(p)) == StoredColumns(p)
  {
  }

  /** An empty stored marital status is not preserved: it is saved back as
      the default. */
  lemma EmptyMaritalStatusBecomesDefault(p: Patient)
    requires p.maritalStatus == Some("")
    ensures Payload(Prefill(p)).maritalStatus == DefaultMaritalStatus
  {
  }

  /** The search test: the lower-cased name includes the lower-cased term,
      or the CPF includes the term as typed; without a CPF only the name can match. */
  predicate Matches(p: Patient, term: string) {
    || Includes(Lower(p.name), Lower(term))
    || (p.cpf.Some? && Includes(p.cpf.value, term))
  }

  /** `filteredPatients`: the patients that match, in list order. */
  function FilteredPatients(patients: seq<Patient>, term: string): (r: seq<Patient>)
    ensures forall i :: 0 <= i < |r| ==> Matches(r[i], term) && r[i] in patients
    ensures forall i :: 0 <= i < |patients| && Matches(patients[i], term) ==> patients[i] in r
  {
    Filter(patients, (p: Patient) => Matches(p, term))
  }

  /** Searching two consecutive parts of the list searches each part and
      keeps them in order, so the result keeps the list order. */
  lemma SearchKeepsOrder(a: seq<Patient>, b: seq<Patient>, term: string)
    ensures FilteredPatients(a + b, term) == FilteredPatients(a, term) + FilteredPatients(b, term)
  {
    FilterAppend(a, b, (p: Patient) => Matches(p, term));
  }

  /** A matching entry is listed as many times as the list holds it, and
      a non-matching one not at all. */
  lemma SearchKeepsCopies(patients: seq<Patient>, term: string, x: Patient)
    ensures multiset(FilteredPatients(patients, term))[x] == if Matches(x, term) then multiset(patients)[x] else 0
  {
    if Matches(x, term) {
      FilterCounts(patients, (p: Patient) => Matches(p, term), x);
    } else {
      assert x !in FilteredPatients(patients, term);
    }
  }

  /** An empty search term lists every patient. */
  lemma EmptySearchListsAll(patients: seq<Patient>)
    ensures FilteredPatients(patients, "") == patients
  {
    forall i | 0 <= i < |patients|
      ensures Matches(patients[i], "")
    {
      IncludesEmpty(Lower(patients[i].name));
    }
    FilterKeepsAll(patients, (p: Patient) => Matches(p, ""));
  }

  /** Searching a patient's full CPF always lists that patient. */
  lemma SearchFindsOwnCpf(patients: seq<Patient>, i: nat)
    requires i < |patients| && patients[i].cpf.Some?
    ensures patients[i] in FilteredPatients(patients, patients[i].cpf.value)
  {
    var cpf := patients[i].cpf.value;
    assert StartsWith(cpf, cpf);
  }
}
