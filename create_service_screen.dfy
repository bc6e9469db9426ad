/** The form of src/screens/CreateServiceScreen.tsx: its defaults, the staff
    section shown for the medical service types, and `handleCreateService`, which
    validates the required fields, builds the payload and hands it to the store. */
module CreateServiceScreen {
  import opened Types
  import SC = ServiceContext

  /** `formData`: the selected type and the text of every input. */
  datatype ServiceForm = ServiceForm(
    serviceType: ServiceType,
    patientName: string,
    patientPhone: string,
    patientAddress: string,
    scheduledDate: string,
    notes: string,
    doctorId: string,
    nurseId: string)

  /** The form as the screen first shows it. */
  const InitialServiceForm := ServiceForm(BasicTransport, "", "", "", "", "", "", "")

  const MissingFields := "Please fill in all required fields"

  /** `requiresMedicalStaff`: the doctor and nurse selectors are shown for a
      medicalized transport and a home consultation, not for a basic transport. */
  function RequiresMedicalStaff(t: ServiceType): (r: bool)
    ensures r <==> t != BasicTransport
  {
    t == MedicalizedTransport || t == HomeConsultation
  }

  /** The form a payload displays as (dates shown through `showDate`). */
  function FormOf(d: ServiceData, showDate: Date -> string): ServiceForm {
    ServiceForm(d.serviceType, d.patientName, d.patientPhone, d.patientAddress,
      if d.scheduledDate.Some? then showDate(d.scheduledDate.value) else "",
      d.notes, d.doctorId.GetOr(""), d.nurseId.GetOr(""))
  }

  /** The validation and payload of `handleCreateService`. Nothing is built when the
      patient's name, phone or address is empty. Otherwise the type, patient fields
      and notes pass through, the coordinator is the current user, and an empty
      scheduled date, doctor or nurse becomes absent while a filled-in one is kept
      (the date through `parseDate`, the `new Date(text)` of the source). */
  function BuildServiceData(form: ServiceForm, user: User, parseDate: string -> Date): (r: Option<ServiceData>)
    ensures r.None? <==> form.patientName == "" || form.patientPhone == "" || form.patientAddress == ""
    ensures r.Some? ==> (r.value.serviceType == form.serviceType && r.value.patientName == form.patientName
                         && r.value.patientPhone == form.patientPhone
                         && r.value.patientAddress == form.patientAddress && r.value.notes == form.notes)
    ensures r.Some? ==> r.value.coordinatorId == user.id
    ensures r.Some? ==> (r.value.scheduledDate.None? <==> form.scheduledDate == "")
    ensures r.Some? && form.scheduledDate != "" ==> r.value.scheduledDate == Some(parseDate(form.scheduledDate))
    ensures r.Some? ==> (r.value.doctorId.GetOr("") == form.doctorId && r.value.doctorId != Some("")
                         && r.value.nurseId.GetOr("") == form.nurseId && r.value.nurseId != Some(""))
  {
    if form.patientName == "" || form.patientPhone == "" || form.patientAddress == "" then None
    else
      Some(ServiceData(form.serviceType, form.patientName, form.patientPhone, form.patientAddress,
        if form.scheduledDate != "" then Some(parseDate(form.scheduledDate)) else None,
        form.notes, NonEmpty(form.doctorId), NonEmpty(form.nurseId), user.id))
  }

  /** An accepted form is recovered from its payload, provided dates read back as
      they were written. */
  lemma BuildServiceDataRoundTrip(form: ServiceForm, user: User, parseDate: string -> Date, showDate: Date -> string)
    requires BuildServiceData(form, user, parseDate).Some?
    requires form.scheduledDate != "" ==> showDate(parseDate(form.scheduledDate)) == form.scheduledDate
    ensures FormOf(BuildServiceData(form, user, parseDate).value, showDate) == form
  {
  }

  /** The untouched form is never accepted. */
  lemma InitialFormRejected(user: User, parseDate: string -> Date)
    ensures BuildServiceData(InitialServiceForm, user, parseDate).None?
    ensures !RequiresMedicalStaff(InitialServiceForm.serviceType)
  {
  }

  /** What a press of "Create Service" leads to. */
  datatype Outcome = Rejected(alert: string) | Created(navigatedToServices: bool)

  /** The screen's form state and the store it creates services in. */
  class CreateScreen {
    const store: SC.ServiceProvider
    var formData: ServiceForm

    constructor (store: SC.ServiceProvider)
      ensures this.store == store && formData == InitialServiceForm
    {
      this.store := store;
      formData := InitialServiceForm;
    }

    /** Picking a type keeps the rest of the form. */
    method SelectType(t: ServiceType)
      modifies this
      ensures formData == old(formData).(serviceType := t)
    {
      formData := formData.(serviceType := t);
    }

    /** `handleCreateService`. A form missing a required field raises an alert and
        changes nothing. Otherwise one service is appended to the store; the screen
        then navigates to the service list unless the store was loading when the
        screen last rendered (`isLoading` is read from that render). The form is
        not cleared. */
    method HandleCreateService(user: User, parseDate: string -> Date, isLoadingAtRender: bool, id: string, now: Date)
      returns (outcome: Outcome)
      modifies store
      ensures BuildServiceData(formData, user, parseDate).None? ==>
        (outcome == Rejected(MissingFields) && store.services == old(store.services)
         && store.isLoading == old(store.isLoading) && store.error == old(store.error))
      ensures BuildServiceData(formData, user, parseDate).Some? ==>
        (store.services == old(store.services) + [SC.NewService(BuildServiceData(formData, user, parseDate).value, id, now)]
         && !store.isLoading && store.error.None? && outcome == Created(!isLoadingAtRender))
    {
      var data := BuildServiceData(formData, user, parseDate);
      if data.None? {
        return Rejected(MissingFields);
      }
      store.CreateService(data.value, id, now);
      outcome := Created(!isLoadingAtRender);
    }
  }
}
