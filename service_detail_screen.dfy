/** The rules of src/screens/ServiceDetailScreen.tsx: who may change a service's
    status, which status buttons are offered (the only place the lifecycle order of
    a service is enforced), which entry forms are offered, how the vital-sign and
    medical-report forms are validated and turned into payloads, and the three
    handlers that pass those payloads to the service store. */
module ServiceDetailScreen {
  import opened Types
  import opened Seqs
  import SC = ServiceContext
  import ServiceListScreen

  // ---- Permission ----

  /** `canUpdateStatus`: a coordinator always; a doctor or a nurse only on a service
      that names them as its doctor or its nurse respectively. */
  function CanUpdateStatus(user: Option<User>, s: Service): (r: bool)
    ensures user.None? ==> !r
    ensures user.Some? && user.value.role == Coordinator ==> r
    ensures user.Some? && user.value.role == Doctor ==> (r <==> s.doctorId == Some(user.value.id))
    ensures user.Some? && user.value.role == Nurse ==> (r <==> s.nurseId == Some(user.value.id))
  {
    match user
    case None => false
    case Some(u) =>
      u.role == Coordinator
      || (u.role == Doctor && s.doctorId == Some(u.id))
      || (u.role == Nurse && s.nurseId == Some(u.id))
  }

  /** Whoever may change a service's status also finds it in their service list
      (with no search and no filters). The converse fails: the list shows a doctor
      the services naming them as nurse, but such a doctor may not change them. */
  lemma UpdaterSeesService(user: Option<User>, s: Service)
    requires CanUpdateStatus(user, s)
    ensures ServiceListScreen.Listed(s, user, "", ServiceListScreen.All, ServiceListScreen.All)
  {
  }

  lemma ListedDoesNotGrantUpdate()
    ensures var u := User("2", "D", "d@x.org", Doctor, true);
      var s := Service("7", BasicTransport, Assigned, "P", "12345678", "A", 0, None, None,
        "1", None, Some("2"), "", None, None, 0, 0);
      ServiceListScreen.Listed(s, Some(u), "", ServiceListScreen.All, ServiceListScreen.All)
      && !CanUpdateStatus(Some(u), s)
  {
  }

  // ---- The status buttons and the lifecycle they enforce ----

  predicate IsTerminal(st: ServiceStatus) {
    st == Completed || st == Cancelled
  }

  /** The lifecycle of a service: requested, assigned, in progress, completed, and
      cancellation from any state that is not final. */
  predicate UiTransition(from: ServiceStatus, to: ServiceStatus) {
    || (from == Requested && to == Assigned)
    || (from == Assigned && to == InProgress)
    || (from == InProgress && to == Completed)
    || (!IsTerminal(from) && to == Cancelled)
  }

  /** The target of the forward button shown for a status, if any. */
  function ForwardButton(st: ServiceStatus): Option<ServiceStatus> {
    match st
    case Requested => Some(Assigned)
    case Assigned => Some(InProgress)
    case InProgress => Some(Completed)
    case _ => None
  }

  /** The targets of the status buttons, in screen order ("Mark as Assigned",
      "Start Service" or "Complete Service", then "Cancel Service"). Nothing is
      offered to a user who may not update the status, nor on a final status;
      otherwise exactly the lifecycle's successors of the current status. */
  function StatusActions(user: Option<User>, s: Service): (targets: seq<ServiceStatus>)
    ensures !CanUpdateStatus(user, s) || IsTerminal(s.status) ==> targets == []
    ensures CanUpdateStatus(user, s) && !IsTerminal(s.status) ==> |targets| == 2 && targets[1] == Cancelled
    ensures forall i :: 0 <= i < |targets| ==> UiTransition(s.status, targets[i])
    ensures forall t :: CanUpdateStatus(user, s) && UiTransition(s.status, t) ==> t in targets
  {
    if CanUpdateStatus(user, s) && !IsTerminal(s.status) then
      (if ForwardButton(s.status).Some? then [ForwardButton(s.status).value] else []) + [Cancelled]
    else []
  }

  /** Every non-final status has exactly one forward successor, and the final
      statuses have none: followed in order, the buttons walk the lifecycle. */
  lemma UiTransitionWalk(from: ServiceStatus, to: ServiceStatus)
    ensures UiTransition(from, to) ==> !IsTerminal(from)
    ensures UiTransition(from, to) && to != Cancelled ==> Some(to) == ForwardButton(from)
    ensures !UiTransition(Completed, to) && !UiTransition(Cancelled, to)
    ensures !UiTransition(from, Requested)
  {
  }

  /** A status change made through a button computed from the service as it now
      is keeps a service whose completion date is present exactly when it is
      completed in that state. */
  lemma ButtonStatusChangeKeepsLifecycle(user: Option<User>, s: Service, t: ServiceStatus, now: Date)
    requires SC.LifecycleConsistent(s) && s.createdAt <= now
    requires t in StatusActions(user, s)
    ensures SC.LifecycleConsistent(SC.Merge(s, SC.StatusPatch(t, now), now))
  {
    SC.StatusEffect(s, t, now);
    assert !IsTerminal(s.status);
  }

  /** The store itself has no such guard: updateServiceStatus moves a completed
      service back to assigned and keeps its completion date, leaving an assigned
      service that claims to be completed. */
  lemma StoreAcceptsAnyTransition(s: Service, now: Date)
    requires s.status == Completed && s.completedDate.Some?
    ensures SC.Merge(s, SC.StatusPatch(Assigned, now), now).status == Assigned
    ensures SC.Merge(s, SC.StatusPatch(Assigned, now), now).completedDate == s.completedDate
    ensures !SC.LifecycleConsistent(SC.Merge(s, SC.StatusPatch(Assigned, now), now))
  {
    SC.StatusEffect(s, Assigned, now);
  }

  /** The screen computes its buttons from the copy of the service taken when it
      opened, and does not refresh that copy. So a coordinator who completes an
      in-progress service still sees "Cancel Service", and pressing it leaves a
      cancelled service that carries a completion date. */
  lemma StaleButtonsBreakLifecycle(user: Option<User>, s: Service, n1: Date, n2: Date)
    requires SC.LifecycleConsistent(s) && s.status == InProgress && s.createdAt <= n1
    requires CanUpdateStatus(user, s)
    ensures StatusActions(user, s) == [Completed, Cancelled]
    ensures var s1 := SC.Merge(s, SC.StatusPatch(Completed, n1), n1);
      var s2 := SC.Merge(s1, SC.StatusPatch(Cancelled, n2), n2);
      && SC.LifecycleConsistent(s1)
      && s2.status == Cancelled && s2.completedDate == Some(n1)
      && !SC.LifecycleConsistent(s2)
  {
    var s1 := SC.Merge(s, SC.StatusPatch(Completed, n1), n1);
    SC.StatusEffect(s, Completed, n1);
    SC.StatusEffect(s1, Cancelled, n2);
  }

  // ---- The entry buttons ----

  /** "Add Vital Signs" is shown to doctors and nurses. */
  predicate ShowsAddVitalSigns(user: Option<User>) {
    user.Some? && (user.value.role == Doctor || user.value.role == Nurse)
  }

  /** "Medical Report" is shown to a doctor while the service has no report. */
  predicate ShowsMedicalReport(user: Option<User>, s: Service) {
    user.Some? && user.value.role == Doctor && s.medicalReport.None?
  }

  /** A coordinator is offered neither form, and once a report is added the report
      button is gone for everyone. */
  lemma EntryButtons(user: Option<User>, s: Service, m: MedicalReport, now: Date)
    ensures ShowsMedicalReport(user, s) ==> ShowsAddVitalSigns(user)
    ensures user.Some? && user.value.role == Coordinator ==> !ShowsAddVitalSigns(user) && !ShowsMedicalReport(user, s)
    ensures !ShowsMedicalReport(user, SC.Merge(s, SC.ReportPatch(m), now))
  {
    SC.ReportEffect(s, m, now);
  }

  /** On the copy taken when the screen opened, the report button stays after a
      report is added, although on the current service it is gone, and a second
      report replaces the first. */
  lemma StaleReportButton(user: Option<User>, s: Service, m1: MedicalReport, m2: MedicalReport, n1: Date, n2: Date)
    requires ShowsMedicalReport(user, s)
    ensures !ShowsMedicalReport(user, SC.Merge(s, SC.ReportPatch(m1), n1))
    ensures SC.Merge(s, SC.ReportPatch(m1), n1).medicalReport == Some(m1)
    ensures SC.Merge(SC.Merge(s, SC.ReportPatch(m1), n1), SC.ReportPatch(m2), n2).medicalReport == Some(m2)
  {
    SC.ReportEffect(s, m1, n1);
    SC.ReportEffect(SC.Merge(s, SC.ReportPatch(m1), n1), m2, n2);
  }

  // ---- The vital-signs form ----

  datatype VitalSignsForm = VitalSignsForm(
    bloodPressureSystolic: string,
    bloodPressureDiastolic: string,
    heartRate: string,
    temperature: string,
    oxygenSaturation: string,
    bloodSugar: string,
    notes: string)

  const EmptyVitalSignsForm := VitalSignsForm("", "", "", "", "", "", "")

  const NoVitalSign := "Please enter at least one vital sign"

  /** The text a form field shows for an optional payload value. */
  function Text(o: Option<string>): string {
    o.GetOr("")
  }

  /** The validation and payload of `handleAddVitalSigns`. The entry is rejected
      unless the heart rate or the temperature is filled in; blood pressure is
      recorded only when both of its fields are filled in; an empty field is
      recorded as absent and a filled-in one as entered; the recorder is the
      current user. */
  function BuildVitalSigns(form: VitalSignsForm, user: User): (r: Result<VitalSignsData>)
    ensures r.Err? <==> form.heartRate == "" && form.temperature == ""
    ensures r.Err? ==> r.message == NoVitalSign
    ensures r.Ok? ==> r.value.recordedBy == user.id
    ensures r.Ok? ==> (r.value.bloodPressure.Some?
                       <==> form.bloodPressureSystolic != "" && form.bloodPressureDiastolic != "")
    ensures r.Ok? && r.value.bloodPressure.Some? ==>
      r.value.bloodPressure.value == BloodPressure(form.bloodPressureSystolic, form.bloodPressureDiastolic)
    ensures r.Ok? ==> (Text(r.value.heartRate) == form.heartRate && Text(r.value.temperature) == form.temperature
                       && Text(r.value.oxygenSaturation) == form.oxygenSaturation
                       && Text(r.value.bloodSugar) == form.bloodSugar && Text(r.value.notes) == form.notes)
    ensures r.Ok? ==> (!(r.value.heartRate == Some("")) && !(r.value.temperature == Some(""))
                       && !(r.value.oxygenSaturation == Some("")) && !(r.value.bloodSugar == Some(""))
                       && !(r.value.notes == Some("")))
  {
    if form.heartRate == "" && form.temperature == "" then Err(NoVitalSign)
    else
      Ok(VitalSignsData(
        if form.bloodPressureSystolic != "" && form.bloodPressureDiastolic != ""
        then Some(BloodPressure(form.bloodPressureSystolic, form.bloodPressureDiastolic))
        else None,
        NonEmpty(form.heartRate), NonEmpty(form.temperature), NonEmpty(form.oxygenSaturation),
        NonEmpty(form.bloodSugar), NonEmpty(form.notes), user.id))
  }

  /** The form that a vital-signs payload displays as. */
  function VitalSignsFormOf(d: VitalSignsData): VitalSignsForm {
    var (sys, dia) := if d.bloodPressure.Some? then (d.bloodPressure.value.systolic, d.bloodPressure.value.diastolic) else ("", "");
    VitalSignsForm(sys, dia, Text(d.heartRate), Text(d.temperature), Text(d.oxygenSaturation),
      Text(d.bloodSugar), Text(d.notes))
  }

  /** An accepted form is recovered from its payload, except that a half-filled
      blood pressure is dropped. */
  lemma VitalSignsRoundTrip(form: VitalSignsForm, user: User)
    requires BuildVitalSigns(form, user).Ok?
    ensures (form.bloodPressureSystolic == "") == (form.bloodPressureDiastolic == "") ==>
      VitalSignsFormOf(BuildVitalSigns(form, user).value) == form
    ensures (form.bloodPressureSystolic == "") != (form.bloodPressureDiastolic == "") ==>
      VitalSignsFormOf(BuildVitalSigns(form, user).value)
        == form.(bloodPressureSystolic := "", bloodPressureDiastolic := "")
  {
  }

  /** Blood pressure, oxygen saturation, blood sugar and notes on their own are
      not accepted. */
  lemma SecondaryReadingsAloneRejected(sys: string, dia: string, o2: string, sugar: string, notes: string, user: User)
    ensures BuildVitalSigns(VitalSignsForm(sys, dia, "", "", o2, sugar, notes), user) == Err(NoVitalSign)
  {
  }

  // ---- The medical-report form ----

  datatype MedicalReportForm = MedicalReportForm(
    patientCondition: string,
    diagnosis: string,
    treatment: string,
    recommendations: string)

  const EmptyMedicalReportForm := MedicalReportForm("", "", "", "")

  const NoCondition := "Patient condition is required"

  /** The validation and payload of `handleAddMedicalReport`: the form spread plus
      the doctor's id. Rejected exactly when the patient condition is empty; the
      three other text fields are passed on as entered, empty or not, and no
      medication list is given. */
  function BuildMedicalReport(form: MedicalReportForm, user: User): (r: Result<MedicalReportData>)
    ensures r.Err? <==> form.patientCondition == ""
    ensures r.Err? ==> r.message == NoCondition
    ensures r.Ok? ==> r.value.doctorId == user.id && r.value.medications.None?
    ensures r.Ok? ==> r.value.diagnosis.Some? && r.value.treatment.Some? && r.value.recommendations.Some?
    ensures r.Ok? ==> MedicalReportFormOf(r.value) == form
  {
    if form.patientCondition == "" then Err(NoCondition)
    else Ok(MedicalReportData(form.patientCondition, Some(form.diagnosis), Some(form.treatment), None,
      Some(form.recommendations), user.id))
  }

  /** The form that a report payload displays as. */
  function MedicalReportFormOf(d: MedicalReportData): MedicalReportForm {
    MedicalReportForm(d.patientCondition, Text(d.diagnosis), Text(d.treatment), Text(d.recommendations))
  }

  // ---- The service shown ----

  datatype DetailView = LoadingView | ServiceView(service: Service)

  /** `services.find(s => s.id === serviceId)`, and the loading view when there is
      none. */
  function DetailViewOf(services: seq<Service>, serviceId: string): (v: DetailView)
    ensures v.LoadingView? <==> forall i :: 0 <= i < |services| ==> services[i].id != serviceId
    ensures v.ServiceView? ==> v.service.id == serviceId
    ensures v.ServiceView? ==> (exists k :: (0 <= k < |services| && services[k] == v.service
                                             && forall j :: 0 <= j < k ==> services[j].id != serviceId))
  {
    match Find(services, (s: Service) => s.id == serviceId)
    case Some(s) =>
      var k := FirstIndex(services, (s: Service) => s.id == serviceId);
      assert services[k] == s;
      ServiceView(s)
    case None => LoadingView
  }

  // ---- The handlers ----

  datatype Alert = Alert(title: string, message: string)

  /** The screen's state for one service: the copy of the service it renders, its
      modal flags and form fields, and the store it works on. */
  class DetailScreen {
    const store: SC.ServiceProvider
    const serviceId: string
    /** The service the screen renders: looked up once, when the screen opens,
        and never looked up again while it stays open. */
    var shown: DetailView
    var showVitalSignsModal: bool
    var showMedicalReportModal: bool
    var vitalSignsData: VitalSignsForm
    var medicalReportData: MedicalReportForm

    constructor (store: SC.ServiceProvider, serviceId: string)
      ensures this.store == store && this.serviceId == serviceId
      ensures !showVitalSignsModal && !showMedicalReportModal
      ensures vitalSignsData == EmptyVitalSignsForm && medicalReportData == EmptyMedicalReportForm
      ensures shown == DetailViewOf(store.services, serviceId)
    {
      this.store := store;
      this.serviceId := serviceId;
      shown := DetailViewOf(store.services, serviceId);
      showVitalSignsModal := false;
      showMedicalReportModal := false;
      vitalSignsData := EmptyVitalSignsForm;
      medicalReportData := EmptyMedicalReportForm;
    }

    /** The status buttons on screen: none on the loading view, otherwise those of
        the copy taken when the screen opened. */
    function StatusButtons(user: Option<User>): (targets: seq<ServiceStatus>)
      reads this
      ensures shown.LoadingView? ==> targets == []
      ensures shown.ServiceView? ==> targets == StatusActions(user, shown.service)
    {
      if shown.ServiceView? then StatusActions(user, shown.service) else []
    }

    /** `handleStatusChange`: applies the chosen status through the store. */
    method HandleStatusChange(newStatus: ServiceStatus, now: Date) returns (alert: Alert)
      modifies store
      ensures store.services == SC.UpdateById(old(store.services), serviceId, SC.StatusPatch(newStatus, now), now)
      ensures !store.isLoading && store.error.None?
      ensures alert == Alert("Success", "Service status updated successfully")
    {
      store.UpdateServiceStatus(serviceId, newStatus, now);
      alert := Alert("Success", "Service status updated successfully");
    }

    /** `handleAddVitalSigns`: a rejected form changes nothing and raises the
        rejection; an accepted one is added to the store, after which the modal
        closes and the form is cleared. */
    method HandleAddVitalSigns(user: User, vitalId: string, now: Date) returns (alert: Alert)
      modifies this, store
      ensures BuildVitalSigns(old(vitalSignsData), user).Err? ==>
        (alert == Alert("Error", NoVitalSign) && store.services == old(store.services)
         && store.isLoading == old(store.isLoading) && store.error == old(store.error)
         && vitalSignsData == old(vitalSignsData) && showVitalSignsModal == old(showVitalSignsModal))
      ensures BuildVitalSigns(old(vitalSignsData), user).Ok? ==>
        (var v := SC.NewVitalSigns(serviceId, BuildVitalSigns(old(vitalSignsData), user).value, vitalId, now);
         && store.services == SC.UpdateById(old(store.services), serviceId,
              SC.VitalSignsPatch(old(store.services), serviceId, v), now)
         && !store.isLoading && store.error.None?
         && !showVitalSignsModal && vitalSignsData == EmptyVitalSignsForm
         && alert == Alert("Success", "Vital signs added successfully"))
      ensures showMedicalReportModal == old(showMedicalReportModal) && medicalReportData == old(medicalReportData)
      ensures shown == old(shown)
    {
      var payload := BuildVitalSigns(vitalSignsData, user);
      if payload.Err? {
        return Alert("Error", payload.message);
      }
      store.AddVitalSigns(serviceId, payload.value, vitalId, now);
      showVitalSignsModal := false;
      vitalSignsData := EmptyVitalSignsForm;
      alert := Alert("Success", "Vital signs added successfully");
    }

    /** `handleAddMedicalReport`: the same shape for the report form. */
    method HandleAddMedicalReport(user: User, reportId: string, now: Date) returns (alert: Alert)
      modifies this, store
      ensures BuildMedicalReport(old(medicalReportData), user).Err? ==>
        (alert == Alert("Error", NoCondition) && store.services == old(store.services)
         && store.isLoading == old(store.isLoading) && store.error == old(store.error)
         && medicalReportData == old(medicalReportData) && showMedicalReportModal == old(showMedicalReportModal))
      ensures BuildMedicalReport(old(medicalReportData), user).Ok? ==>
        (var m := SC.NewReport(serviceId, BuildMedicalReport(old(medicalReportData), user).value, reportId, now);
         && store.services == SC.UpdateById(old(store.services), serviceId, SC.ReportPatch(m), now)
         && !store.isLoading && store.error.None?
         && !showMedicalReportModal && medicalReportData == EmptyMedicalReportForm
         && alert == Alert("Success", "Medical report added successfully"))
      ensures showVitalSignsModal == old(showVitalSignsModal) && vitalSignsData == old(vitalSignsData)
      ensures shown == old(shown)
    {
      var payload := BuildMedicalReport(medicalReportData, user);
      if payload.Err? {
        return Alert("Error", payload.message);
      }
      store.AddMedicalReport(serviceId, payload.value, reportId, now);
      showMedicalReportModal := false;
      medicalReportData := EmptyMedicalReportForm;
      alert := Alert("Success", "Medical report added successfully");
    }
  }
}
